/**
 * The government schemes page: a fixed catalogue of schemes, the list of
 * their categories without repeats, and the schemes shown for the current
 * search text and category choice.
 */
module GovtSchemes {
  import opened Wrappers
  import Text

  /** A scheme as the page lists it; its icon is left out. */
  datatype Scheme = Scheme(
    id: string,
    title: string,
    category: string,
    description: string,
    deadline: string,
    eligibility: seq<string>,
    benefits: string)

  // Long texts below are written as sums of short pieces, cut between words:
  // the verifier handles short string literals far more cheaply than long ones.
  function Schemes(): seq<Scheme>
  {
    [ Scheme("1", "Pradhan Mantri Fasal Bima Yojana", "Insurance",
        FasalBimaDescription(), "June 30, 2023",
        FasalBimaEligibility(), FasalBimaBenefits()),
      Scheme("2", "Kisan Credit Card", "Credit",
        KisanCreditDescription(), "Ongoing",
        KisanCreditEligibility(), KisanCreditBenefits()),
      Scheme("3", "PM Kisan Samman Nidhi", "Financial Aid",
        KisanSammanDescription(), "Ongoing",
        KisanSammanEligibility(), KisanSammanBenefits()),
      Scheme("4", "Agricultural Infrastructure Fund", "Infrastructure",
        InfrastructureFundDescription(), "December 31, 2023",
        InfrastructureFundEligibility(), InfrastructureFundBenefits()),
      Scheme("5", "National Mission for Sustainable Agriculture", "Sustainability",
        SustainableAgricultureDescription(), "Ongoing",
        SustainableAgricultureEligibility(), SustainableAgricultureBenefits()) ]
  }

  function FasalBimaDescription(): string
  {
    "Crop insurance " +
    "scheme that aims to " +
    "provide financial " +
    "support to farmers " +
    "suffering crop loss " +
    "or damage due to " +
    "unforeseen events."
  }

  function FasalBimaEligibility(): seq<string>
  {
    [
      "All farmers growing " +
      "notified crops",
      "Both loanee and " +
      "non-loanee farmers",
      "Individual/Joint " +
      "landowners"
    ]
  }

  function FasalBimaBenefits(): string
  {
    "Insurance coverage " +
    "and financial " +
    "support to farmers " +
    "in case of crop " +
    "failure, " +
    "stabilizing income " +
    "and ensuring credit " +
    "flow to the " +
    "agriculture sector."
  }

  function KisanCreditDescription(): string
  {
    "Provides farmers " +
    "with affordable " +
    "credit for their " +
    "agricultural needs " +
    "and other " +
    "activities."
  }

  function KisanCreditEligibility(): seq<string>
  {
    [
      "All farmers",
      "Sharecroppers",
      "Tenant farmers",
      "Self-Help Groups of " +
      "farmers"
    ]
  }

  function KisanCreditBenefits(): string
  {
    "Access to " +
    "short-term loans " +
    "for cultivation, " +
    "post-harvest " +
    "expenses, working " +
    "capital for " +
    "maintenance of farm " +
    "assets, and more."
  }

  function KisanSammanDescription(): string
  {
    "Direct income " +
    "support to farmers " +
    "for procuring " +
    "various inputs to " +
    "ensure proper crop " +
    "health and " +
    "appropriate yields."
  }

  function KisanSammanEligibility(): seq<string>
  {
    [
      "Small and marginal " +
      "farmers with " +
      "cultivable land up " +
      "to 2 hectares"
    ]
  }

  function KisanSammanBenefits(): string
  {
    "\U{00E2}\U{201A}\U{00B9}" +
    "6,000 per year " +
    "transferred " +
    "directly to the " +
    "bank accounts of " +
    "farmer families in " +
    "three equal " +
    "installments."
  }

  function InfrastructureFundDescription(): string
  {
    "A financing " +
    "facility for " +
    "investment in " +
    "agricultural " +
    "infrastructure " +
    "projects at " +
    "farm-gate and " +
    "aggregation points."
  }

  function InfrastructureFundEligibility(): seq<string>
  {
    [
      "Farmers",
      "FPOs",
      "Agri-entrepreneurs",
      "Start-ups",
      "Central/State " +
      "agencies"
    ]
  }

  function InfrastructureFundBenefits(): string
  {
    "Interest subvention " +
    "and credit " +
    "guarantee support " +
    "for post-harvest " +
    "infrastructure and " +
    "community farming " +
    "assets."
  }

  function SustainableAgricultureDescription(): string
  {
    "Promotes " +
    "sustainable farming " +
    "practices to make " +
    "agriculture more " +
    "productive, " +
    "sustainable, and " +
    "climate resilient."
  }

  function SustainableAgricultureEligibility(): seq<string>
  {
    [
      "All farmers",
      "Particularly small " +
      "and marginal farmers"
    ]
  }

  function SustainableAgricultureBenefits(): string
  {
    "Support for soil " +
    "health management, " +
    "water conservation, " +
    "climate change " +
    "adaptation " +
    "strategies, and " +
    "agroforestry."
  }

  // ---------------------------------------------------------------------------
  // Categories

  /** The position of the first occurrence of `x` in `xs`. */
  function IndexOf(xs: seq<string>, x: string): (k: nat)
    requires x in xs
    ensures k < |xs| && xs[k] == x
    ensures forall j :: 0 <= j < k ==> xs[j] != x
    decreases |xs|
  {
    if xs[0] == x then 0 else 1 + IndexOf(xs[1..], x)
  }

  /** Appending keeps the first occurrence of anything already present. */
  lemma {:induction false} IndexOfAppend(xs: seq<string>, y: string, x: string)
    requires x in xs
    ensures IndexOf(xs + [y], x) == IndexOf(xs, x)
  {
    var k := IndexOf(xs, x);
    var k' := IndexOf(xs + [y], x);
    assert (xs + [y])[k] == x;
    assert k' <= k;
    assert xs[k'] == (xs + [y])[k'];
  }

  /** A value absent from `xs` first occurs at the end of `xs + [y]`. */
  lemma IndexOfNew(xs: seq<string>, y: string)
    requires y !in xs
    ensures IndexOf(xs + [y], y) == |xs|
  {
    assert (xs + [y])[|xs|] == y;
  }

  /**
   * `Array.from(new Set(xs))`: every value once, in the order of first
   * occurrence, since a `Set` remembers the order in which values were
   * first inserted.
   */
  function Distinct(xs: seq<string>): (r: seq<string>)
    ensures forall i, j :: 0 <= i < j < |r| ==> r[i] != r[j]
    ensures forall x :: x in r <==> x in xs
    decreases |xs|
  {
    if xs == [] then []
    else
      var front := Distinct(xs[..|xs| - 1]);
      var last := xs[|xs| - 1];
      assert xs == xs[..|xs| - 1] + [last];
      if last in front then front else front + [last]
  }

  /** The values of `r`, all present in `xs`, appear in the order of their first occurrences in `xs`. */
  ghost predicate FirstOccurrenceOrder(r: seq<string>, xs: seq<string>)
    requires forall x :: x in r ==> x in xs
  {
    forall i, j :: 0 <= i < j < |r| ==> IndexOf(xs, r[i]) < IndexOf(xs, r[j])
  }

  /** The values keep the order of their first occurrences. */
  lemma {:induction false} DistinctFirstOccurrenceOrder(xs: seq<string>)
    ensures FirstOccurrenceOrder(Distinct(xs), xs)
    decreases |xs|
  {
    if xs != [] {
      var init := xs[..|xs| - 1];
      var last := xs[|xs| - 1];
      var front := Distinct(init);
      var r := Distinct(xs);
      assert xs == init + [last];
      DistinctFirstOccurrenceOrder(init);
      assert FirstOccurrenceOrder(front, init);
      assert r == front || (last !in init && r == front + [last]);
      forall i, j | 0 <= i < j < |r| ensures IndexOf(xs, r[i]) < IndexOf(xs, r[j]) {
        assert r[i] == front[i] && r[i] in init;
        IndexOfAppend(init, last, r[i]);
        if j < |front| {
          assert r[j] == front[j] && r[j] in init;
          IndexOfAppend(init, last, r[j]);
          assert IndexOf(init, front[i]) < IndexOf(init, front[j]);
        } else {
          assert r[j] == last && last !in init;
          IndexOfNew(init, last);
        }
      }
    }
  }

  /** The category of each scheme, in catalogue order. */
  function CategoryOf(schemes: seq<Scheme>): (r: seq<string>)
    ensures |r| == |schemes|
    ensures forall i :: 0 <= i < |schemes| ==> r[i] == schemes[i].category
  {
    seq(|schemes|, i requires 0 <= i < |schemes| => schemes[i].category)
  }

  /** The options of the category drop-down. */
  function Categories(schemes: seq<Scheme>): seq<string>
  {
    Distinct(CategoryOf(schemes))
  }

  /**
   * Every scheme's category is offered exactly once, nothing else is
   * offered, and the options follow the catalogue's first occurrences.
   */
  lemma CategoriesSpec(schemes: seq<Scheme>)
    ensures var cs := Categories(schemes);
      && (forall i, j :: 0 <= i < j < |cs| ==> cs[i] != cs[j])
      && (forall s :: s in schemes ==> s.category in cs)
      && (forall c :: c in cs ==> exists s :: s in schemes && s.category == c)
      && FirstOccurrenceOrder(cs, CategoryOf(schemes))
  {
    var names := CategoryOf(schemes);
    var cs := Distinct(names);
    DistinctFirstOccurrenceOrder(names);
    forall s | s in schemes ensures s.category in cs {
      var i :| 0 <= i < |schemes| && schemes[i] == s;
      assert names[i] == s.category;
    }
    forall c | c in cs ensures exists s :: s in schemes && s.category == c {
      assert c in names;
      var i :| 0 <= i < |names| && names[i] == c;
      assert schemes[i] in schemes;
    }
  }

  // ---------------------------------------------------------------------------
  // Filtering

  /** The search text occurs, ignoring case, in the title or in the description. */
  predicate MatchesSearch(s: Scheme, term: string)
  {
    Text.Contains(Text.Lower(s.title), Text.Lower(term))
      || Text.Contains(Text.Lower(s.description), Text.Lower(term))
  }

  /** No category chosen (or the empty one, which counts as none) lets every scheme through. */
  predicate MatchesCategory(s: Scheme, category: Option<string>)
  {
    category.None? || category.value == "" || s.category == category.value
  }

  /** `filteredSchemes`: the schemes that match both the search and the category. */
  function Filter(schemes: seq<Scheme>, term: string, category: Option<string>): (r: seq<Scheme>)
    ensures |r| <= |schemes|
    ensures forall s :: s in r <==> s in schemes && MatchesSearch(s, term) && MatchesCategory(s, category)
    ensures SubsequenceOf(r, schemes)
    decreases |schemes|
  {
    if schemes == [] then []
    else
      var s := schemes[0];
      var rest := Filter(schemes[1..], term, category);
      if MatchesSearch(s, term) && MatchesCategory(s, category) then
        assert ([s] + rest)[1..] == rest;
        [s] + rest
      else
        rest
  }

  /** `a` can be obtained from `b` by deleting elements, so it keeps `b`'s order. */
  ghost predicate SubsequenceOf(a: seq<Scheme>, b: seq<Scheme>)
    decreases |b|
  {
    a == [] || (b != [] && ((a[0] == b[0] && SubsequenceOf(a[1..], b[1..])) || SubsequenceOf(a, b[1..])))
  }

  /** The empty text occurs in every text. */
  lemma EmptyOccursEverywhere(s: string)
    ensures Text.Contains(s, "")
  {
    assert Text.OccursAt(s, "", 0);
  }

  /** An empty search with no category chosen shows the whole catalogue. */
  lemma {:induction false} FilterNothing(schemes: seq<Scheme>)
    ensures Filter(schemes, "", None) == schemes
    decreases |schemes|
  {
    if schemes != [] {
      FilterNothing(schemes[1..]);
      assert Text.Lower("") == "";
      EmptyOccursEverywhere(Text.Lower(schemes[0].title));
      assert [schemes[0]] + schemes[1..] == schemes;
    }
  }

  /** With a category chosen, every scheme shown has exactly that category. */
  lemma FilterByCategory(schemes: seq<Scheme>, term: string, category: string)
    requires category != ""
    ensures forall s :: s in Filter(schemes, term, Some(category)) ==> s.category == category
  {
  }

  /** The search ignores the case of the search text. */
  lemma FilterIgnoresCase(schemes: seq<Scheme>, term: string, category: Option<string>)
    ensures Filter(schemes, Text.Lower(term), category) == Filter(schemes, term, category)
  {
    Text.LowerIdempotent(term);
  }

  // ---------------------------------------------------------------------------
  // The controls

  /** The drop-down's change handler: the empty option means no category. */
  function OnSelect(value: string): Option<string>
  {
    if value == "" then None else Some(value)
  }

  /** The drop-down's displayed value: `filteredCategory || ""`. */
  function SelectedValue(category: Option<string>): string
  {
    if category.None? then "" else category.value
  }

  /** Choosing an option and reading the drop-down back gives that option, and vice versa. */
  lemma SelectRoundTrip(value: string, category: Option<string>)
    ensures SelectedValue(OnSelect(value)) == value
    ensures category != Some("") ==> OnSelect(SelectedValue(category)) == category
  {
  }

  /** The page's state: the catalogue it renders, the search text and the chosen category. */
  class Browser {
    const schemes: seq<Scheme>
    var searchTerm: string
    var filteredCategory: Option<string>

    constructor ()
      ensures schemes == Schemes()
      ensures searchTerm == "" && filteredCategory == None
    {
      schemes := Schemes();
      searchTerm := "";
      filteredCategory := None;
    }

    /** The options of the category drop-down. */
    function Options(): seq<string>
    {
      Categories(schemes)
    }

    /** The schemes on screen for the current state. */
    function Visible(): seq<Scheme>
      reads this
    {
      Filter(schemes, searchTerm, filteredCategory)
    }

    /** The search box's change handler. */
    method SetSearch(value: string)
      modifies this`searchTerm
      ensures searchTerm == value
      ensures Visible() == Filter(schemes, value, filteredCategory)
    {
      searchTerm := value;
    }

    /** The "All Categories" button. */
    method ShowAllCategories()
      modifies this`filteredCategory
      ensures filteredCategory == None
      ensures Visible() == Filter(schemes, searchTerm, None)
    {
      filteredCategory := None;
    }

    /** The drop-down's change handler. */
    method SelectCategory(value: string)
      modifies this`filteredCategory
      ensures filteredCategory == OnSelect(value)
      ensures value == "" ==> filteredCategory == None
      ensures Visible() == Filter(schemes, searchTerm, OnSelect(value))
      ensures forall s :: s in Visible() ==> value == "" || s.category == value
    {
      filteredCategory := if value == "" then None else Some(value);
      if value != "" {
        FilterByCategory(schemes, searchTerm, value);
      }
    }
  }
}
