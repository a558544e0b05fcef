/**
 * The finance tracker: a list of income and expense transactions, the totals
 * derived from it, and the form that adds a transaction to the front of it.
 * Amounts are exact numbers; parsing the typed amount happens outside the
 * model, which receives its result (`None` when it is not a number).
 */
module Finance {
  import opened Wrappers

  datatype TxType = Income | Expense

  datatype Transaction = Transaction(
    id: string,
    txType: TxType,
    amount: real,
    date: string,
    source: string,
    category: Option<string>)

  /** The add-transaction form: the amount is the text typed so far. */
  datatype Form = Form(txType: TxType, amount: string, source: string, date: string)

  /** Why the form was refused. */
  datatype FormError = MissingFields | InvalidAmount

  function SeedTransactions(): seq<Transaction>
  {
    [ Transaction("1", Income, 2500.0, "2023-05-10", "Crop Sales", None),
      Transaction("2", Expense, 450.0, "2023-05-12", "Equipment Maintenance", Some("Operations")),
      Transaction("3", Expense, 200.0, "2023-05-15", "Seeds", Some("Supplies")),
      Transaction("4", Income, 1200.0, "2023-05-20", "Govt. Subsidy", None),
      Transaction("5", Expense, 300.0, "2023-05-22", "Fertilizer", Some("Supplies")),
      Transaction("6", Income, 900.0, "2023-05-25", "Milk Sales", None) ]
  }

  /** An empty form dated `today`, of type income. */
  function BlankForm(today: string): Form
  {
    Form(Income, "", "", today)
  }

  // ---------------------------------------------------------------------------
  // Totals

  /** The transactions of one type, in their order. */
  function OfType(txs: seq<Transaction>, ty: TxType): (r: seq<Transaction>)
    ensures forall t :: t in r <==> t in txs && t.txType == ty
    decreases |txs|
  {
    if txs == [] then []
    else (if txs[0].txType == ty then [txs[0]] else []) + OfType(txs[1..], ty)
  }

  /** The filter keeps every transaction of the type as many times as it occurs, and no other. */
  lemma {:induction false} OfTypeCounts(txs: seq<Transaction>, ty: TxType)
    ensures forall t :: multiset(OfType(txs, ty))[t] == if t.txType == ty then multiset(txs)[t] else 0
    decreases |txs|
  {
    if txs != [] {
      OfTypeCounts(txs[1..], ty);
      assert txs == [txs[0]] + txs[1..];
    }
  }

  /** The sum of the amounts, as `reduce((sum, t) => sum + t.amount, 0)` computes it. */
  function Sum(txs: seq<Transaction>): real
    decreases |txs|
  {
    if txs == [] then 0.0 else txs[0].amount + Sum(txs[1..])
  }

  function TotalIncome(txs: seq<Transaction>): real
  {
    Sum(OfType(txs, Income))
  }

  function TotalExpenses(txs: seq<Transaction>): real
  {
    Sum(OfType(txs, Expense))
  }

  function NetBalance(txs: seq<Transaction>): real
  {
    TotalIncome(txs) - TotalExpenses(txs)
  }

  /** A transaction's effect on the balance: income counts up, an expense down. */
  function Signed(t: Transaction): real
  {
    if t.txType == Income then t.amount else -t.amount
  }

  /** The balance computed in one pass, as a reference for `NetBalance`. */
  function SignedSum(txs: seq<Transaction>): real
    decreases |txs|
  {
    if txs == [] then 0.0 else Signed(txs[0]) + SignedSum(txs[1..])
  }

  /** A transaction at the front adds its amount to the total of its own type only. */
  lemma TotalsOfPrepend(t: Transaction, txs: seq<Transaction>)
    ensures TotalIncome([t] + txs) == TotalIncome(txs) + (if t.txType == Income then t.amount else 0.0)
    ensures TotalExpenses([t] + txs) == TotalExpenses(txs) + (if t.txType == Expense then t.amount else 0.0)
  {
    var all := [t] + txs;
    assert all[0] == t && all[1..] == txs;
    PrependOfType(t, txs, Income);
    PrependOfType(t, txs, Expense);
  }

  /** The transactions of a type, after one more at the front. */
  lemma PrependOfType(t: Transaction, txs: seq<Transaction>, ty: TxType)
    ensures Sum(OfType([t] + txs, ty)) == Sum(OfType(txs, ty)) + (if t.txType == ty then t.amount else 0.0)
  {
    var all := [t] + txs;
    assert all[0] == t && all[1..] == txs;
    var rest := OfType(txs, ty);
    if t.txType == ty {
      assert OfType(all, ty) == [t] + rest;
      assert ([t] + rest)[1..] == rest;
    } else {
      assert OfType(all, ty) == [] + rest == rest;
    }
  }

  /** The net balance is income minus expenses, transaction by transaction. */
  lemma {:induction false} NetBalanceIsSignedSum(txs: seq<Transaction>)
    ensures NetBalance(txs) == SignedSum(txs)
    decreases |txs|
  {
    if txs != [] {
      NetBalanceIsSignedSum(txs[1..]);
      TotalsOfPrepend(txs[0], txs[1..]);
      assert [txs[0]] + txs[1..] == txs;
    }
  }

  /** With no negative amounts, neither total is negative. */
  lemma {:induction false} TotalsNonNegative(txs: seq<Transaction>)
    requires forall t :: t in txs ==> t.amount >= 0.0
    ensures TotalIncome(txs) >= 0.0 && TotalExpenses(txs) >= 0.0
    decreases |txs|
  {
    if txs != [] {
      assert txs[0] in txs;
      assert forall t :: t in txs[1..] ==> t in txs;
      TotalsNonNegative(txs[1..]);
      TotalsOfPrepend(txs[0], txs[1..]);
      assert [txs[0]] + txs[1..] == txs;
    }
  }

  /** How the net balance is shown: an up or down arrow and the magnitude. */
  datatype BalanceDisplay = BalanceDisplay(nonNegative: bool, magnitude: real)

  /** The arrow follows `netBalance >= 0` and the figure is `Math.abs(netBalance)`. */
  function ShowBalance(net: real): (d: BalanceDisplay)
    ensures d.nonNegative <==> net >= 0.0
    ensures d.magnitude >= 0.0
    ensures (if d.nonNegative then d.magnitude else -d.magnitude) == net
  {
    BalanceDisplay(net >= 0.0, if net >= 0.0 then net else -net)
  }

  // ---------------------------------------------------------------------------
  // Adding a transaction

  /**
   * The checks `handleAddTransaction` makes, in order: the amount and the
   * source must be non-empty text (white space counts as text), then the
   * parsed amount must be a number above zero.
   */
  function Validate(form: Form, parsed: Option<real>): (r: Result<real, FormError>)
    ensures r == Err(MissingFields) <==> form.amount == [] || form.source == []
    ensures r.Ok? <==> form.amount != [] && form.source != [] && parsed.Some? && parsed.value > 0.0
    ensures r.Ok? ==> r.value == parsed.value
  {
    if form.amount == [] || form.source == [] then Err(MissingFields)
    else if parsed.None? || parsed.value <= 0.0 then Err(InvalidAmount)
    else Ok(parsed.value)
  }

  /** The record the form adds: its type, the parsed amount, its source and date, no category. */
  function Record(form: Form, amount: real, id: string): Transaction
  {
    Transaction(id, form.txType, amount, form.date, form.source, None)
  }

  /** A valid form raises the total of its own type by the amount, and leaves the other total. */
  lemma AddRaisesTotals(form: Form, parsed: Option<real>, id: string, txs: seq<Transaction>)
    requires Validate(form, parsed).Ok?
    ensures var after := [Record(form, parsed.value, id)] + txs;
      && TotalIncome(after) == TotalIncome(txs) + (if form.txType == Income then parsed.value else 0.0)
      && TotalExpenses(after) == TotalExpenses(txs) + (if form.txType == Expense then parsed.value else 0.0)
      && NetBalance(after) == NetBalance(txs) + (if form.txType == Income then parsed.value else -parsed.value)
  {
    TotalsOfPrepend(Record(form, parsed.value, id), txs);
  }

  /** The state of the finance page. */
  class Tracker {
    var transactions: seq<Transaction>
    var form: Form

    constructor (today: string)
      ensures transactions == SeedTransactions() && form == BlankForm(today)
    {
      transactions := SeedTransactions();
      form := BlankForm(today);
    }

    /** The type drop-down's change handler. */
    method SetType(ty: TxType)
      modifies this`form
      ensures form == old(form).(txType := ty)
    {
      form := form.(txType := ty);
    }

    /** The amount box's change handler: the text as typed, not yet parsed. */
    method SetAmount(text: string)
      modifies this`form
      ensures form == old(form).(amount := text)
    {
      form := form.(amount := text);
    }

    /** The source (or, for an expense, description) box's change handler. */
    method SetSource(text: string)
      modifies this`form
      ensures form == old(form).(source := text)
    {
      form := form.(source := text);
    }

    /** The date box's change handler. */
    method SetDate(text: string)
      modifies this`form
      ensures form == old(form).(date := text)
    {
      form := form.(date := text);
    }

    /**
     * `handleAddTransaction`: `parsed` is `parseFloat` of the amount typed,
     * `newId` and `today` the clock readings the page takes. A refused form
     * leaves everything as it was; an accepted one puts the new record first
     * and clears the form.
     */
    method AddTransaction(parsed: Option<real>, newId: string, today: string) returns (outcome: Result<real, FormError>)
      modifies this
      ensures outcome == Validate(old(form), parsed)
      ensures outcome.Err? ==> transactions == old(transactions) && form == old(form)
      ensures outcome.Ok? ==> transactions == [Record(old(form), outcome.value, newId)] + old(transactions)
      ensures outcome.Ok? ==> form == BlankForm(today)
    {
      if form.amount == [] || form.source == [] {
        return Err(MissingFields);
      }
      if parsed.None? || parsed.value <= 0.0 {
        return Err(InvalidAmount);
      }
      var amount := parsed.value;
      var tx := Transaction(newId, form.txType, amount, form.date, form.source, None);
      transactions := [tx] + transactions;
      form := BlankForm(today);
      outcome := Ok(amount);
    }
  }
}
