/**
 * The string operations the pages rely on: `toLowerCase`, `includes` and
 * `trim`, over ASCII text.
 */
module Text {

  /** Lower-cases one character; only the ASCII capitals change. */
  function LowerChar(c: char): char
  {
    if 'A' <= c <= 'Z' then (c as int + 32) as char else c
  }

  /** `toLowerCase`, character by character. */
  function Lower(s: string): (r: string)
    ensures |r| == |s|
    ensures forall i :: 0 <= i < |s| ==> r[i] == LowerChar(s[i])
  {
    seq(|s|, i requires 0 <= i < |s| => LowerChar(s[i]))
  }

  /** Lower-casing twice is lower-casing once, so a lower-cased text is its own key. */
  lemma LowerIdempotent(s: string)
    ensures Lower(Lower(s)) == Lower(s)
  {
  }

  /** `sub` occurs in `s` starting at index `i`. */
  ghost predicate OccursAt(s: string, sub: string, i: int)
  {
    0 <= i && i + |sub| <= |s| && s[i..i + |sub|] == sub
  }

  /** `includes`: whether `sub` occurs in `s`, trying each start from the left. */
  function Contains(s: string, sub: string): bool
    decreases |s|
  {
    if |sub| > |s| then false
    else if s[..|sub|] == sub then true
    else Contains(s[1..], sub)
  }

  /** `Contains` finds `sub` exactly when it occurs somewhere (the empty string occurs everywhere). */
  lemma {:induction false} ContainsSpec(s: string, sub: string)
    ensures Contains(s, sub) <==> exists i :: OccursAt(s, sub, i)
    decreases |s|
  {
    if |sub| > |s| {
    } else if s[..|sub|] == sub {
      assert OccursAt(s, sub, 0);
    } else {
      ContainsSpec(s[1..], sub);
      OccursInTail(s, sub);
    }
  }

  /** When `s` does not start with `sub`, every occurrence lies in `s[1..]`. */
  lemma OccursInTail(s: string, sub: string)
    requires |sub| <= |s| && s[..|sub|] != sub
    ensures (exists i :: OccursAt(s, sub, i)) <==> (exists j :: OccursAt(s[1..], sub, j))
  {
    if i :| OccursAt(s, sub, i) {
      assert i != 0;
      assert s[1..][i - 1..i - 1 + |sub|] == s[i..i + |sub|];
      assert OccursAt(s[1..], sub, i - 1);
    }
    if j :| OccursAt(s[1..], sub, j) {
      assert s[1..][j..j + |sub|] == s[j + 1..j + 1 + |sub|];
      assert OccursAt(s, sub, j + 1);
    }
  }

  /** A text lacking one of the characters of `sub` does not contain `sub`. */
  lemma MissingChar(s: string, sub: string, k: int)
    requires 0 <= k < |sub|
    requires forall i :: 0 <= i < |s| ==> s[i] != sub[k]
    ensures !Contains(s, sub)
  {
    ContainsSpec(s, sub);
  }

  /** The white space `trim` removes (its ASCII part). */
  predicate IsSpace(c: char)
  {
    c == ' ' || c == '\t' || c == '\n' || c == '\r' || c == '\U{000B}' || c == '\U{000C}'
  }

  /** Every character of `s` is white space. */
  ghost predicate AllSpace(s: string)
  {
    forall i :: 0 <= i < |s| ==> IsSpace(s[i])
  }

  /** How many characters of white space `s` starts with. */
  function LeadingSpace(s: string): (k: nat)
    ensures k <= |s|
    ensures forall i :: 0 <= i < k ==> IsSpace(s[i])
    ensures k < |s| ==> !IsSpace(s[k])
    decreases |s|
  {
    if s != [] && IsSpace(s[0]) then 1 + LeadingSpace(s[1..]) else 0
  }

  /** How many characters of white space `s` ends with. */
  function TrailingSpace(s: string): (k: nat)
    ensures k <= |s|
    ensures forall i :: |s| - k <= i < |s| ==> IsSpace(s[i])
    ensures k < |s| ==> !IsSpace(s[|s| - k - 1])
    decreases |s|
  {
    if s != [] && IsSpace(s[|s| - 1]) then 1 + TrailingSpace(s[..|s| - 1]) else 0
  }

  /** `trim`: drops the white space at both ends. */
  function Trim(s: string): string
  {
    var t := s[LeadingSpace(s)..];
    t[..|t| - TrailingSpace(t)]
  }

  /**
   * `trim` leaves the slice of `s` between the white space it starts with
   * and the white space it ends with: that slice neither starts nor ends
   * with white space, and it is empty exactly when `s` is all white space.
   */
  lemma TrimShape(s: string)
    ensures var r := Trim(s);
      && OccursAt(s, r, LeadingSpace(s))
      && AllSpace(s[..LeadingSpace(s)])
      && AllSpace(s[LeadingSpace(s) + |r|..])
      && (r != [] ==> !IsSpace(r[0]) && !IsSpace(r[|r| - 1]))
      && (r == [] <==> AllSpace(s))
  {
    TrimIsSlice(s);
    TrimCutsSpace(s);
    TrimEnds(s);
    TrimEmpty(s);
  }

  /** What `trim` keeps is the slice of `s` after the leading white space. */
  lemma TrimIsSlice(s: string)
    ensures OccursAt(s, Trim(s), LeadingSpace(s))
  {
    var k := LeadingSpace(s);
    var t := s[k..];
    assert t[..|t| - TrailingSpace(t)] == s[k..|s| - TrailingSpace(t)];
  }

  /** What `trim` cuts off at either end is white space. */
  lemma TrimCutsSpace(s: string)
    ensures AllSpace(s[..LeadingSpace(s)])
    ensures AllSpace(s[LeadingSpace(s) + |Trim(s)|..])
  {
    var k := LeadingSpace(s);
    var t := s[k..];
    var m := TrailingSpace(t);
    assert s[k + |Trim(s)|..] == t[|t| - m..];
  }

  /** What `trim` keeps neither starts nor ends with white space. */
  lemma TrimEnds(s: string)
    ensures var r := Trim(s);
      r != [] ==> !IsSpace(r[0]) && !IsSpace(r[|r| - 1])
  {
    var t := s[LeadingSpace(s)..];
    var m := TrailingSpace(t);
    assert m < |t| ==> t[..|t| - m][0] == t[0];
    assert m < |t| ==> t[..|t| - m][|t| - m - 1] == t[|t| - m - 1];
  }

  /** `trim` leaves nothing exactly when the text is all white space. */
  lemma TrimEmpty(s: string)
    ensures Trim(s) == [] <==> AllSpace(s)
  {
    var k := LeadingSpace(s);
    var t := s[k..];
    assert forall i :: k <= i < |s| ==> t[i - k] == s[i];
  }

  /** `!text.trim()`: the text is empty once trimmed. */
  predicate IsBlank(s: string)
  {
    Trim(s) == []
  }
}
