/**
Versioned names of immutable templates: `base-N`.

`IncrementName` matches a name against the expression (.*?)(-)(\d+)$, where the dot
stands for any character but a line break, and counts the number up. Numbers are
64-bit integers.
 */
module Names {
  import opened Wrappers

  const MAX_INT: int := 0x7fff_ffff_ffff_ffff

  /** Integer arithmetic wraps around. */
  function Wrap(n: int): int {
    if n > MAX_INT then n - 0x1_0000_0000_0000_0000 else n
  }

  // ------------------------------------------------------------------ decimal numbers

  const DIGITS: string := "0123456789"

  predicate IsDigit(c: char) {
    '0' <= c <= '9'
  }

  predicate AllDigits(s: string) {
    forall i :: 0 <= i < |s| ==> IsDigit(s[i])
  }

  function Decimal(n: nat): (s: string)
    ensures |s| > 0 && AllDigits(s)
  {
    if n < 10 then [DIGITS[n]] else Decimal(n / 10) + [DIGITS[n % 10]]
  }

  function DigitValue(c: char): nat
    requires IsDigit(c)
  {
    c as int - '0' as int
  }

  function Value(s: string): nat
    requires AllDigits(s)
  {
    if s == [] then 0 else 10 * Value(s[..|s| - 1]) + DigitValue(s[|s| - 1])
  }

  lemma {:induction false} ValueOfDecimal(n: nat)
    ensures Value(Decimal(n)) == n
  {
    if n >= 10 {
      ValueOfDecimal(n / 10);
      assert Decimal(n)[..|Decimal(n)| - 1] == Decimal(n / 10);
    }
  }

  /** Decimal numbers are the digit strings without a leading zero: each is the form of its value, and no other is. */
  lemma DecimalOfValue(s: string)
    requires s != "" && AllDigits(s)
    ensures Decimal(Value(s)) == s <==> |s| == 1 || s[0] != '0'
  {
    if |s| == 1 {
      OneDigit(s);
    } else if s[0] == '0' {
      NoLeadingZero(Value(s));
    } else {
      WithoutLeadingZero(s);
    }
  }

  lemma OneDigit(s: string)
    requires |s| == 1 && AllDigits(s)
    ensures Value(s) == DigitValue(s[0]) && Decimal(Value(s)) == s
  {
    assert s[..0] == "" && s == [s[0]] && Value("") == 0;
  }

  lemma {:induction false} WithoutLeadingZero(s: string)
    requires s != "" && AllDigits(s) && s[0] != '0'
    ensures Value(s) > 0 && Decimal(Value(s)) == s
  {
    hide Decimal, Value;
    if |s| == 1 {
      OneDigit(s);
    } else {
      var front, last := s[..|s| - 1], s[|s| - 1];
      assert s == front + [last];
      WithoutLeadingZero(front);
      ValueAppends(s);
      DecimalAppends(Value(front), DigitValue(last));
      DigitOf(last);
    }
  }

  lemma DigitOf(c: char)
    requires IsDigit(c)
    ensures DigitValue(c) < 10 && DIGITS[DigitValue(c)] == c
  {
  }

  lemma ValueAppends(s: string)
    requires s != "" && AllDigits(s)
    ensures Value(s) == 10 * Value(s[..|s| - 1]) + DigitValue(s[|s| - 1])
  {
  }

  lemma DecimalAppends(n: nat, d: nat)
    requires n > 0 && d < 10
    ensures Decimal(10 * n + d) == Decimal(n) + [DIGITS[d]]
  {
    assert (10 * n + d) / 10 == n && (10 * n + d) % 10 == d;
  }

  lemma {:induction false} NoLeadingZero(n: nat)
    ensures if n == 0 then Decimal(n) == "0" else Decimal(n)[0] != '0'
  {
    if n >= 10 {
      NoLeadingZero(n / 10);
    }
  }

  /** What formatting with %d gives. */
  function Format(n: int): string {
    if n < 0 then "-" + Decimal(-n) else Decimal(n)
  }

  // ------------------------------------------------------------------ names

  function ObjectName(base: string, version: int): string {
    base + "-" + Format(version)
  }

  function DefaultObjectName(base: string): string {
    ObjectName(base, 1)
  }

  /** The expression matches from position s with the dash at position p. */
  predicate MatchesAt(name: string, s: nat, p: nat) {
    && s <= p < |name|
    && '\n' !in name[s..p]
    && name[p] == '-'
    && p + 1 < |name|
    && AllDigits(name[p + 1..])
  }

  /** The lazy first group: the nearest dash from p on that completes a match from s. */
  function NearestDash(name: string, s: nat, p: nat): (r: Option<nat>)
    requires s <= p <= |name|
    ensures r.Some? ==> p <= r.value && MatchesAt(name, s, r.value)
    ensures forall q :: p <= q && MatchesAt(name, s, q) ==> r.Some? && r.value <= q
    decreases |name| - p
  {
    if p == |name| then None
    else if MatchesAt(name, s, p) then Some(p)
    else NearestDash(name, s, p + 1)
  }

  /** The leftmost match from s on: its start and its dash. */
  function LeftmostMatch(name: string, s: nat): (r: Option<(nat, nat)>)
    requires s <= |name|
    ensures r.Some? ==> s <= r.value.0 && MatchesAt(name, r.value.0, r.value.1)
    ensures forall t, q :: s <= t && MatchesAt(name, t, q) ==> r.Some? && r.value.0 <= t
    decreases |name| - s
  {
    var dash := NearestDash(name, s, s);
    if dash.Some? then Some((s, dash.value))
    else if s == |name| then None
    else LeftmostMatch(name, s + 1)
  }

  /** The next name, or nothing when the name does not match or its number is too large. */
  function IncrementName(name: string): Option<string> {
    var m := LeftmostMatch(name, 0);
    if m.None? then None
    else
      var (s, p) := m.value;
      var n := Value(name[p + 1..]);
      if n > MAX_INT then None else Some(ObjectName(name[s..p], Wrap(n + 1)))
  }

  // ------------------------------------------------------------------ theorems

  lemma DigitsBehind(name: string, p: nat)
    requires p < |name| && AllDigits(name[p + 1..])
    ensures forall i :: p < i < |name| ==> IsDigit(name[i])
  {
    forall i | p < i < |name|
      ensures IsDigit(name[i])
    {
      assert name[i] == name[p + 1..][i - p - 1];
    }
  }

  /** The dash before the final digits is the last dash, so there is only one. */
  lemma OnlyOneDash(name: string, s: nat, p: nat, t: nat, q: nat)
    requires MatchesAt(name, s, p) && MatchesAt(name, t, q)
    ensures p == q
  {
    DigitsBehind(name, p);
    DigitsBehind(name, q);
  }

  lemma NameMatches(base: string, n: nat, s: nat)
    requires s <= |base| && '\n' !in base[s..]
    ensures var name := ObjectName(base, n);
            && MatchesAt(name, s, |base|)
            && name[|base| + 1..] == Decimal(n)
            && name[..|base|] == base
  {
    var name := ObjectName(base, n);
    assert name[s..|base|] == base[s..];
    assert name[|base| + 1..] == Decimal(n);
  }

  /** A name with a line break in its base is matched behind the break only. */
  lemma MatchOfName(base: string, n: nat)
    ensures var m := LeftmostMatch(ObjectName(base, n), 0);
            && m.Some?
            && m.value.1 == |base|
            && m.value.0 <= |base|
            && '\n' !in base[m.value.0..]
            && ('\n' !in base ==> m.value.0 == 0)
  {
    var name := ObjectName(base, n);
    NameMatches(base, n, |base|);
    var (s, p) := LeftmostMatch(name, 0).value;
    OnlyOneDash(name, |base|, |base|, s, p);
    assert name[s..p] == base[s..];
    if '\n' !in base {
      NameMatches(base, n, 0);
    }
  }

  lemma IncrementOfName(base: string, n: nat)
    requires n <= MAX_INT
    ensures exists s: nat :: s <= |base| && '\n' !in base[s..] && ('\n' !in base ==> s == 0)
                             && IncrementName(ObjectName(base, n)) == Some(ObjectName(base[s..], Wrap(n + 1)))
  {
    hide Decimal, Value;
    var name := ObjectName(base, n);
    MatchOfName(base, n);
    var (s, p) := LeftmostMatch(name, 0).value;
    assert name[p + 1..] == Decimal(n);
    ValueOfDecimal(n);
    assert name[s..p] == base[s..];
  }

  /**
   * Of any name, the line after the last line break is counted up: the digits after its
   * last dash become the next number, and what precedes that dash stays.
   */
  lemma IncrementExactly(name: string, s: nat, p: nat)
    requires s <= p < |name| && name[p] == '-' && p + 1 < |name| && AllDigits(name[p + 1..])
    requires '\n' !in name[s..p] && (s > 0 ==> name[s - 1] == '\n')
    ensures var n := Value(name[p + 1..]);
            && (n < MAX_INT ==> IncrementName(name) == Some(name[s..p] + "-" + Decimal(n + 1)))
            && (n == MAX_INT ==> IncrementName(name) == Some(name[s..p] + "--" + Decimal(MAX_INT + 1)))
            && (n > MAX_INT ==> IncrementName(name) == None)
  {
    hide Decimal, Value, AllDigits;
    assert MatchesAt(name, s, p);
    var (t, q) := LeftmostMatch(name, 0).value;
    OnlyOneDash(name, s, p, t, q);
    assert name[s..p] + "-" + ("-" + Decimal(MAX_INT + 1)) == name[s..p] + "--" + Decimal(MAX_INT + 1);
  }

  lemma FormatHasNoBreak(n: int)
    ensures '\n' !in Format(n)
  {
  }

  /** Counting a name up works exactly for bases without line breaks and below the largest integer. */
  lemma NameRoundTrip(base: string, n: nat)
    requires n <= MAX_INT
    ensures IncrementName(ObjectName(base, n)) == Some(ObjectName(base, n + 1)) <==> '\n' !in base && n < MAX_INT
  {
    hide Decimal, IncrementName;
    IncrementOfName(base, n);
    var s: nat :| s <= |base| && '\n' !in base[s..] && ('\n' !in base ==> s == 0)
                  && IncrementName(ObjectName(base, n)) == Some(ObjectName(base[s..], Wrap(n + 1)));
    var got, wanted := ObjectName(base[s..], Wrap(n + 1)), ObjectName(base, n + 1);
    if '\n' in base {
      FormatHasNoBreak(Wrap(n + 1));
      assert '\n' !in got;
      var i :| 0 <= i < |base| && base[i] == '\n';
      assert wanted[i] == '\n';
    } else {
      assert base[s..] == base;
      if n == MAX_INT {
        assert |got| == |wanted| + 1;
      }
    }
  }

  /** A name determines its base and its version, as long as versions are not negative. */
  lemma ObjectNameInjective(base: string, n: nat, base': string, n': nat)
    requires ObjectName(base, n) == ObjectName(base', n')
    ensures base == base' && n == n'
  {
    var name := ObjectName(base, n);
    NameMatches(base, n, |base|);
    NameMatches(base', n', |base'|);
    OnlyOneDash(name, |base|, |base|, |base'|, |base'|);
    ValueOfDecimal(n);
    ValueOfDecimal(n');
  }

  /** With a negative version two different pairs share a name. */
  lemma NegativeVersionsCollide(base: string, n: int)
    requires n > 0
    ensures ObjectName(base + "-", n) == ObjectName(base, -n)
  {
    assert base + "-" + ("-" + Decimal(n)) == base + "-" + "-" + Decimal(n);
  }

  function Increments(name: string, k: nat): Option<string> {
    if k == 0 then Some(name)
    else
      var r := Increments(name, k - 1);
      if r.None? then None else IncrementName(r.value)
  }

  /** k increments of the default name give version 1 + k. */
  lemma {:induction false} IncrementsFromDefault(base: string, k: nat)
    requires '\n' !in base && 1 + k <= MAX_INT
    ensures Increments(DefaultObjectName(base), k) == Some(ObjectName(base, 1 + k))
  {
    hide IncrementName, ObjectName;
    if k > 0 {
      IncrementsFromDefault(base, k - 1);
      NameRoundTrip(base, k);
    }
  }

  /** The form that a name must have to be counted up. */
  predicate IsVersioned(name: string) {
    exists p :: 0 <= p < |name| && name[p] == '-' && p + 1 < |name| && AllDigits(name[p + 1..])
                && Value(name[p + 1..]) <= MAX_INT
  }

  lemma IncrementDefined(name: string)
    ensures IncrementName(name).Some? <==> IsVersioned(name)
  {
    var m := LeftmostMatch(name, 0);
    if p :| 0 <= p < |name| && name[p] == '-' && p + 1 < |name| && AllDigits(name[p + 1..]) {
      assert MatchesAt(name, p, p);
      OnlyOneDash(name, p, p, m.value.0, m.value.1);
      forall q | 0 <= q < |name| && name[q] == '-' && q + 1 < |name| && AllDigits(name[q + 1..])
        ensures q == p
      {
        assert MatchesAt(name, q, q);
        OnlyOneDash(name, p, p, q, q);
      }
    }
  }
}
