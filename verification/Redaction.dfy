/**
Redaction of credentials in commands before they are logged. The values of certain
environment variables are replaced, one after the other, by a mask.
 */
module Redaction {
  const MASK: string := "*****"

  const REDACTED_ENV_KEYS: seq<string> := [
    "VSPHERE_USERNAME", "VSPHERE_PASSWORD", "GOVC_USERNAME", "GOVC_PASSWORD", "CLOUDSTACK_B64ENCODED_SECRET",
    "EKSA_GITHUB_TOKEN", "GITHUB_TOKEN", "EKSA_AWS_ACCESS_KEY_ID", "EKSA_AWS_SECRET_ACCESS_KEY",
    "EKSA_AWS_SESSION_TOKEN",
    "AWS_ACCESS_KEY_ID", "AWS_SECRET_ACCESS_KEY", "AWS_B64ENCODED_CREDENTIALS", "AWS_B64ENCODED_CA_BUNDLES",
    "NUTANIX_USER", "NUTANIX_PASSWORD", "REGISTRY_USERNAME", "REGISTRY_PASSWORD"]

  // ------------------------------------------------------------------ replacing

  predicate StartsWith(s: string, v: string) {
    |v| <= |s| && s[..|v|] == v
  }

  predicate Contains(s: string, v: string) {
    exists i :: 0 <= i <= |s| && StartsWith(s[i..], v)
  }

  /** Replaces all occurrences of v, from left to right, by the mask. */
  function ReplaceAll(s: string, v: string): string
    requires v != ""
  {
    if s == "" then ""
    else if StartsWith(s, v) then MASK + ReplaceAll(s[|v|..], v)
    else [s[0]] + ReplaceAll(s[1..], v)
  }

  function RedactAll(s: string, values: seq<string>): string
    requires "" !in values
  {
    if values == [] then s
    else ReplaceAll(RedactAll(s, values[..|values| - 1]), values[|values| - 1])
  }

  /** The value of a variable: from the process, or else from the command; nothing if it is empty there. */
  function ValueOf(os: map<string, string>, env: map<string, string>, key: string): string {
    if key in os && os[key] != "" then os[key]
    else if key in env then env[key]
    else ""
  }

  // ------------------------------------------------------------------ the mask cannot be part of the value

  /** Neither end of the value is a mask character, and the mask does not occur in it. */
  predicate Resistant(v: string) {
    v != "" && v[0] != '*' && v[|v| - 1] != '*' && !Contains(v, MASK)
  }

  lemma ContainsTail(s: string, v: string)
    requires s != "" && Contains(s[1..], v)
    ensures Contains(s, v)
  {
    var i :| 0 <= i <= |s| - 1 && StartsWith(s[1..][i..], v);
    assert s[1..][i..] == s[i + 1..];
  }

  lemma PrefixOfMasked(rest: string, w: string)
    requires StartsWith(MASK + rest, w) && w != ""
    ensures w[|w| - 1] == '*' || Contains(w, MASK)
  {
    if |w| > 5 {
      assert w[0..][..5] == (MASK + rest)[..5] == MASK;
      assert StartsWith(w[0..], MASK);
    }
  }

  /** A beginning of the result that does not cut or contain a mask was a beginning before. */
  lemma {:induction false} PrefixWasThere(s: string, u: string, w: string)
    requires u != "" && StartsWith(ReplaceAll(s, u), w) && (w != "" ==> w[|w| - 1] != '*') && !Contains(w, MASK)
    ensures StartsWith(s, w)
  {
    if s != "" && w != "" {
      var r := ReplaceAll(s, u);
      if StartsWith(s, u) {
        PrefixOfMasked(ReplaceAll(s[|u|..], u), w);
      } else {
        var rest := ReplaceAll(s[1..], u);
        assert r[1..] == rest && w[1..] == rest[..|w| - 1];
        if Contains(w[1..], MASK) {
          ContainsTail(w, MASK);
        }
        PrefixWasThere(s[1..], u, w[1..]);
        assert s[..|w|] == [s[0]] + s[1..][..|w| - 1];
        assert w == [w[0]] + w[1..];
      }
    }
  }

  /** What one step of a replacement leaves: the mask or the first character, and then the rest. */
  lemma ReplaceStep(s: string, u: string) returns (n: nat, m: nat)
    requires u != "" && s != ""
    ensures 0 < n <= |s| && n == (if StartsWith(s, u) then |u| else 1) && m == (if StartsWith(s, u) then 5 else 1)
    ensures |ReplaceAll(s, u)| >= m && ReplaceAll(s, u)[m..] == ReplaceAll(s[n..], u)
    ensures StartsWith(s, u) ==> forall i :: 0 <= i < 5 ==> ReplaceAll(s, u)[i] == '*'
  {
    n, m := if StartsWith(s, u) then |u| else 1, if StartsWith(s, u) then 5 else 1;
    var rest := ReplaceAll(s[n..], u);
    if StartsWith(s, u) {
      assert (MASK + rest)[5..] == rest;
    } else {
      assert ([s[0]] + rest)[1..] == rest;
    }
  }

  /** A replacement does not create a resistant value. */
  lemma {:induction false} NotCreated(s: string, u: string, v: string)
    requires u != "" && Resistant(v) && Contains(ReplaceAll(s, u), v)
    ensures Contains(s, v)
  {
    var r := ReplaceAll(s, u);
    var i :| 0 <= i <= |r| && StartsWith(r[i..], v);
    if s != "" {
      var n, m := ReplaceStep(s, u);
      hide ReplaceAll;
      if i >= m {
        assert r[m..][i - m..] == r[i..];
        NotCreated(s[n..], u, v);
        ContainsLater(s, n, v);
      } else if !StartsWith(s, u) {
        assert r[0..] == r;
        PrefixWasThere(s, u, v);
        assert s[0..] == s;
      }
    }
  }

  lemma ContainsLater(s: string, n: nat, v: string)
    requires n <= |s| && Contains(s[n..], v)
    ensures Contains(s, v)
  {
    var i :| 0 <= i <= |s| - n && StartsWith(s[n..][i..], v);
    assert s[n..][i..] == s[n + i..];
  }

  /** Its own replacement leaves no occurrence of a resistant value. */
  lemma {:induction false} RemovedAt(s: string, v: string, i: nat)
    requires Resistant(v) && i <= |ReplaceAll(s, v)|
    ensures !StartsWith(ReplaceAll(s, v)[i..], v)
    decreases |s|
  {
    var r := ReplaceAll(s, v);
    if s != "" {
      var n, m := if StartsWith(s, v) then |v| else 1, if StartsWith(s, v) then 5 else 1;
      if i >= m {
        assert ReplaceAll(s[n..], v)[i - m..] == r[i..];
        RemovedAt(s[n..], v, i - m);
      } else if StartsWith(s, v) {
        assert r[i] == MASK[i];
      } else {
        assert r[0..] == r;
        if StartsWith(r, v) {
          PrefixWasThere(s, v, v);
        }
      }
    }
  }

  lemma Removed(s: string, v: string)
    requires Resistant(v)
    ensures !Contains(ReplaceAll(s, v), v)
  {
    forall i | 0 <= i <= |ReplaceAll(s, v)|
      ensures !StartsWith(ReplaceAll(s, v)[i..], v)
    {
      RemovedAt(s, v, i);
    }
  }

  /** However the values overlap, no resistant one is left in the result. */
  lemma {:induction false} RedactionIsComplete(s: string, values: seq<string>, k: nat)
    requires "" !in values && k < |values| && Resistant(values[k])
    ensures !Contains(RedactAll(s, values), values[k])
  {
    var last := |values| - 1;
    if k == last {
      Removed(RedactAll(s, values[..last]), values[last]);
    } else {
      RedactionIsComplete(s, values[..last], k);
      if Contains(RedactAll(s, values), values[k]) {
        NotCreated(RedactAll(s, values[..last]), values[last], values[k]);
      }
    }
  }

  /** In particular, no value without a mask character is left. */
  lemma UnmaskedIsResistant(v: string)
    requires v != "" && '*' !in v
    ensures Resistant(v)
  {
    forall i | 0 <= i <= |v|
      ensures !StartsWith(v[i..], MASK)
    {
      if i + 5 <= |v| {
        assert v[i..][..5][0] == v[i] && MASK[0] == '*';
      }
    }
  }

  // ------------------------------------------------------------------ values that can come back

  lemma {:induction false} NothingToReplace(s: string, v: string)
    requires v != "" && !Contains(s, v)
    ensures ReplaceAll(s, v) == s
  {
    if s != "" {
      assert s[0..] == s;
      if Contains(s[1..], v) {
        ContainsTail(s, v);
      }
      NothingToReplace(s[1..], v);
    }
  }

  /** The leftmost occurrence becomes the mask, what precedes it stays, and what follows is replaced in turn. */
  lemma {:induction false} ReplaceLeftmost(a: string, v: string, b: string)
    requires v != "" && forall i :: 0 <= i < |a| ==> !StartsWith((a + v + b)[i..], v)
    ensures ReplaceAll(a + v + b, v) == a + "*****" + ReplaceAll(b, v)
  {
    var s := a + v + b;
    if a == "" {
      assert s == v + b && s[|v|..] == b;
      assert a + "*****" + ReplaceAll(b, v) == "*****" + ReplaceAll(b, v);
    } else {
      var s' := a[1..] + v + b;
      assert s[0..] == s && s[1..] == s';
      forall i | 0 <= i < |a[1..]|
        ensures !StartsWith(s'[i..], v)
      {
        assert s'[i..] == s[i + 1..];
      }
      ReplaceLeftmost(a[1..], v, b);
      assert [a[0]] + (a[1..] + "*****" + ReplaceAll(b, v)) == a + "*****" + ReplaceAll(b, v);
    }
  }

  lemma NotContained(s: string, y: char)
    requires y !in s
    ensures !Contains(s, [y])
  {
    forall i | 0 <= i <= |s|
      ensures !StartsWith(s[i..], [y])
    {
      if i < |s| {
        assert s[i..][..1][0] == s[i];
      }
    }
  }

  lemma NotLongEnough(s: string, v: string, y: char)
    requires y in s && y !in v && |s| <= |v|
    ensures !Contains(s, v)
  {
    forall i | 0 <= i <= |s|
      ensures !StartsWith(s[i..], v)
    {
      if |v| <= |s| - i {
        assert s[i..][..|v|] == s;
      }
    }
  }

  lemma ReplaceFirst(y: char, b: string)
    requires y !in b
    ensures ReplaceAll([y] + b, [y]) == MASK + b
  {
    var s := [y] + b;
    assert s[..1] == [y] && s[1..] == b && StartsWith(s, [y]);
    NotContained(b, y);
    NothingToReplace(b, [y]);
  }

  lemma KeepFirst(x: char, y: char, s: string)
    requires x != y
    ensures ReplaceAll([x] + s, [y]) == [x] + ReplaceAll(s, [y])
  {
    assert ([x] + s)[1..] == s && ([x] + s)[..1][0] == x;
  }

  lemma {:induction false} ReplaceOne(a: string, y: char, b: string)
    requires y !in a && y !in b
    ensures ReplaceAll(a + [y] + b, [y]) == a + MASK + b
  {
    hide ReplaceAll;
    if a == "" {
      assert a + [y] + b == [y] + b && a + MASK + b == MASK + b;
      ReplaceFirst(y, b);
    } else {
      ReplaceOne(a[1..], y, b);
      KeepFirst(a[0], y, a[1..] + [y] + b);
      assert [a[0]] + (a[1..] + [y] + b) == a + [y] + b;
      assert [a[0]] + (a[1..] + MASK + b) == a + MASK + b;
    }
  }

  /** A value around a mask comes back when a later replacement puts the mask there. */
  lemma ComesBack(v: string, y: char, a: string, b: string)
    requires v != "" && y !in v && y !in a && y !in b && |a| + 1 + |b| <= |v| && Contains(a + MASK + b, v)
    ensures Contains(RedactAll(a + [y] + b, [v, [y]]), v)
  {
    var s := a + [y] + b;
    assert s[|a|] == y;
    NotLongEnough(s, v, y);
    NothingToReplace(s, v);
    ReplaceOne(a, y, b);
    assert [v, [y]][..1] == [v] && [v][..0] == [];
    assert RedactAll(s, [v]) == s;
  }

  /** Some command still contains the value after it and then a one-letter value were replaced. */
  ghost predicate CanComeBack(v: string, y: char)
    requires v != ""
  {
    exists s :: Contains(RedactAll(s, [v, [y]]), v)
  }

  /**
   * The exact condition: a value can be left in the result, for some command and some
   * other selected value, if and only if it is not resistant.
   */
  lemma ComesBackExactlyIfNotResistant(v: string, y: char)
    requires v != "" && y !in v
    ensures !Resistant(v) <==> CanComeBack(v, y)
  {
    if Resistant(v) {
      forall s
        ensures !Contains(RedactAll(s, [v, [y]]), v)
      {
        RedactionIsComplete(s, [v, [y]], 0);
      }
    } else {
      var a, b := Around(v);
      assert y !in a && y !in b;
      ComesBack(v, y, a, b);
      var s := a + [y] + b;
      assert Contains(RedactAll(s, [v, [y]]), v);
    }
  }

  /** The text around the place where a mask completes the value. */
  lemma Around(v: string) returns (a: string, b: string)
    requires v != "" && !Resistant(v)
    ensures |a| + 1 + |b| <= |v| && Contains(a + MASK + b, v)
    ensures (forall c <- a :: c in v) && (forall c <- b :: c in v)
  {
    if v[0] == '*' {
      a, b := "", v[1..];
      assert (a + MASK + b)[4..] == "*" + b == v;
      assert StartsWith((a + MASK + b)[4..], v);
    } else if v[|v| - 1] == '*' {
      a, b := v[..|v| - 1], "";
      assert (a + MASK + b)[0..][..|v|] == a + "*" == v;
      assert StartsWith((a + MASK + b)[0..], v);
    } else {
      var i :| 0 <= i <= |v| && StartsWith(v[i..], MASK);
      a, b := v[..i], v[i + 5..];
      assert v == v[..i] + v[i..][..5] + v[i + 5..];
      assert (a + MASK + b)[0..] == v;
      assert StartsWith((a + MASK + b)[0..], v);
    }
  }

  /** A command without any of the values is logged as it is. */
  lemma {:induction false} NothingElseIsHidden(s: string, values: seq<string>)
    requires "" !in values && forall v <- values :: !Contains(s, v)
    ensures RedactAll(s, values) == s
  {
    if values != [] {
      NothingElseIsHidden(s, values[..|values| - 1]);
      NothingToReplace(s, values[|values| - 1]);
    }
  }

  // ------------------------------------------------------------------ the loop

  /** Collects the values and replaces them one by one. */
  method RedactCreds(cmd: string, os: map<string, string>, env: map<string, string>) returns (r: string)
    ensures forall key <- REDACTED_ENV_KEYS ::
              && (key in os && Resistant(os[key]) ==> !Contains(r, os[key]))
              && ((key !in os || os[key] == "") && key in env && Resistant(env[key]) ==> !Contains(r, env[key]))
    ensures (forall key <- REDACTED_ENV_KEYS ::
               && (key in os && os[key] != "" ==> !Contains(cmd, os[key]))
               && ((key !in os || os[key] == "") && key in env && env[key] != "" ==> !Contains(cmd, env[key]))) ==>
              r == cmd
  {
    var values := SelectedValues(os, env);
    r := cmd;
    for i := 0 to |values|
      invariant r == RedactAll(cmd, values[..i])
    {
      assert values[..i + 1][..i] == values[..i];
      r := ReplaceAll(r, values[i]);
    }
    assert values[..|values|] == values;
    forall key | key in REDACTED_ENV_KEYS && Resistant(ValueOf(os, env, key))
      ensures !Contains(r, ValueOf(os, env, key))
    {
      assert ValueOf(os, env, key) in values;
      var k :| 0 <= k < |values| && values[k] == ValueOf(os, env, key);
      RedactionIsComplete(cmd, values, k);
    }
    if forall v <- values :: !Contains(cmd, v) {
      NothingElseIsHidden(cmd, values);
    }
  }

  method SelectedValues(os: map<string, string>, env: map<string, string>) returns (values: seq<string>)
    ensures "" !in values
    ensures forall v :: v in values <==> v != "" && exists key :: key in REDACTED_ENV_KEYS && ValueOf(os, env, key) == v
  {
    values := [];
    for i := 0 to |REDACTED_ENV_KEYS|
      invariant "" !in values
      invariant forall v :: v in values <==>
                v != "" && exists j :: 0 <= j < i && ValueOf(os, env, REDACTED_ENV_KEYS[j]) == v
    {
      var key := REDACTED_ENV_KEYS[i];
      if key in os && os[key] != "" {
        values := values + [os[key]];
      } else if key in env && env[key] != "" {
        values := values + [env[key]];
      }
    }
  }
}
