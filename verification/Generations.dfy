/**
The fast change test of the cluster reconciler: the sum of the generations of all
child objects, as a 64-bit integer, stands for the children themselves.
 */
module Generations {
  import opened Wrappers

  /** Where a child is found in the configuration: one of the single objects, or a member of one of the maps. */
  datatype Key = Single(index: nat) | Member(group: nat, name: string)

  /**
   * A child object. Its content is known by its uid and its generation; `refs` is the
   * part of the content that leads to other children.
   */
  datatype Object = Object(uid: nat, generation: int, refs: set<Key>)

  /** The child objects of a cluster. A nil pointer is None, also inside the maps. */
  datatype Config = Config(cloudStackDatacenter: Option<Object>,
                           vSphereDatacenter: Option<Object>,
                           nutanixDatacenter: Option<Object>,
                           dockerDatacenter: Option<Object>,
                           snowDatacenter: Option<Object>,
                           tinkerbellDatacenter: Option<Object>,
                           gitOpsConfig: Option<Object>,
                           fluxConfig: Option<Object>,
                           vSphereMachineConfigs: map<string, Option<Object>>,
                           cloudStackMachineConfigs: map<string, Option<Object>>,
                           snowMachineConfigs: map<string, Option<Object>>,
                           snowIPPools: map<string, Option<Object>>,
                           nutanixMachineConfigs: map<string, Option<Object>>,
                           tinkerbellMachineConfigs: map<string, Option<Object>>,
                           tinkerbellTemplateConfigs: map<string, Option<Object>>,
                           oidcConfigs: map<string, Option<Object>>,
                           awsIamConfigs: map<string, Option<Object>>)
  {
    function Singles(): (s: seq<Option<Object>>) {
      [cloudStackDatacenter, vSphereDatacenter, nutanixDatacenter, dockerDatacenter,
       snowDatacenter, tinkerbellDatacenter, gitOpsConfig, fluxConfig]
    }

    function Groups(): (s: seq<map<string, Option<Object>>>) {
      [vSphereMachineConfigs, cloudStackMachineConfigs, snowMachineConfigs, snowIPPools, nutanixMachineConfigs,
       tinkerbellMachineConfigs, tinkerbellTemplateConfigs, oidcConfigs, awsIamConfigs]
    }
  }

  predicate IsKey(k: Key) {
    match k
    case Single(i) => i < 8
    case Member(g, _) => g < 9
  }

  predicate InSingles(singles: seq<Option<Object>>, k: Key) {
    k.Single? && k.index < |singles| && singles[k.index].Some?
  }

  predicate InGroups(groups: seq<map<string, Option<Object>>>, k: Key) {
    k.Member? && k.group < |groups| && k.name in groups[k.group] && groups[k.group][k.name].Some?
  }

  predicate IsChild(c: Config, k: Key) {
    InSingles(c.Singles(), k) || InGroups(c.Groups(), k)
  }

  function ChildAt(c: Config, k: Key): Object
    requires IsChild(c, k)
  {
    if k.Single? then c.Singles()[k.index].value else c.Groups()[k.group][k.name].value
  }

  function Keys(c: Config): (s: set<Key>)
    ensures forall k :: k in s <==> IsChild(c, k)
  {
    var singles := set i | 0 <= i < |c.Singles()| && InSingles(c.Singles(), Single(i)) :: Single(i);
    var members := set i, n | 0 <= i < |c.Groups()| && n in c.Groups()[i]
      && InGroups(c.Groups(), Member(i, n)) :: Member(i, n);
    singles + members
  }

  function ChildrenOf(c: Config): (m: map<Key, Object>)
    ensures m.Keys == Keys(c)
  {
    map k | k in Keys(c) :: ChildAt(c, k)
  }

  // ------------------------------------------------------------------ configurations from children

  function SingleOf(m: map<Key, Object>, i: nat): Option<Object> {
    if Single(i) in m then Some(m[Single(i)]) else None
  }

  function MembersOf(m: map<Key, Object>, g: nat): (r: map<string, Option<Object>>)
    ensures forall n :: n in r <==> Member(g, n) in m
    ensures forall n :: n in r ==> r[n] == Some(m[Member(g, n)])
  {
    var names := set k | k in m && k.Member? && k.group == g :: k.name;
    assert forall n :: n in names <==> Member(g, n) in m;
    map n | n in names :: Some(m[Member(g, n)])
  }

  function ConfigOf(m: map<Key, Object>): Config {
    Config(SingleOf(m, 0), SingleOf(m, 1), SingleOf(m, 2), SingleOf(m, 3), SingleOf(m, 4), SingleOf(m, 5),
           SingleOf(m, 6), SingleOf(m, 7), MembersOf(m, 0), MembersOf(m, 1), MembersOf(m, 2), MembersOf(m, 3),
           MembersOf(m, 4), MembersOf(m, 5), MembersOf(m, 6), MembersOf(m, 7), MembersOf(m, 8))
  }

  lemma ConfigParts(m: map<Key, Object>)
    ensures |ConfigOf(m).Singles()| == 8 && forall i :: 0 <= i < 8 ==> ConfigOf(m).Singles()[i] == SingleOf(m, i)
    ensures |ConfigOf(m).Groups()| == 9 && forall g :: 0 <= g < 9 ==> ConfigOf(m).Groups()[g] == MembersOf(m, g)
  {
    hide MembersOf, SingleOf;
  }

  lemma ChildOfConfig(m: map<Key, Object>, k: Key)
    requires k in m ==> IsKey(k)
    ensures IsChild(ConfigOf(m), k) <==> k in m
    ensures k in m ==> ChildAt(ConfigOf(m), k) == m[k]
  {
    ConfigParts(m);
    hide ConfigOf;
  }

  /** The configuration that is built has exactly the children it was built from. */
  lemma ConfigRoundTrip(m: map<Key, Object>)
    requires forall k :: k in m ==> IsKey(k)
    ensures ChildrenOf(ConfigOf(m)) == m
  {
    forall k: Key
      ensures IsChild(ConfigOf(m), k) <==> k in m
      ensures k in m ==> ChildAt(ConfigOf(m), k) == m[k]
    {
      ChildOfConfig(m, k);
    }
    hide ConfigOf;
    assert ChildrenOf(ConfigOf(m)).Keys == m.Keys;
  }

  // ------------------------------------------------------------------ sums

  ghost function SumOf(m: map<Key, Object>): int
    decreases |m|
  {
    if m == map[] then 0
    else
      var k :| k in m;
      assert |m - {k}| < |m| by { SmallerWithout(m, k); }
      m[k].generation + SumOf(m - {k})
  }

  lemma SmallerWithout(m: map<Key, Object>, k: Key)
    requires k in m
    ensures |m - {k}| == |m| - 1
  {
    assert (m - {k}).Keys == m.Keys - {k};
    assert |m.Keys| == |m| && |(m - {k}).Keys| == |m - {k}|;
  }

  /** The sum does not depend on the order in which the children are visited. */
  lemma {:induction false} SumWithout(m: map<Key, Object>, k: Key)
    requires k in m
    ensures SumOf(m) == m[k].generation + SumOf(m - {k})
    decreases |m|
  {
    var first :| first in m && SumOf(m) == m[first].generation + SumOf(m - {first});
    if first != k {
      SmallerWithout(m, first);
      SmallerWithout(m, k);
      SumWithout(m - {first}, k);
      SumWithout(m - {k}, first);
      assert m - {first} - {k} == m - {k} - {first};
    }
  }

  function Total(objs: seq<Object>): int {
    if objs == [] then 0 else Total(objs[..|objs| - 1]) + objs[|objs| - 1].generation
  }

  /** The keys tell where each object of the list comes from. */
  ghost predicate Listing(objs: seq<Object>, keys: seq<Key>, c: Config) {
    && |objs| == |keys|
    && (forall i, j :: 0 <= i < j < |keys| ==> keys[i] != keys[j])
    && (forall i :: 0 <= i < |keys| ==> IsChild(c, keys[i]) && objs[i] == ChildAt(c, keys[i]))
  }

  ghost predicate Complete(keys: seq<Key>, c: Config) {
    forall k :: IsChild(c, k) ==> k in keys
  }

  /** However the children are listed, the generations add up to the same. */
  lemma ListingTotal(objs: seq<Object>, keys: seq<Key>, c: Config)
    requires Listing(objs, keys, c) && Complete(keys, c)
    ensures Total(objs) == SumOf(ChildrenOf(c))
  {
    PartTotal(objs, keys, ChildrenOf(c));
  }

  lemma {:induction false} PartTotal(objs: seq<Object>, keys: seq<Key>, m: map<Key, Object>)
    requires |objs| == |keys| && forall i, j :: 0 <= i < j < |keys| ==> keys[i] != keys[j]
    requires forall k :: k in m <==> k in keys
    requires forall i :: 0 <= i < |keys| ==> objs[i] == m[keys[i]]
    ensures Total(objs) == SumOf(m)
  {
    if keys == [] {
      assert m == map[];
    } else {
      var n := |keys| - 1;
      SumWithout(m, keys[n]);
      PartTotal(objs[..n], keys[..n], m - {keys[n]});
    }
  }

  // ------------------------------------------------------------------ 64-bit integers

  const TWO_TO_THE_63: int := 0x8000_0000_0000_0000
  const TWO_TO_THE_64: int := 0x1_0000_0000_0000_0000

  function Int64(n: int): (r: int)
    ensures -TWO_TO_THE_63 <= r < TWO_TO_THE_63
  {
    (n + TWO_TO_THE_63) % TWO_TO_THE_64 - TWO_TO_THE_63
  }

  lemma WrapOnce(a: int, b: int)
    ensures Int64(Int64(a) + b) == Int64(a + b)
  {
  }

  lemma WrapEqual(a: int, b: int)
    requires 0 <= a < TWO_TO_THE_64 && 0 <= b < TWO_TO_THE_64
    ensures Int64(a) == Int64(b) <==> a == b
  {
  }

  // ------------------------------------------------------------------ the loops

  /** Appends the objects that are there. */
  method AppendIfNotNil(objs: seq<Object>, elems: seq<Option<Object>>, ghost keys: seq<Key>, c: Config)
    returns (r: seq<Object>, ghost keys': seq<Key>)
    requires Listing(objs, keys, c) && elems == c.Singles()
    requires forall k <- keys :: !k.Single?
    ensures Listing(r, keys', c)
    ensures forall k :: k in keys' <==> k in keys || InSingles(elems, k)
  {
    r, keys' := objs, keys;
    for i := 0 to |elems|
      invariant Listing(r, keys', c)
      invariant forall k :: k in keys' <==> k in keys || (InSingles(elems, k) && k.index < i)
    {
      if elems[i].Some? {
        r, keys' := r + [elems[i].value], keys' + [Single(i)];
      }
    }
  }

  /** Appends the objects of one map, in any order. */
  method AppendMembers(objs: seq<Object>, g: nat, ghost keys: seq<Key>, c: Config)
    returns (r: seq<Object>, ghost keys': seq<Key>)
    requires Listing(objs, keys, c) && g < |c.Groups()|
    requires forall k <- keys :: k.Member? ==> k.group < g
    ensures Listing(r, keys', c)
    ensures forall k :: k in keys' <==> k in keys || (InGroups(c.Groups(), k) && k.group == g)
  {
    r, keys' := objs, keys;
    var members := c.Groups()[g];
    var todo := members.Keys;
    while todo != {}
      invariant todo <= members.Keys && Listing(r, keys', c)
      invariant forall k :: k in keys' <==> k in keys || (InGroups(c.Groups(), k) && k.group == g && k.name !in todo)
    {
      var name :| name in todo;
      if members[name].Some? {
        r, keys' := r + [members[name].value], keys' + [Member(g, name)];
      }
      todo := todo - {name};
    }
  }

  /** Lists every child exactly once. */
  method ChildObjects(c: Config) returns (objs: seq<Object>, ghost keys: seq<Key>)
    ensures Listing(objs, keys, c) && Complete(keys, c)
  {
    objs, keys := AppendIfNotNil([], c.Singles(), [], c);
    for g := 0 to |c.Groups()|
      invariant Listing(objs, keys, c)
      invariant forall k :: k in keys <==> InSingles(c.Singles(), k) || (InGroups(c.Groups(), k) && k.group < g)
    {
      objs, keys := AppendMembers(objs, g, keys, c);
    }
  }

  method AggregatedGeneration(c: Config) returns (sum: int)
    ensures sum == Int64(SumOf(ChildrenOf(c)))
  {
    var objs, keys := ChildObjects(c);
    sum := 0;
    for i := 0 to |objs|
      invariant sum == Int64(Total(objs[..i]))
    {
      assert objs[..i + 1][..i] == objs[..i];
      WrapOnce(Total(objs[..i]), objs[i].generation);
      sum := Int64(sum + objs[i].generation);
    }
    assert objs[..|objs|] == objs;
    ListingTotal(objs, keys, c);
  }

  // ------------------------------------------------------------------ two moments

  function Restrict(m: map<Key, Object>, s: set<Key>): (r: map<Key, Object>)
    ensures r.Keys == m.Keys * s
  {
    map k | k in m && k in s :: m[k]
  }

  lemma {:induction false} SumSplit(m: map<Key, Object>, s: set<Key>)
    ensures SumOf(m) == SumOf(Restrict(m, s)) + SumOf(Restrict(m, m.Keys - s))
    decreases |m|
  {
    if m == map[] {
      assert Restrict(m, s) == map[] && Restrict(m, m.Keys - s) == map[];
    } else {
      var k :| k in m;
      var m' := m - {k};
      SmallerWithout(m, k);
      SumWithout(m, k);
      SumSplit(m', s);
      if k in s {
        SumWithout(Restrict(m, s), k);
        assert Restrict(m, s) - {k} == Restrict(m', s);
        assert Restrict(m, m.Keys - s) == Restrict(m', m'.Keys - s);
      } else {
        SumWithout(Restrict(m, m.Keys - s), k);
        assert Restrict(m, m.Keys - s) - {k} == Restrict(m', m'.Keys - s);
        assert Restrict(m, s) == Restrict(m', s);
      }
    }
  }

  predicate Positive(m: map<Key, Object>) {
    forall k :: k in m ==> m[k].generation >= 1
  }

  lemma {:induction false} SumPositive(m: map<Key, Object>)
    requires Positive(m)
    ensures SumOf(m) >= |m|
    decreases |m|
  {
    if m != map[] {
      var k :| k in m;
      SmallerWithout(m, k);
      SumWithout(m, k);
      SumPositive(m - {k});
    }
  }

  /** An object that is still there has not gone back, and is the same if it has the same generation. */
  predicate Older(m: map<Key, Object>, m': map<Key, Object>) {
    forall k :: k in m && k in m' && m[k].uid == m'[k].uid ==>
      m[k].generation <= m'[k].generation && (m[k].generation == m'[k].generation ==> m[k] == m'[k])
  }

  /** The children that are the same objects at both moments. */
  function Kept(m: map<Key, Object>, m': map<Key, Object>): set<Key> {
    set k | k in m && k in m' && m[k].uid == m'[k].uid
  }

  /** Some child was removed, added, or recreated under its name. */
  predicate Replaced(m: map<Key, Object>, m': map<Key, Object>) {
    m.Keys != Kept(m, m') || m'.Keys != Kept(m, m')
  }

  /** By how much the generations of the children that stayed have grown. */
  ghost function Growth(m: map<Key, Object>, m': map<Key, Object>): int {
    SumOf(Restrict(m', Kept(m, m'))) - SumOf(Restrict(m, Kept(m, m')))
  }

  /** By how much the generations of the children that went exceed those of the children that came. */
  ghost function Loss(m: map<Key, Object>, m': map<Key, Object>): int {
    SumOf(Restrict(m, m.Keys - Kept(m, m'))) - SumOf(Restrict(m', m'.Keys - Kept(m, m')))
  }

  lemma {:induction false} SumGrows(m: map<Key, Object>, m': map<Key, Object>)
    requires m.Keys == m'.Keys && Older(m, m') && forall k :: k in m ==> m[k].uid == m'[k].uid
    ensures SumOf(m) <= SumOf(m')
    ensures SumOf(m) == SumOf(m') <==> m == m'
    decreases |m|
  {
    if m == map[] {
      assert m' == map[];
    } else {
      var k :| k in m;
      SumWithout(m, k);
      SumWithout(m', k);
      SmallerWithout(m, k);
      SumGrows(m - {k}, m' - {k});
      if m - {k} == m' - {k} && m[k] == m'[k] {
        forall j | j in m
          ensures m[j] == m'[j]
        {
          assert j != k ==> j in m - {k} && (m - {k})[j] == m[j] && (m' - {k})[j] == m'[j];
        }
        assert m == m';
      }
    }
  }

  lemma GrowthIsExact(m: map<Key, Object>, m': map<Key, Object>)
    requires Older(m, m')
    ensures Growth(m, m') >= 0
    ensures m == m' <==> !Replaced(m, m') && Growth(m, m') == 0
  {
    var kept := Kept(m, m');
    SumGrows(Restrict(m, kept), Restrict(m', kept));
    if !Replaced(m, m') {
      assert Restrict(m, kept) == m && Restrict(m', kept) == m';
    }
    if m == m' {
      assert kept == m.Keys;
    }
  }

  lemma SumsDiffer(m: map<Key, Object>, m': map<Key, Object>)
    ensures SumOf(m') - SumOf(m) == Growth(m, m') - Loss(m, m')
  {
    SumSplit(m, Kept(m, m'));
    SumSplit(m', Kept(m, m'));
  }

  ghost predicate SumFits(m: map<Key, Object>) {
    0 <= SumOf(m) < TWO_TO_THE_64
  }

  /** The sums say that nothing changed, although something did. */
  ghost predicate Missed(m: map<Key, Object>, m': map<Key, Object>) {
    Int64(SumOf(m)) == Int64(SumOf(m')) && m != m'
  }

  /**
   * The test is never wrong about children that are the same. It misses a change if and
   * only if a child was replaced and the growth of the children that stayed makes up
   * exactly for what the replacements took away.
   */
  lemma TestIsExact(m: map<Key, Object>, m': map<Key, Object>)
    requires Older(m, m') && SumFits(m) && SumFits(m')
    ensures Missed(m, m') <==> Replaced(m, m') && Growth(m, m') == Loss(m, m')
  {
    SumsDiffer(m, m');
    GrowthIsExact(m, m');
    WrapEqual(SumOf(m), SumOf(m'));
    if !Replaced(m, m') {
      NoLoss(m, m');
    }
  }

  lemma NoLoss(m: map<Key, Object>, m': map<Key, Object>)
    requires !Replaced(m, m')
    ensures Loss(m, m') == 0
  {
    assert Restrict(m, m.Keys - Kept(m, m')) == map[] && Restrict(m', m'.Keys - Kept(m, m')) == map[];
  }
}
