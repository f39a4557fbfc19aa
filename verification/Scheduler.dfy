/** Weighted zone scheduling over the instances a registry knows. */
module Scheduler {
  import opened Bytes
  import opened Decimal
  import opened Int64
  import opened SchedulerShares

  const META_WEIGHT := "weight"

  /** A Go map is a reference: two instances may share one. */
  class Metadata {
    var entries: map<string, Bytes>
    constructor (m: map<string, Bytes>) ensures entries == m { entries := m; }
  }

  class Instance {
    const Zone: string
    const Metadata: Metadata?
    constructor (zone: string, meta: Metadata?)
      ensures Zone == zone && Metadata == meta
    {
      Zone, Metadata := zone, meta;
    }
  }

  datatype Dest = Dest(zone: string, weight: int64)

  /** One scheduling rule; `Dst` lists the map's entries in the order `range` visits them. */
  datatype Zone = Zone(Src: string, Dst: seq<Dest>)

  datatype InstancesInfo = InstancesInfo(Instances: map<string, seq<Instance>>, Scheduler: seq<Zone>)

  datatype Outcome = Panic | Returned(inss: seq<Instance>)

  // ---------------------------------------------------------------- what is scheduled

  /** The destinations of every rule for `src`, in order. */
  function Scheduled(rules: seq<Zone>, src: string): seq<Dest>
  {
    if rules == [] then [] else
      var last := rules[|rules| - 1];
      Scheduled(rules[..|rules| - 1], src) + if last.Src == src then last.Dst else []
  }

  /** The instances of the destinations that exist, in order. */
  function Gathered(insts: map<string, seq<Instance>>, ds: seq<Dest>): seq<Instance>
  {
    if ds == [] then [] else
      var z := ds[|ds| - 1].zone;
      Gathered(insts, ds[..|ds| - 1]) + if z in insts then insts[z] else []
  }

  /** The weight in an instance's metadata: absent, malformed or non-positive text counts as ten. */
  function WeightIn(entries: map<string, Bytes>): (w: int64)
    ensures w > 0
  {
    var w := ParseInt(if META_WEIGHT in entries then entries[META_WEIGHT] else []);
    if w <= 0 then 10 else w
  }

  /**
   What a weight in the metadata means: a positive number is the weight, as far as it fits; nothing, no number,
   zero and negative numbers mean ten.
   */
  lemma WeightMeans(entries: map<string, Bytes>, n: int)
    ensures META_WEIGHT !in entries ==> WeightIn(entries) == 10
    ensures META_WEIGHT in entries && NoNumber(entries[META_WEIGHT]) ==> WeightIn(entries) == 10
    ensures WeightIn(entries[META_WEIGHT := Text(n)])
            == if n <= 0 then 10 else if n < 0x8000_0000_0000_0000 then n else 0x7fff_ffff_ffff_ffff
  {
    if META_WEIGHT in entries && NoNumber(entries[META_WEIGHT]) { ParseNoNumber(entries[META_WEIGHT]); }
    ParseNoNumber([]);
    if InRange(n) { ParseText(n); } else { ParseOutOfRange(n); }
    hide ParseInt, NoNumber;
  }

  /** Reading a nil map finds nothing. */
  function WeightOf(m: Metadata?): (w: int64)
    reads m
    ensures w > 0
  {
    WeightIn(if m == null then map[] else m.entries)
  }

  ghost function Weights(zins: seq<Instance>): (ws: seq<int>)
    reads set x | x in zins :: x.Metadata
    ensures |ws| == |zins| && Positive(ws) && forall i :: 0 <= i < |zins| ==> ws[i] == WeightOf(zins[i].Metadata)
  {
    if zins == [] then [] else Weights(zins[..|zins| - 1]) + [WeightOf(zins[|zins| - 1].Metadata)]
  }

  /** The weights of every zone. */
  ghost function AllWeights(insts: map<string, seq<Instance>>): (m: map<string, seq<int>>)
    reads set z, x | z in insts && x in insts[z] :: x.Metadata
  {
    map z | z in insts :: Weights(insts[z])
  }

  /** The zone totals the code collects: one for each destination that exists. */
  function Totals(ws: map<string, seq<int>>, ds: seq<Dest>): (ts: seq<int>)
  {
    if ds == [] then [] else
      var z := ds[|ds| - 1].zone;
      Totals(ws, ds[..|ds| - 1]) + if z in ws then [WrapSum(ws[z])] else []
  }

  /** The factor of each zone; a zone scheduled twice gets the later one. */
  function Factors(ds: seq<Dest>, ts: seq<int>, product: int, n: nat): map<string, int64>
    requires n <= |ds| && n <= |ts| && forall i :: 0 <= i < n ==> ts[i] != 0
  {
    if n == 0 then map[] else
      Factors(ds, ts, product, n - 1)[ds[n - 1].zone := Factor(ds[n - 1].weight, product, ts[n - 1])]
  }

  function NewWeight(w: int, zone: string, factors: map<string, int64>): int
  {
    if zone in factors then Wrap(w * factors[zone]) else w
  }

  // ---------------------------------------------------------------- the program

  method TotalWeight(zins: seq<Instance>) returns (total: int64)
    ensures total == WrapSum(Weights(zins))
  {
    hide Weights, WeightOf, Wrap;
    ghost var ws := Weights(zins);
    total := 0;
    for k := 0 to |zins|
      invariant total == WrapSum(ws[..k])
    {
      var weight: int := WeightOf(zins[k].Metadata);
      assert ws[..k + 1][..k] == ws[..k];
      total := Wrap(total + weight);
    }
    assert ws[..|ws|] == ws;
  }

  /** The destinations of one rule. */
  method CollectRule(insts: map<string, seq<Instance>>, dst: seq<Dest>, ghost ws: map<string, seq<int>>,
                     ds0: seq<Dest>, ori0: seq<int>, inss0: seq<Instance>)
    returns (ds: seq<Dest>, ori: seq<int>, inss: seq<Instance>)
    requires ws == AllWeights(insts) && ori0 == Totals(ws, ds0) && inss0 == Gathered(insts, ds0)
    ensures ds == ds0 + dst && ori == Totals(ws, ds) && inss == Gathered(insts, ds)
  {
    hide Totals, Gathered, AllWeights, Weights, WrapSum;
    ds, ori, inss := ds0, ori0, inss0;
    for j := 0 to |dst|
      invariant ds == ds0 + dst[..j] && ori == Totals(ws, ds) && inss == Gathered(insts, ds)
    {
      var d := dst[j];
      DestStep(insts, ws, ds, d);
      if d.zone in insts {
        var total := TotalWeight(insts[d.zone]);
        ori := ori + [total];
        inss := inss + insts[d.zone];
      }
      assert ds + [d] == ds0 + dst[..j + 1];
      ds := ds + [d];
    }
  }

  lemma DestStep(insts: map<string, seq<Instance>>, ws: map<string, seq<int>>, ds: seq<Dest>, d: Dest)
    requires ws == AllWeights(insts)
    ensures Totals(ws, ds + [d]) == if d.zone in insts then Totals(ws, ds) + [WrapSum(Weights(insts[d.zone]))]
                                    else Totals(ws, ds)
    ensures Gathered(insts, ds + [d]) == if d.zone in insts then Gathered(insts, ds) + insts[d.zone]
                                         else Gathered(insts, ds)
  {
    hide Weights, WrapSum;
    assert (ds + [d])[..|ds|] == ds;
  }

  method Collect(info: InstancesInfo, zone: string, ghost ws: map<string, seq<int>>)
    returns (ds: seq<Dest>, ori: seq<int>, inss: seq<Instance>)
    requires ws == AllWeights(info.Instances)
    ensures ds == Scheduled(info.Scheduler, zone) && ori == Totals(ws, ds) && inss == Gathered(info.Instances, ds)
  {
    ds, ori, inss := [], [], [];
    var rules := info.Scheduler;
    for i := 0 to |rules|
      invariant ds == Scheduled(rules[..i], zone) && ori == Totals(ws, ds) && inss == Gathered(info.Instances, ds)
    {
      assert rules[..i + 1][..i] == rules[..i];
      if rules[i].Src == zone {
        ds, ori, inss := CollectRule(info.Instances, rules[i].Dst, ws, ds, ori, inss);
      }
    }
    assert rules[..|rules|] == rules;
  }

  method Multiply(ori: seq<int>) returns (comMulti: int64)
    ensures comMulti == Wrap(Product(ori))
  {
    comMulti := 1;
    for i := 0 to |ori|
      invariant comMulti == WrapProduct(ori[..i])
    {
      assert ori[..i + 1][..i] == ori[..i];
      comMulti := Wrap(comMulti * ori[i]);
    }
    assert ori[..|ori|] == ori;
    WrapProductIs(ori);
  }

  /** The indexing `oriWeights[i]` panics past the end, the division by zero panics too. */
  method FixWeights(ds: seq<Dest>, ori: seq<int>, comMulti: int64) returns (ok: bool, fix: map<string, int64>)
    ensures ok <==> |ds| <= |ori| && forall i :: 0 <= i < |ds| ==> ori[i] != 0
    ensures ok ==> fix == Factors(ds, ori, comMulti, |ds|)
  {
    fix := map[];
    for i := 0 to |ds|
      invariant i <= |ori| && (forall k :: 0 <= k < i ==> ori[k] != 0) && fix == Factors(ds, ori, comMulti, i)
    {
      if i >= |ori| || ori[i] == 0 { return false, fix; }
      fix := fix[ds[i].zone := Factor(ds[i].weight, comMulti, ori[i])];
    }
    return true, fix;
  }

  predicate Separate(inss: seq<Instance>)
  {
    && (forall i :: 0 <= i < |inss| ==> inss[i].Metadata != null)
    && (forall i, j :: 0 <= i < j < |inss| ==> inss[i].Metadata != inss[j].Metadata)
  }

  /** The metadata of an instance of `zone` after its weight is multiplied by the zone's factor. */
  function Rewritten(entries: map<string, Bytes>, zone: string, fix: map<string, int64>): map<string, Bytes>
  {
    entries[META_WEIGHT := Text(NewWeight(WeightIn(entries), zone, fix))]
  }

  /** What a map holds once every instance that has it has rewritten it, in order. */
  function RewrittenBy(entries: map<string, Bytes>, inss: seq<Instance>, m: Metadata, fix: map<string, int64>)
    : map<string, Bytes>
  {
    if inss == [] then entries else
      var x := inss[|inss| - 1];
      var before := RewrittenBy(entries, inss[..|inss| - 1], m, fix);
      if x.Metadata == m then Rewritten(before, x.Zone, fix) else before
  }

  lemma RewrittenNext(entries: map<string, Bytes>, inss: seq<Instance>, k: nat, m: Metadata, fix: map<string, int64>)
    requires k < |inss|
    ensures var before := RewrittenBy(entries, inss[..k], m, fix);
            RewrittenBy(entries, inss[..k + 1], m, fix)
            == if inss[k].Metadata == m then Rewritten(before, inss[k].Zone, fix) else before
  {
    hide Rewritten;
    assert inss[..k + 1][..k] == inss[..k];
  }

  lemma {:induction false} NotRewritten(entries: map<string, Bytes>, inss: seq<Instance>, m: Metadata,
                                        fix: map<string, int64>)
    requires forall i :: 0 <= i < |inss| ==> inss[i].Metadata != m
    ensures RewrittenBy(entries, inss, m, fix) == entries
  {
    if inss != [] { NotRewritten(entries, inss[..|inss| - 1], m, fix); }
  }

  /** A map of its own is rewritten once. */
  lemma {:induction false} RewrittenOnce(entries: map<string, Bytes>, inss: seq<Instance>, i: nat,
                                         fix: map<string, int64>)
    requires Separate(inss) && i < |inss|
    ensures RewrittenBy(entries, inss, inss[i].Metadata, fix) == Rewritten(entries, inss[i].Zone, fix)
  {
    hide Rewritten;
    var n := |inss| - 1;
    if i < n {
      RewrittenOnce(entries, inss[..n], i, fix);
    } else {
      NotRewritten(entries, inss[..n], inss[n].Metadata, fix);
    }
  }

  /** Two instances of a zone that share a map: its weight is multiplied by the factor twice. */
  lemma SharedTwice(entries: map<string, Bytes>, a: Instance, b: Instance, m: Metadata, fix: map<string, int64>)
    requires a.Metadata == m && b.Metadata == m && a.Zone == b.Zone && a.Zone in fix
    requires Wrap(WeightIn(entries) * fix[a.Zone]) > 0
    ensures RewrittenBy(entries, [a, b], m, fix)
            == entries[META_WEIGHT := Text(Wrap(WeightIn(entries) * fix[a.Zone] * fix[a.Zone]))]
  {
    hide Wrap, ParseInt;
    var w: int, f: int := WeightIn(entries), fix[a.Zone];
    var once := entries[META_WEIGHT := Text(Wrap(w * f))];
    ParseText(Wrap(w * f));
    WrapMul(w * f, f);
    assert [a, b][..1] == [a] && [a][..0] == [];
    assert RewrittenBy(entries, [a], m, fix) == once;
    assert WeightIn(once) == Wrap(w * f);
  }

  /** What the instances' maps hold; a nil map reads as an empty one. */
  ghost function Entries(inss: seq<Instance>): (r: seq<map<string, Bytes>>)
    reads set x | x in inss && x.Metadata != null :: x.Metadata
    ensures |r| == |inss|
    ensures forall i :: 0 <= i < |inss| && inss[i].Metadata != null ==> r[i] == inss[i].Metadata.entries
  {
    if inss == [] then [] else
      var m := inss[|inss| - 1].Metadata;
      Entries(inss[..|inss| - 1]) + [if m == null then map[] else m.entries]
  }

  /** Every map has been rewritten by all the instances that have it. */
  ghost predicate AllRewritten(was: seq<map<string, Bytes>>, inss: seq<Instance>, fix: map<string, int64>)
    reads set x | x in inss && x.Metadata != null :: x.Metadata
  {
    && |was| == |inss|
    && forall i :: 0 <= i < |inss| ==>
         inss[i].Metadata != null && inss[i].Metadata.entries == RewrittenBy(was[i], inss, inss[i].Metadata, fix)
  }

  /** Writing into a nil map panics. Instances that share a map rewrite it one after the other. */
  method Rewrite(inss: seq<Instance>, fix: map<string, int64>) returns (ok: bool)
    modifies set x | x in inss && x.Metadata != null :: x.Metadata
    ensures ok <==> forall i :: 0 <= i < |inss| ==> inss[i].Metadata != null
    ensures ok ==> AllRewritten(old(Entries(inss)), inss, fix)
  {
    hide Rewritten, RewrittenBy;
    Untouched(inss, fix);
    for k := 0 to |inss|
      invariant forall i :: 0 <= i < k ==> inss[i].Metadata != null
      invariant forall i :: 0 <= i < |inss| && inss[i].Metadata != null ==>
        inss[i].Metadata.entries == RewrittenBy(old(inss[i].Metadata.entries), inss[..k], inss[i].Metadata, fix)
    {
      if inss[k].Metadata == null { return false; }
      forall i | 0 <= i < |inss| && inss[i].Metadata != null
        ensures var before := RewrittenBy(old(inss[i].Metadata.entries), inss[..k], inss[i].Metadata, fix);
                RewrittenBy(old(inss[i].Metadata.entries), inss[..k + 1], inss[i].Metadata, fix)
                == if inss[k].Metadata == inss[i].Metadata then Rewritten(before, inss[k].Zone, fix) else before
      {
        RewrittenNext(old(inss[i].Metadata.entries), inss, k, inss[i].Metadata, fix);
      }
      RewriteOne(inss[k], fix);
    }
    assert inss[..|inss|] == inss;
    return true;
  }

  lemma Untouched(inss: seq<Instance>, fix: map<string, int64>)
    ensures forall i :: 0 <= i < |inss| && inss[i].Metadata != null ==>
      inss[i].Metadata.entries == RewrittenBy(inss[i].Metadata.entries, inss[..0], inss[i].Metadata, fix)
  {
  }

  method RewriteOne(ins: Instance, fix: map<string, int64>)
    requires ins.Metadata != null
    modifies ins.Metadata
    ensures ins.Metadata.entries == Rewritten(old(ins.Metadata.entries), ins.Zone, fix)
  {
    var weight: int := WeightOf(ins.Metadata);
    if ins.Zone in fix { weight := Wrap(weight * fix[ins.Zone]); }
    ins.Metadata.entries := ins.Metadata.entries[META_WEIGHT := Text(weight)];
  }

  /** The instances of all zones, zone by zone in the order `range` happens to visit them. */
  function Flatten(insts: map<string, seq<Instance>>, order: seq<string>): seq<Instance>
    requires forall i :: 0 <= i < |order| ==> order[i] in insts
  {
    if order == [] then [] else Flatten(insts, order[..|order| - 1]) + insts[order[|order| - 1]]
  }

  ghost predicate Visits(insts: map<string, seq<Instance>>, order: seq<string>)
  {
    && (forall i, j :: 0 <= i < j < |order| ==> order[i] != order[j])
    && (forall z :: z in order <==> z in insts)
  }

  method Everything(insts: map<string, seq<Instance>>) returns (inss: seq<Instance>, ghost order: seq<string>)
    ensures Visits(insts, order) && inss == Flatten(insts, order)
  {
    inss, order := [], [];
    var todo := insts.Keys;
    while todo != {}
      invariant todo <= insts.Keys && (forall z :: z in order <==> z in insts && z !in todo)
      invariant forall i :: 0 <= i < |order| ==> order[i] in insts && order[i] !in todo
      invariant forall i, j :: 0 <= i < j < |order| ==> order[i] != order[j]
      invariant inss == Flatten(insts, order)
    {
      var z :| z in todo;
      inss := inss + insts[z];
      assert (order + [z])[..|order|] == order;
      order := order + [z];
      todo := todo - {z};
    }
  }

  // ---------------------------------------------------------------- when it panics

  lemma {:induction false} TotalsOf(ws: map<string, seq<int>>, ds: seq<Dest>)
    ensures var ts := Totals(ws, ds);
            && |ts| <= |ds|
            && (|ts| == |ds| <==> forall i :: 0 <= i < |ds| ==> ds[i].zone in ws)
            && (|ts| == |ds| ==> forall i :: 0 <= i < |ds| ==> ts[i] == WrapSum(ws[ds[i].zone]))
  {
    if ds != [] {
      var n := |ds| - 1;
      TotalsOf(ws, ds[..n]);
      assert forall i :: 0 <= i < n ==> ds[..n][i] == ds[i];
    }
  }

  /** The scheduled zones that make the code panic: one that is missing, or one whose total is zero. */
  predicate BadZone(ws: map<string, seq<int>>, d: Dest) { d.zone !in ws || WrapSum(ws[d.zone]) == 0 }

  /** Unless a zone's total overflows, the bad zones are the missing and the empty ones. */
  lemma BadZoneIsMissingOrEmpty(ws: map<string, seq<int>>, d: Dest)
    requires d.zone in ws ==> Positive(ws[d.zone]) && InRange(Sum(ws[d.zone]))
    ensures BadZone(ws, d) <==> d.zone !in ws || ws[d.zone] == []
  {
    if d.zone in ws {
      WrapSumIs(ws[d.zone]);
      if ws[d.zone] != [] { SumBounds(ws[d.zone], 0); }
    }
  }

  lemma NothingScheduled(insts: map<string, seq<Instance>>, ws: map<string, seq<int>>, src: string)
    ensures Scheduled([], src) == [] && Gathered(insts, []) == [] && Totals(ws, []) == []
  {
  }

  lemma ScheduledPush(rules: seq<Zone>, z: Zone, src: string)
    ensures Scheduled(rules + [z], src) == Scheduled(rules, src) + if z.Src == src then z.Dst else []
  {
    assert (rules + [z])[..|rules|] == rules;
  }

  /** What is scheduled for a zone: the destinations of every rule for it, rule after rule. */
  lemma {:induction false} ScheduledMeans(a: seq<Zone>, b: seq<Zone>, src: string)
    ensures Scheduled([], src) == [] && Scheduled(a + b, src) == Scheduled(a, src) + Scheduled(b, src)
    ensures |b| == 1 ==> Scheduled(b, src) == if b[0].Src == src then b[0].Dst else []
  {
    hide *;
    NothingScheduled(map[], map[], src);
    if b == [] {
      assert a + b == a;
    } else {
      var c, z := b[..|b| - 1], b[|b| - 1];
      ScheduledMeans(a, c, src);
      ScheduledPush(a + c, z, src);
      ScheduledPush(c, z, src);
      assert c + [z] == b && a + c + [z] == a + b;
      assert |b| == 1 ==> c == [];
    }
  }

  lemma GatheredPush(insts: map<string, seq<Instance>>, ds: seq<Dest>, d: Dest)
    ensures Gathered(insts, ds + [d]) == Gathered(insts, ds) + if d.zone in insts then insts[d.zone] else []
  {
    assert (ds + [d])[..|ds|] == ds;
  }

  /** The instances of the destinations that exist, destination after destination. */
  lemma {:induction false} GatheredMeans(insts: map<string, seq<Instance>>, a: seq<Dest>, b: seq<Dest>)
    ensures Gathered(insts, []) == [] && Gathered(insts, a + b) == Gathered(insts, a) + Gathered(insts, b)
    ensures |b| == 1 ==> Gathered(insts, b) == if b[0].zone in insts then insts[b[0].zone] else []
  {
    hide *;
    NothingScheduled(insts, map[], "");
    if b == [] {
      assert a + b == a;
    } else {
      var c, d := b[..|b| - 1], b[|b| - 1];
      GatheredMeans(insts, a, c);
      GatheredPush(insts, a + c, d);
      GatheredPush(insts, c, d);
      assert c + [d] == b && a + c + [d] == a + b;
      assert |b| == 1 ==> c == [];
    }
  }

  lemma TotalsPush(ws: map<string, seq<int>>, ds: seq<Dest>, d: Dest)
    ensures Totals(ws, ds + [d]) == Totals(ws, ds) + if d.zone in ws then [Wrap(Sum(ws[d.zone]))] else []
  {
    if d.zone in ws { WrapSumIs(ws[d.zone]); }
    hide WrapSum, Wrap, Sum;
    assert (ds + [d])[..|ds|] == ds;
  }

  /** Their totals, zone after zone, in int64 arithmetic. */
  lemma {:induction false} TotalsMean(ws: map<string, seq<int>>, a: seq<Dest>, b: seq<Dest>)
    ensures Totals(ws, []) == [] && Totals(ws, a + b) == Totals(ws, a) + Totals(ws, b)
    ensures |b| == 1 ==> Totals(ws, b) == if b[0].zone in ws then [Wrap(Sum(ws[b[0].zone]))] else []
  {
    hide *;
    NothingScheduled(map[], ws, "");
    if b == [] {
      assert a + b == a;
    } else {
      var c, d := b[..|b| - 1], b[|b| - 1];
      TotalsMean(ws, a, c);
      TotalsPush(ws, a + c, d);
      TotalsPush(ws, c, d);
      assert c + [d] == b && a + c + [d] == a + b;
      assert |b| == 1 ==> c == [];
    }
  }

  /** A zone that is scheduled more than once gets the factor of its last entry. */
  lemma {:induction false} LastFactor(ds: seq<Dest>, ts: seq<int>, product: int, n: nat, i: nat)
    requires i < n <= |ds| && n <= |ts| && forall k :: 0 <= k < n ==> ts[k] != 0
    requires forall k :: i < k < n ==> ds[k].zone != ds[i].zone
    ensures var f := Factors(ds, ts, product, n);
            ds[i].zone in f && f[ds[i].zone] == Factor(ds[i].weight, product, ts[i])
  {
    if i < n - 1 { LastFactor(ds, ts, product, n - 1, i); }
  }

  /** Only scheduled zones have a factor; an instance labelled otherwise keeps its weight, written out. */
  lemma {:induction false} OtherZones(ds: seq<Dest>, ts: seq<int>, product: int, n: nat, zone: string,
                                      entries: map<string, Bytes>)
    requires n <= |ds| && n <= |ts| && forall k :: 0 <= k < n ==> ts[k] != 0
    requires forall k :: 0 <= k < n ==> ds[k].zone != zone
    ensures zone !in Factors(ds, ts, product, n)
    ensures Rewritten(entries, zone, Factors(ds, ts, product, n))
            == entries[META_WEIGHT := Text(WeightIn(entries))]
  {
    if n > 0 { OtherZones(ds, ts, product, n - 1, zone, entries); }
  }

  lemma PanicCause(ws: map<string, seq<int>>, ds: seq<Dest>)
    ensures var ts := Totals(ws, ds);
            (|ds| <= |ts| && forall i :: 0 <= i < |ds| ==> ts[i] != 0)
            <==> forall i :: 0 <= i < |ds| ==> !BadZone(ws, ds[i])
  {
    TotalsOf(ws, ds);
  }

  lemma {:induction false} GatheredHas(insts: map<string, seq<Instance>>, ds: seq<Dest>, ins: Instance)
    ensures ins in Gathered(insts, ds) <==> exists i :: 0 <= i < |ds| && ds[i].zone in insts && ins in insts[ds[i].zone]
  {
    if ds != [] {
      var n := |ds| - 1;
      GatheredHas(insts, ds[..n], ins);
      assert forall i :: 0 <= i < n ==> ds[..n][i] == ds[i];
    }
  }

  // ---------------------------------------------------------------- zone shares

  /** True zone totals, without wrap-around. */
  function Sums(ws: map<string, seq<int>>, ds: seq<Dest>): (ts: seq<int>)
    requires forall i :: 0 <= i < |ds| ==> ds[i].zone in ws
  {
    seq(|ds|, i requires 0 <= i < |ds| => Sum(ws[ds[i].zone]))
  }

  /** Every scheduled zone is present once and has instances. */
  predicate Usable(ws: map<string, seq<int>>, ds: seq<Dest>)
  {
    && (forall i, j :: 0 <= i < j < |ds| ==> ds[i].zone != ds[j].zone)
    && (forall i :: 0 <= i < |ds| ==> ds[i].zone in ws && ws[ds[i].zone] != [] && Positive(ws[ds[i].zone]))
  }

  /** No int64 overflow: it is enough that the product of all totals and its scheduled multiples fit. */
  predicate Fits(ws: map<string, seq<int>>, ds: seq<Dest>)
    requires Usable(ws, ds)
  {
    InRange(Product(Sums(ws, ds))) && forall i :: 0 <= i < |ds| ==> InRange(ds[i].weight * Product(Sums(ws, ds)))
  }

  lemma SumsPositive(ws: map<string, seq<int>>, ds: seq<Dest>)
    requires Usable(ws, ds)
    ensures Positive(Sums(ws, ds))
  {
    forall i | 0 <= i < |ds| ensures Sums(ws, ds)[i] > 0 { SumBounds(ws[ds[i].zone], 0); }
  }

  /** Then the totals the code computes are the true ones. */
  lemma TotalsTrue(ws: map<string, seq<int>>, ds: seq<Dest>)
    requires Usable(ws, ds) && Fits(ws, ds)
    ensures Totals(ws, ds) == Sums(ws, ds)
  {
    hide Wrap;
    TotalsOf(ws, ds);
    SumsPositive(ws, ds);
    forall i | 0 <= i < |ds| ensures WrapSum(ws[ds[i].zone]) == Sum(ws[ds[i].zone]) {
      TotalBelowProduct(Sums(ws, ds), i);
      WrapSumIs(ws[ds[i].zone]);
    }
  }

  lemma {:induction false} FactorAt(ds: seq<Dest>, ts: seq<int>, product: int, n: nat, i: nat)
    requires i < n <= |ds| && n <= |ts| && forall k :: 0 <= k < n ==> ts[k] != 0
    requires forall k, l :: 0 <= k < l < |ds| ==> ds[k].zone != ds[l].zone
    ensures var f := Factors(ds, ts, product, n);
            ds[i].zone in f && f[ds[i].zone] == Factor(ds[i].weight, product, ts[i])
  {
    if i < n - 1 { FactorAt(ds, ts, product, n - 1, i); }
  }

  /** The factors of one call, from what it collected. */
  function FactorsOf(ws: map<string, seq<int>>, ds: seq<Dest>): map<string, int64>
    requires forall i :: 0 <= i < |ds| ==> !BadZone(ws, ds[i])
  {
    var ts := Totals(ws, ds);
    PanicCause(ws, ds);
    Factors(ds, ts, Wrap(Product(ts)), |ds|)
  }

  /**
   Without overflow nothing panics, every zone's factor is its scheduled weight times the other zones'
   totals, and its new weights sum to scheduled weight times the product of all totals.
   */
  lemma FactorsGiveShares(ws: map<string, seq<int>>, ds: seq<Dest>, i: nat)
    requires Usable(ws, ds) && Fits(ws, ds) && i < |ds|
    ensures forall k :: 0 <= k < |ds| ==> !BadZone(ws, ds[k])
    ensures var z, ts, f := ds[i].zone, Sums(ws, ds), FactorsOf(ws, ds);
            && z in f && f[z] == ds[i].weight * Others(ts, i)
            && Sum(Scaled(ws[z], f[z])) == ds[i].weight * Product(ts)
            && forall k :: 0 <= k < |ws[z]| ==> NewWeight(ws[z][k], z, f) == ws[z][k] * f[z]
  {
    var z, ts := ds[i].zone, Sums(ws, ds);
    SumsPositive(ws, ds);
    TotalsTrue(ws, ds);
    PanicCause(ws, ds);
    hide Wrap, Factor, TruncDiv, WrapSum, Sum, Product, Totals;
    FactorAt(ds, ts, Product(ts), |ds|, i);
    FactorExact(ds[i].weight, ts, i);
    ZoneShare(ds[i].weight, ts, i, ws[z]);
  }

  // ---------------------------------------------------------------- the whole call

  function Destinations(info: InstancesInfo, zone: string): seq<Dest> { Scheduled(info.Scheduler, zone) }

  function Chosen(info: InstancesInfo, zone: string): seq<Instance>
  {
    Gathered(info.Instances, Destinations(info, zone))
  }

  /** The int64 now written in each instance's metadata. */
  ghost function Stored(zins: seq<Instance>): (ws: seq<int>)
    reads set x | x in zins :: x.Metadata
    ensures |ws| == |zins|
    ensures forall i :: 0 <= i < |zins| && zins[i].Metadata != null && META_WEIGHT in zins[i].Metadata.entries ==>
                          ws[i] == ParseInt(zins[i].Metadata.entries[META_WEIGHT])
  {
    if zins == [] then [] else
      var m := zins[|zins| - 1].Metadata;
      Stored(zins[..|zins| - 1])
      + [if m != null && META_WEIGHT in m.entries then ParseInt(m.entries[META_WEIGHT]) else 0]
  }

  /** Each instance carries the key of its zone. */
  predicate Labelled(insts: map<string, seq<Instance>>)
  {
    forall z, i :: z in insts && 0 <= i < |insts[z]| ==> insts[z][i].Zone == z
  }

  /**
   Zone `i`'s weights now sum to its scheduled weight times the product of all totals, and each is the old
   weight times one common factor.
   */
  predicate ShareOf(was: seq<int>, weight: int, ts: seq<int>, i: nat, now: seq<int>)
    requires i < |ts|
  {
    && Sum(now) == weight * Product(ts)
    && now == Scaled(was, weight * Others(ts, i))
  }

  lemma ShareHolds(ws: map<string, seq<int>>, ds: seq<Dest>, i: nat, now: seq<int>)
    requires Usable(ws, ds) && Fits(ws, ds) && i < |ds| && |now| == |ws[ds[i].zone]|
    requires forall k :: 0 <= k < |ds| ==> !BadZone(ws, ds[k])
    requires forall k :: 0 <= k < |now| ==> now[k] == NewWeight(ws[ds[i].zone][k], ds[i].zone, FactorsOf(ws, ds))
    ensures ShareOf(ws[ds[i].zone], ds[i].weight, Sums(ws, ds), i, now)
  {
    hide Fits, FactorsOf, Product, Sum, Others, BadZone, NewWeight;
    FactorsGiveShares(ws, ds, i);
    assert now == Scaled(ws[ds[i].zone], ds[i].weight * Others(Sums(ws, ds), i));
  }

  lemma Readable(text: Bytes, w: int, zone: string, f: map<string, int64>)
    requires zone in f && text == Text(NewWeight(w, zone, f))
    ensures ParseInt(text) == NewWeight(w, zone, f)
  {
    ParseText(Wrap(w * f[zone]));
  }

  /** The zone's instances carry the texts of their new weights. */
  ghost predicate Written(zins: seq<Instance>, z: string, ws: seq<int>, f: map<string, int64>)
    reads set x | x in zins :: x.Metadata
  {
    && |ws| == |zins|
    && forall k :: 0 <= k < |zins| ==>
         && zins[k].Metadata != null && META_WEIGHT in zins[k].Metadata.entries
         && zins[k].Metadata.entries[META_WEIGHT] == Text(NewWeight(ws[k], z, f))
  }

  lemma ZoneWritten(zins: seq<Instance>, z: string, ws: seq<int>, f: map<string, int64>)
    requires Written(zins, z, ws, f) && z in f
    ensures forall k :: 0 <= k < |zins| ==> Stored(zins)[k] == NewWeight(ws[k], z, f)
  {
    hide ParseInt, NewWeight;
    forall k | 0 <= k < |zins| ensures Stored(zins)[k] == NewWeight(ws[k], z, f) {
      Readable(zins[k].Metadata.entries[META_WEIGHT], ws[k], z, f);
    }
  }

  /** Once the texts are written, every zone has its share. */
  lemma SharesWritten(insts: map<string, seq<Instance>>, ds: seq<Dest>, ws: map<string, seq<int>>, i: nat)
    requires Usable(ws, ds) && Fits(ws, ds) && i < |ds| && ds[i].zone in insts
    requires forall k :: 0 <= k < |ds| ==> !BadZone(ws, ds[k])
    requires Written(insts[ds[i].zone], ds[i].zone, ws[ds[i].zone], FactorsOf(ws, ds))
    ensures ShareOf(ws[ds[i].zone], ds[i].weight, Sums(ws, ds), i, Stored(insts[ds[i].zone]))
  {
    hide Fits, FactorsOf, BadZone, NewWeight, ShareOf, Stored;
    var z := ds[i].zone;
    FactorsGiveShares(ws, ds, i);
    ZoneWritten(insts[z], z, ws[z], FactorsOf(ws, ds));
    ShareHolds(ws, ds, i, Stored(insts[z]));
  }

  ghost function Metas(insts: map<string, seq<Instance>>): set<Metadata>
  {
    set z, x | z in insts && x in insts[z] && x.Metadata != null :: x.Metadata
  }

  /** The conditions under which the schedule is promised to work. */
  ghost predicate Promised(insts: map<string, seq<Instance>>, ds: seq<Dest>, ws: map<string, seq<int>>)
  {
    Usable(ws, ds) && Fits(ws, ds) && Labelled(insts) && Separate(Gathered(insts, ds))
  }

  lemma ChosenKnown(insts: map<string, seq<Instance>>, ds: seq<Dest>, inss: seq<Instance>)
    requires inss == Gathered(insts, ds)
    ensures (set x | x in inss && x.Metadata != null :: x.Metadata) <= Metas(insts)
    ensures forall i, k :: 0 <= i < |ds| && ds[i].zone in insts && 0 <= k < |insts[ds[i].zone]| ==>
            insts[ds[i].zone][k] in inss
  {
    hide Gathered;
    forall x | x in inss && x.Metadata != null ensures x.Metadata in Metas(insts) { GatheredHas(insts, ds, x); }
    forall i, k | 0 <= i < |ds| && ds[i].zone in insts && 0 <= k < |insts[ds[i].zone]|
      ensures insts[ds[i].zone][k] in inss
    {
      GatheredHas(insts, ds, insts[ds[i].zone][k]);
    }
  }

  lemma PromisedSafe(insts: map<string, seq<Instance>>, ds: seq<Dest>, ws: map<string, seq<int>>)
    requires Promised(insts, ds, ws)
    ensures forall k :: 0 <= k < |ds| ==> !BadZone(ws, ds[k])
  {
    if ds != [] { FactorsGiveShares(ws, ds, 0); }
  }

  /** What the rewriting leaves in a zone's instances. */
  lemma RewrittenIsWritten(zins: seq<Instance>, z: string, was: seq<map<string, Bytes>>, ws: seq<int>,
                           f: map<string, int64>)
    requires |was| == |zins| == |ws| && forall k :: 0 <= k < |zins| ==> ws[k] == WeightIn(was[k])
    requires forall k :: 0 <= k < |zins| ==>
             zins[k].Metadata != null && zins[k].Metadata.entries == Rewritten(was[k], z, f)
    ensures Written(zins, z, ws, f)
  {
    hide NewWeight, WeightIn;
  }

  ghost predicate AllShares(insts: map<string, seq<Instance>>, ds: seq<Dest>, ws: map<string, seq<int>>)
    reads Metas(insts)
  {
    && Usable(ws, ds)
    && forall i :: 0 <= i < |ds| ==>
         ds[i].zone in insts && ShareOf(ws[ds[i].zone], ds[i].weight, Sums(ws, ds), i, Stored(insts[ds[i].zone]))
  }

  /** The weights the zones had, read off the metadata the instances had. */
  ghost predicate Before(insts: map<string, seq<Instance>>, ds: seq<Dest>, ws: map<string, seq<int>>,
                         was: map<Instance, map<string, Bytes>>)
  {
    forall i :: 0 <= i < |ds| ==>
      && ds[i].zone in insts && ds[i].zone in ws && |ws[ds[i].zone]| == |insts[ds[i].zone]|
      && forall k :: 0 <= k < |insts[ds[i].zone]| ==>
           insts[ds[i].zone][k] in was && ws[ds[i].zone][k] == WeightIn(was[insts[ds[i].zone][k]])
  }

  lemma ReadBefore(insts: map<string, seq<Instance>>, ds: seq<Dest>, ws: map<string, seq<int>>, inss: seq<Instance>,
                   was: map<Instance, map<string, Bytes>>)
    requires ws == AllWeights(insts) && Usable(ws, ds) && inss == Gathered(insts, ds) && Separate(inss)
    requires was == map x | x in inss && x.Metadata != null :: x.Metadata.entries
    ensures Before(insts, ds, ws, was)
  {
    hide WeightIn, Gathered, Weights;
    ChosenKnown(insts, ds, inss);
  }

  lemma EveryShare(insts: map<string, seq<Instance>>, ds: seq<Dest>, ws: map<string, seq<int>>,
                   was: map<Instance, map<string, Bytes>>)
    requires Promised(insts, ds, ws) && Before(insts, ds, ws, was)
    requires forall k :: 0 <= k < |ds| ==> !BadZone(ws, ds[k])
    requires forall x :: x in was ==>
             x.Metadata != null && x.Metadata.entries == Rewritten(was[x], x.Zone, FactorsOf(ws, ds))
    ensures AllShares(insts, ds, ws)
  {
    hide BadZone, FactorsOf, Rewritten, WeightIn, ShareOf, Stored, Fits, Written, Separate;
    forall i | 0 <= i < |ds|
      ensures ds[i].zone in insts && ShareOf(ws[ds[i].zone], ds[i].weight, Sums(ws, ds), i, Stored(insts[ds[i].zone]))
    {
      var z := ds[i].zone;
      var zins := insts[z];
      var texts := seq(|zins|, k requires 0 <= k < |zins| => was[zins[k]]);
      RewrittenIsWritten(zins, z, texts, ws[z], FactorsOf(ws, ds));
      SharesWritten(insts, ds, ws, i);
    }
  }

  /** What the metadata of these instances holds. */
  ghost function Held(inss: seq<Instance>): map<Instance, map<string, Bytes>>
    reads set x | x in inss && x.Metadata != null :: x.Metadata
  {
    map x | x in inss && x.Metadata != null :: x.Metadata.entries
  }

  /**
   The texts the instances hold: everything as it was, and as weight the old one times the scheduled weight
   times the other zones' totals.
   */
  ghost predicate NewTexts(insts: map<string, seq<Instance>>, ds: seq<Dest>, ws: map<string, seq<int>>,
                           was: map<Instance, map<string, Bytes>>)
    reads Metas(insts)
  {
    && Usable(ws, ds)
    && forall i :: 0 <= i < |ds| ==>
         ds[i].zone in insts
         && TextsOf(insts[ds[i].zone], ws[ds[i].zone], ds[i].weight * Others(Sums(ws, ds), i), was)
  }

  ghost predicate TextsOf(zins: seq<Instance>, ws: seq<int>, factor: int, was: map<Instance, map<string, Bytes>>)
    reads set x | x in zins :: x.Metadata
  {
    && |ws| == |zins|
    && forall k :: 0 <= k < |zins| ==>
         && zins[k] in was && zins[k].Metadata != null
         && zins[k].Metadata.entries == was[zins[k]][META_WEIGHT := Text(ws[k] * factor)]
  }

  lemma EveryText(insts: map<string, seq<Instance>>, ds: seq<Dest>, ws: map<string, seq<int>>,
                  was: map<Instance, map<string, Bytes>>)
    requires Promised(insts, ds, ws) && Before(insts, ds, ws, was)
    requires forall k :: 0 <= k < |ds| ==> !BadZone(ws, ds[k])
    requires forall x :: x in was ==>
             x.Metadata != null && x.Metadata.entries == Rewritten(was[x], x.Zone, FactorsOf(ws, ds))
    ensures NewTexts(insts, ds, ws, was)
  {
    hide BadZone, FactorsOf, WeightIn, Fits, Separate, Others, NewWeight, Sum, Product;
    forall i | 0 <= i < |ds|
      ensures ds[i].zone in insts
              && TextsOf(insts[ds[i].zone], ws[ds[i].zone], ds[i].weight * Others(Sums(ws, ds), i), was)
    {
      FactorsGiveShares(ws, ds, i);
    }
  }

  lemma NoneScheduled(insts: map<string, seq<Instance>>, ds: seq<Dest>, ws: map<string, seq<int>>)
    requires ws == AllWeights(insts) && Gathered(insts, ds) == []
    ensures ds == [] || !Usable(ws, ds)
  {
    hide Gathered, Weights;
    if ds != [] && Usable(ws, ds) {
      GatheredHas(insts, ds, insts[ds[0].zone][0]);
      assert false;
    }
  }

  /** Multiply the totals, derive the factors, rewrite the weights. */
  method Reweigh(insts: map<string, seq<Instance>>, ds: seq<Dest>, ori: seq<int>, inss: seq<Instance>,
                 ghost ws: map<string, seq<int>>)
    returns (ok: bool)
    requires ws == AllWeights(insts) && ori == Totals(ws, ds) && inss == Gathered(insts, ds)
    modifies Metas(insts)
    ensures ok <==> (forall i :: 0 <= i < |ds| ==> !BadZone(ws, ds[i]))
                    && forall i :: 0 <= i < |inss| ==> inss[i].Metadata != null
    ensures ok ==> AllRewritten(old(Entries(inss)), inss, FactorsOf(ws, ds))
    ensures Promised(insts, ds, ws) ==> ok && AllShares(insts, ds, ws) && NewTexts(insts, ds, ws, old(Held(inss)))
  {
    hide Gathered, Totals, Factors, BadZone, Rewritten, RewrittenBy, AllWeights, Product, Wrap, Usable, Fits;
    hide Labelled, AllShares, AllRewritten, NewTexts;
    ghost var was := Held(inss);
    if Promised(insts, ds, ws) {
      PromisedSafe(insts, ds, ws);
      ReadBefore(insts, ds, ws, inss, was);
    }
    var comMulti := Multiply(ori);
    var fix;
    ok, fix := FixWeights(ds, ori, comMulti);
    PanicCause(ws, ds);
    if !ok { return; }
    ChosenKnown(insts, ds, inss);
    ok := Rewrite(inss, fix);
    if Promised(insts, ds, ws) {
      assert old(Entries(inss)) == seq(|inss|, i requires 0 <= i < |inss| => was[inss[i]]);
      OnceEach(inss, was, fix);
      EveryShare(insts, ds, ws, was);
      EveryText(insts, ds, ws, was);
    }
  }

  lemma OnceEach(inss: seq<Instance>, was: map<Instance, map<string, Bytes>>, fix: map<string, int64>)
    requires Separate(inss) && forall x :: x in was ==> x in inss
    requires forall i :: 0 <= i < |inss| ==> inss[i] in was
    requires AllRewritten(seq(|inss|, i requires 0 <= i < |inss| => was[inss[i]]), inss, fix)
    ensures forall x :: x in was ==>
      x.Metadata != null && x.Metadata.entries == Rewritten(was[x], x.Zone, fix)
  {
    hide RewrittenBy, Rewritten;
    forall x | x in was ensures x.Metadata != null && x.Metadata.entries == Rewritten(was[x], x.Zone, fix) {
      var i :| 0 <= i < |inss| && inss[i] == x;
      RewrittenOnce(was[x], inss, i, fix);
    }
  }

  /**
   The instances a caller in `zone` should use, with their weights rewritten by the schedule. Without
   scheduled instances: those of the zone itself, or all of them, as they are.
   */
  method UseScheduler(info: InstancesInfo, zone: string) returns (r: Outcome, ghost order: seq<string>)
    modifies Metas(info.Instances)
    ensures Chosen(info, zone) == [] ==>
              && unchanged(Metas(info.Instances)) && r.Returned?
              && if zone in info.Instances then r.inss == info.Instances[zone]
                 else Visits(info.Instances, order) && r.inss == Flatten(info.Instances, order)
    ensures var inss, ds, ws := Chosen(info, zone), Destinations(info, zone), old(AllWeights(info.Instances));
            inss != [] ==>
              && (r.Panic? <==> (exists i :: 0 <= i < |ds| && BadZone(ws, ds[i]))
                                || exists i :: 0 <= i < |inss| && inss[i].Metadata == null)
              && (r.Returned? ==> r.inss == inss)
              && (r.Returned? ==> AllRewritten(old(Entries(Chosen(info, zone))), inss, FactorsOf(ws, ds)))
    ensures var ds, ws := Destinations(info, zone), old(AllWeights(info.Instances));
            Promised(info.Instances, ds, ws) && ds != [] ==>
              && r == Returned(Chosen(info, zone)) && AllShares(info.Instances, ds, ws)
              && NewTexts(info.Instances, ds, ws, old(Held(Chosen(info, zone))))
  {
    hide NewTexts, Held, Gathered, Scheduled, Totals, Factors, BadZone, Rewritten, AllRewritten, Weights, Product, Wrap;
    order := [];
    ghost var ws, was := AllWeights(info.Instances), Entries(Chosen(info, zone));
    var ds, ori, inss := Collect(info, zone, ws);
    assert Entries(inss) == was;
    if |inss| == 0 {
      NoneScheduled(info.Instances, ds, ws);
      if zone in info.Instances { return Returned(info.Instances[zone]), order; }
      var all;
      all, order := Everything(info.Instances);
      return Returned(all), order;
    }
    var ok := Reweigh(info.Instances, ds, ori, inss, ws);
    return if ok then Returned(inss) else Panic, order;
  }

  /** One scheduled zone has an instance and another has none. */
  method EmptyZonePanics(full: string, empty: string, weight: int64) returns (r: Outcome)
    requires full != empty
    ensures r == Panic
  {
    var meta := new Metadata(map[]);
    var ins := new Instance(full, meta);
    var dst := [Dest(full, weight), Dest(empty, weight)];
    var info := InstancesInfo(map[full := [ins], empty := []], [Zone(full, dst)]);
    OneRule(full, dst);
    TwoZones(info.Instances, full, empty, weight);
    ghost var ws := AllWeights(info.Instances);
    assert ws[empty] == [] && WrapSum([]) == 0;
    assert BadZone(ws, dst[1]);
    hide Scheduled, Gathered, BadZone;
    ghost var order;
    r, order := UseScheduler(info, full);
  }

  lemma OneRule(src: string, dst: seq<Dest>)
    ensures Scheduled([Zone(src, dst)], src) == dst
  {
    assert [Zone(src, dst)][..0] == [];
    assert [] + dst == dst;
  }

  lemma TwoZones(insts: map<string, seq<Instance>>, a: string, b: string, weight: int64)
    requires a in insts && b in insts && |insts[a]| == 1 && insts[b] == []
    ensures Gathered(insts, [Dest(a, weight), Dest(b, weight)]) == insts[a]
  {
    var ds := [Dest(a, weight), Dest(b, weight)];
    assert ds[..1] == [Dest(a, weight)] && ds[..1][..0] == [];
    assert Gathered(insts, ds[..1]) == insts[a];
  }

  lemma OneZone(insts: map<string, seq<Instance>>, z: string, weight: int64)
    requires z in insts
    ensures Gathered(insts, [Dest(z, weight)]) == insts[z]
  {
    assert [Dest(z, weight)][..0] == [];
    assert [] + insts[z] == insts[z];
  }

  /** With one zone scheduled, its factor is the scheduled weight. */
  lemma OneFactor(ws: map<string, seq<int>>, z: string, k: int64, a: int, b: int)
    requires z in ws && ws[z] == [a, b] && a > 0 && b > 0 && InRange(a + b) && InRange(k * (a + b))
    ensures var ds := [Dest(z, k)];
            Usable(ws, ds) && Sums(ws, ds) == [a + b] && Others(Sums(ws, ds), 0) == 1 && Fits(ws, ds)
  {
    var ds := [Dest(z, k)];
    assert [a, b][..1] == [a] && [a][..0] == [];
    assert Sum([]) == 0 && Sum([a]) == a && Sum([a, b]) == a + b;
    var ts := [a + b];
    assert Sums(ws, ds) == ts && ts[..0] == [] && Product([]) == 1 && Product(ts) == a + b;
  }

  /** Two instances of one zone, one without a weight and one with weight `n`. */
  ghost predicate Mixed(insts: map<string, seq<Instance>>, zone: string, a: Instance, b: Instance, n: int)
    reads a.Metadata, b.Metadata
  {
    && insts == map[zone := [a, b]] && a.Zone == b.Zone == zone && a.Metadata != null && b.Metadata != null
    && a.Metadata != b.Metadata
    && a.Metadata.entries == map[] && b.Metadata.entries == map[META_WEIGHT := Text(n)]
  }

  lemma MixedWeights(insts: map<string, seq<Instance>>, zone: string, a: Instance, b: Instance, n: int64)
    requires Mixed(insts, zone, a, b, n) && n > 0
    ensures AllWeights(insts) == map[zone := [10, n]]
  {
    var nothing: map<string, Bytes> := map[];
    WeightMeans(nothing, n);
    assert nothing[META_WEIGHT := Text(n)] == b.Metadata.entries;
    assert InRange(n);
    assert WeightOf(a.Metadata) == 10 && WeightOf(b.Metadata) == n;
    hide WeightIn, WeightOf;
    var zins := [a, b];
    assert Weights(zins)[0] == WeightOf(zins[0].Metadata) && Weights(zins)[1] == WeightOf(zins[1].Metadata);
    assert Weights(zins) == [10, n];
    assert AllWeights(insts).Keys == {zone};
  }

  lemma MixedPromised(insts: map<string, seq<Instance>>, zone: string, a: Instance, b: Instance, n: int64, k: int64)
    requires Mixed(insts, zone, a, b, n) && n > 0 && InRange(10 + n) && InRange(k * (10 + n))
    ensures var ds, ws := [Dest(zone, k)], AllWeights(insts);
            Promised(insts, ds, ws) && ws == map[zone := [10, n]] && Others(Sums(ws, ds), 0) == 1
            && Gathered(insts, ds) == [a, b]
  {
    MixedSeparate(insts, zone, a, b, n);
    hide *;
    MixedWeights(insts, zone, a, b, n);
    OneFactor(map[zone := [10, n]], zone, k, 10, n);
    OneZone(insts, zone, k);
    PromisedIs(insts, [Dest(zone, k)], AllWeights(insts));
  }

  lemma MixedSeparate(insts: map<string, seq<Instance>>, zone: string, a: Instance, b: Instance, n: int)
    requires Mixed(insts, zone, a, b, n)
    ensures Separate([a, b]) && Labelled(insts) && zone in insts && insts[zone] == [a, b]
  {
  }

  lemma PromisedIs(insts: map<string, seq<Instance>>, ds: seq<Dest>, ws: map<string, seq<int>>)
    requires Usable(ws, ds) && Fits(ws, ds) && Labelled(insts) && Separate(Gathered(insts, ds))
    ensures Promised(insts, ds, ws)
  {
    hide Usable, Fits, Labelled, Separate, Gathered;
  }

  lemma MixedTexts(insts: map<string, seq<Instance>>, zone: string, a: Instance, b: Instance, n: int, k: int64,
                   was: map<Instance, map<string, Bytes>>)
    requires insts == map[zone := [a, b]] && a in was && b in was
    requires was[a] == map[] && was[b] == map[META_WEIGHT := Text(n)]
    requires var ds, ws := [Dest(zone, k)], map[zone := [10, n]];
             NewTexts(insts, ds, ws, was) && Others(Sums(ws, ds), 0) == 1
    ensures a.Metadata != null && a.Metadata.entries == map[META_WEIGHT := Text(10 * k)]
    ensures b.Metadata != null && b.Metadata.entries == map[META_WEIGHT := Text(n * k)]
  {
    hide Others, Usable;
    var ds, ws := [Dest(zone, k)], map[zone := [10, n]];
    assert TextsOf([a, b], [10, n], ds[0].weight * Others(Sums(ws, ds), 0), was);
    assert [a, b][0] == a && [a, b][1] == b && [10, n][0] == 10 && [10, n][1] == n;
    assert map[META_WEIGHT := Text(n)][META_WEIGHT := Text(n * k)] == map[META_WEIGHT := Text(n * k)];
  }

  /**
   A zone with an instance that has no weight and one that has weight `n`, scheduled with weight `k`:
   afterwards they weigh `10 * k` and `n * k`.
   */
  method MixedZone(zone: string, n: int64, k: int64) returns (r: Outcome, plain: Metadata, weighted: Metadata)
    requires n > 0 && InRange(10 + n) && InRange(k * (10 + n))
    ensures r.Returned?
    ensures plain.entries == map[META_WEIGHT := Text(10 * k)] && weighted.entries == map[META_WEIGHT := Text(n * k)]
  {
    hide *;
    var info, a, b;
    info, a, b, plain, weighted := TwoInstances(zone, n, k);
    MixedCall(info, zone, a, b, n, k);
    ghost var was, order := Held([a, b]), [];
    r, order := UseScheduler(info, zone);
    MixedTexts(info.Instances, zone, a, b, n, k, was);
  }

  method TwoInstances(zone: string, n: int64, k: int64)
    returns (info: InstancesInfo, a: Instance, b: Instance, plain: Metadata, weighted: Metadata)
    ensures fresh({plain, weighted}) && a.Metadata == plain && b.Metadata == weighted
    ensures Mixed(info.Instances, zone, a, b, n) && info.Scheduler == [Zone(zone, [Dest(zone, k)])]
  {
    plain := new Metadata(map[]);
    weighted := new Metadata(map[META_WEIGHT := Text(n)]);
    a := new Instance(zone, plain);
    b := new Instance(zone, weighted);
    info := InstancesInfo(map[zone := [a, b]], [Zone(zone, [Dest(zone, k)])]);
  }

  /** What the call finds. */
  lemma MixedCall(info: InstancesInfo, zone: string, a: Instance, b: Instance, n: int64, k: int64)
    requires Mixed(info.Instances, zone, a, b, n) && info.Scheduler == [Zone(zone, [Dest(zone, k)])]
    requires n > 0 && InRange(10 + n) && InRange(k * (10 + n))
    ensures Destinations(info, zone) == [Dest(zone, k)] && Chosen(info, zone) == [a, b]
    ensures Promised(info.Instances, [Dest(zone, k)], AllWeights(info.Instances))
    ensures AllWeights(info.Instances) == map[zone := [10, n]]
    ensures var ds, ws := [Dest(zone, k)], map[zone := [10, n]]; Others(Sums(ws, ds), 0) == 1
    ensures Metas(info.Instances) <= {a.Metadata, b.Metadata}
    ensures Held([a, b]) == map[a := map[], b := map[META_WEIGHT := Text(n)]]
  {
    MixedHeld(info.Instances, zone, a, b, n);
    CallIs(info, zone);
    hide *;
    OneRule(zone, [Dest(zone, k)]);
    MixedPromised(info.Instances, zone, a, b, n, k);
  }

  lemma CallIs(info: InstancesInfo, zone: string)
    ensures Destinations(info, zone) == Scheduled(info.Scheduler, zone)
    ensures Chosen(info, zone) == Gathered(info.Instances, Destinations(info, zone))
  {
  }

  lemma MixedHeld(insts: map<string, seq<Instance>>, zone: string, a: Instance, b: Instance, n: int)
    requires Mixed(insts, zone, a, b, n)
    ensures Metas(insts) <= {a.Metadata, b.Metadata}
    ensures Held([a, b]) == map[a := map[], b := map[META_WEIGHT := Text(n)]]
  {
    hide Text;
  }
}
