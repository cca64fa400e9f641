/**
 The schema accumulator of `openapi/schemas.py`.  A type belongs to one adapter; an adapter that is
 handed a type reports the types it refers to, and the component schemas of that type.
 */
module Schemas {
  import opened Wrappers

  type Type = nat
  type Adapter = nat
  type Schema = nat

  /** A finite universe of types. */
  datatype World = World(owner: map<Type, Adapter>, refs: map<Type, seq<Type>>)

  ghost predicate Sound(w: World) {
    && w.owner.Keys == w.refs.Keys
    && forall t <- w.refs, i | 0 <= i < |w.refs[t]| :: w.refs[t][i] in w.refs
  }

  /** `_types_by_adapter`, in insertion order. */
  datatype Bucket = Bucket(adapter: Adapter, types: seq<Type>)

  function Find(buckets: seq<Bucket>, a: Adapter): (i: nat)
    ensures i <= |buckets| && (i < |buckets| ==> buckets[i].adapter == a)
    ensures forall j | 0 <= j < i :: buckets[j].adapter != a
  {
    if buckets == [] || buckets[0].adapter == a then 0 else Find(buckets[1..], a) + 1
  }

  predicate Has(w: World, buckets: seq<Bucket>, t: Type)
    requires t in w.owner
  {
    var i := Find(buckets, w.owner[t]);
    i < |buckets| && t in buckets[i].types
  }

  ghost predicate Distinct(ts: seq<Type>) {
    forall i, j | 0 <= i < j < |ts| :: ts[i] != ts[j]
  }

  ghost predicate Orderly(w: World, b: Bucket) {
    && Distinct(b.types)
    && forall i | 0 <= i < |b.types| :: b.types[i] in w.owner && w.owner[b.types[i]] == b.adapter
  }

  ghost predicate Shape(w: World, buckets: seq<Bucket>) {
    && (forall i, j | 0 <= i < j < |buckets| :: buckets[i].adapter != buckets[j].adapter)
    && (forall i | 0 <= i < |buckets| :: Orderly(w, buckets[i]))
  }

  /** `schema_for`: the type goes to the bucket of its adapter, unless it is there. */
  function Register(w: World, buckets: seq<Bucket>, t: Type): seq<Bucket>
    requires t in w.owner
  {
    var i := Find(buckets, w.owner[t]);
    if i == |buckets| then buckets + [Bucket(w.owner[t], [t])]
    else if t in buckets[i].types then buckets
    else buckets[i := buckets[i].(types := buckets[i].types + [t])]
  }

  ghost predicate Known(w: World, ts: seq<Type>) {
    forall i | 0 <= i < |ts| :: ts[i] in w.owner
  }

  function RegisterAll(w: World, buckets: seq<Bucket>, ts: seq<Type>): seq<Bucket>
    requires Known(w, ts)
  {
    if ts == [] then buckets else Register(w, RegisterAll(w, buckets, ts[..|ts| - 1]), ts[|ts| - 1])
  }

  /** What an adapter refers to while it renders some types. */
  function RefsOf(w: World, ts: seq<Type>): (r: seq<Type>)
    requires Sound(w) && Known(w, ts)
    ensures Known(w, r)
  {
    if ts == [] then [] else RefsOf(w, ts[..|ts| - 1]) + w.refs[ts[|ts| - 1]]
  }

  /** The work of one call of `components`: the buckets, `processed`, and everything handed out. */
  datatype Work = Work(buckets: seq<Bucket>, done: map<Adapter, nat>, handed: seq<Type>)

  function Done(s: Work, a: Adapter): nat {
    if a in s.done then s.done[a] else 0
  }

  /** One turn of the inner loop. */
  function Visit(w: World, s: Work, i: nat): Work
    requires Sound(w) && Shape(w, s.buckets)
  {
    if i >= |s.buckets| then s
    else
      var b := s.buckets[i];
      var start := Done(s, b.adapter);
      if start >= |b.types| then s
      else
        assert Known(w, b.types[start..]) by { assert Orderly(w, b); }
        Work(RegisterAll(w, s.buckets, RefsOf(w, b.types[start..])),
             s.done[b.adapter := |b.types|], s.handed + b.types[start..])
  }

  /** `schemas.update(…)` for one type after the other. */
  function Merged(bodies: Type -> map<string, Schema>, ts: seq<Type>): map<string, Schema> {
    if ts == [] then map[] else Merged(bodies, ts[..|ts| - 1]) + bodies(ts[|ts| - 1])
  }

  // ------------------------------------------------------------------
  // What every step keeps
  // ------------------------------------------------------------------

  /** Only types that are registered have been handed out, in the order of their bucket. */
  ghost predicate Prefixes(w: World, s: Work) {
    && (forall i | 0 <= i < |s.buckets| :: Done(s, s.buckets[i].adapter) <= |s.buckets[i].types|)
    && (forall a <- s.done :: Find(s.buckets, a) < |s.buckets|)
    && Known(w, s.handed) && Distinct(s.handed)
  }

  ghost predicate Processed(w: World, s: Work, t: Type)
    requires t in w.owner
  {
    var i := Find(s.buckets, w.owner[t]);
    i < |s.buckets| && Done(s, w.owner[t]) <= |s.buckets[i].types| && t in s.buckets[i].types[..Done(s, w.owner[t])]
  }

  /** Exactly the processed types have been handed out. */
  ghost predicate Matched(w: World, s: Work) {
    forall t <- w.owner :: t in s.handed <==> Processed(w, s, t)
  }

  /** What a type handed out refers to is registered. */
  ghost predicate Followed(w: World, s: Work)
    requires Sound(w) && Known(w, s.handed)
  {
    forall i, j | 0 <= i < |s.handed| && 0 <= j < |w.refs[s.handed[i]]| :: Has(w, s.buckets, w.refs[s.handed[i]][j])
  }

  ghost predicate Inv(w: World, s: Work) {
    Sound(w) && Shape(w, s.buckets) && Prefixes(w, s) && Matched(w, s) && Followed(w, s)
  }

  /** Buckets only grow, at their end. */
  ghost predicate Grows(a: seq<Bucket>, b: seq<Bucket>) {
    && |a| <= |b|
    && forall i | 0 <= i < |a| :: b[i].adapter == a[i].adapter && a[i].types <= b[i].types
  }

  // ------------------------------------------------------------------
  // Registration
  // ------------------------------------------------------------------

  lemma FindIs(buckets: seq<Bucket>, a: Adapter, i: nat)
    requires i <= |buckets| && (i < |buckets| ==> buckets[i].adapter == a)
    requires forall j | 0 <= j < i :: buckets[j].adapter != a
    ensures Find(buckets, a) == i
  {
  }

  lemma FindGrows(a: seq<Bucket>, b: seq<Bucket>, x: Adapter)
    requires Grows(a, b) && Find(a, x) < |a|
    ensures Find(b, x) == Find(a, x)
  {
    FindIs(b, x, Find(a, x));
  }

  lemma RegisterShape(w: World, buckets: seq<Bucket>, t: Type)
    requires Shape(w, buckets) && t in w.owner
    ensures Shape(w, Register(w, buckets, t)) && Grows(buckets, Register(w, buckets, t))
  {
    var i, after := Find(buckets, w.owner[t]), Register(w, buckets, t);
    assert i < |buckets| ==> Orderly(w, buckets[i]);
    assert Orderly(w, after[i]);
  }

  lemma RegisterHas(w: World, buckets: seq<Bucket>, t: Type, u: Type)
    requires t in w.owner && u in w.owner
    ensures Has(w, Register(w, buckets, t), u) <==> Has(w, buckets, u) || u == t
  {
    var j, after := Find(buckets, w.owner[u]), Register(w, buckets, t);
    if j < |buckets| {
      FindIs(after, w.owner[u], j);
    } else if w.owner[u] == w.owner[t] {
      FindIs(after, w.owner[u], |buckets|);
    } else {
      FindIs(after, w.owner[u], |after|);
    }
  }

  /** Registering a type adds it, and nothing else. */
  lemma RegisterKeeps(w: World, buckets: seq<Bucket>, t: Type)
    requires Shape(w, buckets) && t in w.owner
    ensures Shape(w, Register(w, buckets, t)) && Grows(buckets, Register(w, buckets, t))
    ensures forall u <- w.owner :: Has(w, Register(w, buckets, t), u) <==> Has(w, buckets, u) || u == t
  {
    hide Shape, Register, Has, Grows;
    RegisterShape(w, buckets, t);
    forall u | u in w.owner
      ensures Has(w, Register(w, buckets, t), u) <==> Has(w, buckets, u) || u == t
    {
      RegisterHas(w, buckets, t, u);
    }
  }

  lemma {:induction false} RegisterAllKeeps(w: World, buckets: seq<Bucket>, ts: seq<Type>)
    requires Shape(w, buckets) && Known(w, ts)
    ensures Shape(w, RegisterAll(w, buckets, ts)) && Grows(buckets, RegisterAll(w, buckets, ts))
    ensures forall u <- w.owner :: Has(w, RegisterAll(w, buckets, ts), u) <==> Has(w, buckets, u) || u in ts
    decreases |ts|
  {
    hide Has, Shape, Register;
    if ts != [] {
      var front, last := ts[..|ts| - 1], ts[|ts| - 1];
      RegisterAllKeeps(w, buckets, front);
      RegisterKeeps(w, RegisterAll(w, buckets, front), last);
      assert ts == front + [last];
    }
  }

  // ------------------------------------------------------------------
  // One turn
  // ------------------------------------------------------------------

  lemma {:induction false} RefsAre(w: World, ts: seq<Type>, r: Type)
    requires Sound(w) && Known(w, ts)
    ensures r in RefsOf(w, ts) <==> exists i :: 0 <= i < |ts| && r in w.refs[ts[i]]
    decreases |ts|
  {
    if ts != [] {
      var n := |ts| - 1;
      RefsAre(w, ts[..n], r);
      if i :| 0 <= i < |ts| && r in w.refs[ts[i]] {
        assert i < n ==> ts[..n][i] == ts[i];
      }
    }
  }

  /** The types a turn hands out. */
  ghost function Pending(s: Work, i: nat): seq<Type>
    requires i < |s.buckets| && Done(s, s.buckets[i].adapter) <= |s.buckets[i].types|
  {
    s.buckets[i].types[Done(s, s.buckets[i].adapter)..]
  }

  lemma Split(ts: seq<Type>, n: nat, t: Type)
    requires Distinct(ts) && n <= |ts|
    ensures t in ts[n..] <==> t in ts && t !in ts[..n]
    ensures Distinct(ts[n..])
  {
    assert ts == ts[..n] + ts[n..];
    if k :| 0 <= k < |ts| && ts[k] == t {
      if k < n {
        assert ts[..n][k] == t;
      } else {
        assert ts[n..][k - n] == t;
      }
    }
  }

  lemma Owned(w: World, b: Bucket, t: Type)
    requires Orderly(w, b) && t in b.types
    ensures t in w.owner && w.owner[t] == b.adapter
  {
  }

  lemma PendingIs(w: World, s: Work, i: nat, t: Type)
    requires Shape(w, s.buckets) && i < |s.buckets| && Done(s, s.buckets[i].adapter) <= |s.buckets[i].types|
    ensures t in Pending(s, i) <==> t in s.buckets[i].types && t in w.owner && !Processed(w, s, t)
    ensures Distinct(Pending(s, i)) && Known(w, Pending(s, i))
  {
    var b := s.buckets[i];
    FindIs(s.buckets, b.adapter, i);
    assert Orderly(w, b);
    Split(b.types, Done(s, b.adapter), t);
    if t in b.types {
      Owned(w, b, t);
    }
  }

  lemma PendingIsFresh(w: World, s: Work, i: nat)
    requires Inv(w, s) && i < |s.buckets|
    ensures Done(s, s.buckets[i].adapter) <= |s.buckets[i].types|
    ensures Known(w, Pending(s, i)) && Distinct(s.handed + Pending(s, i))
    ensures forall t <- w.owner :: t in Pending(s, i) <==> t in s.buckets[i].types && !Processed(w, s, t)
  {
    hide Followed, Sound, Processed, Shape;
    assert Known(w, s.handed) && Distinct(s.handed);
    PendingIs(w, s, i, 0);
    forall t: Type
      ensures t in Pending(s, i) <==> t in s.buckets[i].types && t in w.owner && !Processed(w, s, t)
    {
      PendingIs(w, s, i, t);
    }
    var all, n := s.handed + Pending(s, i), |s.handed|;
    forall j, k | 0 <= j < k < |all|
      ensures all[j] != all[k]
    {
      if k < n {
        assert all[j] == s.handed[j] && all[k] == s.handed[k];
      } else if n <= j {
        assert all[j] == Pending(s, i)[j - n] && all[k] == Pending(s, i)[k - n];
      } else {
        assert all[j] == s.handed[j] && all[k] == Pending(s, i)[k - n];
        assert all[j] in s.handed && all[k] in Pending(s, i);
      }
    }
  }

  /** A turn that hands something out, seen from outside. */
  ghost predicate Turned(w: World, s: Work, i: nat, t: Work) {
    && i < |s.buckets|
    && Grows(s.buckets, t.buckets)
    && t.done == s.done[s.buckets[i].adapter := |s.buckets[i].types|]
  }

  lemma VisitTurns(w: World, s: Work, i: nat)
    requires Inv(w, s) && i < |s.buckets| && Done(s, s.buckets[i].adapter) < |s.buckets[i].types|
    ensures Shape(w, Visit(w, s, i).buckets) && Turned(w, s, i, Visit(w, s, i))
    ensures Visit(w, s, i).handed == s.handed + Pending(s, i)
  {
    PendingIs(w, s, i, 0);
    RegisterAllKeeps(w, s.buckets, RefsOf(w, Pending(s, i)));
    hide Shape, Prefixes, Matched, Followed, RegisterAll, Has, Sound;
  }

  lemma Bounded(w: World, s: Work, i: nat, t: Work, j: nat)
    requires Shape(w, s.buckets) && Prefixes(w, s) && Turned(w, s, i, t) && Shape(w, t.buckets) && j < |t.buckets|
    ensures Done(t, t.buckets[j].adapter) <= |t.buckets[j].types|
  {
    hide Orderly, Distinct;
    var a := t.buckets[j].adapter;
    if j < |s.buckets| {
      assert s.buckets[j].types <= t.buckets[j].types;
    } else {
      forall k | 0 <= k < |s.buckets|
        ensures s.buckets[k].adapter != a
      {
        assert t.buckets[k].adapter == s.buckets[k].adapter;
      }
      FindIs(s.buckets, a, |s.buckets|);
    }
  }

  lemma Located(w: World, s: Work, i: nat, t: Work, a: Adapter)
    requires Shape(w, s.buckets) && Prefixes(w, s) && Turned(w, s, i, t) && a in t.done
    ensures Find(t.buckets, a) < |t.buckets|
  {
    hide Orderly, Distinct;
    FindIs(s.buckets, s.buckets[i].adapter, i);
    FindGrows(s.buckets, t.buckets, a);
  }

  lemma VisitPrefixes(w: World, s: Work, i: nat)
    requires Inv(w, s) && i < |s.buckets| && Done(s, s.buckets[i].adapter) < |s.buckets[i].types|
    ensures Prefixes(w, Visit(w, s, i))
  {
    var t := Visit(w, s, i);
    assert Known(w, s.handed);
    PendingIsFresh(w, s, i);
    VisitTurns(w, s, i);
    hide Visit, Shape, Sound, Matched, Followed, Turned, Pending, Processed, Grows;
    forall j | 0 <= j < |t.buckets|
      ensures Done(t, t.buckets[j].adapter) <= |t.buckets[j].types|
    {
      Bounded(w, s, i, t, j);
    }
    forall a | a in t.done
      ensures Find(t.buckets, a) < |t.buckets|
    {
      Located(w, s, i, t, a);
    }
    assert Known(w, t.handed);
  }

  lemma TurnProcesses(w: World, s: Work, i: nat, t: Work, u: Type)
    requires Shape(w, s.buckets) && Prefixes(w, s) && Turned(w, s, i, t) && u in w.owner
    ensures Processed(w, t, u) <==> Processed(w, s, u) || u in s.buckets[i].types
  {
    var b, a := s.buckets[i], w.owner[u];
    assert Orderly(w, b);
    FindIs(s.buckets, b.adapter, i);
    if u in b.types {
      Owned(w, b, u);
    }
    hide Orderly, Distinct, Shape;
    var k := Find(s.buckets, a);
    if k < |s.buckets| {
      FindGrows(s.buckets, t.buckets, a);
      SameStart(s.buckets[k].types, t.buckets[k].types, Done(t, a));
      SameStart(s.buckets[k].types, t.buckets[k].types, Done(s, a));
      assert b.types[..|b.types|] == b.types;
    }
  }

  lemma SameStart(a: seq<Type>, b: seq<Type>, n: nat)
    requires a <= b
    ensures n <= |a| ==> a[..n] == b[..n]
  {
  }

  lemma VisitMatched(w: World, s: Work, i: nat)
    requires Inv(w, s) && i < |s.buckets| && Done(s, s.buckets[i].adapter) < |s.buckets[i].types|
    ensures Matched(w, Visit(w, s, i))
  {
    PendingIsFresh(w, s, i);
    VisitTurns(w, s, i);
    hide Processed, Followed, Prefixes, Shape, Sound, Visit, Pending, Turned;
    forall u | u in w.owner
      ensures u in Visit(w, s, i).handed <==> Processed(w, Visit(w, s, i), u)
    {
      TurnProcesses(w, s, i, Visit(w, s, i), u);
    }
  }

  lemma StillHas(w: World, s: Work, refs: seq<Type>, k: nat, j: nat)
    requires Sound(w) && Shape(w, s.buckets) && Known(w, s.handed) && Followed(w, s) && Known(w, refs)
    requires k < |s.handed| && j < |w.refs[s.handed[k]]|
    ensures Has(w, RegisterAll(w, s.buckets, refs), w.refs[s.handed[k]][j])
  {
    RegisterAllKeeps(w, s.buckets, refs);
    hide Has, Shape, RegisterAll;
  }

  lemma NowHas(w: World, s: Work, ts: seq<Type>, k: nat, j: nat)
    requires Sound(w) && Shape(w, s.buckets) && Known(w, ts) && k < |ts| && j < |w.refs[ts[k]]|
    ensures Has(w, RegisterAll(w, s.buckets, RefsOf(w, ts)), w.refs[ts[k]][j])
  {
    RegisterAllKeeps(w, s.buckets, RefsOf(w, ts));
    RefsAre(w, ts, w.refs[ts[k]][j]);
    hide Has, Shape, RegisterAll, RefsOf;
    assert w.refs[ts[k]][j] in w.refs[ts[k]];
  }

  lemma VisitFollowed(w: World, s: Work, i: nat)
    requires Inv(w, s) && i < |s.buckets| && Done(s, s.buckets[i].adapter) < |s.buckets[i].types|
    requires Known(w, Visit(w, s, i).handed)
    ensures Followed(w, Visit(w, s, i))
  {
    hide RegisterAll, Has, Shape, Matched, RefsOf;
    PendingIsFresh(w, s, i);
    var t, pending := Visit(w, s, i), Pending(s, i);
    assert t.buckets == RegisterAll(w, s.buckets, RefsOf(w, pending)) && t.handed == s.handed + pending;
    assert Known(w, s.handed);
    hide Visit, Prefixes, Pending;
    forall k, j | 0 <= k < |t.handed| && 0 <= j < |w.refs[t.handed[k]]|
      ensures Has(w, t.buckets, w.refs[t.handed[k]][j])
    {
      if k < |s.handed| {
        StillHas(w, s, RefsOf(w, pending), k, j);
      } else {
        NowHas(w, s, pending, k - |s.handed|, j);
      }
    }
  }

  /** Every turn keeps the invariant, only adds, and hands out what its bucket still held. */
  lemma VisitKeeps(w: World, s: Work, i: nat)
    requires Inv(w, s)
    ensures var t := Visit(w, s, i);
      && Inv(w, t) && Grows(s.buckets, t.buckets) && s.handed <= t.handed
      && (t.handed == s.handed ==>
            t == s && (i < |s.buckets| ==> Done(s, s.buckets[i].adapter) == |s.buckets[i].types|))
  {
    if i < |s.buckets| && Done(s, s.buckets[i].adapter) < |s.buckets[i].types| {
      VisitTurns(w, s, i);
      VisitPrefixes(w, s, i);
      VisitMatched(w, s, i);
      VisitFollowed(w, s, i);
      hide Matched, Followed, Prefixes, Shape, Sound;
    } else {
      hide Matched, Followed, Shape, Sound;
    }
  }

  // ------------------------------------------------------------------
  // Passes
  // ------------------------------------------------------------------

  /** The inner loop, over the adapters there were when it began. */
  ghost function Pass(w: World, s: Work, i: nat, n: nat): (t: Work)
    requires Inv(w, s)
    ensures Inv(w, t) && Grows(s.buckets, t.buckets) && s.handed <= t.handed
    decreases n - i
  {
    if i >= n then s
    else
      VisitKeeps(w, s, i);
      var v := Visit(w, s, i);
      GrowsOn(s.buckets, v.buckets, Pass(w, v, i + 1, n).buckets);
      Pass(w, v, i + 1, n)
  }

  lemma GrowsOn(a: seq<Bucket>, b: seq<Bucket>, c: seq<Bucket>)
    ensures Grows(a, b) && Grows(b, c) ==> Grows(a, c)
  {
  }

  function Elements(ts: seq<Type>): set<Type> {
    set t <- ts
  }

  /** `components`: passes until one makes no progress. */
  ghost function Drain(w: World, s: Work): (t: Work)
    requires Inv(w, s)
    ensures Inv(w, t)
    decreases w.owner.Keys - Elements(s.handed)
  {
    var p := Pass(w, s, 0, |s.buckets|);
    if p.handed == s.handed then p
    else
      ProgressShrinks(w, s, p);
      Drain(w, p)
  }

  lemma ProgressShrinks(w: World, s: Work, p: Work)
    requires Inv(w, p) && s.handed <= p.handed && s.handed != p.handed
    ensures w.owner.Keys - Elements(p.handed) < w.owner.Keys - Elements(s.handed)
  {
    hide Matched, Followed, Shape, Sound;
    var t := p.handed[|s.handed|];
    assert t !in s.handed;
    assert t in Elements(p.handed) && t in w.owner.Keys;
    assert forall u :: u in Elements(s.handed) ==> u in Elements(p.handed);
  }
}
