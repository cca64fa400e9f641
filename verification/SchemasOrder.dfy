/** For given registrations: in which order a result is computed again, and when it is the same. */
module SchemasOrder {
  import opened Wrappers
  import opened Schemas
  import opened SchemasProofs

  // ------------------------------------------------------------------
  // Computing again goes bucket by bucket
  // ------------------------------------------------------------------

  /** The types of one bucket after the other. */
  function InBuckets(buckets: seq<Bucket>): seq<Type> {
    if buckets == [] then [] else InBuckets(buckets[..|buckets| - 1]) + buckets[|buckets| - 1].types
  }

  /** Nothing in the buckets refers to a type that is not in them. */
  ghost predicate Settled(w: World, buckets: seq<Bucket>)
    requires Sound(w) && Shape(w, buckets)
  {
    forall i, r | 0 <= i < |buckets| && r in RefsOf(w, KnownTypes(w, buckets, i)) :: r in w.owner && Has(w, buckets, r)
  }

  ghost function KnownTypes(w: World, buckets: seq<Bucket>, i: nat): (ts: seq<Type>)
    requires Shape(w, buckets) && i < |buckets|
    ensures Known(w, ts) && ts == buckets[i].types
  {
    assert Orderly(w, buckets[i]);
    buckets[i].types
  }

  lemma {:induction false} NothingToRegister(w: World, buckets: seq<Bucket>, ts: seq<Type>)
    requires Known(w, ts) && forall i | 0 <= i < |ts| :: Has(w, buckets, ts[i])
    ensures RegisterAll(w, buckets, ts) == buckets
    decreases |ts|
  {
    if ts != [] {
      NothingToRegister(w, buckets, ts[..|ts| - 1]);
    }
  }

  lemma NothingNew(w: World, buckets: seq<Bucket>, i: nat)
    requires Sound(w) && Shape(w, buckets) && Settled(w, buckets) && i < |buckets|
    ensures RegisterAll(w, buckets, RefsOf(w, KnownTypes(w, buckets, i))) == buckets
  {
    var rs := RefsOf(w, KnownTypes(w, buckets, i));
    hide Shape, Sound, RegisterAll, Has, RefsOf;
    forall k | 0 <= k < |rs|
      ensures Has(w, buckets, rs[k])
    {
      assert rs[k] in rs;
    }
    NothingToRegister(w, buckets, rs);
  }

  lemma SettledVisit(w: World, s: Work, i: nat)
    requires Inv(w, s) && Settled(w, s.buckets) && i < |s.buckets| && s.buckets[i].adapter !in s.done
    ensures var b, t := s.buckets[i], Visit(w, s, i);
      && t.buckets == s.buckets && t.handed == s.handed + b.types && Done(t, b.adapter) == |b.types|
      && forall a | a != b.adapter :: (a in t.done <==> a in s.done) && Done(t, a) == Done(s, a)
  {
    NothingNew(w, s.buckets, i);
    hide RegisterAll, Has, Prefixes, Matched, Followed, RefsOf, Settled, Sound, Shape, Inv;
    assert s.buckets[i].types[0..] == s.buckets[i].types;
  }

  /** The pass has done the buckets before `i`, and has not begun with the others. */
  ghost predicate Halfway(s: Work, i: nat) {
    && i <= |s.buckets| && s.handed == InBuckets(s.buckets[..i])
    && (forall j | 0 <= j < i :: Done(s, s.buckets[j].adapter) == |s.buckets[j].types|)
    && (forall j | i <= j < |s.buckets| :: s.buckets[j].adapter !in s.done)
  }

  lemma HalfwayOn(w: World, s: Work, i: nat)
    requires Inv(w, s) && Settled(w, s.buckets) && Halfway(s, i) && i < |s.buckets|
    ensures Visit(w, s, i).buckets == s.buckets && Halfway(Visit(w, s, i), i + 1)
  {
    SettledVisit(w, s, i);
    OtherAdapters(w, s.buckets, i);
    hide Visit, Inv, Settled;
    assert s.buckets[..i + 1][..i] == s.buckets[..i];
  }

  lemma OtherAdapters(w: World, buckets: seq<Bucket>, i: nat)
    requires Shape(w, buckets) && i < |buckets|
    ensures forall j | 0 <= j < |buckets| && j != i :: buckets[j].adapter != buckets[i].adapter
  {
  }

  lemma {:induction false} SettledPass(w: World, s: Work, i: nat)
    requires Inv(w, s) && Settled(w, s.buckets) && Halfway(s, i)
    ensures var t := Pass(w, s, i, |s.buckets|); t.buckets == s.buckets && Halfway(t, |s.buckets|)
    decreases |s.buckets| - i
  {
    hide Settled, Visit, Halfway;
    HalfwayEnds(s, i);
    if i < |s.buckets| {
      VisitKeeps(w, s, i);
      HalfwayOn(w, s, i);
      hide Inv;
      SettledPass(w, Visit(w, s, i), i + 1);
    }
  }

  lemma HalfwayEnds(s: Work, i: nat)
    requires Halfway(s, i)
    ensures i <= |s.buckets|
    ensures i == |s.buckets| ==> Drained(s) && s.handed == InBuckets(s.buckets)
  {
    assert s.buckets[..|s.buckets|] == s.buckets;
  }

  lemma {:induction false} IdlePass(w: World, s: Work, i: nat, n: nat)
    requires Inv(w, s) && Drained(s)
    ensures Pass(w, s, i, n) == s
    decreases n - i
  {
    if i < n {
      IdleVisit(w, s, i);
      VisitKeeps(w, s, i);
      hide Inv, Visit, Drained;
      IdlePass(w, s, i + 1, n);
    }
  }

  lemma IdleVisit(w: World, s: Work, i: nat)
    requires Inv(w, s) && Drained(s)
    ensures Visit(w, s, i) == s
  {
  }

  lemma EndIsSettled(w: World, s: Work)
    requires Inv(w, s) && Drained(s)
    ensures Settled(w, s.buckets)
  {
    HandedIsRegistered(w, s);
    KnownHanded(w, s);
    forall i, r | 0 <= i < |s.buckets| && r in RefsOf(w, KnownTypes(w, s.buckets, i))
      ensures r in w.owner && Has(w, s.buckets, r)
    {
      var ts := KnownTypes(w, s.buckets, i);
      RefsAre(w, ts, r);
      var j :| 0 <= j < |ts| && r in w.refs[ts[j]];
      InBucketIsHanded(w, s, i, j);
      RefIsThere(w, s, ts[j], r);
    }
  }

  lemma InBucketIsHanded(w: World, s: Work, i: nat, j: nat)
    requires Inv(w, s) && Elements(s.handed) == Registered(w, s.buckets)
    requires i < |s.buckets| && j < |s.buckets[i].types|
    ensures s.buckets[i].types[j] in s.handed
  {
    var t := s.buckets[i].types[j];
    assert Orderly(w, s.buckets[i]);
    FindIs(s.buckets, s.buckets[i].adapter, i);
    assert t in Registered(w, s.buckets);
    assert t in Elements(s.handed);
  }

  lemma RefIsThere(w: World, s: Work, t: Type, r: Type)
    requires Inv(w, s) && t in s.handed && t in w.refs && r in w.refs[t]
    ensures r in w.owner && Has(w, s.buckets, r)
  {
    hide Has, Matched, Prefixes, Shape;
    var k :| 0 <= k < |s.handed| && s.handed[k] == t;
    var j :| 0 <= j < |w.refs[t]| && w.refs[t][j] == r;
    assert w.refs[s.handed[k]][j] == r;
  }

  /** Computing a result again hands out the types bucket by bucket, in one pass. */
  lemma AgainInBuckets(w: World, buckets: seq<Bucket>)
    requires Sound(w) && Shape(w, buckets)
    ensures var end := Answer(w, buckets);
      Shape(w, end.buckets) && Answer(w, end.buckets).handed == InBuckets(end.buckets)
  {
    StartIsSound(w, buckets);
    DrainDrains(w, Start(buckets));
    var end := Answer(w, buckets);
    EndIsSettled(w, end);
    SettledAnswer(w, end.buckets);
  }

  lemma SettledAnswer(w: World, buckets: seq<Bucket>)
    requires Sound(w) && Shape(w, buckets) && Settled(w, buckets)
    ensures Answer(w, buckets).handed == InBuckets(buckets)
  {
    var s := Start(buckets);
    StartIsSound(w, buckets);
    assert Halfway(s, 0);
    SettledPass(w, s, 0);
    var p := Pass(w, s, 0, |buckets|);
    HalfwayEnds(p, |buckets|);
    hide Inv, Settled, Halfway, Shape, Sound;
    DrainStep(w, s);
    if p.handed != s.handed {
      IdlePass(w, p, 0, |p.buckets|);
      DrainStep(w, p);
    }
  }

  // ------------------------------------------------------------------
  // Who has the last word
  // ------------------------------------------------------------------

  /** The schema that the last type with a component of that name gives it. */
  function LastWord(bodies: Type -> map<string, Schema>, ts: seq<Type>, name: string): Option<Schema> {
    if ts == [] then None
    else if name in bodies(ts[|ts| - 1]) then Some(bodies(ts[|ts| - 1])[name])
    else LastWord(bodies, ts[..|ts| - 1], name)
  }

  lemma {:induction false} MergedIsLastWord(bodies: Type -> map<string, Schema>, ts: seq<Type>, name: string)
    ensures LastWord(bodies, ts, name)
         == if name in Merged(bodies, ts) then Some(Merged(bodies, ts)[name]) else None
    decreases |ts|
  {
    if ts != [] {
      MergedIsLastWord(bodies, ts[..|ts| - 1], name);
    }
  }

  ghost predicate SameLastWords(bodies: Type -> map<string, Schema>, s: seq<Type>, t: seq<Type>) {
    forall name: string :: LastWord(bodies, s, name) == LastWord(bodies, t, name)
  }

  /** Merging two sequences of types gives the same exactly when the last words are the same. */
  lemma MergedAgree(bodies: Type -> map<string, Schema>, s: seq<Type>, t: seq<Type>)
    ensures Merged(bodies, s) == Merged(bodies, t) <==> SameLastWords(bodies, s, t)
  {
    var a, b := Merged(bodies, s), Merged(bodies, t);
    if a == b {
      forall name
        ensures LastWord(bodies, s, name) == LastWord(bodies, t, name)
      {
        MergedIsLastWord(bodies, s, name);
        MergedIsLastWord(bodies, t, name);
      }
    }
    if SameLastWords(bodies, s, t) {
      forall name: string
        ensures name in a <==> name in b
        ensures name in a ==> a[name] == b[name]
      {
        MergedIsLastWord(bodies, s, name);
        MergedIsLastWord(bodies, t, name);
        assert LastWord(bodies, s, name) == LastWord(bodies, t, name);
      }
      assert a == b;
    }
  }

  /**
   For any registrations: the cached result is what computing it again gives exactly when, for each
   name, the last type discovered and the last type in the buckets give it the same schema.
   */
  lemma SameAgainExactlyWhen(w: World, buckets: seq<Bucket>, bodies: Type -> map<string, Schema>)
    requires Sound(w) && Shape(w, buckets)
    ensures Shape(w, Answer(w, buckets).buckets)
    ensures var end := Answer(w, buckets);
      Merged(bodies, Answer(w, end.buckets).handed) == Merged(bodies, end.handed) <==>
      SameLastWords(bodies, InBuckets(end.buckets), end.handed)
  {
    AgainInBuckets(w, buckets);
    var end := Answer(w, buckets);
    hide Inv, Sound, Shape, Answer, Merged, SameLastWords, InBuckets;
    MergedAgree(bodies, InBuckets(end.buckets), end.handed);
  }
}
