/** What the loop of `components` computes. */
module SchemasProofs {
  import opened Wrappers
  import opened Schemas

  // ------------------------------------------------------------------
  // The end of the loop
  // ------------------------------------------------------------------

  /** Every bucket has been handed out completely. */
  ghost predicate Drained(s: Work) {
    forall i | 0 <= i < |s.buckets| :: Done(s, s.buckets[i].adapter) == |s.buckets[i].types|
  }

  lemma {:induction false} NoProgress(w: World, s: Work, i: nat, n: nat)
    requires Inv(w, s) && n <= |s.buckets| && Pass(w, s, i, n).handed == s.handed
    ensures Pass(w, s, i, n) == s
    ensures forall j | i <= j < n :: Done(s, s.buckets[j].adapter) == |s.buckets[j].types|
    decreases n - i
  {
    if i < n {
      VisitKeeps(w, s, i);
      var v := Visit(w, s, i);
      hide Inv, Visit;
      assert s.handed <= v.handed <= Pass(w, v, i + 1, n).handed;
      NoProgress(w, s, i + 1, n);
    }
  }

  lemma {:induction false} DrainDrains(w: World, s: Work)
    requires Inv(w, s)
    ensures Inv(w, Drain(w, s)) && Drained(Drain(w, s))
    ensures Grows(s.buckets, Drain(w, s).buckets)
    decreases w.owner.Keys - Elements(s.handed)
  {
    var p := Pass(w, s, 0, |s.buckets|);
    if p.handed == s.handed {
      NoProgress(w, s, 0, |s.buckets|);
    } else {
      ProgressShrinks(w, s, p);
      DrainDrains(w, p);
      GrowsOn(s.buckets, p.buckets, Drain(w, p).buckets);
    }
  }

  // ------------------------------------------------------------------
  // The least closed set
  // ------------------------------------------------------------------

  ghost predicate Closed(w: World, ts: set<Type>)
    requires Sound(w)
  {
    forall t <- ts, i | t in w.refs && 0 <= i < |w.refs[t]| :: w.refs[t][i] in ts
  }

  ghost predicate Within(w: World, buckets: seq<Bucket>, ts: set<Type>) {
    forall i | 0 <= i < |buckets| :: forall j | 0 <= j < |buckets[i].types| :: buckets[i].types[j] in ts
  }

  lemma {:induction false} RegisterAllWithin(w: World, buckets: seq<Bucket>, rs: seq<Type>, ts: set<Type>)
    requires Known(w, rs) && Within(w, buckets, ts) && forall i | 0 <= i < |rs| :: rs[i] in ts
    ensures Within(w, RegisterAll(w, buckets, rs), ts)
    decreases |rs|
  {
    if rs != [] {
      RegisterAllWithin(w, buckets, rs[..|rs| - 1], ts);
    }
  }

  lemma VisitWithin(w: World, s: Work, i: nat, ts: set<Type>)
    requires Inv(w, s) && Within(w, s.buckets, ts) && Closed(w, ts)
    ensures Within(w, Visit(w, s, i).buckets, ts)
  {
    if i < |s.buckets| && Done(s, s.buckets[i].adapter) < |s.buckets[i].types| {
      var pending := Pending(s, i);
      PendingIsFresh(w, s, i);
      hide Has, Matched, Followed, Shape;
      var rs := RefsOf(w, pending);
      forall k | 0 <= k < |rs|
        ensures rs[k] in ts
      {
        RefsAre(w, pending, rs[k]);
        var j :| 0 <= j < |pending| && rs[k] in w.refs[pending[j]];
        assert pending[j] in ts;
      }
      RegisterAllWithin(w, s.buckets, rs, ts);
    }
  }

  lemma {:induction false} PassWithin(w: World, s: Work, i: nat, n: nat, ts: set<Type>)
    requires Inv(w, s) && Within(w, s.buckets, ts) && Closed(w, ts)
    ensures Within(w, Pass(w, s, i, n).buckets, ts)
    decreases n - i
  {
    hide Within, Visit, Closed, Sound, Shape, Grows, Prefixes, Matched, Followed;
    if i < n {
      VisitKeeps(w, s, i);
      VisitWithin(w, s, i, ts);
      PassWithin(w, Visit(w, s, i), i + 1, n, ts);
    }
  }

  lemma {:induction false} DrainWithin(w: World, s: Work, ts: set<Type>)
    requires Inv(w, s) && Within(w, s.buckets, ts) && Closed(w, ts)
    ensures Within(w, Drain(w, s).buckets, ts)
    decreases w.owner.Keys - Elements(s.handed)
  {
    hide Inv, Within;
    var p := Pass(w, s, 0, |s.buckets|);
    PassWithin(w, s, 0, |s.buckets|, ts);
    if p.handed != s.handed {
      ProgressShrinks(w, s, p);
      DrainWithin(w, p, ts);
    }
  }

  /** The types in the buckets. */
  ghost function Registered(w: World, buckets: seq<Bucket>): set<Type> {
    set t | t in w.owner.Keys && Has(w, buckets, t)
  }

  /** The start of a call of `components`. */
  function Start(buckets: seq<Bucket>): Work {
    Work(buckets, map[], [])
  }

  lemma StartIsSound(w: World, buckets: seq<Bucket>)
    requires Sound(w) && Shape(w, buckets)
    ensures Inv(w, Start(buckets))
  {
  }

  lemma HandedIsRegistered(w: World, s: Work)
    requires Inv(w, s) && Drained(s)
    ensures Elements(s.handed) == Registered(w, s.buckets)
  {
    hide Followed, Sound, Shape, Prefixes;
    assert Known(w, s.handed) by { assert Prefixes(w, s); KnownHanded(w, s); }
    forall t | t in w.owner
      ensures t in s.handed <==> Has(w, s.buckets, t)
    {
      var i := Find(s.buckets, w.owner[t]);
      if i < |s.buckets| {
        assert s.buckets[i].types[..|s.buckets[i].types|] == s.buckets[i].types;
      }
    }
  }

  lemma KnownHanded(w: World, s: Work)
    requires Prefixes(w, s)
    ensures Known(w, s.handed) && Distinct(s.handed)
  {
  }

  /**
   `components` hands every registered type to its adapter, exactly once; and what is registered in
   the end is the least set that holds what was asked for and is closed under references.
   */
  lemma LeastClosedSet(w: World, buckets: seq<Bucket>)
    requires Sound(w) && Shape(w, buckets)
    ensures Inv(w, Start(buckets))
    ensures var end := Drain(w, Start(buckets));
      && Distinct(end.handed)
      && Elements(end.handed) == Registered(w, end.buckets)
      && Registered(w, buckets) <= Registered(w, end.buckets)
      && Closed(w, Registered(w, end.buckets))
      && forall ts: set<Type> :: Registered(w, buckets) <= ts && Closed(w, ts) ==> Registered(w, end.buckets) <= ts
  {
    var start := Start(buckets);
    StartIsSound(w, buckets);
    var end := Drain(w, start);
    DrainDrains(w, start);
    HandedIsRegistered(w, end);
    KnownHanded(w, end);
    StillRegistered(w, buckets, end.buckets);
    RegisteredIsClosed(w, end);
    hide Inv, Shape, Has, Registered, Closed, Grows;
    forall ts: set<Type> | Registered(w, buckets) <= ts && Closed(w, ts)
      ensures Registered(w, end.buckets) <= ts
    {
      RegisteredWithin(w, buckets, ts);
      DrainWithin(w, start, ts);
      WithinRegistered(w, end.buckets, ts);
    }
  }

  lemma StillRegistered(w: World, a: seq<Bucket>, b: seq<Bucket>)
    requires Grows(a, b)
    ensures Registered(w, a) <= Registered(w, b)
  {
    forall t | t in w.owner && Has(w, a, t)
      ensures Has(w, b, t)
    {
      FindGrows(a, b, w.owner[t]);
      var i := Find(a, w.owner[t]);
      assert a[i].types <= b[i].types;
    }
  }

  lemma RegisteredIsClosed(w: World, s: Work)
    requires Inv(w, s) && Elements(s.handed) == Registered(w, s.buckets)
    ensures Closed(w, Registered(w, s.buckets))
  {
    hide Has, Shape, Matched;
    KnownHanded(w, s);
    forall t, i | t in Registered(w, s.buckets) && t in w.refs && 0 <= i < |w.refs[t]|
      ensures w.refs[t][i] in Registered(w, s.buckets)
    {
      assert t in Elements(s.handed);
      var k :| 0 <= k < |s.handed| && s.handed[k] == t;
    }
  }

  lemma RegisteredWithin(w: World, buckets: seq<Bucket>, ts: set<Type>)
    requires Shape(w, buckets) && Registered(w, buckets) <= ts
    ensures Within(w, buckets, ts)
  {
    forall i, j | 0 <= i < |buckets| && 0 <= j < |buckets[i].types|
      ensures buckets[i].types[j] in ts
    {
      var t := buckets[i].types[j];
      assert Orderly(w, buckets[i]);
      FindIs(buckets, buckets[i].adapter, i);
      assert t in Registered(w, buckets);
    }
  }

  lemma WithinRegistered(w: World, buckets: seq<Bucket>, ts: set<Type>)
    requires Within(w, buckets, ts)
    ensures Registered(w, buckets) <= ts
  {
  }

  // ------------------------------------------------------------------
  // The cached result
  // ------------------------------------------------------------------

  /** The outcome of a call of `components` that finds no cached result. */
  ghost function Answer(w: World, buckets: seq<Bucket>): (end: Work)
    requires Sound(w) && Shape(w, buckets)
    ensures Inv(w, end)
  {
    StartIsSound(w, buckets);
    Drain(w, Start(buckets))
  }

  /** Types that give the same name to a component give it the same schema. */
  ghost predicate Consistent(bodies: Type -> map<string, Schema>, ts: set<Type>) {
    forall t <- ts, u <- ts, name | name in bodies(t) && name in bodies(u) :: bodies(t)[name] == bodies(u)[name]
  }

  lemma {:induction false} MergedIs(bodies: Type -> map<string, Schema>, ts: seq<Type>, name: string)
    ensures name in Merged(bodies, ts) <==> exists t <- ts :: name in bodies(t)
    ensures Consistent(bodies, Elements(ts)) ==>
              forall t <- ts :: name in bodies(t) ==> Merged(bodies, ts)[name] == bodies(t)[name]
    decreases |ts|
  {
    if ts != [] {
      var front, last := ts[..|ts| - 1], ts[|ts| - 1];
      MergedIs(bodies, front, name);
      assert ts == front + [last];
      assert forall t :: t in ts <==> t in front || t == last;
      assert Elements(front) <= Elements(ts);
      if Consistent(bodies, Elements(ts)) && name in bodies(last) {
        assert forall t <- ts :: name in bodies(t) ==> t in Elements(ts);
      }
    }
  }

  lemma OrderIsIrrelevant(bodies: Type -> map<string, Schema>, a: seq<Type>, b: seq<Type>)
    requires Elements(a) == Elements(b) && Consistent(bodies, Elements(a))
    ensures Merged(bodies, a) == Merged(bodies, b)
  {
    assert forall t :: t in a <==> t in Elements(a);
    assert forall t :: t in b <==> t in Elements(b);
    hide Merged, Consistent, Elements;
    forall name: string
      ensures name in Merged(bodies, a) <==> name in Merged(bodies, b)
      ensures name in Merged(bodies, a) ==> Merged(bodies, a)[name] == Merged(bodies, b)[name]
    {
      MergedIs(bodies, a, name);
      MergedIs(bodies, b, name);
    }
  }

  /** Computing once more registers nothing more. */
  lemma AgainIsStable(w: World, buckets: seq<Bucket>)
    requires Sound(w) && Shape(w, buckets)
    ensures var end := Answer(w, buckets);
      && Shape(w, end.buckets)
      && Elements(Answer(w, end.buckets).handed) == Elements(end.handed)
  {
    LeastClosedSet(w, buckets);
    var end := Answer(w, buckets);
    LeastClosedSet(w, end.buckets);
    hide Inv, Registered, Closed, Drain;
  }

  /** With consistent names a cached result is what computing it again would give. */
  lemma CachedIsRecomputed(w: World, buckets: seq<Bucket>, bodies: Type -> map<string, Schema>)
    requires Sound(w) && Shape(w, buckets) && Consistent(bodies, Elements(Answer(w, buckets).handed))
    ensures Shape(w, Answer(w, buckets).buckets)
    ensures Merged(bodies, Answer(w, Answer(w, buckets).buckets).handed) == Merged(bodies, Answer(w, buckets).handed)
  {
    AgainIsStable(w, buckets);
    OrderIsIrrelevant(bodies, Answer(w, buckets).handed, Answer(w, Answer(w, buckets).buckets).handed);
  }

  /** Whatever the types refer to and whoever owns them, a cached result is what would be computed again. */
  ghost predicate Reproducible(bodies: Type -> map<string, Schema>) {
    forall w: World, requests: seq<Type> | Sound(w) && Known(w, requests) ::
      CachedAgrees(w, requests, bodies)
  }

  ghost predicate CachedAgrees(w: World, requests: seq<Type>, bodies: Type -> map<string, Schema>)
    requires Sound(w) && Known(w, requests)
  {
    RegisterAllKeeps(w, [], requests);
    var end := Answer(w, RegisterAll(w, [], requests));
    Merged(bodies, Answer(w, end.buckets).handed) == Merged(bodies, end.handed)
  }

  /** `x` refers to `y`, which shares the adapter of `a`. */
  function Clash(x: Type, y: Type, a: Type): World {
    World(map[a := 0, y := 0, x := 1], map[a := [], y := [], x := [y]])
  }

  function Before(x: Type, a: Type): seq<Bucket> {
    [Bucket(0, [a]), Bucket(1, [x])]
  }

  function Behind(x: Type, y: Type, a: Type): seq<Bucket> {
    [Bucket(0, [a, y]), Bucket(1, [x])]
  }

  lemma ClashIsSound(x: Type, y: Type, a: Type)
    requires x != y && a != x && a != y
    ensures Sound(Clash(x, y, a)) && Known(Clash(x, y, a), [a, x])
    ensures RegisterAll(Clash(x, y, a), [], [a, x]) == Before(x, a)
    ensures Shape(Clash(x, y, a), Before(x, a)) && Shape(Clash(x, y, a), Behind(x, y, a))
  {
    var w := Clash(x, y, a);
    assert [a, x][..1] == [a] && [a][..0] == [];
    assert Register(w, [], a) == [Bucket(0, [a])];
    FindIs([Bucket(0, [a])], 1, 1);
    assert Register(w, [Bucket(0, [a])], x) == Before(x, a);
    assert RegisterAll(w, [], [a]) == [Bucket(0, [a])];
  }

  lemma RegisterY(x: Type, y: Type, a: Type)
    requires x != y && a != x && a != y
    ensures Register(Clash(x, y, a), Before(x, a), y) == Behind(x, y, a)
    ensures Register(Clash(x, y, a), Behind(x, y, a), y) == Behind(x, y, a)
  {
    FindIs(Before(x, a), 0, 0);
    FindIs(Behind(x, y, a), 0, 0);
    assert [a] + [y] == [a, y];
    assert Before(x, a)[0 := Bucket(0, [a, y])] == Behind(x, y, a);
  }

  lemma RefsOfOne(w: World, t: Type)
    requires Sound(w) && t in w.owner
    ensures Known(w, [t]) && RefsOf(w, [t]) == w.refs[t]
  {
    assert [t][..0] == [];
  }

  lemma RefsOfTwo(w: World, t: Type, u: Type)
    requires Sound(w) && t in w.owner && u in w.owner
    ensures Known(w, [t, u]) && RefsOf(w, [t, u]) == w.refs[t] + w.refs[u]
  {
    assert [t, u][..1] == [t];
    RefsOfOne(w, t);
  }

  lemma RegisterOne(w: World, buckets: seq<Bucket>, t: Type)
    requires t in w.owner
    ensures Known(w, [t]) && RegisterAll(w, buckets, [t]) == Register(w, buckets, t)
  {
    assert [t][..0] == [];
  }

  /** The first computation: `a`, then `x`, and in a second pass `y`. */
  function First(x: Type, y: Type, a: Type, k: nat): Work {
    if k == 0 then Start(Before(x, a))
    else if k == 1 then Work(Before(x, a), map[0 := 1], [a])
    else if k == 2 then Work(Behind(x, y, a), map[0 := 1, 1 := 1], [a, x])
    else Work(Behind(x, y, a), map[0 := 2, 1 := 1], [a, x, y])
  }

  /** Computing again: `a` and `y`, then `x`. */
  function Second(x: Type, y: Type, a: Type, k: nat): Work {
    if k == 0 then Start(Behind(x, y, a))
    else if k == 1 then Work(Behind(x, y, a), map[0 := 2], [a, y])
    else Work(Behind(x, y, a), map[0 := 2, 1 := 1], [a, y, x])
  }

  lemma FirstVisits(x: Type, y: Type, a: Type)
    requires x != y && a != x && a != y
    ensures var w := Clash(x, y, a);
      && Sound(w) && Shape(w, Before(x, a)) && Shape(w, Behind(x, y, a))
      && Visit(w, First(x, y, a, 0), 0) == First(x, y, a, 1)
      && Visit(w, First(x, y, a, 1), 1) == First(x, y, a, 2)
      && Visit(w, First(x, y, a, 2), 0) == First(x, y, a, 3)
  {
    var w := Clash(x, y, a);
    ClashIsSound(x, y, a);
    RegisterY(x, y, a);
    RegisterOne(w, Before(x, a), y);
    RefsOfOne(w, a);
    RefsOfOne(w, x);
    RefsOfOne(w, y);
    hide Sound, Shape, Register, RefsOf;
    assert [a][0..] == [a] && [x][0..] == [x] && [a, y][1..] == [y];
  }

  lemma SecondVisitsFirst(x: Type, y: Type, a: Type)
    requires x != y && a != x && a != y
    ensures var w := Clash(x, y, a);
      && Sound(w) && Shape(w, Behind(x, y, a)) && Visit(w, Second(x, y, a, 0), 0) == Second(x, y, a, 1)
  {
    var w := Clash(x, y, a);
    ClashIsSound(x, y, a);
    RefsOfTwo(w, a, y);
    hide Sound, Shape, Register, RefsOf;
    assert [a, y][0..] == [a, y];
  }

  lemma SecondVisitsLast(x: Type, y: Type, a: Type)
    requires x != y && a != x && a != y
    ensures var w := Clash(x, y, a);
      && Sound(w) && Shape(w, Behind(x, y, a)) && Visit(w, Second(x, y, a, 1), 1) == Second(x, y, a, 2)
  {
    var w := Clash(x, y, a);
    ClashIsSound(x, y, a);
    RegisterY(x, y, a);
    RegisterOne(w, Behind(x, y, a), y);
    RefsOfOne(w, x);
    hide Sound, Shape, Register, RefsOf;
    assert [x][0..] == [x];
  }

  lemma PassOfTwo(w: World, s: Work)
    requires Inv(w, s) && |s.buckets| == 2
    ensures Inv(w, Visit(w, s, 0)) && Pass(w, s, 0, 2) == Visit(w, Visit(w, s, 0), 1)
  {
    VisitKeeps(w, s, 0);
    hide Inv, Visit;
    assert Pass(w, s, 0, 2) == Pass(w, Visit(w, s, 0), 1, 2);
  }

  lemma DrainStep(w: World, s: Work)
    requires Inv(w, s)
    ensures var p := Pass(w, s, 0, |s.buckets|);
      Drain(w, s) == if p.handed == s.handed then p else Drain(w, p)
  {
  }

  lemma Finished(w: World, s: Work)
    requires Inv(w, s) && |s.buckets| == 2 && Visit(w, s, 0) == s && Visit(w, s, 1) == s
    ensures Drain(w, s) == s
  {
    PassOfTwo(w, s);
    DrainStep(w, s);
  }

  lemma FirstOrder(x: Type, y: Type, a: Type)
    requires x != y && a != x && a != y
    ensures var w := Clash(x, y, a);
      && Sound(w) && Shape(w, Before(x, a)) && Answer(w, Before(x, a)).handed == [a, x, y]
      && Answer(w, Before(x, a)).buckets == Behind(x, y, a)
  {
    var w := Clash(x, y, a);
    FirstVisits(x, y, a);
    StartIsSound(w, Before(x, a));
    var s0, s2, s3 := First(x, y, a, 0), First(x, y, a, 2), First(x, y, a, 3);
    assert Visit(w, s3, 1) == s3 && Visit(w, s3, 0) == s3;
    hide Inv, Sound, Shape, Visit, Drain, Pass;
    PassOfTwo(w, s0);
    DrainStep(w, s0);
    PassOfTwo(w, s2);
    DrainStep(w, s2);
    Finished(w, s3);
  }

  lemma SecondOrder(x: Type, y: Type, a: Type)
    requires x != y && a != x && a != y
    ensures var w := Clash(x, y, a);
      && Sound(w) && Shape(w, Behind(x, y, a)) && Answer(w, Behind(x, y, a)).handed == [a, y, x]
  {
    var w := Clash(x, y, a);
    SecondVisitsFirst(x, y, a);
    SecondVisitsLast(x, y, a);
    StartIsSound(w, Behind(x, y, a));
    var s0, s2 := Second(x, y, a, 0), Second(x, y, a, 2);
    assert Visit(w, s2, 1) == s2 && Visit(w, s2, 0) == s2;
    hide Inv, Sound, Shape, Visit, Drain, Pass;
    PassOfTwo(w, s0);
    DrainStep(w, s0);
    Finished(w, s2);
  }

  lemma LastWins(bodies: Type -> map<string, Schema>, front: seq<Type>, last: Type, name: string)
    requires name in bodies(last)
    ensures name in Merged(bodies, front + [last]) && Merged(bodies, front + [last])[name] == bodies(last)[name]
  {
    assert (front + [last])[..|front|] == front;
  }

  lemma ClashAnswers(bodies: Type -> map<string, Schema>, x: Type, y: Type, a: Type, name: string)
    requires x != y && a != x && a != y
    requires name in bodies(x) && name in bodies(y) && bodies(x)[name] != bodies(y)[name]
    ensures Sound(Clash(x, y, a)) && Known(Clash(x, y, a), [a, x])
    ensures !CachedAgrees(Clash(x, y, a), [a, x], bodies)
  {
    hide Inv, Sound, Shape, Known, Answer, Merged, RegisterAll, Clash, Before, Behind, Grows, Has;
    var w := Clash(x, y, a);
    ClashIsSound(x, y, a);
    FirstOrder(x, y, a);
    SecondOrder(x, y, a);
    LastWins(bodies, [a, x], y, name);
    LastWins(bodies, [a, y], x, name);
    assert [a, x] + [y] == [a, x, y] && [a, y] + [x] == [a, y, x];
  }

  /** Two types that disagree about a component make the cached result depend on the order of discovery. */
  lemma ClashShows(bodies: Type -> map<string, Schema>, x: Type, y: Type, name: string)
    requires name in bodies(x) && name in bodies(y) && bodies(x)[name] != bodies(y)[name]
    ensures !Reproducible(bodies)
  {
    hide CachedAgrees, Sound, Known, Clash;
    ClashAnswers(bodies, x, y, x + y + 1, name);
  }

  /** Cached results are reproducible, always, exactly when no two types clash over a name. */
  lemma ReproducibleExactlyWhenConsistent(bodies: Type -> map<string, Schema>)
    ensures Reproducible(bodies) <==>
              forall x: Type, y: Type, name | name in bodies(x) && name in bodies(y) ::
                bodies(x)[name] == bodies(y)[name]
  {
    if x: Type, y: Type, name :| name in bodies(x) && name in bodies(y) && bodies(x)[name] != bodies(y)[name] {
      ClashShows(bodies, x, y, name);
    } else {
      hide Inv, Sound, Shape, Known, Answer, Merged;
      forall w: World, requests: seq<Type> | Sound(w) && Known(w, requests)
        ensures CachedAgrees(w, requests, bodies)
      {
        NoneIsShaped(w);
        RegisterAllKeeps(w, [], requests);
        CachedIsRecomputed(w, RegisterAll(w, [], requests), bodies);
      }
    }
  }

  lemma NoneIsShaped(w: World)
    ensures Shape(w, [])
  {
  }
}
