/** How often a factory runs: what a scope has made it hands out again, unless it is falsy. */
module ServicesOnce {
  import opened Wrappers
  import opened Services
  import opened ServicesProofs
  import opened ServicesGuarantees

  // ------------------------------------------------------------------
  // At most one instance of a service in a scope
  // ------------------------------------------------------------------

  /** The types on a stack are the types in the cache. */
  ghost predicate StackIsCache(ls: seq<Level>) {
    forall k | 0 <= k < |ls| ::
      && (forall e <- ls[k].stack :: e.Service? && e.t in ls[k].services)
      && (forall t <- ls[k].services :: ls[k].services[t].Service? && ls[k].services[t].t == t)
  }

  predicate DistinctTypes(stack: seq<Instance>) {
    forall i, j | 0 <= i < j < |stack| :: stack[i].Service? && stack[j].Service? ==> stack[i].t != stack[j].t
  }

  /** No service has been made twice in any scope. */
  predicate Singles(ls: seq<Level>) {
    forall k | 0 <= k < |ls| :: DistinctTypes(ls[k].stack)
  }

  /** In some chain of scopes, the innermost provider can make an instance of `t` itself. */
  ghost predicate Makeable(reg: Registry, rank: Type -> nat, chain: seq<Type>, t: Type)
    requires Acyclic(reg, rank)
  {
    && chain != []
    && t != PROVIDER && t != chain[|chain| - 1] && (t, chain[|chain| - 1]) in reg
    && Denote(reg, chain, rank, |chain| - 1, t).Success?
  }

  /** No factory that can be run to its end is registered as making falsy instances. */
  ghost predicate MakesTruthy(reg: Registry, rank: Type -> nat)
    requires Acyclic(reg, rank)
  {
    forall chain, t | Makeable(reg, rank, chain, t) :: reg[(t, chain[|chain| - 1])].truthy
  }

  ghost predicate CachedTruthy(ls: seq<Level>) {
    forall k | 0 <= k < |ls| :: forall t <- ls[k].services :: Truthy(ls[k].services[t])
  }

  /** Only types ranked below `bound` have been added. */
  ghost predicate AddsBelow(ls: seq<Level>, ls': seq<Level>, rank: Type -> nat, bound: nat) {
    && |ls'| == |ls|
    && forall k | 0 <= k < |ls| :: forall t <- ls'[k].services :: t in ls[k].services || rank(t) < bound
  }

  ghost predicate Once(ls: seq<Level>) {
    StackIsCache(ls) && Singles(ls) && CachedTruthy(ls)
  }

  lemma {:induction false} ResolveOnce(reg: Registry, chain: seq<Type>, rank: Type -> nat, ls: seq<Level>,
                                       k: int, t: Type)
    requires Inv(reg, chain, rank, ls) && MakesTruthy(reg, rank) && Once(ls) && -1 <= k < |chain|
    ensures var (_, ls') := Resolve(reg, chain, rank, ls, k, t);
      Once(ls') && AddsBelow(ls, ls', rank, rank(t) + 1)
    decreases rank(t), 1, k + 1
  {
    assert App(reg, chain, rank, ls);
    hide Inv, Once;
    if k == -1 || t == PROVIDER || t == chain[k] || (t in ls[k].services && Truthy(ls[k].services[t])) {
    } else if (t, chain[k]) in reg {
      MakeOnce(reg, chain, rank, ls, k, t);
    } else {
      ResolveOnce(reg, chain, rank, ls, k - 1, t);
    }
  }

  lemma MakeOnce(reg: Registry, chain: seq<Type>, rank: Type -> nat, ls: seq<Level>, k: nat, t: Type)
    requires Inv(reg, chain, rank, ls) && MakesTruthy(reg, rank) && Once(ls) && k < |chain|
    requires t != PROVIDER && t != chain[k] && (t, chain[k]) in reg
    requires !(t in ls[k].services && Truthy(ls[k].services[t]))
    ensures var (_, ls') := Resolve(reg, chain, rank, ls, k, t);
      Once(ls') && AddsBelow(ls, ls', rank, rank(t) + 1)
    decreases rank(t), 1, 0
  {
    var d := reg[(t, chain[k])];
    ResolveAllOnce(reg, chain, rank, ls, k, d.deps, rank(t));
    ResolveMeans(reg, chain, rank, ls, k, t);
    var (args, ls1) := ResolveAll(reg, chain, rank, ls, k, d.deps, rank(t));
    if args.Success? && !d.raises {
      MadeIsTruthy(reg, chain, rank, k, t);
      NotYetCached(ls, ls1, rank, k, t);
      InsertOnce(ls1, k, t, Service(t, k, d.truthy, args.value));
    }
  }

  lemma NotYetCached(ls: seq<Level>, ls1: seq<Level>, rank: Type -> nat, k: nat, t: Type)
    requires Once(ls) && k < |ls| && AddsBelow(ls, ls1, rank, rank(t))
    requires !(t in ls[k].services && Truthy(ls[k].services[t]))
    ensures t !in ls1[k].services
  {
  }

  /** What a factory makes where it is registered is what can be made there. */
  lemma MadeIsTruthy(reg: Registry, chain: seq<Type>, rank: Type -> nat, k: nat, t: Type)
    requires Acyclic(reg, rank) && MakesTruthy(reg, rank) && k < |chain|
    requires t != PROVIDER && t != chain[k] && (t, chain[k]) in reg && Denote(reg, chain, rank, k, t).Success?
    ensures reg[(t, chain[k])].truthy
  {
    var outer := chain[..k + 1];
    assert outer + chain[k + 1..] == chain;
    DenoteIgnoresInner(reg, outer, rank, chain[k + 1..], k, t);
    assert Makeable(reg, rank, outer, t);
  }

  lemma {:induction false} ResolveAllOnce(reg: Registry, chain: seq<Type>, rank: Type -> nat, ls: seq<Level>, k: int,
                                          deps: seq<Type>, bound: nat)
    requires Inv(reg, chain, rank, ls) && MakesTruthy(reg, rank) && Once(ls) && -1 <= k < |chain|
    requires forall d <- deps :: rank(d) < bound
    ensures var (_, ls') := ResolveAll(reg, chain, rank, ls, k, deps, bound);
      Once(ls') && AddsBelow(ls, ls', rank, bound)
    decreases bound, 0, |deps|
  {
    assert App(reg, chain, rank, ls);
    hide Inv, Once, MakesTruthy, Resolve;
    if deps != [] {
      ResolveOnce(reg, chain, rank, ls, k, deps[0]);
      ResolveMeans(reg, chain, rank, ls, k, deps[0]);
      var (first, ls1) := Resolve(reg, chain, rank, ls, k, deps[0]);
      if first.Success? {
        ResolveAllOnce(reg, chain, rank, ls1, k, deps[1..], bound);
      }
    }
  }

  lemma InsertOnce(ls: seq<Level>, k: nat, t: Type, i: Instance)
    requires Once(ls) && k < |ls| && t !in ls[k].services && i.Service? && i.t == t && i.truthy
    ensures Once(Insert(ls, k, t, i))
  {
    var ls' := Insert(ls, k, t, i);
    assert forall e <- ls[k].stack :: e.t != t;
    assert DistinctTypes(ls'[k].stack);
  }

  /** The level at which a type is registered, as seen from level `k`; none for what is built in. */
  function Home(reg: Registry, chain: seq<Type>, k: int, t: Type): (h: Option<nat>)
    requires -1 <= k < |chain|
    ensures h.Some? ==> h.value <= k && (t, chain[h.value]) in reg
    decreases k + 1
  {
    if k == -1 || t == PROVIDER || t == chain[k] then None
    else if (t, chain[k]) in reg then Some(k)
    else Home(reg, chain, k - 1, t)
  }

  /** What the registry says of the instances of `t` that are made for level `k`. */
  predicate RegisteredTruthy(reg: Registry, chain: seq<Type>, k: int, t: Type)
    requires -1 <= k < |chain|
  {
    var h := Home(reg, chain, k, t);
    h.Some? ==> reg[(t, chain[h.value])].truthy
  }

  lemma {:induction false} DenoteTruthy(reg: Registry, chain: seq<Type>, rank: Type -> nat, k: int, t: Type)
    requires Acyclic(reg, rank) && -1 <= k < |chain| && Denote(reg, chain, rank, k, t).Success?
    ensures Truthy(Denote(reg, chain, rank, k, t).value) <==> RegisteredTruthy(reg, chain, k, t)
    decreases k + 1
  {
    if k >= 0 && t != PROVIDER && t != chain[k] && (t, chain[k]) !in reg {
      DenoteTruthy(reg, chain, rank, k - 1, t);
    }
  }

  /**
   Resolving again yields an instance made in the same way; and it makes nothing, but hands out the
   instance it has, exactly when the type is registered as truthy where it is registered.
   */
  lemma ResolveAgain(reg: Registry, chain: seq<Type>, rank: Type -> nat, ls: seq<Level>, k: int, t: Type)
    requires Inv(reg, chain, rank, ls) && -1 <= k < |chain|
    requires Resolve(reg, chain, rank, ls, k, t).0.Success?
    ensures var (r, ls1) := Resolve(reg, chain, rank, ls, k, t);
      && Resolve(reg, chain, rank, ls1, k, t).0 == r
      && (Resolve(reg, chain, rank, ls1, k, t).1 == ls1 <==> RegisteredTruthy(reg, chain, k, t))
  {
    ResolveMeans(reg, chain, rank, ls, k, t);
    DenoteTruthy(reg, chain, rank, k, t);
    ResolveTwice(reg, chain, rank, ls, k, t);
  }

  lemma {:induction false} ResolveTwice(reg: Registry, chain: seq<Type>, rank: Type -> nat, ls: seq<Level>,
                                        k: int, t: Type)
    requires Inv(reg, chain, rank, ls) && -1 <= k < |chain|
    requires Resolve(reg, chain, rank, ls, k, t).0.Success?
    ensures var (r, ls1) := Resolve(reg, chain, rank, ls, k, t);
      && Resolve(reg, chain, rank, ls1, k, t).0 == r
      && (Resolve(reg, chain, rank, ls1, k, t).1 == ls1 <==> Truthy(r.value))
    decreases k + 1
  {
    var (r, ls1) := Resolve(reg, chain, rank, ls, k, t);
    ResolveMeans(reg, chain, rank, ls, k, t);
    ResolveMeans(reg, chain, rank, ls1, k, t);
    if k == -1 || t == PROVIDER || t == chain[k] {
    } else if (t, chain[k]) in reg {
      if !Truthy(r.value) {
        FalsyGrows(reg, chain, rank, ls1, k, t);
      }
    } else {
      NotCachedWhenUnregistered(reg, chain, rank, ls, k, t);
      ResolveTwice(reg, chain, rank, ls, k - 1, t);
      NotCachedWhenUnregistered(reg, chain, rank, ls1, k, t);
    }
  }

  lemma NotCachedWhenUnregistered(reg: Registry, chain: seq<Type>, rank: Type -> nat, ls: seq<Level>, k: nat, t: Type)
    requires Inv(reg, chain, rank, ls) && k < |chain|
    requires t != PROVIDER && t != chain[k] && (t, chain[k]) !in reg
    ensures Resolve(reg, chain, rank, ls, k, t) == Resolve(reg, chain, rank, ls, k - 1, t)
  {
    if t in ls[k].services {
      DenoteIsWellScoped(reg, chain, rank, k - 1, t);
    }
  }

  lemma FalsyGrows(reg: Registry, chain: seq<Type>, rank: Type -> nat, ls: seq<Level>, k: nat, t: Type)
    requires Inv(reg, chain, rank, ls) && k < |chain| && t != PROVIDER && t != chain[k] && (t, chain[k]) in reg
    requires Resolve(reg, chain, rank, ls, k, t).0.Success? && !Truthy(Resolve(reg, chain, rank, ls, k, t).0.value)
    ensures |Resolve(reg, chain, rank, ls, k, t).1[k].stack| > |ls[k].stack|
  {
    var d := reg[(t, chain[k])];
    ResolveAllMeans(reg, chain, rank, ls, k, d.deps, rank(t));
    var (args, ls1) := ResolveAll(reg, chain, rank, ls, k, d.deps, rank(t));
    assert ls[k].stack <= ls1[k].stack;
  }

  // ------------------------------------------------------------------
  // Whole runs
  // ------------------------------------------------------------------

  lemma ActionOnce(reg: Registry, rank: Type -> nat, p: Providers, a: Action)
    requires Inv(reg, p.chain, rank, p.levels) && MakesTruthy(reg, rank) && Once(p.levels) && Enabled(p, a)
    ensures var q := Apply(reg, rank, p, a); Inv(reg, q.chain, rank, q.levels) && Once(q.levels)
  {
    RunKeeps(reg, rank, p, [a]);
    OneAction(reg, rank, p, a);
    hide Inv, MakesTruthy;
    if a.ResolveAt? {
      ResolveOnce(reg, p.chain, rank, p.levels, a.level, a.t);
      hide Once;
    }
  }

  lemma {:induction false} RunOnce(reg: Registry, rank: Type -> nat, p: Providers, run: seq<Action>)
    requires Inv(reg, p.chain, rank, p.levels) && MakesTruthy(reg, rank) && Once(p.levels)
    ensures var q := After(reg, rank, p, run); q.Some? ==> Once(q.value.levels)
    decreases |run|
  {
    assert App(reg, p.chain, rank, p.levels);
    hide Inv, Once, MakesTruthy, Apply, Enabled;
    if run != [] && Enabled(p, run[0]) {
      ActionOnce(reg, rank, p, run[0]);
      RunOnce(reg, rank, Apply(reg, rank, p, run[0]), run[1..]);
    }
  }

  lemma OneAction(reg: Registry, rank: Type -> nat, p: Providers, a: Action)
    requires Acyclic(reg, rank) && |p.levels| == |p.chain| && Enabled(p, a)
    ensures After(reg, rank, p, [a]) == Some(Apply(reg, rank, p, a))
  {
    assert [a][1..] == [];
  }

  // ------------------------------------------------------------------
  // Made twice
  // ------------------------------------------------------------------

  function Enters(chain: seq<Type>): seq<Action> {
    if chain == [] then [] else Enters(chain[..|chain| - 1]) + [EnterScope(chain[|chain| - 1])]
  }

  function Empty(n: nat): (ls: seq<Level>)
    ensures |ls| == n
  {
    if n == 0 then [] else Empty(n - 1) + [Level(map[], [])]
  }

  lemma {:induction false} Snoc(reg: Registry, rank: Type -> nat, p: Providers, run: seq<Action>, a: Action)
    requires Acyclic(reg, rank) && |p.levels| == |p.chain|
    requires After(reg, rank, p, run).Some? && Enabled(After(reg, rank, p, run).value, a)
    ensures var q := After(reg, rank, p, run).value;
      |q.levels| == |q.chain| && After(reg, rank, p, run + [a]) == Some(Apply(reg, rank, q, a))
    decreases |run|
  {
    hide Apply;
    if run == [] {
      assert run + [a] == [a];
      OneAction(reg, rank, p, a);
    } else {
      assert (run + [a])[1..] == run[1..] + [a];
      ApplySizes(reg, rank, p, run[0]);
      Snoc(reg, rank, Apply(reg, rank, p, run[0]), run[1..], a);
    }
  }

  lemma ApplySizes(reg: Registry, rank: Type -> nat, p: Providers, a: Action)
    requires Acyclic(reg, rank) && |p.levels| == |p.chain| && Enabled(p, a)
    ensures var q := Apply(reg, rank, p, a); |q.levels| == |q.chain|
  {
  }

  lemma {:induction false} EntersChain(reg: Registry, rank: Type -> nat, chain: seq<Type>)
    requires Acyclic(reg, rank)
    ensures After(reg, rank, Providers([], []), Enters(chain)) == Some(Providers(chain, Empty(|chain|)))
  {
    if chain != [] {
      var front := chain[..|chain| - 1];
      EntersChain(reg, rank, front);
      Snoc(reg, rank, Providers([], []), Enters(front), EnterScope(chain[|chain| - 1]));
      assert front + [chain[|chain| - 1]] == chain;
    }
  }

  /** A falsy instance is made again on every resolution. */
  lemma MadeTwice(reg: Registry, chain: seq<Type>, rank: Type -> nat, ls: seq<Level>, t: Type)
    requires Inv(reg, chain, rank, ls) && Makeable(reg, rank, chain, t) && !reg[(t, chain[|chain| - 1])].truthy
    ensures var k := |chain| - 1; var ls1 := Resolve(reg, chain, rank, ls, k, t).1;
      Inv(reg, chain, rank, ls1) && !Singles(Resolve(reg, chain, rank, ls1, k, t).1)
  {
    var k := |chain| - 1;
    var ls1 := Resolve(reg, chain, rank, ls, k, t).1;
    ResolveMeans(reg, chain, rank, ls, k, t);
    ResolveMeans(reg, chain, rank, ls1, k, t);
    OnTop(reg, chain, rank, ls, k, t);
    OnTop(reg, chain, rank, ls1, k, t);
    var stack1, stack2 := ls1[k].stack, Resolve(reg, chain, rank, ls1, k, t).1[k].stack;
    assert stack1 <= stack2[..|stack2| - 1];
    assert stack2[|stack1| - 1] == stack1[|stack1| - 1];
    assert !DistinctTypes(stack2);
  }

  /** A falsy instance just made is on top of the exit stack, above all that was there. */
  lemma OnTop(reg: Registry, chain: seq<Type>, rank: Type -> nat, ls: seq<Level>, k: nat, t: Type)
    requires Inv(reg, chain, rank, ls) && k < |chain| && t != PROVIDER && t != chain[k] && (t, chain[k]) in reg
    requires Denote(reg, chain, rank, k, t).Success? && !reg[(t, chain[k])].truthy
    ensures var stack := Resolve(reg, chain, rank, ls, k, t).1[k].stack;
      && stack != [] && stack[|stack| - 1].Service? && stack[|stack| - 1].t == t
      && ls[k].stack <= stack[..|stack| - 1]
  {
    var d := reg[(t, chain[k])];
    ResolveMeans(reg, chain, rank, ls, k, t);
    ResolveAllMeans(reg, chain, rank, ls, k, d.deps, rank(t));
    var (args, ls1) := ResolveAll(reg, chain, rank, ls, k, d.deps, rank(t));
    assert ls[k].stack <= ls1[k].stack;
  }

  /** One falsy factory that can run, and some run of the application makes its service twice in a scope. */
  lemma FalsyIsMadeTwice(reg: Registry, rank: Type -> nat, chain: seq<Type>, t: Type) returns (p: Providers)
    requires Acyclic(reg, rank) && Makeable(reg, rank, chain, t) && !reg[(t, chain[|chain| - 1])].truthy
    ensures Reachable(reg, rank, p) && !Singles(p.levels)
  {
    hide Singles, Inv, Resolve, Makeable;
    var nothing, k := Providers([], []), |chain| - 1;
    assert chain != [] by { NotEmpty(reg, rank, chain, t); }
    var p0 := Providers(chain, Empty(|chain|));
    EntersChain(reg, rank, chain);
    var p1 := Apply(reg, rank, p0, ResolveAt(k, t));
    Snoc(reg, rank, nothing, Enters(chain), ResolveAt(k, t));
    p := Apply(reg, rank, p1, ResolveAt(k, t));
    Snoc(reg, rank, nothing, Enters(chain) + [ResolveAt(k, t)], ResolveAt(k, t));
    ReachableInv(reg, rank, p0);
    MadeTwice(reg, chain, rank, p0.levels, t);
  }

  lemma NotEmpty(reg: Registry, rank: Type -> nat, chain: seq<Type>, t: Type)
    requires Acyclic(reg, rank) && Makeable(reg, rank, chain, t)
    ensures chain != []
  {
  }

  /**
   In every run each scope makes each of its services at most once, exactly when no factory that
   can run is registered as making falsy instances.
   */
  lemma OncePerScopeExactlyWhen(reg: Registry, rank: Type -> nat)
    requires Acyclic(reg, rank)
    ensures (forall p | Reachable(reg, rank, p) :: Singles(p.levels)) <==> MakesTruthy(reg, rank)
  {
    hide Singles, Inv;
    if MakesTruthy(reg, rank) {
      forall p | Reachable(reg, rank, p)
        ensures Singles(p.levels)
      {
        AtMostOncePerScope(reg, rank, p);
      }
    } else {
      var chain, t :| Makeable(reg, rank, chain, t) && !reg[(t, chain[|chain| - 1])].truthy;
      var p := FalsyIsMadeTwice(reg, rank, chain, t);
    }
  }

  lemma AtMostOncePerScope(reg: Registry, rank: Type -> nat, p: Providers)
    requires Reachable(reg, rank, p) && MakesTruthy(reg, rank)
    ensures Singles(p.levels)
  {
    var run :| After(reg, rank, Providers([], []), run) == Some(p);
    RunOnce(reg, rank, Providers([], []), run);
  }

  const FALSY: Registry := map[(5, 1) := Descriptor([], false, false)]

  const FLAT: Type -> nat := _ => 0

  lemma FalsyOnce(services: map<Type, Instance>, stack: seq<Instance>)
    requires 5 in services ==> !Truthy(services[5])
    ensures Acyclic(FALSY, FLAT)
    ensures var i := Service(5, 0, false, []);
      Resolve(FALSY, [1], FLAT, [Level(services, stack)], 0, 5).1 == [Level(services[5 := i], stack + [i])]
  {
    var ls := [Level(services, stack)];
    assert ResolveAll(FALSY, [1], FLAT, ls, 0, [], 0) == (Success([]), ls);
  }

  /** One falsy service, resolved twice: its factory has run twice, and both instances are cleaned up. */
  lemma FalsyTwice()
    ensures Acyclic(FALSY, FLAT)
    ensures var i := Service(5, 0, false, []);
      After(FALSY, FLAT, Providers([], []), [EnterScope(1), ResolveAt(0, 5), ResolveAt(0, 5)])
      == Some(Providers([1], [Level(map[5 := i], [i, i])]))
  {
    var i, nothing := Service(5, 0, false, []), Providers([], []);
    FalsyOnce(map[], []);
    FalsyOnce(map[5 := i], [i]);
    hide Resolve;
    var p0, p1 := Providers([1], [Level(map[], [])]), Providers([1], [Level(map[5 := i], [i])]);
    assert map[5 := i][5 := i] == map[5 := i] && [i] + [i] == [i, i] && [] + [i] == [i];
    assert Apply(FALSY, FLAT, nothing, EnterScope(1)) == p0;
    assert Apply(FALSY, FLAT, p0, ResolveAt(0, 5)) == p1;
    OneAction(FALSY, FLAT, nothing, EnterScope(1));
    Snoc(FALSY, FLAT, nothing, [EnterScope(1)], ResolveAt(0, 5));
    assert [EnterScope(1)] + [ResolveAt(0, 5)] == [EnterScope(1), ResolveAt(0, 5)];
    Snoc(FALSY, FLAT, nothing, [EnterScope(1), ResolveAt(0, 5)], ResolveAt(0, 5));
    assert [EnterScope(1), ResolveAt(0, 5)] + [ResolveAt(0, 5)] == [EnterScope(1), ResolveAt(0, 5), ResolveAt(0, 5)];
  }
}
