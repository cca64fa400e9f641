/**
 What the providers promise, for every acyclic registry: over every sequence of scopes entered,
 services resolved and scopes left.
 */
module ServicesGuarantees {
  import opened Wrappers
  import opened Services
  import opened ServicesProofs

  // ------------------------------------------------------------------
  // Teardown
  // ------------------------------------------------------------------

  function Reverse<T>(s: seq<T>): (r: seq<T>)
    ensures |r| == |s| && forall i | 0 <= i < |s| :: r[i] == s[|s| - 1 - i]
  {
    if s == [] then [] else Reverse(s[1..]) + [s[0]]
  }

  /** The order of clean-ups: scopes from the innermost out, each exit stack from the top down. */
  function Teardown(ls: seq<Level>): seq<Instance> {
    if ls == [] then [] else Reverse(ls[|ls| - 1].stack) + Teardown(ls[..|ls| - 1])
  }

  lemma {:induction false} InTeardown(ls: seq<Level>, b: Instance)
    requires b.Service? && OnStack(ls, b)
    ensures b in Teardown(ls)
    decreases |ls|
  {
    var last := |ls| - 1;
    if b.level == last {
      var pos :| 0 <= pos < |ls[last].stack| && ls[last].stack[pos] == b;
      assert Reverse(ls[last].stack)[|ls[last].stack| - 1 - pos] == b;
    } else {
      InTeardown(ls[..last], b);
    }
  }

  lemma IndexIn(s: seq<Instance>, b: Instance) returns (q: nat)
    requires b in s
    ensures q < |s| && s[q] == b
  {
    q :| 0 <= q < |s| && s[q] == b;
  }

  lemma TeardownAt(ls: seq<Level>, i: nat)
    requires ls != [] && i < |Teardown(ls)|
    ensures var stack, outer := ls[|ls| - 1].stack, Teardown(ls[..|ls| - 1]);
      && |Teardown(ls)| == |stack| + |outer|
      && Teardown(ls)[i] == if i < |stack| then stack[|stack| - 1 - i] else outer[i - |stack|]
  {
    hide Reverse;
  }

  lemma InnermostOutlived(ls: seq<Level>, i: nat, b: Instance) returns (j: nat)
    requires Grounded(ls) && ls != [] && i < |ls[|ls| - 1].stack| && i < |Teardown(ls)|
    requires Teardown(ls)[i].Service? && b in Teardown(ls)[i].args && b.Service?
    ensures i < j < |Teardown(ls)| && Teardown(ls)[j] == b
  {
    hide Teardown;
    var last := |ls| - 1;
    var stack, outer := ls[last].stack, ls[..last];
    var pos := |stack| - 1 - i;
    TeardownAt(ls, i);
    assert Below(ls, last, pos, b);
    if b.level == last {
      var q := IndexIn(stack[..pos], b);
      j := |stack| - 1 - q;
    } else {
      assert OnStack(outer, b);
      InTeardown(outer, b);
      var q := IndexIn(Teardown(outer), b);
      j := |stack| + q;
    }
    TeardownAt(ls, j);
  }

  /** Whatever an instance was made from is cleaned up after it, in its own scope and across scopes. */
  lemma {:induction false} DependenciesOutlive(ls: seq<Level>, i: nat, b: Instance) returns (j: nat)
    requires Grounded(ls) && i < |Teardown(ls)|
    requires Teardown(ls)[i].Service? && b in Teardown(ls)[i].args && b.Service?
    ensures i < j < |Teardown(ls)| && Teardown(ls)[j] == b
    decreases |ls|
  {
    var last := |ls| - 1;
    var stack, outer := ls[last].stack, ls[..last];
    var m := |stack|;
    if i < m {
      j := InnermostOutlived(ls, i, b);
    } else {
      assert Teardown(ls)[i] == Teardown(outer)[i - m];
      GroundedPrefix(ls);
      var q := DependenciesOutlive(outer, i - m, b);
      j := m + q;
    }
  }

  lemma GroundedPrefix(ls: seq<Level>)
    requires Grounded(ls) && ls != []
    ensures Grounded(ls[..|ls| - 1])
  {
    var outer := ls[..|ls| - 1];
    forall k, pos | 0 <= k < |outer| && 0 <= pos < |outer[k].stack|
      ensures outer[k].stack[pos].Service? && outer[k].stack[pos].level == k
      ensures forall b <- outer[k].stack[pos].args :: Below(outer, k, pos, b)
    {
      assert outer[k] == ls[k];
      forall b <- outer[k].stack[pos].args ensures Below(outer, k, pos, b) {
        assert Below(ls, k, pos, b);
      }
    }
  }

  // ------------------------------------------------------------------
  // Whole runs
  // ------------------------------------------------------------------

  datatype Providers = Providers(chain: seq<Type>, levels: seq<Level>)

  datatype Action = EnterScope(scope: Type) | ResolveAt(level: nat, t: Type) | LeaveScope

  predicate Enabled(p: Providers, a: Action) {
    match a
    case EnterScope(_) => true
    case ResolveAt(k, _) => k < |p.chain|
    case LeaveScope => p.chain != []
  }

  ghost function Apply(reg: Registry, rank: Type -> nat, p: Providers, a: Action): Providers
    requires Acyclic(reg, rank) && |p.levels| == |p.chain| && Enabled(p, a)
  {
    match a
    case EnterScope(scope) => Providers(p.chain + [scope], p.levels + [Level(map[], [])])
    case ResolveAt(k, t) => p.(levels := Resolve(reg, p.chain, rank, p.levels, k, t).1)
    case LeaveScope => Providers(p.chain[..|p.chain| - 1], p.levels[..|p.chain| - 1])
  }

  /** The providers after a run of enabled actions, `None` when some action is not enabled. */
  ghost function After(reg: Registry, rank: Type -> nat, p: Providers, run: seq<Action>): Option<Providers>
    requires Acyclic(reg, rank) && |p.levels| == |p.chain|
    decreases |run|
  {
    if run == [] then Some(p)
    else if !Enabled(p, run[0]) then None
    else After(reg, rank, Apply(reg, rank, p, run[0]), run[1..])
  }

  lemma {:induction false} DenoteIgnoresInner(reg: Registry, chain: seq<Type>, rank: Type -> nat, inner: seq<Type>,
                                              k: int, t: Type)
    requires Acyclic(reg, rank) && -1 <= k < |chain|
    ensures Denote(reg, chain + inner, rank, k, t) == Denote(reg, chain, rank, k, t)
    decreases rank(t), 1, k + 1
  {
    if k >= 0 && t != PROVIDER && t != chain[k] {
      assert (chain + inner)[k] == chain[k];
      if (t, chain[k]) in reg {
        DenoteAllIgnoresInner(reg, chain, rank, inner, k, reg[(t, chain[k])].deps, rank(t));
      } else {
        DenoteIgnoresInner(reg, chain, rank, inner, k - 1, t);
      }
    }
  }

  lemma {:induction false} DenoteAllIgnoresInner(reg: Registry, chain: seq<Type>, rank: Type -> nat, inner: seq<Type>,
                                                 k: int, deps: seq<Type>, bound: nat)
    requires Acyclic(reg, rank) && -1 <= k < |chain|
    requires forall d <- deps :: rank(d) < bound
    ensures DenoteAll(reg, chain + inner, rank, k, deps, bound) == DenoteAll(reg, chain, rank, k, deps, bound)
    decreases bound, 0, |deps|
  {
    if deps != [] {
      DenoteIgnoresInner(reg, chain, rank, inner, k, deps[0]);
      DenoteAllIgnoresInner(reg, chain, rank, inner, k, deps[1..], bound);
    }
  }

  lemma EnterKeeps(reg: Registry, rank: Type -> nat, p: Providers, scope: Type)
    requires Inv(reg, p.chain, rank, p.levels)
    ensures var p' := Apply(reg, rank, p, EnterScope(scope)); Inv(reg, p'.chain, rank, p'.levels)
  {
    var p' := Apply(reg, rank, p, EnterScope(scope));
    forall k | 0 <= k < |p'.levels|
      ensures forall t <- p'.levels[k].services ::
                Denote(reg, p'.chain, rank, k, t) == Success(p'.levels[k].services[t])
    {
      forall t <- p'.levels[k].services
        ensures Denote(reg, p'.chain, rank, k, t) == Success(p'.levels[k].services[t])
      {
        DenoteIgnoresInner(reg, p.chain, rank, [scope], k, t);
      }
    }
    forall k, pos | 0 <= k < |p'.levels| && 0 <= pos < |p'.levels[k].stack|
      ensures forall b <- p'.levels[k].stack[pos].args :: Below(p'.levels, k, pos, b)
    {
      forall b <- p'.levels[k].stack[pos].args ensures Below(p'.levels, k, pos, b) {
        assert Below(p.levels, k, pos, b);
      }
    }
  }

  lemma LeaveKeeps(reg: Registry, rank: Type -> nat, p: Providers)
    requires Inv(reg, p.chain, rank, p.levels) && p.chain != []
    ensures var p' := Apply(reg, rank, p, LeaveScope); Inv(reg, p'.chain, rank, p'.levels)
  {
    var p' := Apply(reg, rank, p, LeaveScope);
    var last := p.chain[|p.chain| - 1..];
    assert p'.chain + last == p.chain;
    forall k | 0 <= k < |p'.levels|
      ensures forall t <- p'.levels[k].services ::
                Denote(reg, p'.chain, rank, k, t) == Success(p'.levels[k].services[t])
    {
      forall t <- p'.levels[k].services
        ensures Denote(reg, p'.chain, rank, k, t) == Success(p'.levels[k].services[t])
      {
        DenoteIgnoresInner(reg, p'.chain, rank, last, k, t);
      }
    }
    GroundedPrefix(p.levels);
  }

  /** Every sequence of scopes and resolutions keeps the caches meaningful and the stacks in order. */
  lemma {:induction false} RunKeeps(reg: Registry, rank: Type -> nat, p: Providers, run: seq<Action>)
    requires Inv(reg, p.chain, rank, p.levels)
    ensures var q := After(reg, rank, p, run); q.Some? ==> Inv(reg, q.value.chain, rank, q.value.levels)
    decreases |run|
  {
    if run != [] && Enabled(p, run[0]) {
      match run[0] {
        case EnterScope(scope) => EnterKeeps(reg, rank, p, scope);
        case ResolveAt(k, t) => ResolveMeans(reg, p.chain, rank, p.levels, k, t);
        case LeaveScope => LeaveKeeps(reg, rank, p);
      }
      RunKeeps(reg, rank, Apply(reg, rank, p, run[0]), run[1..]);
    }
  }

  /** The providers some run of an application leads to. */
  ghost predicate Reachable(reg: Registry, rank: Type -> nat, p: Providers) {
    Acyclic(reg, rank) && |p.levels| == |p.chain| && exists run :: After(reg, rank, Providers([], []), run) == Some(p)
  }

  lemma ReachableInv(reg: Registry, rank: Type -> nat, p: Providers)
    requires Reachable(reg, rank, p)
    ensures Inv(reg, p.chain, rank, p.levels)
  {
    var run :| After(reg, rank, Providers([], []), run) == Some(p);
    RunKeeps(reg, rank, Providers([], []), run);
  }

  /** Whatever has happened before, resolving yields what the type denotes in the scope chain. */
  lemma ResolutionIsCacheFree(reg: Registry, rank: Type -> nat, p: Providers, k: nat, t: Type)
    requires Reachable(reg, rank, p) && k < |p.chain|
    ensures Resolve(reg, p.chain, rank, p.levels, k, t).0 == Denote(reg, p.chain, rank, k, t)
    ensures Extends(p.levels, Resolve(reg, p.chain, rank, p.levels, k, t).1)
  {
    ReachableInv(reg, rank, p);
    ResolveMeans(reg, p.chain, rank, p.levels, k, t);
  }

  /** An instance kept by a scope depends on nothing from a scope further in, however indirectly. */
  lemma OuterNeverSeesInner(reg: Registry, rank: Type -> nat, p: Providers, k: nat, t: Type)
    requires Reachable(reg, rank, p) && k < |p.chain| && t in p.levels[k].services
    ensures p.levels[k].services[t].level <= k && WellScoped(p.levels[k].services[t])
  {
    ReachableInv(reg, rank, p);
    DenoteIsWellScoped(reg, p.chain, rank, k, t);
  }

  /** At any point of any run, tearing everything down cleans up dependants before dependencies. */
  lemma TeardownOrder(reg: Registry, rank: Type -> nat, p: Providers, i: nat, b: Instance)
    requires Reachable(reg, rank, p) && i < |Teardown(p.levels)|
    requires Teardown(p.levels)[i].Service? && b in Teardown(p.levels)[i].args && b.Service?
    ensures exists j :: i < j < |Teardown(p.levels)| && Teardown(p.levels)[j] == b
  {
    ReachableInv(reg, rank, p);
    var j := DependenciesOutlive(p.levels, i, b);
  }
}
