/**
 The providers as the objects the source updates: each holds its `services` and the exit stack of
 its scope, and knows its parent.  `ps` is the chain of providers, outermost first.
 */
module ServiceProviderObject {
  import opened Wrappers
  import Services
  import opened ServicesProofs

  type Type = Services.Type
  type Instance = Services.Instance
  type Error = Services.Error
  type Registry = Services.Registry

  class DefaultServiceProvider {
    const parent: DefaultServiceProvider?     // null stands for the provider that knows nothing
    const scopeType: Type
    const level: nat
    var services: map<Type, Instance>
    var stack: seq<Instance>

    constructor (parent: DefaultServiceProvider?, scopeType: Type)
      ensures this.parent == parent && this.scopeType == scopeType
      ensures level == if parent == null then 0 else parent.level + 1
      ensures services == map[] && stack == []
    {
      this.parent, this.scopeType := parent, scopeType;
      this.level := if parent == null then 0 else parent.level + 1;
      services, stack := map[], [];
    }

    /** `resolve` */
    method Resolve(ghost ps: seq<DefaultServiceProvider>, reg: Registry, ghost rank: Type -> nat, t: Type)
      returns (r: Result<Instance, Error>)
      requires Chain(ps) && level < |ps| && ps[level] == this && Services.Acyclic(reg, rank)
      modifies ps
      ensures (r, Levels(ps)) == Services.Resolve(reg, ScopeTypes(ps), rank, old(Levels(ps)), level, t)
      decreases rank(t), 1, level + 1
    {
      if t == Services.PROVIDER {
        return Success(Services.Provider(level));
      }
      if t == scopeType {
        return Success(Services.Scope(level));
      }
      if t in services && Services.Truthy(services[t]) {
        return Success(services[t]);
      }
      if (t, scopeType) in reg {
        var d := reg[(t, scopeType)];
        var args := ResolveAll(ps, reg, rank, d.deps, rank(t));
        if args.Failure? {
          return Failure(args.error);
        }
        if d.raises {
          return Failure(Services.FactoryRaised(t));
        }
        var i := Services.Service(t, level, d.truthy, args.value);
        Enter(ps, t, i);
        return Success(i);
      }
      if parent == null {
        return Failure(Services.NotRegistered(t));
      }
      assert parent == ps[level - 1];
      r := parent.Resolve(ps, reg, rank, t);
    }

    /** `scope.enter`, and the new `services` mapping. */
    method Enter(ghost ps: seq<DefaultServiceProvider>, t: Type, i: Instance)
      requires Chain(ps) && level < |ps| && ps[level] == this
      modifies this
      ensures Levels(ps) == Services.Insert(old(Levels(ps)), level, t, i)
    {
      stack := stack + [i];
      services := services[t := i];
      assert forall j | 0 <= j < |ps| && j != level :: ps[j] != this;
    }

    /** The keyword arguments of a factory. */
    method ResolveAll(ghost ps: seq<DefaultServiceProvider>, reg: Registry, ghost rank: Type -> nat, deps: seq<Type>,
                      ghost bound: nat)
      returns (r: Result<seq<Instance>, Error>)
      requires Chain(ps) && level < |ps| && ps[level] == this && Services.Acyclic(reg, rank)
      requires forall d <- deps :: rank(d) < bound
      modifies ps
      ensures (r, Levels(ps)) == Services.ResolveAll(reg, ScopeTypes(ps), rank, old(Levels(ps)), level, deps, bound)
      decreases bound, 0, |deps|
    {
      var args: seq<Instance> := [];
      ghost var chain := ScopeTypes(ps);
      ghost var goal := Services.ResolveAll(reg, chain, rank, Levels(ps), level, deps, bound);
      AfterNothing(goal);
      assert deps[0..] == deps;
      for n := 0 to |deps|
        invariant goal == After(args, Services.ResolveAll(reg, chain, rank, Levels(ps), level, deps[n..], bound))
      {
        NextDependency(reg, chain, rank, Levels(ps), level, deps, n, bound, args);
        var arg := Resolve(ps, reg, rank, deps[n]);
        if arg.Failure? {
          return Failure(arg.error);
        }
        args := args + [arg.value];
      }
      assert args + [] == args && deps[|deps|..] == [];
      r := Success(args);
    }
  }

  /** Arguments resolved before, followed by the outcome of the others. */
  ghost function After(args: seq<Instance>, rest: (Result<seq<Instance>, Error>, seq<Services.Level>))
    : (Result<seq<Instance>, Error>, seq<Services.Level>)
  {
    if rest.0.Failure? then rest else (Success(args + rest.0.value), rest.1)
  }

  lemma AfterNothing(rest: (Result<seq<Instance>, Error>, seq<Services.Level>))
    ensures After([], rest) == rest
  {
    if rest.0.Success? {
      assert [] + rest.0.value == rest.0.value;
    }
  }

  ghost predicate Chain(ps: seq<DefaultServiceProvider>) {
    forall i | 0 <= i < |ps| ::
      ps[i].level == i && if i == 0 then ps[i].parent == null else ps[i].parent == ps[i - 1]
  }

  ghost function Levels(ps: seq<DefaultServiceProvider>): (ls: seq<Services.Level>)
    reads ps
    ensures |ls| == |ps| && forall i | 0 <= i < |ps| :: ls[i] == Services.Level(ps[i].services, ps[i].stack)
  {
    if ps == [] then []
    else Levels(ps[..|ps| - 1]) + [Services.Level(ps[|ps| - 1].services, ps[|ps| - 1].stack)]
  }

  ghost function ScopeTypes(ps: seq<DefaultServiceProvider>): (chain: seq<Type>)
    ensures |chain| == |ps| && forall i | 0 <= i < |ps| :: chain[i] == ps[i].scopeType
  {
    if ps == [] then [] else ScopeTypes(ps[..|ps| - 1]) + [ps[|ps| - 1].scopeType]
  }

  /** What is left to resolve, after one dependency more. */
  lemma NextDependency(reg: Registry, chain: seq<Type>, rank: Type -> nat, ls: seq<Services.Level>, k: nat,
                       deps: seq<Type>, n: nat, bound: nat, args: seq<Instance>)
    requires Services.App(reg, chain, rank, ls) && k < |chain| && n < |deps|
    requires forall d <- deps :: rank(d) < bound
    ensures var (first, ls1) := Services.Resolve(reg, chain, rank, ls, k, deps[n]);
      After(args, Services.ResolveAll(reg, chain, rank, ls, k, deps[n..], bound))
      == if first.Failure? then (Failure(first.error), ls1)
         else After(args + [first.value], Services.ResolveAll(reg, chain, rank, ls1, k, deps[n + 1..], bound))
  {
    assert deps[n..][1..] == deps[n + 1..];
    var (first, ls1) := Services.Resolve(reg, chain, rank, ls, k, deps[n]);
    if first.Success? {
      var rest := Services.ResolveAll(reg, chain, rank, ls1, k, deps[n + 1..], bound).0;
      if rest.Success? {
        assert args + ([first.value] + rest.value) == args + [first.value] + rest.value;
      }
    }
  }
}
