/**
 Dependency resolution of `di/_services.py` over a chain of nested scopes.

 Level 0 is the outermost provider; the parent of level `k` is level `k - 1`, and the parent of
 level 0 knows nothing.  `chain[k]` is the scope type of level `k`.  A factory resolves its
 parameters, in order, through the provider it is given, and builds an instance from them; what
 an instance is, is where it was made and from what.
 */
module Services {
  import opened Wrappers

  /** Service types and scope types alike. */
  type Type = nat

  /** `ServiceProvider` itself. */
  const PROVIDER: Type := 0

  /** `truthy` is what `bool` says of the instances made, `raises` whether the callable raises instead. */
  datatype Descriptor = Descriptor(deps: seq<Type>, truthy: bool, raises: bool)

  datatype Instance =
    | Provider(level: nat)
    | Scope(level: nat)
    | Service(t: Type, level: nat, truthy: bool, args: seq<Instance>)

  datatype Error = NotRegistered(t: Type) | FactoryRaised(t: Type)

  /** One provider: its `services` and the exit stack of its scope, oldest entry first. */
  datatype Level = Level(services: map<Type, Instance>, stack: seq<Instance>)

  type Registry = map<(Type, Type), Descriptor>

  /** An acyclic registry: every dependency ranks below what needs it. */
  ghost predicate Acyclic(reg: Registry, rank: Type -> nat) {
    forall key <- reg, d <- reg[key].deps :: rank(d) < rank(key.0)
  }

  /** Scopes and registry of one running application. */
  ghost predicate App(reg: Registry, chain: seq<Type>, rank: Type -> nat, ls: seq<Level>) {
    Acyclic(reg, rank) && |ls| == |chain|
  }

  predicate Truthy(i: Instance) {
    i.Service? ==> i.truthy
  }

  function Insert(ls: seq<Level>, k: nat, t: Type, i: Instance): seq<Level>
    requires k < |ls|
  {
    ls[k := Level(ls[k].services[t := i], ls[k].stack + [i])]
  }

  /** `resolve` on the provider of level `k`; `k == -1` is the provider that knows nothing. */
  ghost function Resolve(reg: Registry, chain: seq<Type>, rank: Type -> nat, ls: seq<Level>, k: int, t: Type)
    : (r: (Result<Instance, Error>, seq<Level>))
    requires App(reg, chain, rank, ls) && -1 <= k < |chain|
    ensures |r.1| == |ls|
    decreases rank(t), 1, k + 1
  {
    if k == -1 then (Failure(NotRegistered(t)), ls)
    else if t == PROVIDER then (Success(Provider(k)), ls)
    else if t == chain[k] then (Success(Scope(k)), ls)
    else if t in ls[k].services && Truthy(ls[k].services[t]) then (Success(ls[k].services[t]), ls)
    else if (t, chain[k]) in reg then
      var d := reg[(t, chain[k])];
      var (args, ls1) := ResolveAll(reg, chain, rank, ls, k, d.deps, rank(t));
      if args.Failure? then (Failure(args.error), ls1)
      else if d.raises then (Failure(FactoryRaised(t)), ls1)
      else
        var i := Service(t, k, d.truthy, args.value);
        (Success(i), Insert(ls1, k, t, i))
    else Resolve(reg, chain, rank, ls, k - 1, t)
  }

  /** The parameters of a factory, resolved one after the other. */
  ghost function ResolveAll(reg: Registry, chain: seq<Type>, rank: Type -> nat, ls: seq<Level>, k: int, deps: seq<Type>,
                            bound: nat)
    : (r: (Result<seq<Instance>, Error>, seq<Level>))
    requires App(reg, chain, rank, ls) && -1 <= k < |chain|
    requires forall d <- deps :: rank(d) < bound
    ensures |r.1| == |ls|
    decreases bound, 0, |deps|
  {
    if deps == [] then (Success([]), ls)
    else
      var (first, ls1) := Resolve(reg, chain, rank, ls, k, deps[0]);
      if first.Failure? then (Failure(first.error), ls1)
      else
        var (rest, ls2) := ResolveAll(reg, chain, rank, ls1, k, deps[1..], bound);
        if rest.Failure? then (rest, ls2) else (Success([first.value] + rest.value), ls2)
  }

  // ------------------------------------------------------------------
  // The meaning of a service type: the same recursion without any cache
  // ------------------------------------------------------------------

  ghost function Denote(reg: Registry, chain: seq<Type>, rank: Type -> nat, k: int, t: Type): Result<Instance, Error>
    requires Acyclic(reg, rank) && -1 <= k < |chain|
    decreases rank(t), 1, k + 1
  {
    if k == -1 then Failure(NotRegistered(t))
    else if t == PROVIDER then Success(Provider(k))
    else if t == chain[k] then Success(Scope(k))
    else if (t, chain[k]) in reg then
      var d := reg[(t, chain[k])];
      var args := DenoteAll(reg, chain, rank, k, d.deps, rank(t));
      if args.Failure? then Failure(args.error)
      else if d.raises then Failure(FactoryRaised(t))
      else Success(Service(t, k, d.truthy, args.value))
    else Denote(reg, chain, rank, k - 1, t)
  }

  ghost function DenoteAll(reg: Registry, chain: seq<Type>, rank: Type -> nat, k: int, deps: seq<Type>, bound: nat)
    : Result<seq<Instance>, Error>
    requires Acyclic(reg, rank) && -1 <= k < |chain|
    requires forall d <- deps :: rank(d) < bound
    decreases bound, 0, |deps|
  {
    if deps == [] then Success([])
    else
      var first := Denote(reg, chain, rank, k, deps[0]);
      if first.Failure? then Failure(first.error)
      else
        var rest := DenoteAll(reg, chain, rank, k, deps[1..], bound);
        if rest.Failure? then rest else Success([first.value] + rest.value)
  }
}
