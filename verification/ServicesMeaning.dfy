/** What a service type denotes: who answers for it, and what is made from what. */
module ServicesMeaning {
  import opened Wrappers
  import opened Services

  /** The provider of level `l` knows what to do about `t`: it is built in, or registered for its scope. */
  predicate Knows(reg: Registry, chain: seq<Type>, l: nat, t: Type)
    requires l < |chain|
  {
    t == PROVIDER || t == chain[l] || (t, chain[l]) in reg
  }

  /** Of the levels from `k` outwards, `l` is the first that knows. */
  predicate Nearest(reg: Registry, chain: seq<Type>, k: int, t: Type, l: nat)
    requires -1 <= k < |chain|
  {
    l <= k && Knows(reg, chain, l, t) && forall j: nat | l < j <= k :: !Knows(reg, chain, j, t)
  }

  predicate Unknown(reg: Registry, chain: seq<Type>, k: int, t: Type)
    requires -1 <= k < |chain|
  {
    forall l: nat | l <= k :: !Knows(reg, chain, l, t)
  }

  ghost predicate Resolves(reg: Registry, chain: seq<Type>, rank: Type -> nat, l: nat, d: Type)
    requires Acyclic(reg, rank) && l < |chain|
  {
    Denote(reg, chain, rank, l, d).Success?
  }

  /** `args` are what the dependencies denote at level `l`, one for each and in their order. */
  ghost predicate ArgumentsAre(reg: Registry, chain: seq<Type>, rank: Type -> nat, l: nat, deps: seq<Type>,
                               args: seq<Instance>)
    requires Acyclic(reg, rank) && l < |chain|
  {
    |args| == |deps| && forall j | 0 <= j < |deps| :: Denote(reg, chain, rank, l, deps[j]) == Success(args[j])
  }

  /** `j` is the first dependency that cannot be had at level `l`. */
  ghost predicate FailsFirst(reg: Registry, chain: seq<Type>, rank: Type -> nat, l: nat, deps: seq<Type>, j: nat)
    requires Acyclic(reg, rank) && l < |chain|
  {
    j < |deps| && !Resolves(reg, chain, rank, l, deps[j])
    && forall i | 0 <= i < j :: Resolves(reg, chain, rank, l, deps[i])
  }

  lemma {:induction false} DependenciesDenote(reg: Registry, chain: seq<Type>, rank: Type -> nat, l: nat,
                                              deps: seq<Type>, bound: nat)
    requires Acyclic(reg, rank) && l < |chain| && forall d <- deps :: rank(d) < bound
    ensures var r := DenoteAll(reg, chain, rank, l, deps, bound);
      && (r.Success? ==> ArgumentsAre(reg, chain, rank, l, deps, r.value))
      && (r.Failure? ==> exists j: nat ::
            FailsFirst(reg, chain, rank, l, deps, j) && Denote(reg, chain, rank, l, deps[j]) == Failure(r.error))
    decreases |deps|
  {
    hide Denote;
    if deps != [] && Resolves(reg, chain, rank, l, deps[0]) {
      DependenciesDenote(reg, chain, rank, l, deps[1..], bound);
      var rest := DenoteAll(reg, chain, rank, l, deps[1..], bound);
      if rest.Failure? {
        var j: nat :| FailsFirst(reg, chain, rank, l, deps[1..], j)
                 && Denote(reg, chain, rank, l, deps[1..][j]) == Failure(rest.error);
        assert forall i | 0 < i <= j :: deps[i] == deps[1..][i - 1];
        assert FailsFirst(reg, chain, rank, l, deps, j + 1);
      }
    } else if deps != [] {
      assert FailsFirst(reg, chain, rank, l, deps, 0);
    }
  }

  /** What the factory registered for `t` at level `l` makes of its dependencies, resolved at that level. */
  ghost predicate MadeAt(reg: Registry, chain: seq<Type>, rank: Type -> nat, l: nat, t: Type,
                         r: Result<Instance, Error>)
    requires Acyclic(reg, rank) && l < |chain| && (t, chain[l]) in reg
  {
    var d := reg[(t, chain[l])];
    match r
    case Success(i) =>
      !d.raises && i.Service? && i.t == t && i.level == l && i.truthy == d.truthy
      && ArgumentsAre(reg, chain, rank, l, d.deps, i.args)
    case Failure(error) =>
      || (error == FactoryRaised(t) && d.raises && exists args :: ArgumentsAre(reg, chain, rank, l, d.deps, args))
      || exists j: nat ::
           FailsFirst(reg, chain, rank, l, d.deps, j) && Denote(reg, chain, rank, l, d.deps[j]) == Failure(error)
  }

  /** What `t` denotes when level `l` is the first to answer for it. */
  ghost predicate AnsweredBy(reg: Registry, chain: seq<Type>, rank: Type -> nat, l: nat, t: Type,
                             r: Result<Instance, Error>)
    requires Acyclic(reg, rank) && l < |chain| && Knows(reg, chain, l, t)
  {
    if t == PROVIDER then r == Success(Provider(l))
    else if t == chain[l] then r == Success(Scope(l))
    else MadeAt(reg, chain, rank, l, t, r)
  }

  /**
   A type is answered for by the first provider outwards that knows it: with itself, with its scope, or
   with an instance made at that level, from exactly what the dependencies denote at that level.  The
   first dependency that cannot be had is the error; and a type no provider knows is not registered.
   */
  lemma {:induction false} DenoteExactly(reg: Registry, chain: seq<Type>, rank: Type -> nat, k: int, t: Type)
    requires Acyclic(reg, rank) && -1 <= k < |chain|
    ensures Unknown(reg, chain, k, t) ==> Denote(reg, chain, rank, k, t) == Failure(NotRegistered(t))
    ensures !Unknown(reg, chain, k, t) ==> exists l: nat :: Nearest(reg, chain, k, t, l)
    ensures forall l: nat | Nearest(reg, chain, k, t, l) ::
              AnsweredBy(reg, chain, rank, l, t, Denote(reg, chain, rank, k, t))
    decreases k + 1
  {
    if k >= 0 {
      if Knows(reg, chain, k, t) {
        assert Nearest(reg, chain, k, t, k);
        assert forall l: nat :: Nearest(reg, chain, k, t, l) ==> l == k;
        if t != PROVIDER && t != chain[k] {
          DependenciesDenote(reg, chain, rank, k, reg[(t, chain[k])].deps, rank(t));
        }
      } else {
        var out := k - 1;
        DenoteExactly(reg, chain, rank, out, t);
        assert forall l: nat :: Nearest(reg, chain, k, t, l) <==> Nearest(reg, chain, out, t, l);
        if !Unknown(reg, chain, out, t) {
          var l: nat :| Nearest(reg, chain, out, t, l);
          assert Nearest(reg, chain, k, t, l);
        }
      }
    }
  }

  lemma NearestIsUnique(reg: Registry, chain: seq<Type>, k: int, t: Type, l: nat, m: nat)
    requires -1 <= k < |chain| && Nearest(reg, chain, k, t, l) && Nearest(reg, chain, k, t, m)
    ensures l == m
  {
  }
}
