/** Resolution through the caches means what resolution without them means. */
module ServicesProofs {
  import opened Wrappers
  import opened Services

  /** Every cached instance is what its type denotes in its scope. */
  ghost predicate CacheMeans(reg: Registry, chain: seq<Type>, rank: Type -> nat, ls: seq<Level>)
    requires App(reg, chain, rank, ls)
  {
    forall k | 0 <= k < |ls| :: forall t <- ls[k].services ::
      Denote(reg, chain, rank, k, t) == Success(ls[k].services[t])
  }

  /** The instance is on the exit stack of its scope. */
  predicate OnStack(ls: seq<Level>, i: Instance) {
    i.Service? ==> i.level < |ls| && i in ls[i.level].stack
  }

  /** A cache holds instances made in its own scope, and all of them are on its stack. */
  ghost predicate CacheOnStack(ls: seq<Level>) {
    forall k | 0 <= k < |ls| :: forall t <- ls[k].services ::
      ls[k].services[t].Service? && ls[k].services[t].level == k && OnStack(ls, ls[k].services[t])
  }

  /** What an entry of a stack was made from is below it, or on the stack of a scope further out. */
  predicate Below(ls: seq<Level>, k: nat, pos: nat, b: Instance)
    requires k < |ls| && pos <= |ls[k].stack|
  {
    b.Service? ==> b.level <= k && if b.level == k then b in ls[k].stack[..pos] else b in ls[b.level].stack
  }

  ghost predicate Grounded(ls: seq<Level>) {
    forall k, pos | 0 <= k < |ls| && 0 <= pos < |ls[k].stack| ::
      && ls[k].stack[pos].Service?
      && ls[k].stack[pos].level == k
      && forall b <- ls[k].stack[pos].args :: Below(ls, k, pos, b)
  }

  ghost predicate Inv(reg: Registry, chain: seq<Type>, rank: Type -> nat, ls: seq<Level>) {
    && App(reg, chain, rank, ls)
    && CacheMeans(reg, chain, rank, ls)
    && CacheOnStack(ls)
    && Grounded(ls)
  }

  /** Resolution only adds: no cache entry is lost and no stack entry moves. */
  ghost predicate Extends(ls: seq<Level>, ls': seq<Level>) {
    && |ls'| == |ls|
    && (forall k | 0 <= k < |ls| :: ls[k].stack <= ls'[k].stack)
    && (forall k | 0 <= k < |ls| :: forall t <- ls[k].services :: t in ls'[k].services)
  }

  lemma ExtendsTrans(a: seq<Level>, b: seq<Level>, c: seq<Level>)
    requires Extends(a, b) && Extends(b, c)
    ensures Extends(a, c)
  {
  }

  lemma StaysOnStack(a: seq<Level>, b: seq<Level>, i: Instance)
    requires Extends(a, b) && OnStack(a, i)
    ensures OnStack(b, i)
  {
    if i.Service? {
      assert a[i.level].stack <= b[i.level].stack;
    }
  }

  // ------------------------------------------------------------------
  // Meaning
  // ------------------------------------------------------------------

  /** How far out or in an instance reaches. */
  predicate WellScoped(i: Instance) {
    i.Service? ==> forall a <- i.args :: a.level <= i.level && WellScoped(a)
  }

  /** Nothing made in a scope depends on anything from a scope further in. */
  lemma {:induction false} DenoteIsWellScoped(reg: Registry, chain: seq<Type>, rank: Type -> nat, k: int, t: Type)
    requires Acyclic(reg, rank) && -1 <= k < |chain|
    ensures var r := Denote(reg, chain, rank, k, t); r.Success? ==> r.value.level <= k && WellScoped(r.value)
    decreases rank(t), 1, k + 1
  {
    if k >= 0 && t != PROVIDER && t != chain[k] {
      if (t, chain[k]) in reg {
        DenoteAllWellScoped(reg, chain, rank, k, reg[(t, chain[k])].deps, rank(t));
      } else {
        DenoteIsWellScoped(reg, chain, rank, k - 1, t);
      }
    }
  }

  lemma {:induction false} DenoteAllWellScoped(reg: Registry, chain: seq<Type>, rank: Type -> nat, k: int,
                                               deps: seq<Type>, bound: nat)
    requires Acyclic(reg, rank) && -1 <= k < |chain|
    requires forall d <- deps :: rank(d) < bound
    ensures var r := DenoteAll(reg, chain, rank, k, deps, bound);
      r.Success? ==> |r.value| == |deps| && forall a <- r.value :: a.level <= k && WellScoped(a)
    decreases bound, 0, |deps|
  {
    if deps != [] {
      DenoteIsWellScoped(reg, chain, rank, k, deps[0]);
      DenoteAllWellScoped(reg, chain, rank, k, deps[1..], bound);
    }
  }

  // ------------------------------------------------------------------
  // One resolution
  // ------------------------------------------------------------------

  lemma InsertKeeps(reg: Registry, chain: seq<Type>, rank: Type -> nat, ls: seq<Level>, k: nat, t: Type, i: Instance)
    requires Inv(reg, chain, rank, ls) && k < |chain|
    requires i.Service? && i.level == k && Denote(reg, chain, rank, k, t) == Success(i)
    requires forall a <- i.args :: OnStack(ls, a) && a.level <= k
    ensures Inv(reg, chain, rank, Insert(ls, k, t, i))
    ensures Extends(ls, Insert(ls, k, t, i)) && OnStack(Insert(ls, k, t, i), i)
  {
    var ls' := Insert(ls, k, t, i);
    assert Extends(ls, ls');
    assert i in ls'[k].stack by {
      assert ls'[k].stack[|ls[k].stack|] == i;
    }
    forall j | 0 <= j < |ls'| ensures forall u <- ls'[j].services :: OnStack(ls', ls'[j].services[u]) {
      forall u <- ls'[j].services ensures OnStack(ls', ls'[j].services[u]) {
        if j != k || u != t {
          StaysOnStack(ls, ls', ls[j].services[u]);
        }
      }
    }
    InsertGrounded(ls, k, t, i);
  }

  lemma InsertGrounded(ls: seq<Level>, k: nat, t: Type, i: Instance)
    requires Grounded(ls) && k < |ls| && i.Service? && i.level == k
    requires forall a <- i.args :: OnStack(ls, a) && a.level <= k
    ensures Grounded(Insert(ls, k, t, i))
  {
    var ls' := Insert(ls, k, t, i);
    forall j, pos | 0 <= j < |ls'| && 0 <= pos < |ls'[j].stack|
      ensures ls'[j].stack[pos].Service? && ls'[j].stack[pos].level == j
      ensures forall b <- ls'[j].stack[pos].args :: Below(ls', j, pos, b)
    {
      if pos < |ls[j].stack| {
        assert ls'[j].stack[pos] == ls[j].stack[pos] && ls'[j].stack[..pos] == ls[j].stack[..pos];
        forall b <- ls[j].stack[pos].args ensures Below(ls', j, pos, b) {
          assert Below(ls, j, pos, b);
          if b.Service? && b.level != j {
            assert ls[b.level].stack <= ls'[b.level].stack;
          }
        }
      } else {
        assert j == k && ls'[j].stack[..pos] == ls[k].stack;
      }
    }
  }

  /** Resolution yields what the type denotes, and keeps everything true of the providers. */
  lemma {:induction false} ResolveMeans(reg: Registry, chain: seq<Type>, rank: Type -> nat, ls: seq<Level>,
                                        k: int, t: Type)
    requires Inv(reg, chain, rank, ls) && -1 <= k < |chain|
    ensures var (r, ls') := Resolve(reg, chain, rank, ls, k, t);
      && r == Denote(reg, chain, rank, k, t)
      && Inv(reg, chain, rank, ls')
      && Extends(ls, ls')
      && (r.Success? ==> OnStack(ls', r.value) && r.value.level <= k)
    decreases rank(t), 1, k + 1
  {
    if k == -1 || t == PROVIDER || t == chain[k] {
    } else if t in ls[k].services && Truthy(ls[k].services[t]) {
      DenoteIsWellScoped(reg, chain, rank, k, t);
      assert OnStack(ls, ls[k].services[t]);
    } else if (t, chain[k]) in reg {
      var d := reg[(t, chain[k])];
      ResolveAllMeans(reg, chain, rank, ls, k, d.deps, rank(t));
      var (args, ls1) := ResolveAll(reg, chain, rank, ls, k, d.deps, rank(t));
      if args.Success? && !d.raises {
        var i := Service(t, k, d.truthy, args.value);
        InsertKeeps(reg, chain, rank, ls1, k, t, i);
        ExtendsTrans(ls, ls1, Insert(ls1, k, t, i));
      }
    } else {
      ResolveMeans(reg, chain, rank, ls, k - 1, t);
    }
  }

  lemma {:induction false} ResolveAllMeans(reg: Registry, chain: seq<Type>, rank: Type -> nat, ls: seq<Level>, k: int,
                                           deps: seq<Type>, bound: nat)
    requires Inv(reg, chain, rank, ls) && -1 <= k < |chain|
    requires forall d <- deps :: rank(d) < bound
    ensures var (r, ls') := ResolveAll(reg, chain, rank, ls, k, deps, bound);
      && r == DenoteAll(reg, chain, rank, k, deps, bound)
      && Inv(reg, chain, rank, ls')
      && Extends(ls, ls')
      && (r.Success? ==> forall a <- r.value :: OnStack(ls', a) && a.level <= k)
    decreases bound, 0, |deps|
  {
    if deps != [] {
      ResolveMeans(reg, chain, rank, ls, k, deps[0]);
      var (first, ls1) := Resolve(reg, chain, rank, ls, k, deps[0]);
      if first.Success? {
        ResolveAllMeans(reg, chain, rank, ls1, k, deps[1..], bound);
        var (rest, ls2) := ResolveAll(reg, chain, rank, ls1, k, deps[1..], bound);
        StaysOnStack(ls1, ls2, first.value);
        ExtendsTrans(ls, ls1, ls2);
      }
    }
  }
}
