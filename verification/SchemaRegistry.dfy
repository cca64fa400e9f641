/** The registry as an object. */
module SchemaRegistryObject {
  import opened Wrappers
  import opened Schemas
  import opened SchemasProofs

  class SchemaRegistry {
    const w: World
    const bodies: Type -> map<string, Schema>
    var buckets: seq<Bucket>
    var cached: Option<map<string, Schema>>
    ghost var origin: seq<Bucket>        // the buckets the cached result was computed from

    ghost predicate Valid()
      reads this
    {
      && Sound(w) && Shape(w, buckets)
      && (cached.Some? ==> Shape(w, origin) && buckets == Answer(w, origin).buckets
                           && cached.value == Merged(bodies, Answer(w, origin).handed))
    }

    constructor (w: World, bodies: Type -> map<string, Schema>)
      requires Sound(w)
      ensures Valid() && this.w == w && buckets == [] && cached.None?
    {
      this.w, this.bodies := w, bodies;
      buckets, cached, origin := [], None, [];
    }

    /** `schema_for`, for a type that is not `None`. */
    method SchemaFor(t: Type)
      requires Valid() && t in w.owner
      modifies this`buckets, this`cached
      ensures Valid() && cached.None? && buckets == Register(w, old(buckets), t)
    {
      RegisterKeeps(w, buckets, t);
      hide Shape, Has, Sound;
      cached := None;
      var a := w.owner[t];
      var i := Find(buckets, a);
      if i == |buckets| {
        buckets := buckets + [Bucket(a, [t])];
      } else if t !in buckets[i].types {
        buckets := buckets[i := buckets[i].(types := buckets[i].types + [t])];
      }
    }

    method RegisterRefs(refs: seq<Type>)
      requires Valid() && Known(w, refs) && cached.None?
      modifies this`buckets, this`cached
      ensures Valid() && cached.None? && buckets == RegisterAll(w, old(buckets), refs)
    {
      hide Valid;
      for j := 0 to |refs|
        invariant Valid() && cached.None? && buckets == RegisterAll(w, old(buckets), refs[..j])
      {
        assert refs[..j + 1][..j] == refs[..j];
        SchemaFor(refs[j]);
      }
      assert refs[..|refs|] == refs;
    }

    /** An adapter renders some types, and calls `schema_for` for every type it meets there. */
    method Render(pending: seq<Type>) returns (out: map<string, Schema>)
      requires Valid() && Known(w, pending) && cached.None?
      modifies this`buckets, this`cached
      ensures Valid() && cached.None? && buckets == RegisterAll(w, old(buckets), RefsOf(w, pending))
      ensures out == Merged(bodies, pending)
    {
      hide Shape, Answer, Sound;
      out := map[];
      for k := 0 to |pending|
        invariant Valid() && cached.None?
        invariant buckets == RegisterAll(w, old(buckets), RefsOf(w, pending[..k]))
        invariant out == Merged(bodies, pending[..k])
      {
        assert pending[..k + 1][..k] == pending[..k];
        RefsAreKnown(w, pending[k]);
        RegisterTwice(w, old(buckets), RefsOf(w, pending[..k]), w.refs[pending[k]]);
        RegisterRefs(w.refs[pending[k]]);
        out := out + bodies(pending[k]);
      }
      assert pending[..|pending|] == pending;
    }

    /** One bucket in the loop of `components`. */
    method Turn(i: nat, ghost s: Work, processed: map<Adapter, nat>, schemas: map<string, Schema>)
      returns (processed': map<Adapter, nat>, schemas': map<string, Schema>, progress: bool)
      requires Valid() && cached.None? && i < |buckets|
      requires Inv(w, s) && s.buckets == buckets && s.done == processed && schemas == Merged(bodies, s.handed)
      modifies this`buckets, this`cached
      ensures Valid() && cached.None?
      ensures buckets == Visit(w, s, i).buckets && processed' == Visit(w, s, i).done
      ensures schemas' == Merged(bodies, Visit(w, s, i).handed) && progress == (Visit(w, s, i).handed != s.handed)
    {
      var b := buckets[i];
      var start := if b.adapter in processed then processed[b.adapter] else 0;
      processed', schemas', progress := processed, schemas, false;
      if start >= |b.types| {
        return;
      }
      PendingIsFresh(w, s, i);
      MergedTwice(bodies, s.handed, b.types[start..]);
      processed' := processed'[b.adapter := |b.types|];
      var out := Render(b.types[start..]);
      schemas' := schemas' + out;
      progress := true;
    }

    /** The inner loop of `components`. */
    method RunPass(ghost s: Work, processed: map<Adapter, nat>, schemas: map<string, Schema>)
      returns (ghost s': Work, processed': map<Adapter, nat>, schemas': map<string, Schema>, madeProgress: bool)
      requires Valid() && cached.None?
      requires Inv(w, s) && s.buckets == buckets && s.done == processed && schemas == Merged(bodies, s.handed)
      modifies this`buckets, this`cached
      ensures Valid() && cached.None? && s' == Pass(w, s, 0, |s.buckets|)
      ensures s'.buckets == buckets && s'.done == processed' && schemas' == Merged(bodies, s'.handed)
      ensures madeProgress == (s'.handed != s.handed)
    {
      hide Inv, Visit, Shape, Sound, Answer, Merged;
      s', processed', schemas', madeProgress := s, processed, schemas, false;
      var n := |buckets|;
      for i := 0 to n
        invariant Valid() && cached.None? && Inv(w, s') && n <= |buckets|
        invariant s'.buckets == buckets && s'.done == processed' && schemas' == Merged(bodies, s'.handed)
        invariant Pass(w, s', i, n) == Pass(w, s, 0, n)
        invariant s.handed <= s'.handed && madeProgress == (s'.handed != s.handed)
      {
        var progress;
        VisitKeeps(w, s', i);
        processed', schemas', progress := Turn(i, s', processed', schemas');
        s' := Visit(w, s', i);
        madeProgress := madeProgress || progress;
      }
    }

    /** The outer loop of `components`. */
    method Passes(ghost start: Work) returns (schemas: map<string, Schema>, ghost end: Work)
      requires Valid() && cached.None? && Inv(w, start) && start == Start(buckets)
      modifies this`buckets, this`cached
      ensures Valid() && cached.None?
      ensures end == Drain(w, start) && buckets == end.buckets && schemas == Merged(bodies, end.handed)
    {
      schemas := map[];
      var processed: map<Adapter, nat> := map[];
      end := start;
      hide Inv, Valid, Pass, Drain, Elements;
      var madeProgress := true;
      while madeProgress
        invariant Valid() && cached.None? && Inv(w, end)
        invariant end.buckets == buckets && end.done == processed && schemas == Merged(bodies, end.handed)
        invariant if madeProgress then Drain(w, end) == Drain(w, start) else end == Drain(w, start)
        decreases w.owner.Keys - Elements(end.handed), madeProgress
      {
        ghost var before := end;
        DrainStep(w, before);
        end, processed, schemas, madeProgress := RunPass(end, processed, schemas);
        if madeProgress {
          ProgressShrinks(w, before, end);
        }
      }
    }

    /** `components` */
    method Components() returns (schemas: map<string, Schema>)
      requires Valid()
      modifies this
      ensures Valid() && cached == Some(schemas)
      ensures old(cached).Some? ==> schemas == old(cached).value && buckets == old(buckets)
      ensures old(cached).None? ==>
                var end := Answer(w, old(buckets)); buckets == end.buckets && schemas == Merged(bodies, end.handed)
    {
      hide Inv, Shape, Sound, Drain, Merged;
      if cached.Some? {
        return cached.value;
      }
      StartIsSound(w, buckets);
      ghost var before := buckets;
      ghost var end;
      schemas, end := Passes(Start(buckets));
      origin := before;
      cached := Some(schemas);
    }
  }

  lemma RefsAreKnown(w: World, t: Type)
    requires Sound(w) && t in w.owner
    ensures t in w.refs && Known(w, w.refs[t])
  {
  }

  lemma {:induction false} RegisterTwice(w: World, buckets: seq<Bucket>, a: seq<Type>, b: seq<Type>)
    requires Known(w, a) && Known(w, b)
    ensures Known(w, a + b) && RegisterAll(w, buckets, a + b) == RegisterAll(w, RegisterAll(w, buckets, a), b)
    decreases |b|
  {
    if b == [] {
      assert a + b == a;
    } else {
      assert (a + b)[..|a + b| - 1] == a + b[..|b| - 1];
      RegisterTwice(w, buckets, a, b[..|b| - 1]);
    }
  }

  lemma MapsAssociate<K, V>(a: map<K, V>, b: map<K, V>, c: map<K, V>)
    ensures (a + b) + c == a + (b + c)
  {
  }

  lemma {:induction false} MergedTwice(bodies: Type -> map<string, Schema>, a: seq<Type>, b: seq<Type>)
    ensures Merged(bodies, a + b) == Merged(bodies, a) + Merged(bodies, b)
    decreases |b|
  {
    if b == [] {
      assert a + b == a;
    } else {
      var front, last := Merged(bodies, b[..|b| - 1]), bodies(b[|b| - 1]);
      assert (a + b)[..|a + b| - 1] == a + b[..|b| - 1];
      MergedTwice(bodies, a, b[..|b| - 1]);
      MapsAssociate(Merged(bodies, a), front, last);
    }
  }
}
