/**
 The task group as the object the source updates under its lock, and the loops of `__exit__`.
 The statuses stand for the futures, which the executor settles.
 */
module TaskGroupObject {
  import opened Wrappers
  import opened TaskGroup
  import opened TaskGroupProofs

  class Group {
    var isOpen: bool
    var closed: bool
    var tasks: seq<Future>
    var status: map<Future, Status>
    ghost var created: nat
    ghost var creating: map<Creator, Creating>
    ghost var callbacks: set<Future>
    ghost var due: set<Future>
    ghost var exit: Exit
    var bodyExc: Option<Exc>
    ghost var raised: seq<Exc>
    ghost var listed: seq<Future>
    ghost var removed: set<Future>
    ghost var completed: seq<Future>

    ghost function View(): State
      reads this
    {
      State(isOpen, closed, tasks, created, status, creating, callbacks, due, exit, bodyExc, raised, listed, removed,
            completed)
    }

    ghost predicate Valid()
      reads this
    {
      Inv(View())
    }

    constructor ()
      ensures Valid() && View() == Init()
    {
      isOpen, closed, tasks, created, status, creating := false, false, [], 0, map[], map[];
      callbacks, due, exit, bodyExc, raised, listed, removed, completed := {}, {}, Inside, None, [], [], {}, [];
      new;
      InitInv();
    }

    /** The guard of `create_task`. */
    method Check(ghost c: Creator) returns (ok: bool)
      requires Valid() && Free(View(), c)
      modifies this
      ensures Valid() && View() == CheckStep(old(View()), c)
      ensures ok <==> old(isOpen) && !old(closed)
    {
      CheckKeeps(View(), c);
      hide Inv;
      ok := !closed && isOpen;
      if ok {
        creating := creating[c := Checked];
      }
    }

    /** `_tasks.append` in `create_task`. */
    method List(ghost c: Creator, f: Future)
      requires Valid() && c in creating && creating[c] == Submitted(f)
      modifies this
      ensures Valid() && View() == ListStep(old(View()), c)
    {
      ListKeeps(View(), c);
      hide Inv;
      tasks, listed := tasks + [f], listed + [f];
      creating := creating[c := Listed(f)];
    }

    /** `_on_done` */
    method OnDone(f: Future)
      requires Valid() && f in due && f in status
      modifies this
      ensures Valid() && View() == OnDoneStep(old(View()), f)
    {
      OnDoneKeeps(View(), f);
      hide Inv;
      due := due - {f};
      if status[f].Succeeded? {
        tasks := Removed(tasks, f);
        removed := removed + {f};
      }
    }

    /** The snapshot of pending futures at the top of the drain loop; leaving the loop when there is none. */
    method Drain() returns (pending: set<Future>)
      requires Valid() && exit == Draining
      modifies this
      ensures Valid() && View() == DrainStep(old(View()))
      ensures pending == Pending(old(View()))
    {
      DrainKeeps(View());
      hide Inv;
      pending := NotDone(tasks, status);
      exit := if pending == {} then Drained else Waiting(pending);
    }

    /** Marks the group closed and collects what `__exit__` raises. */
    method Close() returns (errors: seq<Exc>)
      requires Valid() && exit == Drained
      modifies this
      ensures Valid() && View() == CloseStep(old(View())) && errors == raised
    {
      CloseKeeps(View());
      hide Inv;
      closed := true;
      errors := Collect(tasks, status);
      if bodyExc.Some? && bodyExc.value !in errors {
        errors := [bodyExc.value] + errors;
      }
      exit, raised := Exited, errors;
    }
  }

  /** `list.remove`, without the error for a missing element. */
  method Removed(fs: seq<Future>, f: Future) returns (r: seq<Future>)
    ensures r == RemoveFirst(fs, f)
  {
    var i := 0;
    while i < |fs| && fs[i] != f
      invariant 0 <= i <= |fs| && f !in fs[..i]
      invariant fs[..i] + RemoveFirst(fs[i..], f) == RemoveFirst(fs, f)
    {
      assert fs[i..][1..] == fs[i + 1..] && fs[..i + 1] == fs[..i] + [fs[i]];
      i := i + 1;
    }
    r := if i < |fs| then fs[..i] + fs[i + 1..] else fs;
    assert i < |fs| ==> fs[i..][1..] == fs[i + 1..];
  }

  /** The futures that are not done. */
  method NotDone(fs: seq<Future>, status: map<Future, Status>) returns (pending: set<Future>)
    ensures pending == set f | f in fs && f in status && !Done(status[f])
  {
    pending := {};
    for i := 0 to |fs|
      invariant pending == set f | f in fs[..i] && f in status && !Done(status[f])
    {
      assert fs[..i + 1] == fs[..i] + [fs[i]];
      if fs[i] in status && !Done(status[fs[i]]) {
        pending := pending + {fs[i]};
      }
    }
    assert fs[..|fs|] == fs;
  }

  /** The loop over the listed futures in `__exit__`. */
  method Collect(fs: seq<Future>, status: map<Future, Status>) returns (errors: seq<Exc>)
    ensures errors == ErrorsOf(fs, status)
  {
    errors := [];
    for i := 0 to |fs|
      invariant errors + ErrorsOf(fs[i..], status) == ErrorsOf(fs, status)
    {
      assert fs[i..][1..] == fs[i + 1..];
      if fs[i] in status && status[fs[i]].Failed? {
        errors := errors + [status[fs[i]].exc];
      }
    }
  }
}
