/** A lifetime as an object. */
module HostingObject {
  import opened Wrappers
  import opened Hosting

  class ServiceLifetime {
    const parent: Option<nat>
    var phase: Phase
    var started: bool
    var shuttingDown: bool
    var stopped: bool
    var shutdownReason: Option<Reason>
    var exception: Option<Exc>
    ghost var writes: nat

    constructor (parent: Option<nat>)
      ensures View() == Fresh(parent)
    {
      this.parent := parent;
      phase, started, shuttingDown, stopped := Scheduled, false, false, false;
      shutdownReason, exception, writes := None, None, 0;
    }

    ghost function View(): Lifetime
      reads this
    {
      Lifetime(parent, phase, started, shuttingDown, stopped, shutdownReason, exception, writes)
    }

    /** `state` */
    method State() returns (st: ServiceState)
      ensures st == Observed(View())
    {
      if stopped {
        return Stopped(shutdownReason, exception);
      }
      if shuttingDown {
        return ShuttingDown(shutdownReason);
      }
      if started {
        return Running;
      }
      st := Starting;
    }

    /** `set_started`: false stands for the failed assertion. */
    method SetStarted() returns (ok: bool)
      modifies this
      ensures View() == SetStartedStep(old(View())) && ok == !old(stopped)
    {
      if stopped {
        return false;
      }
      started := true;
      ok := true;
    }

    /** `set_shutting_down` */
    method SetShuttingDown(reason: Option<Reason>) returns (ok: bool)
      modifies this
      ensures View() == ShutdownStep(old(View()), reason) && ok == !old(stopped)
    {
      if stopped {
        return false;
      }
      if !shuttingDown {
        shutdownReason := reason;
        writes := writes + 1;
        shuttingDown := true;
      }
      ok := true;
    }

    /** `shutdown`, on the view */
    method Shutdown(reason: Option<Reason>)
      modifies this
      ensures View() == ShutdownStep(old(View()), reason)
    {
      if stopped || shuttingDown {
        return;
      }
      shutdownReason := reason;
      writes := writes + 1;
      shuttingDown := true;
    }

    /** The `finally` of `_run` */
    method Stop(exception: Option<Exc>)
      modifies this
      ensures View() == StopStep(old(View()), exception)
    {
      this.exception := exception;
      phase := Over;
      stopped := true;
    }
  }

  /** `propagate_shutdown` of `_run_many`: every child is told, once, whatever the others do. */
  method PropagateShutdown(children: seq<ServiceLifetime>)
    requires forall i, j | 0 <= i < j < |children| :: children[i] != children[j]
    modifies children
    ensures forall i | 0 <= i < |children| :: children[i].View() == ShutdownStep(old(children[i].View()), None)
    ensures forall i | 0 <= i < |children| :: Rank(Observed(children[i].View())) >= 2
  {
    for i := 0 to |children|
      invariant forall j | 0 <= j < i :: children[j].View() == ShutdownStep(old(children[j].View()), None)
      invariant forall j | i <= j < |children| :: children[j].View() == old(children[j].View())
    {
      children[i].Shutdown(None);
    }
  }
}
