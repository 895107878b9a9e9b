/** The poller as its goroutine runs it: three request queues drained one after
    the other into the wait-set table. */
module PollerClass {
  import opened WaitEngine
  import opened WaitTableClass
  import Spec = PollerSpec

  function Asked(queue: seq<Spec.Request>): set<Spec.Request> {
    set r | r in queue
  }

  lemma Answered(queue: seq<Spec.Request>, k: nat)
    requires k < |queue|
    ensures Asked(queue[..k + 1]) == Asked(queue[..k]) + {queue[k]}
  {
    assert queue[..k + 1] == queue[..k] + [queue[k]];
  }

  class Poller {
    const table: WaitTable
    var regCh: seq<Waiter>
    var cancelCh: seq<Waiter>
    var unregCh: seq<Spec.Request>
    var done: set<Spec.Request>  // acknowledged requests

    ghost predicate Valid()
      reads this, table
    {
      && Spec.Valid(table.View())
      && Spec.AllNew(table.joined, regCh)
    }

    constructor ()
      ensures Valid() && fresh(table) && table.View() == EMPTY
      ensures regCh == [] && cancelCh == [] && unregCh == [] && done == {}
    {
      table := new WaitTable();
      regCh, cancelCh, unregCh, done := [], [], [], {};
    }

    /** One registration: `ctlOk` is the outcome of the epoll add or mod. */
    method Install(w: Waiter, ctlOk: bool)
      requires Spec.Valid(table.View()) && w !in table.joined
      modifies table
      ensures Spec.Valid(table.View()) && table.View() == Spec.Install(old(table.View()), w, ctlOk)
    {
      Spec.InstallKeeps(table.View(), w, ctlOk);
      var ok := table.Join(w.vlsh, w.vlsh, w, ctlOk);
      if !ok {
        table.joined := table.joined[w := w.vlsh];
        table.WakeWaiter(w);
        assert multiset({w}) == multiset{w};
      }
    }

    method DrainRegistrations(ctl: seq<bool>)
      requires Valid() && |ctl| == |regCh|
      modifies this`regCh, table
      ensures Valid() && regCh == []
      ensures table.View() == Spec.InstallAll(old(table.View()), old(regCh), ctl)
    {
      ghost var before, queue := table.View(), regCh;
      var k := 0;
      while regCh != []
        invariant 0 <= k <= |queue| && regCh == queue[k..]
        invariant Valid()
        invariant table.View() == Spec.InstallAll(before, queue[..k], ctl[..k])
      {
        var w := regCh[0];
        regCh := regCh[1..];
        ghost var joined := table.joined;
        Spec.InstallAllStep(before, queue, ctl, k);
        Spec.InstallJoins(table.View(), w, ctl[k]);
        Install(w, ctl[k]);
        Spec.NewAfter(joined, queue[k..]);
        k := k + 1;
      }
      assert queue[..k] == queue && ctl[..k] == ctl;
    }

    /** One cancellation: a waiter that is not parked is skipped. */
    method Withdraw(w: Waiter, modOk: bool)
      requires Spec.Valid(table.View())
      modifies table
      ensures Spec.Valid(table.View()) && table.View() == Spec.Withdraw(old(table.View()), w, modOk)
      ensures table.joined == old(table.joined)
    {
      Spec.WithdrawKeeps(table.View(), w, modOk);
      Spec.JoinedKept(table.View(), w, w.vlsh, {}, modOk);
      if w.vlsh in table.waiters && w in table.waiters[w.vlsh].waiters {
        table.Leave(w.vlsh, w.vlsh, w, modOk);
      }
    }

    /** `mods` are the outcomes of the epoll mods. */
    method DrainCancellations(mods: seq<bool>)
      requires Valid() && |mods| == |cancelCh|
      modifies this`cancelCh, table
      ensures Valid() && cancelCh == []
      ensures table.View() == Spec.WithdrawAll(old(table.View()), old(cancelCh), mods)
    {
      ghost var before, queue := table.View(), cancelCh;
      var k := 0;
      while cancelCh != []
        invariant 0 <= k <= |queue| && cancelCh == queue[k..]
        invariant Valid()
        invariant table.View() == Spec.WithdrawAll(before, queue[..k], mods[..k])
      {
        var w := cancelCh[0];
        cancelCh := cancelCh[1..];
        Spec.WithdrawAllStep(before, queue, mods, k);
        Withdraw(w, mods[k]);
        k := k + 1;
      }
      assert queue[..k] == queue && mods[..k] == mods;
    }

    /** One close barrier, before its acknowledgement. */
    method Unregister(vlsh: VLSH)
      requires Spec.Valid(table.View())
      modifies table
      ensures Spec.Valid(table.View()) && table.View() == Spec.Unregister(old(table.View()), vlsh)
      ensures table.joined == old(table.joined)
    {
      Spec.UnregisterKeeps(table.View(), vlsh);
      if vlsh in table.waiters {
        table.DropWaitSet(vlsh, vlsh, table.waiters[vlsh].waiters);
      }
    }

    method DrainUnregistrations()
      requires Valid()
      modifies this`unregCh, this`done, table
      ensures Valid() && unregCh == []
      ensures table.View() == Spec.UnregisterAll(old(table.View()), old(unregCh))
      ensures done == old(done) + Asked(old(unregCh))
    {
      ghost var before, queue := table.View(), unregCh;
      var k := 0;
      while unregCh != []
        invariant 0 <= k <= |queue| && unregCh == queue[k..]
        invariant Valid()
        invariant table.View() == Spec.UnregisterAll(before, queue[..k])
        invariant done == old(done) + Asked(queue[..k])
      {
        var r := unregCh[0];
        unregCh := unregCh[1..];
        assert r == queue[k] && unregCh == queue[k + 1..];
        Spec.UnregisterAllStep(before, queue, k);
        Unregister(r.vlsh);
        done := done + {r};
        Answered(queue, k);
        k := k + 1;
      }
      assert queue[..k] == queue;
    }

    method HandleEvent(vlsh: VLSH, events: Mask, modOk: bool)
      requires Valid()
      modifies table
      ensures Valid() && table.View() == Spec.Deliver(old(table.View()), vlsh, events, modOk)
    {
      Spec.DeliverKeeps(table.View(), vlsh, events, modOk);
      if vlsh !in table.waiters {
        return;
      }
      table.Fire(vlsh, vlsh, events, modOk);
    }

    /** Everybody parked is woken and the wait sets are gone. */
    method WakeParked()
      requires Spec.Valid(table.View())
      modifies table
      ensures Spec.Valid(table.View()) && table.View() == WaitEngine.WakeAll(old(table.View()))
      ensures table.joined == old(table.joined)
    {
      Spec.WakeAllValid(table.View());
      Spec.WakeAllDels(table.View());
      table.WakeEach(Spec.Identity(table.waiters.Keys));
      table.waiters := map[];
    }

    /** A pending registration is answered by waking its waiter. */
    method Reject(w: Waiter)
      requires Spec.Valid(table.View()) && w !in table.joined
      modifies table
      ensures Spec.Valid(table.View()) && table.View() == Spec.Reject(old(table.View()), w)
    {
      Spec.RejectKeeps(table.View(), w);
      table.joined := table.joined[w := w.vlsh];
      table.WakeWaiter(w);
      assert multiset({w}) == multiset{w};
    }

    /** At stop: everybody parked is woken, then every pending registration. */
    method WakeAll()
      requires Valid()
      modifies this`regCh, table
      ensures Valid() && regCh == []
      ensures table.View() == Spec.RejectAll(WaitEngine.WakeAll(old(table.View())), old(regCh))
    {
      WakeParked();
      ghost var before, queue := table.View(), regCh;
      var k := 0;
      while regCh != []
        invariant 0 <= k <= |queue| && regCh == queue[k..]
        invariant Valid()
        invariant table.View() == Spec.RejectAll(before, queue[..k])
      {
        var w := regCh[0];
        regCh := regCh[1..];
        Spec.RejectAllStep(before, queue, k);
        Spec.NewAfter(table.joined, queue[k..]);
        Reject(w);
        k := k + 1;
      }
      assert queue[..k] == queue;
    }
  }
}
