/** The imperative worker: the table operations of worker.go on a session map and
    a wait-set table. */
module WorkerClass {
  import opened WaitEngine
  import opened WaitTableClass
  import opened Handles
  import T = WorkerTables

  class Worker {
    var sessions: map<VLSH, VLSH>
    const table: WaitTable

    ghost function Tables(): T.Tables
      reads this, table
    {
      T.Tables(sessions, table.View())
    }

    ghost predicate Valid()
      reads this, table
    {
      T.Valid(Tables())
    }

    constructor ()
      ensures Valid() && Tables() == T.FRESH && fresh(table)
    {
      sessions := map[];
      table := new WaitTable();
    }

    /** The session of a public handle, if it is still the expected one. */
    method OwnedRaw(public: VLSH, expected: VLSH, owned: bool) returns (r: T.Owned)
      ensures r == T.Resolve(Tables(), public, expected, owned)
    {
      if public !in sessions || sessions[public] != expected {
        return T.Closed;
      }
      if !owned {
        return T.Foreign;
      }
      return T.OwnedRaw(sessions[public]);
    }

    method AddWaiter(public: VLSH, raw: VLSH, w: Waiter, owned: bool, ctlOk: bool) returns (ok: bool)
      requires Valid() && w !in table.joined
      modifies this, table
      ensures Valid()
      ensures (Tables(), ok) == T.AddWaiter(old(Tables()), public, raw, w, owned, ctlOk)
    {
      T.AddWaiterKeeps(Tables(), public, raw, w, owned, ctlOk);
      var ref := OwnedRaw(public, raw, owned);
      if !ref.OwnedRaw? {
        return false;
      }
      ok := table.Join(public, raw, w, ctlOk);
    }

    method CancelWaiter(public: VLSH, raw: VLSH, w: Waiter, modOk: bool) returns (eventWon: bool)
      requires Valid() && (public in sessions ==> sessions[public] == raw)
      modifies this, table
      ensures Valid()
      ensures (Tables(), eventWon) == T.CancelWaiter(old(Tables()), public, raw, w, modOk)
    {
      CancelKeeps(table.View(), public, raw, w, modOk, sessions);
      if public !in table.waiters || w !in table.waiters[public].waiters {
        return w in table.woken;
      }
      table.Leave(public, raw, w, modOk);
      return false;
    }

    method RemoveWaiters(public: VLSH, raw: VLSH)
      requires Valid() && (public in sessions ==> sessions[public] == raw)
      modifies this, table
      ensures Valid() && Tables() == T.RemoveWaiters(old(Tables()), public, raw)
    {
      T.RemoveWaitersKeeps(Tables(), public, raw);
      if public in table.waiters {
        table.DropWaitSet(public, raw, table.waiters[public].waiters);
      }
    }

    /** The source also guards against a wait set without a session; coherence
        makes that branch, which would drop waiters unwoken, unreachable. */
    method HandleEvent(public: VLSH, events: Mask, modOk: bool)
      requires Valid()
      modifies this, table
      ensures Valid() && Tables() == T.HandleEvent(old(Tables()), public, events, modOk)
    {
      T.HandleEventKeeps(Tables(), public, events, modOk);
      if public !in table.waiters {
        return;
      }
      assert public in sessions;
      table.Fire(public, sessions[public], events, modOk);
    }

    /** `epOpen` is false while the worker has no epoll handle; then nothing can
        have been registered. */
    method WakeAllWaiters(epOpen: bool)
      requires Valid() && (!epOpen ==> table.waiters == map[])
      modifies this, table
      ensures Valid() && Tables() == T.WakeAllWaiters(old(Tables()))
    {
      T.WakeAllEmptiesEpoll(Tables());
      table.WakeEach(if epOpen then sessions else map[]);
      table.waiters := map[];
    }

    method AddWaiterRaw(raw: VLSH, w: Waiter, ctlOk: bool) returns (ok: bool)
      requires Valid() && w !in table.joined
      requires forall k :: k in sessions ==> (k == RawKey(raw) <==> sessions[k] == raw)
      modifies this, table
      ensures Valid()
      ensures (Tables(), ok) == T.AddWaiterRaw(old(Tables()), raw, w, ctlOk)
    {
      T.AddWaiterRawKeeps(Tables(), raw, w, ctlOk);
      sessions := sessions[RawKey(raw) := raw];
      ok := table.Join(RawKey(raw), raw, w, ctlOk);
    }

    method CancelWaiterRaw(raw: VLSH, w: Waiter, modOk: bool)
      requires Valid()
      requires RawKey(raw) in sessions ==> sessions[RawKey(raw)] == raw
      modifies this, table
      ensures Valid() && Tables() == T.CancelWaiterRaw(old(Tables()), raw, w, modOk)
    {
      T.CancelWaiterRawKeeps(Tables(), raw, w, modOk);
      var key := RawKey(raw);
      if key !in table.waiters || w !in table.waiters[key].waiters {
        return;
      }
      var last := table.waiters[key].waiters == {w};
      table.Leave(key, raw, w, modOk);
      if last {
        sessions := sessions - {key};
      }
    }

    method RemoveWaitersRaw(raw: VLSH)
      requires Valid()
      requires RawKey(raw) in sessions ==> sessions[RawKey(raw)] == raw
      modifies this, table
      ensures Valid() && Tables() == T.RemoveWaitersRaw(old(Tables()), raw)
    {
      T.RemoveWaitersRawKeeps(Tables(), raw);
      var key := RawKey(raw);
      if key in table.waiters {
        table.DropWaitSet(key, raw, table.waiters[key].waiters);
      }
      sessions := sessions - {key};
    }
  }
}
