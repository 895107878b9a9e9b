/** The per-worker tables of Mode 2 (worker.go): sessions by public handle, wait
    sets, and the epoll instance they mirror.  The functions specify each table
    operation on values; class Worker performs them in place. */
module WorkerTables {
  import opened WaitEngine
  import opened Handles

  datatype Tables = Tables(sessions: map<VLSH, VLSH>, engine: Engine)

  datatype Owned = OwnedRaw(raw: VLSH) | Closed | Foreign

  const FRESH := Tables(map[], EMPTY)

  ghost predicate Valid(t: Tables) {
    Coherent(t.engine, t.sessions) && Injective(t.sessions)
  }

  /** `owned` is the answer of the foreign ownership query. */
  function Resolve(t: Tables, public: VLSH, expected: VLSH, owned: bool): Owned {
    if public !in t.sessions || t.sessions[public] != expected then Closed
    else if !owned then Foreign
    else OwnedRaw(expected)
  }

  function AddWaiter(t: Tables, public: VLSH, raw: VLSH, w: Waiter, owned: bool, ctlOk: bool): (Tables, bool) {
    if !Resolve(t, public, raw, owned).OwnedRaw? then (t, false) else
      var (e, ok) := Add(t.engine, public, raw, w, ctlOk);
      (t.(engine := e), ok)
  }

  function CancelWaiter(t: Tables, public: VLSH, raw: VLSH, w: Waiter, modOk: bool): (Tables, bool) {
    if public in t.engine.sets && w in t.engine.sets[public].waiters
    then (t.(engine := Cancel(t.engine, public, raw, w, modOk)), false)
    else (t, w in t.engine.woken)
  }

  function RemoveWaiters(t: Tables, public: VLSH, raw: VLSH): Tables {
    t.(engine := Remove(t.engine, public, raw))
  }

  function HandleEvent(t: Tables, public: VLSH, events: Mask, modOk: bool): Tables
    requires t.engine.sets.Keys <= t.sessions.Keys
  {
    if public !in t.engine.sets then t
    else t.(engine := Handle(t.engine, public, t.sessions[public], events, modOk))
  }

  function WakeAllWaiters(t: Tables): Tables {
    t.(engine := WakeAll(t.engine))
  }

  function AddWaiterRaw(t: Tables, raw: VLSH, w: Waiter, ctlOk: bool): (Tables, bool) {
    var (e, ok) := Add(t.engine, RawKey(raw), raw, w, ctlOk);
    (Tables(t.sessions[RawKey(raw) := raw], e), ok)
  }

  /** The session entry goes only when the cancelled waiter was the last one. */
  function CancelWaiterRaw(t: Tables, raw: VLSH, w: Waiter, modOk: bool): Tables {
    var key := RawKey(raw);
    if key in t.engine.sets && w in t.engine.sets[key].waiters then
      Tables(if t.engine.sets[key].waiters == {w} then t.sessions - {key} else t.sessions,
             Cancel(t.engine, key, raw, w, modOk))
    else t
  }

  function RemoveWaitersRaw(t: Tables, raw: VLSH): Tables {
    Tables(t.sessions - {RawKey(raw)}, Remove(t.engine, RawKey(raw), raw))
  }

  // ---------------------------------------------------------------- laws

  /** Mirroring only looks at the sessions that have a wait set. */
  lemma Reframe(e: Engine, before: map<VLSH, VLSH>, after: map<VLSH, VLSH>)
    requires Coherent(e, before)
    requires forall k :: k in e.sets ==> k in after && after[k] == before[k]
    ensures Coherent(e, after)
  {
    forall k | k in e.sets.Keys ensures k in after.Keys {
      assert k in e.sets;
    }
  }

  /** Binding an unused raw handle to an unused key keeps the tables coherent. */
  lemma BindKeeps(t: Tables, key: VLSH, raw: VLSH)
    requires Valid(t)
    requires key !in t.sessions && forall k :: k in t.sessions ==> t.sessions[k] != raw
    ensures Valid(t.(sessions := t.sessions[key := raw]))
  {
    Reframe(t.engine, t.sessions, t.sessions[key := raw]);
  }

  /** Dropping a session whose wait set is gone keeps the tables coherent. */
  lemma UnbindKeeps(t: Tables, key: VLSH)
    requires Valid(t) && key !in t.engine.sets
    ensures Valid(t.(sessions := t.sessions - {key}))
  {
    Reframe(t.engine, t.sessions, t.sessions - {key});
  }

  lemma AddWaiterKeeps(t: Tables, public: VLSH, raw: VLSH, w: Waiter, owned: bool, ctlOk: bool)
    requires Valid(t) && w !in t.engine.joined
    ensures Valid(AddWaiter(t, public, raw, w, owned, ctlOk).0)
    ensures !AddWaiter(t, public, raw, w, owned, ctlOk).1 ==> AddWaiter(t, public, raw, w, owned, ctlOk).0 == t
  {
    if Resolve(t, public, raw, owned).OwnedRaw? {
      AddKeeps(t.engine, public, raw, w, ctlOk, t.sessions);
    }
  }

  /** After a cancellation the waiter has left and been woken exactly once; the
      answer is true exactly when something other than this call woke it. */
  lemma CancelTellsWhoWoke(t: Tables, public: VLSH, raw: VLSH, w: Waiter, modOk: bool)
    requires Valid(t) && (public in t.sessions ==> t.sessions[public] == raw)
    requires w in t.engine.joined && t.engine.joined[w] == public
    ensures Valid(CancelWaiter(t, public, raw, w, modOk).0)
    ensures CancelWaiter(t, public, raw, w, modOk).1 <==> t.engine.woken[w] == 1
    ensures CancelWaiter(t, public, raw, w, modOk).0.engine.woken[w] == 1
  {
    CancelKeeps(t.engine, public, raw, w, modOk, t.sessions);
  }

  lemma RemoveWaitersKeeps(t: Tables, public: VLSH, raw: VLSH)
    requires Valid(t) && (public in t.sessions ==> t.sessions[public] == raw)
    ensures Valid(RemoveWaiters(t, public, raw))
    ensures public !in RemoveWaiters(t, public, raw).engine.sets
    ensures public in t.sessions ==> raw !in RemoveWaiters(t, public, raw).engine.epoll
  {
    RemoveKeeps(t.engine, public, raw, t.sessions);
  }

  lemma HandleEventKeeps(t: Tables, public: VLSH, events: Mask, modOk: bool)
    requires Valid(t)
    ensures Valid(HandleEvent(t, public, events, modOk))
  {
    if public in t.engine.sets {
      HandleKeeps(t.engine, public, t.sessions[public], events, modOk, t.sessions);
    }
  }

  lemma WakeAllEmptiesEpoll(t: Tables)
    requires Valid(t)
    ensures Valid(WakeAllWaiters(t))
    ensures t.engine.sets.Keys <= t.sessions.Keys
    ensures t.engine.epoll - RawsOf(t.sessions, t.engine.sets.Keys) == map[]
    ensures forall k, w :: k in t.engine.sets && w in t.engine.sets[k].waiters ==>
              w !in t.engine.woken && w in t.engine.joined && t.engine.joined[w] == k
  {
    WakeAllKeeps(t.engine, t.sessions);
    var left := t.engine.epoll - RawsOf(t.sessions, t.engine.sets.Keys);
    forall r ensures r !in left {
      if r in t.engine.epoll {
        var k := t.engine.epoll[r].key;
        assert k in t.engine.sets && t.sessions[k] == r;
      }
    }
    assert left.Keys == {};
  }

  /** Raw-listener waiters live under a key no session uses, and obey the same law. */
  lemma AddWaiterRawKeeps(t: Tables, raw: VLSH, w: Waiter, ctlOk: bool)
    requires Valid(t) && w !in t.engine.joined
    requires forall k :: k in t.sessions ==> (k == RawKey(raw) <==> t.sessions[k] == raw)
    ensures Valid(AddWaiterRaw(t, raw, w, ctlOk).0)
  {
    var s := t.sessions[RawKey(raw) := raw];
    Reframe(t.engine, t.sessions, s);
    AddKeeps(t.engine, RawKey(raw), raw, w, ctlOk, s);
  }

  lemma CancelWaiterRawKeeps(t: Tables, raw: VLSH, w: Waiter, modOk: bool)
    requires Valid(t)
    requires RawKey(raw) in t.sessions ==> t.sessions[RawKey(raw)] == raw
    ensures Valid(CancelWaiterRaw(t, raw, w, modOk))
    ensures var s := CancelWaiterRaw(t, raw, w, modOk).sessions; s == t.sessions || s == t.sessions - {RawKey(raw)}
  {
    var key := RawKey(raw);
    if key in t.engine.sets && w in t.engine.sets[key].waiters {
      CancelKeeps(t.engine, key, raw, w, modOk, t.sessions);
      Reframe(Cancel(t.engine, key, raw, w, modOk), t.sessions, CancelWaiterRaw(t, raw, w, modOk).sessions);
    }
  }

  lemma RemoveWaitersRawKeeps(t: Tables, raw: VLSH)
    requires Valid(t)
    requires RawKey(raw) in t.sessions ==> t.sessions[RawKey(raw)] == raw
    ensures Valid(RemoveWaitersRaw(t, raw))
    ensures RawKey(raw) in t.sessions ==> raw !in RemoveWaitersRaw(t, raw).engine.epoll
  {
    RemoveKeeps(t.engine, RawKey(raw), raw, t.sessions);
    Reframe(Remove(t.engine, RawKey(raw), raw), t.sessions, t.sessions - {RawKey(raw)});
  }

  // Only registration makes a waiter join, and only a successful one.

  lemma AddJoins(t: Tables, public: VLSH, raw: VLSH, w: Waiter, owned: bool, ok: bool)
    ensures var (u, added) := AddWaiter(t, public, raw, w, owned, ok);
            u.engine.joined == t.engine.joined + (if added then map[w := public] else map[])
  {
  }

  lemma AddRawJoins(t: Tables, raw: VLSH, w: Waiter, ok: bool)
    ensures var (u, added) := AddWaiterRaw(t, raw, w, ok);
            u.engine.joined == t.engine.joined + (if added then map[w := RawKey(raw)] else map[])
  {
  }

  lemma RemoveJoins(t: Tables, public: VLSH, raw: VLSH)
    ensures RemoveWaiters(t, public, raw).engine.joined == t.engine.joined
  {
  }

  lemma RemoveRawJoins(t: Tables, raw: VLSH)
    ensures RemoveWaitersRaw(t, raw).engine.joined == t.engine.joined
  {
  }

  lemma CancelJoins(t: Tables, public: VLSH, raw: VLSH, w: Waiter, ok: bool)
    ensures CancelWaiter(t, public, raw, w, ok).0.engine.joined == t.engine.joined
  {
    CancelKeepsJoined(t.engine, public, raw, w, ok);
  }

  lemma CancelRawJoins(t: Tables, raw: VLSH, w: Waiter, ok: bool)
    ensures CancelWaiterRaw(t, raw, w, ok).engine.joined == t.engine.joined
  {
    CancelKeepsJoined(t.engine, RawKey(raw), raw, w, ok);
  }
}
