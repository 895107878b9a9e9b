/** What registration, withdrawal, removal and event delivery mean for each single
    waiter: in bits of masks, wake counts and who is parked, for the key concerned and
    for all the others. */
module WaitLaws {
  import opened WaitEngine
  import opened Handles
  import T = WorkerTables
  import P = PollerSpec

  /** Some waiter asks for bit `b`. */
  predicate Asked(ws: set<Waiter>, b: nat) {
    exists w :: w in ws && b in w.events
  }

  ghost predicate SameBits(vs: set<Waiter>, ws: set<Waiter>) {
    forall b: nat :: Asked(vs, b) <==> Asked(ws, b)
  }

  /** `w` is parked under `key` and its channel is open. */
  ghost predicate ParkedAt(e: Engine, key: VLSH, w: Waiter) {
    key in e.sets && w in e.sets[key].waiters && e.woken[w] == 0
  }

  /** Whatever has nothing to do with `key` and its raw handle is as it was. */
  ghost predicate OthersUntouched(e: Engine, t: Engine, key: VLSH, raw: VLSH) {
    && (forall k :: k != key ==> (k in t.sets <==> k in e.sets) && (k in e.sets ==> t.sets[k] == e.sets[k]))
    && (forall r :: r != raw ==> (r in t.epoll <==> r in e.epoll) && (r in e.epoll ==> t.epoll[r] == e.epoll[r]))
    && (forall v :: !(v in e.joined && e.joined[v] == key) ==> t.woken[v] == e.woken[v])
  }

  /** Epoll watches `raw` for exactly the bits that `ws` ask for. */
  ghost predicate Watches(e: Engine, key: VLSH, raw: VLSH, ws: set<Waiter>) {
    raw in e.epoll && e.epoll[raw].key == key && forall b: nat :: b in e.epoll[raw].events <==> Asked(ws, b)
  }

  /** Nobody waits under `key` any more, and all of `ws` have been woken once. */
  ghost predicate Cleared(e: Engine, key: VLSH, raw: VLSH, ws: set<Waiter>) {
    key !in e.sets && raw !in e.epoll && forall v :: v in ws ==> e.woken[v] == 1
  }

  /** Of the waiters of `key` exactly those of `gone` leave, woken once, and the others
      stay parked, unless epoll refuses the narrower mask: then all are woken. */
  ghost predicate Leaves(e: Engine, t: Engine, key: VLSH, raw: VLSH, gone: set<Waiter>, modOk: bool)
    requires key in e.sets
  {
    var all := e.sets[key].waiters;
    var rest := all - gone;
    && t.joined == e.joined && OthersUntouched(e, t, key, raw)
    && (forall v :: v in all && v in gone ==> t.woken[v] == 1)
    && (rest == {} || (!modOk && !SameBits(rest, all)) ==> Cleared(t, key, raw, all))
    && (rest != {} && (modOk || SameBits(rest, all)) ==>
          && key in t.sets && t.sets[key].waiters == rest && Watches(t, key, raw, rest)
          && forall v :: v in rest ==> t.woken[v] == 0)
  }

  lemma CombinedBits(ws: set<Waiter>)
    ensures forall b: nat :: b in Combined(ws) <==> Asked(ws, b)
  {
  }

  lemma CombinedSame(vs: set<Waiter>, ws: set<Waiter>)
    ensures Combined(vs) == Combined(ws) <==> SameBits(vs, ws)
  {
    CombinedBits(vs);
    CombinedBits(ws);
    if SameBits(vs, ws) {
      assert forall b: nat :: b in Combined(vs) <==> b in Combined(ws);
    }
  }

  lemma SettleLeaves(e: Engine, key: VLSH, raw: VLSH, gone: set<Waiter>, modOk: bool, rawOf: map<VLSH, VLSH>)
    requires Coherent(e, rawOf) && Injective(rawOf) && key in e.sets && rawOf[key] == raw && gone <= e.sets[key].waiters
    ensures Leaves(e, Settle(Wake(e, gone), key, raw, e.sets[key].waiters - gone, modOk), key, raw, gone, modOk)
  {
    var all := e.sets[key].waiters;
    var rest := all - gone;
    CombinedSame(rest, all);
    CombinedBits(rest);
    CombinedBits(all);
  }

  /** Cancelling one waiter wakes that one and leaves the others waiting. */
  lemma CancelLeaves(e: Engine, key: VLSH, raw: VLSH, w: Waiter, modOk: bool, rawOf: map<VLSH, VLSH>)
    requires Coherent(e, rawOf) && Injective(rawOf) && (key in e.sets ==> rawOf[key] == raw)
    ensures ParkedAt(e, key, w) ==> Leaves(e, Cancel(e, key, raw, w, modOk), key, raw, {w}, modOk)
    ensures !ParkedAt(e, key, w) ==> Cancel(e, key, raw, w, modOk) == e
  {
    if ParkedAt(e, key, w) {
      SettleLeaves(e, key, raw, {w}, modOk, rawOf);
    }
  }

  function Reached(e: Engine, key: VLSH, events: Mask): set<Waiter>
    requires key in e.sets
  {
    set w | w in e.sets[key].waiters && Reaches(events, w)
  }

  /** An event wakes exactly the waiters it reaches and leaves the others waiting. */
  lemma HandleLeaves(e: Engine, key: VLSH, raw: VLSH, events: Mask, modOk: bool, rawOf: map<VLSH, VLSH>)
    requires Coherent(e, rawOf) && Injective(rawOf) && (key in e.sets ==> rawOf[key] == raw)
    ensures var t := Handle(e, key, raw, events, modOk);
            if key !in e.sets then t == e
            else Leaves(e, t, key, raw, Reached(e, key, events), modOk)
  {
    if key in e.sets {
      var reached := Reached(e, key, events);
      forall w | w in e.sets[key].waiters ensures Fires(events, w) <==> Reaches(events, w) {
        FiresIff(events, w);
      }
      assert Woken(e, key, events) == reached;
      SettleLeaves(e, key, raw, reached, modOk, rawOf);
    }
  }

  /** The same with a mod that succeeds, waiter by waiter. */
  lemma EventReaches(e: Engine, key: VLSH, raw: VLSH, events: Mask, rawOf: map<VLSH, VLSH>, w: Waiter)
    requires Coherent(e, rawOf) && Injective(rawOf) && ParkedAt(e, key, w) && rawOf[key] == raw
    ensures var t := Handle(e, key, raw, events, true);
            && (t.woken[w] == 1 <==> 3 in events || 4 in events || 13 in events || exists b :: b in events && b in w.events)
            && (t.woken[w] == 0 <==> key in t.sets && w in t.sets[key].waiters)
            && t.woken[w] <= 1
  {
    HandleLeaves(e, key, raw, events, true, rawOf);
  }

  /** Closing a key wakes all its waiters once and nobody else. */
  lemma RemoveLeaves(e: Engine, key: VLSH, raw: VLSH, rawOf: map<VLSH, VLSH>)
    requires Coherent(e, rawOf) && Injective(rawOf) && (key in e.sets ==> rawOf[key] == raw)
    ensures var t := Remove(e, key, raw);
            if key in e.sets then Leaves(e, t, key, raw, e.sets[key].waiters, true) else t == e
  {
    if key in e.sets {
      assert e.sets[key].waiters - e.sets[key].waiters == {};
    }
  }

  /** Whether the registration of `w` needs epoll: it is the first under its key, or it
      asks for a bit that nobody there has asked for. */
  ghost predicate NeedsEpoll(e: Engine, key: VLSH, w: Waiter) {
    key !in e.sets || exists b :: b in w.events && !Asked(e.sets[key].waiters, b)
  }

  ghost function Under(e: Engine, key: VLSH): set<Waiter> {
    if key in e.sets then e.sets[key].waiters else {}
  }

  /** `w` has joined the others of `key`, all of them parked. */
  ghost predicate Joins(e: Engine, t: Engine, key: VLSH, raw: VLSH, w: Waiter) {
    && t.joined == e.joined[w := key] && t.woken == e.woken && OthersUntouched(e, t, key, raw)
    && key in t.sets && t.sets[key].waiters == Under(e, key) + {w} && Watches(t, key, raw, Under(e, key) + {w})
  }

  /** A registration is refused exactly if it needs epoll and epoll refuses. */
  lemma AddJoins(e: Engine, key: VLSH, raw: VLSH, w: Waiter, ctlOk: bool, rawOf: map<VLSH, VLSH>)
    requires Coherent(e, rawOf) && Injective(rawOf) && key in rawOf && rawOf[key] == raw && w !in e.joined
    ensures var (t, ok) := Add(e, key, raw, w, ctlOk);
            && (ok <==> ctlOk || !NeedsEpoll(e, key, w))
            && (if ok then Joins(e, t, key, raw, w) else t == e)
  {
    CombinedBits(Under(e, key));
    CombinedBits(Under(e, key) + {w});
    if key in e.sets {
      var cur := e.sets[key];
      assert NeedsEpoll(e, key, w) <==> cur.events + w.events != cur.events by {
        if cur.events + w.events != cur.events {
          var b :| b in w.events && b !in cur.events;
        }
      }
      assert Combined(cur.waiters + {w}) == cur.events + w.events;
    } else {
      assert Combined({w}) == w.events;
      assert Under(e, key) + {w} == {w};
    }
  }

  // ---------------------------------------------------------------- on a worker

  lemma CancelWaiterLeaves(t: T.Tables, public: VLSH, raw: VLSH, w: Waiter, modOk: bool)
    requires T.Valid(t) && (public in t.sessions ==> t.sessions[public] == raw)
    ensures var (u, won) := T.CancelWaiter(t, public, raw, w, modOk);
            && u.sessions == t.sessions
            && (if ParkedAt(t.engine, public, w) then !won && Leaves(t.engine, u.engine, public, raw, {w}, modOk)
                else u == t && (won <==> w in t.engine.woken))
  {
    CancelLeaves(t.engine, public, raw, w, modOk, t.sessions);
  }

  /** A raw listener's key leaves the session table with its last waiter. */
  ghost predicate RawCancelled(t: T.Tables, u: T.Tables, raw: VLSH, w: Waiter, modOk: bool) {
    var key := RawKey(raw);
    if ParkedAt(t.engine, key, w) then
      && Leaves(t.engine, u.engine, key, raw, {w}, modOk)
      && u.sessions == (if t.engine.sets[key].waiters == {w} then t.sessions - {key} else t.sessions)
    else u == t
  }

  lemma CancelWaiterRawLeaves(t: T.Tables, raw: VLSH, w: Waiter, modOk: bool)
    requires T.Valid(t) && (RawKey(raw) in t.sessions ==> t.sessions[RawKey(raw)] == raw)
    ensures RawCancelled(t, T.CancelWaiterRaw(t, raw, w, modOk), raw, w, modOk)
  {
    CancelLeaves(t.engine, RawKey(raw), raw, w, modOk, t.sessions);
  }

  lemma HandleEventLeaves(t: T.Tables, public: VLSH, events: Mask, modOk: bool)
    requires T.Valid(t)
    ensures var u := T.HandleEvent(t, public, events, modOk);
            && u.sessions == t.sessions
            && (if public in t.engine.sets
                then public in t.sessions
                     && Leaves(t.engine, u.engine, public, t.sessions[public], Reached(t.engine, public, events), modOk)
                else u == t)
  {
    if public in t.engine.sets {
      HandleLeaves(t.engine, public, t.sessions[public], events, modOk, t.sessions);
    }
  }

  lemma RemoveWaitersLeaves(t: T.Tables, public: VLSH, raw: VLSH)
    requires T.Valid(t) && (public in t.sessions ==> t.sessions[public] == raw)
    ensures var u := T.RemoveWaiters(t, public, raw);
            && u.sessions == t.sessions
            && (if public in t.engine.sets then Leaves(t.engine, u.engine, public, raw, t.engine.sets[public].waiters, true)
                else u == t)
  {
    RemoveLeaves(t.engine, public, raw, t.sessions);
  }

  lemma RemoveWaitersRawLeaves(t: T.Tables, raw: VLSH)
    requires T.Valid(t) && (RawKey(raw) in t.sessions ==> t.sessions[RawKey(raw)] == raw)
    ensures var (u, key) := (T.RemoveWaitersRaw(t, raw), RawKey(raw));
            && u.sessions == t.sessions - {key}
            && (if key in t.engine.sets then Leaves(t.engine, u.engine, key, raw, t.engine.sets[key].waiters, true)
                else u.engine == t.engine)
  {
    RemoveLeaves(t.engine, RawKey(raw), raw, t.sessions);
  }

  /** A registration succeeds exactly if the handle is listed with this raw handle, the
      session is the worker's own, and epoll is not needed or agrees. */
  lemma AddWaiterJoins(t: T.Tables, public: VLSH, raw: VLSH, w: Waiter, owned: bool, ctlOk: bool)
    requires T.Valid(t) && w !in t.engine.joined
    ensures var (u, ok) := T.AddWaiter(t, public, raw, w, owned, ctlOk);
            && (ok <==> public in t.sessions && t.sessions[public] == raw && owned && (ctlOk || !NeedsEpoll(t.engine, public, w)))
            && (if ok then u.sessions == t.sessions && Joins(t.engine, u.engine, public, raw, w) else u == t)
  {
    if public in t.sessions && t.sessions[public] == raw {
      AddJoins(t.engine, public, raw, w, ctlOk, t.sessions);
    }
  }

  lemma AddWaiterRawJoins(t: T.Tables, raw: VLSH, w: Waiter, ctlOk: bool)
    requires T.Valid(t) && w !in t.engine.joined
    requires forall k :: k in t.sessions ==> (k == RawKey(raw) <==> t.sessions[k] == raw)
    ensures var (u, ok) := T.AddWaiterRaw(t, raw, w, ctlOk);
            && u.sessions == t.sessions[RawKey(raw) := raw]
            && (ok <==> ctlOk || !NeedsEpoll(t.engine, RawKey(raw), w))
            && (if ok then Joins(t.engine, u.engine, RawKey(raw), raw, w) else u.engine == t.engine)
  {
    var s := t.sessions[RawKey(raw) := raw];
    T.Reframe(t.engine, t.sessions, s);
    AddJoins(t.engine, RawKey(raw), raw, w, ctlOk, s);
  }

  // ---------------------------------------------------------------- on the poller

  /** A drained registration parks the waiter among the others, or wakes it at once if it
      needs epoll and epoll refuses; nobody else notices. */
  lemma InstallMeans(e: Engine, w: Waiter, ctlOk: bool)
    requires P.Valid(e) && w !in e.joined
    ensures var t := P.Install(e, w, ctlOk);
            if ctlOk || !NeedsEpoll(e, w.vlsh, w) then Joins(e, t, w.vlsh, w.vlsh, w)
            else t.sets == e.sets && t.epoll == e.epoll && t.woken == e.woken + multiset{w} && t.joined == e.joined[w := w.vlsh]
  {
    var keys := e.sets.Keys + {w.vlsh};
    P.Widen(e, keys);
    AddJoins(e, w.vlsh, w.vlsh, w, ctlOk, P.Identity(keys));
    assert multiset({w}) == multiset{w};
  }

  /** A drained cancellation takes out its own waiter only. */
  lemma WithdrawLeaves(e: Engine, w: Waiter, modOk: bool)
    requires P.Valid(e)
    ensures var t := P.Withdraw(e, w, modOk);
            if ParkedAt(e, w.vlsh, w) then Leaves(e, t, w.vlsh, w.vlsh, {w}, modOk) else t == e
  {
    P.Widen(e, e.sets.Keys);
    CancelLeaves(e, w.vlsh, w.vlsh, w, modOk, P.Identity(e.sets.Keys));
  }

  lemma DeliverLeaves(e: Engine, vlsh: VLSH, events: Mask, modOk: bool)
    requires P.Valid(e)
    ensures var t := P.Deliver(e, vlsh, events, modOk);
            if vlsh in e.sets then Leaves(e, t, vlsh, vlsh, Reached(e, vlsh, events), modOk) else t == e
  {
    P.Widen(e, e.sets.Keys);
    HandleLeaves(e, vlsh, vlsh, events, modOk, P.Identity(e.sets.Keys));
  }

  lemma UnregisterLeaves(e: Engine, vlsh: VLSH)
    requires P.Valid(e)
    ensures var t := P.Unregister(e, vlsh);
            if vlsh in e.sets then Leaves(e, t, vlsh, vlsh, e.sets[vlsh].waiters, true) else t == e
  {
    P.Widen(e, e.sets.Keys);
    RemoveLeaves(e, vlsh, vlsh, P.Identity(e.sets.Keys));
  }
}
