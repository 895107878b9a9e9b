/** The mutable wait-set table that a worker and the poller each own: the map of
    wait sets, the epoll instance behind it, and the ready channels closed so far
    (waitSet, combinedEvents, wakeWaiter, wakeWaitSet in poller.go). */
module WaitTableClass {
  import opened WaitEngine
  import opened Collections

  class WaitTable {
    var waiters: map<VLSH, WaitSet>
    ghost var epoll: map<VLSH, Interest>
    ghost var joined: map<Waiter, VLSH>
    var woken: multiset<Waiter>  // ready channels that have been closed

    ghost function View(): Engine
      reads this
    {
      Engine(waiters, epoll, woken, joined)
    }

    constructor ()
      ensures View() == EMPTY
    {
      waiters, epoll, joined, woken := map[], map[], map[], multiset{};
    }

    /** Closing a closed channel panics, so the caller must know it is open. */
    method WakeWaiter(w: Waiter)
      requires w !in woken
      modifies `woken
      ensures woken == old(woken) + multiset{w}
    {
      woken := woken + multiset{w};
    }

    method WakeWaitSet(ws: set<Waiter>)
      requires forall w :: w in ws ==> w !in woken
      modifies `woken
      ensures woken == old(woken) + multiset(ws)
    {
      var rest := ws;
      while rest != {}
        invariant rest <= ws
        invariant woken == old(woken) + multiset(ws - rest)
      {
        var w :| w in rest;
        assert ws - (rest - {w}) == ws - rest + {w};
        assert multiset(ws - rest + {w}) == multiset(ws - rest) + multiset{w};
        WakeWaiter(w);
        rest := rest - {w};
      }
      assert ws - rest == ws;
    }

    method CombinedEvents(ws: set<Waiter>) returns (mask: Mask)
      ensures mask == Combined(ws)
    {
      mask := {};
      var rest := ws;
      while rest != {}
        invariant rest <= ws
        invariant mask == Combined(ws - rest)
      {
        var w :| w in rest;
        assert ws - (rest - {w}) == ws - rest + {w};
        assert Combined(ws - rest + {w}) == Combined(ws - rest) + w.events;
        mask := mask + w.events;
        rest := rest - {w};
      }
      assert ws - rest == ws;
    }

    method EpollCtl(raw: VLSH, key: VLSH, events: Mask, ok: bool) returns (r: bool)
      modifies `epoll
      ensures r == ok
      ensures epoll == if ok then old(epoll)[raw := Interest(key, events)] else old(epoll)
    {
      if ok {
        epoll := epoll[raw := Interest(key, events)];
      }
      r := ok;
    }

    method EpollDel(raw: VLSH)
      modifies `epoll
      ensures epoll == old(epoll) - {raw}
    {
      epoll := epoll - {raw};
    }

    /** The common tail of addWaiter and addWaiterRaw. */
    method Join(key: VLSH, raw: VLSH, w: Waiter, ctlOk: bool) returns (ok: bool)
      modifies `waiters, `epoll, `joined
      ensures (View(), ok) == Add(old(View()), key, raw, w, ctlOk)
    {
      if key !in waiters {
        ok := EpollCtl(raw, key, w.events, ctlOk);
        if !ok {
          return;
        }
        waiters := waiters[key := WaitSet({w}, w.events)];
        joined := joined[w := key];
        return true;
      }
      var cur := waiters[key];
      var newEvents := cur.events + w.events;
      if newEvents != cur.events {
        ok := EpollCtl(raw, key, newEvents, ctlOk);
        if !ok {
          return;
        }
      }
      waiters := waiters[key := WaitSet(cur.waiters + {w}, newEvents)];
      joined := joined[w := key];
      return true;
    }

    method DropWaitSet(key: VLSH, raw: VLSH, ws: set<Waiter>)
      requires forall w :: w in ws ==> w !in woken
      modifies `waiters, `epoll, `woken
      ensures View() == Wake(Forget(old(View()), key, raw), ws)
    {
      EpollDel(raw);
      waiters := waiters - {key};
      WakeWaitSet(ws);
    }

    /** The common tail of cancelWaiter, cancelWaiterRaw and handleEvent. */
    method Narrow(key: VLSH, raw: VLSH, rest: set<Waiter>, modOk: bool)
      requires key in waiters && rest != {}
      requires forall w :: w in rest ==> w !in woken
      modifies `waiters, `epoll, `woken
      ensures View() == Settle(old(View()), key, raw, rest, modOk)
    {
      var oldEvents := waiters[key].events;
      var mask := CombinedEvents(rest);
      if mask == oldEvents {
        waiters := waiters[key := WaitSet(rest, mask)];
        return;
      }
      var ok := EpollCtl(raw, key, mask, modOk);
      if ok {
        waiters := waiters[key := WaitSet(rest, mask)];
      } else {
        DropWaitSet(key, raw, rest);
      }
    }

    /** The loop of handleEvent: wake who the event reaches, keep the others. */
    method WakeFired(ws: set<Waiter>, events: Mask) returns (rest: set<Waiter>)
      requires forall w :: w in ws ==> w !in woken
      modifies `woken
      ensures rest == set w | w in ws && !Reaches(events, w)
      ensures woken == old(woken) + multiset(ws - rest)
    {
      var todo := ws;
      rest := {};
      ghost var gone: set<Waiter> := {};
      while todo != {}
        invariant todo <= ws && gone !! rest && gone !! todo
        invariant rest == set w | w in ws - todo && !Reaches(events, w)
        invariant gone == set w | w in ws - todo && Reaches(events, w)
        invariant woken == old(woken) + multiset(gone)
      {
        var w :| w in todo;
        FiresIff(events, w);
        if Fires(events, w) {
          assert multiset(gone + {w}) == multiset(gone) + multiset{w};
          WakeWaiter(w);
          gone := gone + {w};
        } else {
          rest := rest + {w};
        }
        todo := todo - {w};
      }
      assert gone == ws - rest;
    }

    /** Withdrawal of one parked waiter: wake it and settle the rest. */
    method Leave(key: VLSH, raw: VLSH, w: Waiter, modOk: bool)
      requires key in waiters && w in waiters[key].waiters
      requires forall v :: v in waiters[key].waiters ==> v !in woken
      modifies this
      ensures View() == Cancel(old(View()), key, raw, w, modOk)
    {
      var rest := waiters[key].waiters - {w};
      WakeWaiter(w);
      assert multiset{w} == multiset({w});
      if rest == {} {
        EpollDel(raw);
        waiters := waiters - {key};
      } else {
        Narrow(key, raw, rest, modOk);
      }
    }

    /** Delivery of an event to the wait set of `key`. */
    method Fire(key: VLSH, raw: VLSH, events: Mask, modOk: bool)
      requires key in waiters
      requires forall v :: v in waiters[key].waiters ==> v !in woken
      modifies this
      ensures View() == Handle(old(View()), key, raw, events, modOk)
    {
      ghost var fired := Woken(View(), key, events);
      forall w: Waiter ensures Fires(events, w) <==> Reaches(events, w) {
        FiresIff(events, w);
      }
      var rest := WakeFired(waiters[key].waiters, events);
      assert waiters[key].waiters - rest == fired && rest == waiters[key].waiters - fired;
      assert View() == Wake(old(View()), fired);
      if rest == {} {
        EpollDel(raw);
        waiters := waiters - {key};
      } else {
        Narrow(key, raw, rest, modOk);
      }
    }

    /** One round of the loop over all wait sets at shutdown. */
    method WakeSetOf(key: VLSH, dels: map<VLSH, VLSH>)
      requires key in waiters && Open(waiters[key].waiters, woken)
      modifies `epoll, `woken
      ensures woken == old(woken) + multiset(waiters[key].waiters)
      ensures epoll == old(epoll) - (if key in dels then {dels[key]} else {})
    {
      if key in dels {
        EpollDel(dels[key]);
      }
      WakeWaitSet(waiters[key].waiters);
    }

    /** The loop over all wait sets at shutdown; `dels` maps the keys whose epoll
        entry is deleted to their raw handles. */
    method WakeEach(dels: map<VLSH, VLSH>)
      requires ParkedOpen(waiters, joined, woken)
      modifies `epoll, `woken
      ensures woken == old(woken) + multiset(AllWaiters(old(View())))
      ensures epoll == old(epoll) - RawsOf(dels, waiters.Keys)
    {
      ghost var at := Round(waiters, woken, epoll, dels);
      var todo := waiters.Keys;
      ghost var done: set<VLSH> := {};
      FirstRound(at);
      while todo != {}
        invariant waiters == at.sets && todo + done == waiters.Keys && todo !! done
        invariant After(at, done, woken, epoll)
      {
        var key := SomeElement(todo);
        NextRound(at, joined, done, key, woken, epoll);
        WakeSetOf(key, dels);
        todo, done := todo - {key}, done + {key};
      }
      assert done == waiters.Keys;
      LastRound(at, woken, epoll);
    }
  }

  ghost predicate Open(ws: set<Waiter>, woken: multiset<Waiter>) {
    forall w :: w in ws ==> w !in woken
  }

  /** Every parked waiter joined under its key and its channel is still open. */
  ghost predicate ParkedOpen(sets: map<VLSH, WaitSet>, joined: map<Waiter, VLSH>, woken: multiset<Waiter>) {
    forall k, w :: k in sets && w in sets[k].waiters ==> w !in woken && w in joined && joined[w] == k
  }

  /** What WakeEach starts from. */
  datatype Round = Round(
    sets: map<VLSH, WaitSet>, woken: multiset<Waiter>, epoll: map<VLSH, Interest>, dels: map<VLSH, VLSH>)

  /** The sets of `done` have been woken and their epoll entries deleted. */
  ghost predicate After(at: Round, done: set<VLSH>, woken: multiset<Waiter>, epoll: map<VLSH, Interest>) {
    var gone := WaitersOf(at.sets, done);
    woken == at.woken + multiset(gone) && epoll == at.epoll - RawsOf(at.dels, done)
  }

  lemma FirstRound(at: Round)
    ensures After(at, {}, at.woken, at.epoll)
  {
    assert WaitersOf(at.sets, {}) == {} && RawsOf(at.dels, {}) == {};
  }

  lemma NextRound(at: Round, joined: map<Waiter, VLSH>, done: set<VLSH>, key: VLSH,
                  woken: multiset<Waiter>, epoll: map<VLSH, Interest>)
    requires ParkedOpen(at.sets, joined, at.woken)
    requires key in at.sets && key !in done && After(at, done, woken, epoll)
    ensures Open(at.sets[key].waiters, woken)
    ensures After(at, done + {key}, woken + multiset(at.sets[key].waiters),
                  epoll - (if key in at.dels then {at.dels[key]} else {}))
  {
    WaitersOfAdd(at.sets, done, key, joined);
    RawsOfAdd(at.dels, done, key);
  }

  lemma LastRound(at: Round, woken: multiset<Waiter>, epoll: map<VLSH, Interest>)
    requires After(at, at.sets.Keys, woken, epoll)
    ensures woken == at.woken + multiset(WaitersOf(at.sets, at.sets.Keys))
    ensures epoll == at.epoll - RawsOf(at.dels, at.sets.Keys)
  {
  }
}
