/** Wait-set bookkeeping shared by the Mode 2 workers and the Mode 3 poller.

    VLS epoll accepts a session once, so an engine registers the OR of the masks
    of every parked waiter and fans a reported event out to the waiters it
    matches.  Both engines follow the same transitions; they differ only in the
    raw handle behind a key and in what they answer to a failed registration.
    Every function here is the specification of one source operation on values;
    the outcome of the foreign epoll call it makes is a parameter. */
module WaitEngine {
  /** A 32-bit event mask as the set of its bit positions: OR is union, and an
      AND that is not zero is a common element. */
  type Mask = set<nat>
  type VLSH = int

  const TERMINAL: Mask := {3, 4, 13}  // EPOLLERR, EPOLLHUP, EPOLLRDHUP

  /** A parked goroutine.  `id` stands for the identity of its ready channel. */
  datatype Waiter = Waiter(id: nat, vlsh: VLSH, events: Mask)

  datatype WaitSet = WaitSet(waiters: set<Waiter>, events: Mask)

  datatype Interest = Interest(key: VLSH, events: Mask)

  /** `woken` counts every close of a ready channel and `joined` remembers the
      key under which a waiter was handed over; both only grow. */
  datatype Engine = Engine(
    sets: map<VLSH, WaitSet>,
    epoll: map<VLSH, Interest>,
    woken: multiset<Waiter>,
    joined: map<Waiter, VLSH>)

  const EMPTY := Engine(map[], map[], multiset{}, map[])

  // ---------------------------------------------------------------- masks

  predicate Hits(mask: Mask, probe: Mask) {
    mask * probe != {}
  }

  /** An event reaches a waiter if it is terminal or meets the waiter's mask. */
  predicate Fires(events: Mask, w: Waiter) {
    Hits(events, TERMINAL) || Hits(events, w.events)
  }

  /** EPOLLERR is bit 3, EPOLLHUP bit 4, EPOLLRDHUP bit 13. */
  predicate Terminal(events: Mask) {
    3 in events || 4 in events || 13 in events
  }

  /** The event is terminal or has a bit that the waiter asked for. */
  predicate Reaches(events: Mask, w: Waiter) {
    Terminal(events) || exists b :: b in events && b in w.events
  }

  lemma FiresIff(events: Mask, w: Waiter)
    ensures Fires(events, w) <==> Reaches(events, w)
  {
    assert Terminal(events) ==> 3 in events * TERMINAL || 4 in events * TERMINAL || 13 in events * TERMINAL;
    assert forall b :: b in events && b in w.events ==> b in events * w.events;
    if Hits(events, TERMINAL) {
      var b :| b in events * TERMINAL;
    }
    if Hits(events, w.events) {
      var b :| b in events * w.events;
    }
  }

  /** The OR of the masks of a set of waiters. */
  function Combined(ws: set<Waiter>): Mask {
    set w, b | w in ws && b in w.events :: b
  }

  // ---------------------------------------------------------------- transitions

  function Wake(e: Engine, ws: set<Waiter>): Engine {
    e.(woken := e.woken + multiset(ws))
  }

  function Forget(e: Engine, key: VLSH, raw: VLSH): Engine {
    e.(sets := e.sets - {key}, epoll := e.epoll - {raw})
  }

  /** Registration of a waiter; the second result is false when the epoll add or
      mod it needed failed, and then nothing has changed. */
  function Add(e: Engine, key: VLSH, raw: VLSH, w: Waiter, ctlOk: bool): (Engine, bool) {
    if key !in e.sets then
      if !ctlOk then (e, false) else
        (e.(sets := e.sets[key := WaitSet({w}, w.events)],
            epoll := e.epoll[raw := Interest(key, w.events)],
            joined := e.joined[w := key]), true)
    else
      var cur := e.sets[key];
      var mask := cur.events + w.events;
      if mask != cur.events && !ctlOk then (e, false) else
        (e.(sets := e.sets[key := WaitSet(cur.waiters + {w}, mask)],
            epoll := if mask != cur.events then e.epoll[raw := Interest(key, mask)] else e.epoll,
            joined := e.joined[w := key]), true)
  }

  /** Every waiter of a key leaves and is woken: close, barrier, failed mod. */
  function Remove(e: Engine, key: VLSH, raw: VLSH): Engine {
    if key !in e.sets then e else Wake(Forget(e, key, raw), e.sets[key].waiters)
  }

  /** What follows once `rest` are the only waiters left in the set of `key`. */
  function Settle(e: Engine, key: VLSH, raw: VLSH, rest: set<Waiter>, modOk: bool): Engine
    requires key in e.sets
  {
    var mask := Combined(rest);
    if rest == {} then Forget(e, key, raw)
    else if mask == e.sets[key].events then e.(sets := e.sets[key := WaitSet(rest, mask)])
    else if modOk then
      e.(sets := e.sets[key := WaitSet(rest, mask)], epoll := e.epoll[raw := Interest(key, mask)])
    else Wake(Forget(e, key, raw), rest)
  }

  /** Withdrawal of one waiter; waiters that already left are not touched. */
  function Cancel(e: Engine, key: VLSH, raw: VLSH, w: Waiter, modOk: bool): Engine {
    if key !in e.sets || w !in e.sets[key].waiters then e
    else Settle(Wake(e, {w}), key, raw, e.sets[key].waiters - {w}, modOk)
  }

  function Woken(e: Engine, key: VLSH, events: Mask): set<Waiter>
    requires key in e.sets
  {
    set w | w in e.sets[key].waiters && Fires(events, w)
  }

  /** Delivery of an epoll event carrying `key`. */
  function Handle(e: Engine, key: VLSH, raw: VLSH, events: Mask, modOk: bool): Engine {
    if key !in e.sets then e
    else
      var ws := Woken(e, key, events);
      Settle(Wake(e, ws), key, raw, e.sets[key].waiters - ws, modOk)
  }

  function WaitersOf(sets: map<VLSH, WaitSet>, keys: set<VLSH>): set<Waiter> {
    set k, w | k in keys && k in sets && w in sets[k].waiters :: w
  }

  function AllWaiters(e: Engine): set<Waiter> {
    WaitersOf(e.sets, e.sets.Keys)
  }

  function WakeAll(e: Engine): Engine {
    Wake(e, AllWaiters(e)).(sets := map[], epoll := map[])
  }

  // ---------------------------------------------------------------- invariants

  /** Every wait set is populated and registers exactly the OR of its masks. */
  ghost predicate Masked(e: Engine) {
    forall k :: k in e.sets ==> e.sets[k].waiters != {} && e.sets[k].events == Combined(e.sets[k].waiters)
  }

  /** A waiter that joined is parked under its key and unwoken, or it has left
      and its channel was closed exactly once.  Nobody else is ever woken. */
  ghost predicate Accounted(e: Engine) {
    && (forall k, w :: k in e.sets && w in e.sets[k].waiters ==> w in e.joined && e.joined[w] == k && e.woken[w] == 0)
    && (forall w :: w in e.joined && e.woken[w] == 0 ==> e.joined[w] in e.sets && w in e.sets[e.joined[w]].waiters)
    && (forall w :: e.woken[w] <= 1)
    && (forall w :: w in e.woken ==> w in e.joined)
  }

  ghost predicate Injective(rawOf: map<VLSH, VLSH>) {
    forall j, k :: j in rawOf && k in rawOf && rawOf[j] == rawOf[k] ==> j == k
  }

  /** Epoll holds one entry per wait set: that key's raw handle, key and mask. */
  ghost predicate Mirrored(e: Engine, rawOf: map<VLSH, VLSH>) {
    && e.sets.Keys <= rawOf.Keys
    && (forall k :: k in e.sets ==>
          rawOf[k] in e.epoll && e.epoll[rawOf[k]] == Interest(k, e.sets[k].events))
    && (forall r :: r in e.epoll ==> e.epoll[r].key in e.sets && rawOf[e.epoll[r].key] == r)
  }

  ghost predicate Coherent(e: Engine, rawOf: map<VLSH, VLSH>) {
    Masked(e) && Accounted(e) && Mirrored(e, rawOf)
  }

  lemma AddFirst(e: Engine, key: VLSH, raw: VLSH, w: Waiter, rawOf: map<VLSH, VLSH>)
    requires Coherent(e, rawOf) && Injective(rawOf)
    requires key in rawOf && rawOf[key] == raw
    requires w !in e.joined && key !in e.sets
    ensures Coherent(Add(e, key, raw, w, true).0, rawOf)
  {
    var t := Add(e, key, raw, w, true).0;
    assert Combined({w}) == w.events;
    assert raw !in e.epoll;
    assert Masked(t);
    assert Accounted(t);
  }

  lemma AddMore(e: Engine, key: VLSH, raw: VLSH, w: Waiter, ctlOk: bool, rawOf: map<VLSH, VLSH>)
    requires Coherent(e, rawOf) && Injective(rawOf)
    requires key in rawOf && rawOf[key] == raw
    requires w !in e.joined && key in e.sets
    ensures Coherent(Add(e, key, raw, w, ctlOk).0, rawOf)
  {
    var ws := e.sets[key].waiters;
    var t := Add(e, key, raw, w, ctlOk).0;
    assert Combined(ws + {w}) == Combined(ws) + w.events;
    assert t.sets.Keys == e.sets.Keys;
    assert Masked(t);
    assert Accounted(t);
  }

  lemma AddKeeps(e: Engine, key: VLSH, raw: VLSH, w: Waiter, ctlOk: bool, rawOf: map<VLSH, VLSH>)
    requires Coherent(e, rawOf) && Injective(rawOf)
    requires key in rawOf && rawOf[key] == raw
    requires w !in e.joined
    ensures Coherent(Add(e, key, raw, w, ctlOk).0, rawOf)
    ensures Add(e, key, raw, w, ctlOk).1 ==>
              var t := Add(e, key, raw, w, ctlOk).0;
              key in t.sets && w in t.sets[key].waiters && t.woken == e.woken
    ensures !Add(e, key, raw, w, ctlOk).1 ==> Add(e, key, raw, w, ctlOk).0 == e && !ctlOk
  {
    if key in e.sets {
      AddMore(e, key, raw, w, ctlOk, rawOf);
    } else if ctlOk {
      AddFirst(e, key, raw, w, rawOf);
    }
  }

  lemma RemoveKeeps(e: Engine, key: VLSH, raw: VLSH, rawOf: map<VLSH, VLSH>)
    requires Coherent(e, rawOf) && Injective(rawOf)
    requires key in e.sets ==> rawOf[key] == raw
    ensures Coherent(Remove(e, key, raw), rawOf)
    ensures key !in Remove(e, key, raw).sets
    ensures key in rawOf && rawOf[key] == raw ==> raw !in Remove(e, key, raw).epoll
    ensures forall w :: w in e.joined && e.joined[w] == key ==> Remove(e, key, raw).woken[w] == 1
  {
  }

  /** Dropping a set in two rounds of wakeups is the same as dropping it at once. */
  lemma WakeTwice(e: Engine, key: VLSH, raw: VLSH, ws: set<Waiter>)
    requires key in e.sets && ws <= e.sets[key].waiters
    ensures Wake(Forget(Wake(e, ws), key, raw), e.sets[key].waiters - ws) == Remove(e, key, raw)
  {
    var all := e.sets[key].waiters;
    assert multiset(ws) + multiset(all - ws) == multiset(all);
    assert e.woken + multiset(ws) + multiset(all - ws) == e.woken + multiset(all);
  }

  lemma NarrowKeeps(e: Engine, key: VLSH, raw: VLSH, ws: set<Waiter>, t: Engine, rawOf: map<VLSH, VLSH>)
    requires Coherent(e, rawOf) && Injective(rawOf)
    requires key in e.sets && rawOf[key] == raw
    requires ws < e.sets[key].waiters
    requires var rest := e.sets[key].waiters - ws; var mask := Combined(rest);
             t == Wake(e, ws).(sets := e.sets[key := WaitSet(rest, mask)], epoll := e.epoll[raw := Interest(key, mask)])
    ensures Coherent(t, rawOf)
  {
    var x :| x in e.sets[key].waiters && x !in ws;
    assert x in t.sets[key].waiters;
    assert t.sets.Keys == e.sets.Keys;
    assert Masked(t);
    assert Mirrored(t, rawOf);
  }

  /** Waking some waiters of one set and settling the rest keeps the engine
      coherent, whether or not the epoll mod succeeds. */
  lemma SettleKeeps(e: Engine, key: VLSH, raw: VLSH, ws: set<Waiter>, modOk: bool, rawOf: map<VLSH, VLSH>)
    requires Coherent(e, rawOf) && Injective(rawOf)
    requires key in e.sets && rawOf[key] == raw
    requires ws <= e.sets[key].waiters
    ensures Coherent(Settle(Wake(e, ws), key, raw, e.sets[key].waiters - ws, modOk), rawOf)
  {
    var rest := e.sets[key].waiters - ws;
    var mask := Combined(rest);
    var t := Settle(Wake(e, ws), key, raw, rest, modOk);
    if rest == {} || (mask != e.sets[key].events && !modOk) {
      WakeTwice(e, key, raw, ws);
      RemoveKeeps(e, key, raw, rawOf);
      if rest == {} {
        assert Wake(Forget(Wake(e, ws), key, raw), {}) == t;
      }
    } else {
      assert mask == e.sets[key].events ==> e.epoll == e.epoll[raw := Interest(key, mask)];
      NarrowKeeps(e, key, raw, ws, t, rawOf);
    }
  }

  lemma CancelKeeps(e: Engine, key: VLSH, raw: VLSH, w: Waiter, modOk: bool, rawOf: map<VLSH, VLSH>)
    requires Coherent(e, rawOf) && Injective(rawOf)
    requires key in e.sets ==> rawOf[key] == raw
    ensures Coherent(Cancel(e, key, raw, w, modOk), rawOf)
    ensures w in e.joined && e.joined[w] == key ==> Cancel(e, key, raw, w, modOk).woken[w] == 1
  {
    if key in e.sets && w in e.sets[key].waiters {
      SettleKeeps(e, key, raw, {w}, modOk, rawOf);
    }
  }

  lemma HandleKeeps(e: Engine, key: VLSH, raw: VLSH, events: Mask, modOk: bool, rawOf: map<VLSH, VLSH>)
    requires Coherent(e, rawOf) && Injective(rawOf)
    requires key in e.sets ==> rawOf[key] == raw
    ensures Coherent(Handle(e, key, raw, events, modOk), rawOf)
    ensures forall w :: w in e.joined && e.joined[w] == key && Reaches(events, w) ==>
              Handle(e, key, raw, events, modOk).woken[w] == 1
  {
    forall w: Waiter ensures Fires(events, w) <==> Reaches(events, w) {
      FiresIff(events, w);
    }
    if key in e.sets {
      SettleKeeps(e, key, raw, Woken(e, key, events), modOk, rawOf);
    }
  }

  lemma CancelKeepsJoined(e: Engine, key: VLSH, raw: VLSH, w: Waiter, modOk: bool)
    ensures Cancel(e, key, raw, w, modOk).joined == e.joined
  {
  }

  lemma WaitersOfAdd(sets: map<VLSH, WaitSet>, keys: set<VLSH>, key: VLSH, joined: map<Waiter, VLSH>)
    requires key in sets && key !in keys
    requires forall k, w :: k in sets && w in sets[k].waiters ==> w in joined && joined[w] == k
    ensures multiset(WaitersOf(sets, keys + {key})) == multiset(WaitersOf(sets, keys)) + multiset(sets[key].waiters)
    ensures WaitersOf(sets, keys) !! sets[key].waiters
  {
    assert WaitersOf(sets, keys + {key}) == WaitersOf(sets, keys) + sets[key].waiters;
    assert forall w :: w in WaitersOf(sets, keys) ==> joined[w] in keys;
  }

  function RawsOf(raws: map<VLSH, VLSH>, keys: set<VLSH>): set<VLSH> {
    set k | k in keys && k in raws :: raws[k]
  }

  lemma RawsOfAdd(raws: map<VLSH, VLSH>, keys: set<VLSH>, key: VLSH)
    ensures RawsOf(raws, keys + {key}) == RawsOf(raws, keys) + (if key in raws then {raws[key]} else {})
  {
  }

  lemma AllWaitersParked(e: Engine, w: Waiter)
    requires Accounted(e)
    ensures w in AllWaiters(e) <==> w in e.joined && e.woken[w] == 0
  {
    if w in e.joined && e.woken[w] == 0 {
      var k := e.joined[w];
      assert k in e.sets && w in e.sets[k].waiters;
    }
  }

  lemma WakeAllKeeps(e: Engine, rawOf: map<VLSH, VLSH>)
    requires Coherent(e, rawOf)
    ensures Coherent(WakeAll(e), rawOf)
    ensures forall w :: w in e.joined ==> WakeAll(e).woken[w] == 1
  {
    forall w: Waiter ensures w in AllWaiters(e) <==> w in e.joined && e.woken[w] == 0 {
      AllWaitersParked(e, w);
    }
  }

  /** An event that meets the registered mask wakes somebody: the engine never
      keeps epoll armed for an event no parked waiter asked for. */
  lemma EventInMaskWakes(e: Engine, rawOf: map<VLSH, VLSH>, raw: VLSH, events: Mask)
    requires Coherent(e, rawOf)
    requires raw in e.epoll && Hits(events, e.epoll[raw].events)
    ensures Woken(e, e.epoll[raw].key, events) != {}
  {
    var key := e.epoll[raw].key;
    var b :| b in events * e.sets[key].events;
    var w :| w in e.sets[key].waiters && b in w.events;
    assert b in events * w.events;
    assert w in Woken(e, key, events);
  }
}
