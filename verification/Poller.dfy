/** The Mode 3 shared poller (poller.go): specification of its requests on the
    wait-set engine.  Keys and raw handles coincide here. */
module PollerSpec {
  import opened WaitEngine

  /** A close barrier request; `id` stands for its done channel. */
  datatype Request = Request(id: nat, vlsh: VLSH)

  function Identity(keys: set<VLSH>): map<VLSH, VLSH> {
    map k | k in keys :: k
  }

  ghost predicate Valid(e: Engine) {
    Coherent(e, Identity(e.sets.Keys))
  }

  /** The poller answers a failed registration, and at stop a pending one, by
      waking the waiter at once. */
  function Reject(e: Engine, w: Waiter): Engine {
    Wake(e.(joined := e.joined[w := w.vlsh]), {w})
  }

  function Install(e: Engine, w: Waiter, ctlOk: bool): Engine {
    var (t, ok) := Add(e, w.vlsh, w.vlsh, w, ctlOk);
    if ok then t else Reject(e, w)
  }

  function Withdraw(e: Engine, w: Waiter, modOk: bool): Engine {
    Cancel(e, w.vlsh, w.vlsh, w, modOk)
  }

  function Unregister(e: Engine, vlsh: VLSH): Engine {
    Remove(e, vlsh, vlsh)
  }

  function Deliver(e: Engine, vlsh: VLSH, events: Mask, modOk: bool): Engine {
    Handle(e, vlsh, vlsh, events, modOk)
  }

  function InstallAll(e: Engine, queue: seq<Waiter>, ctl: seq<bool>): Engine
    requires |ctl| == |queue|
  {
    if queue == [] then e
    else Install(InstallAll(e, queue[..|queue| - 1], ctl[..|queue| - 1]), queue[|queue| - 1], ctl[|queue| - 1])
  }

  function WithdrawAll(e: Engine, queue: seq<Waiter>, ctl: seq<bool>): Engine
    requires |ctl| == |queue|
  {
    if queue == [] then e
    else Withdraw(WithdrawAll(e, queue[..|queue| - 1], ctl[..|queue| - 1]), queue[|queue| - 1], ctl[|queue| - 1])
  }

  function UnregisterAll(e: Engine, queue: seq<Request>): Engine {
    if queue == [] then e else Unregister(UnregisterAll(e, queue[..|queue| - 1]), queue[|queue| - 1].vlsh)
  }

  function RejectAll(e: Engine, queue: seq<Waiter>): Engine {
    if queue == [] then e else Reject(RejectAll(e, queue[..|queue| - 1]), queue[|queue| - 1])
  }

  // ---------------------------------------------------------------- laws

  lemma Widen(e: Engine, keys: set<VLSH>)
    requires Valid(e) && e.sets.Keys <= keys
    ensures Coherent(e, Identity(keys)) && Injective(Identity(keys))
  {
  }

  lemma Narrow(e: Engine, keys: set<VLSH>)
    requires Coherent(e, Identity(keys))
    ensures Valid(e)
  {
  }

  lemma RejectKeeps(e: Engine, w: Waiter)
    requires Valid(e) && w !in e.joined
    ensures Valid(Reject(e, w)) && Reject(e, w).woken[w] == 1
  {
  }

  lemma InstallKeeps(e: Engine, w: Waiter, ctlOk: bool)
    requires Valid(e) && w !in e.joined
    ensures Valid(Install(e, w, ctlOk))
  {
    var keys := e.sets.Keys + {w.vlsh};
    Widen(e, keys);
    AddKeeps(e, w.vlsh, w.vlsh, w, ctlOk, Identity(keys));
    if Add(e, w.vlsh, w.vlsh, w, ctlOk).1 {
      Narrow(Add(e, w.vlsh, w.vlsh, w, ctlOk).0, keys);
    } else {
      RejectKeeps(e, w);
    }
  }

  lemma InstallJoins(e: Engine, w: Waiter, ctlOk: bool)
    ensures Install(e, w, ctlOk).joined == e.joined[w := w.vlsh]
    ensures Install(e, w, ctlOk).woken == e.woken || Install(e, w, ctlOk).woken == e.woken + multiset{w}
  {
    assert multiset({w}) == multiset{w};
  }

  lemma WithdrawKeeps(e: Engine, w: Waiter, modOk: bool)
    requires Valid(e)
    ensures Valid(Withdraw(e, w, modOk))
    ensures w in e.joined && e.joined[w] == w.vlsh ==> Withdraw(e, w, modOk).woken[w] == 1
    ensures w !in e.joined ==> Withdraw(e, w, modOk) == e
  {
    Widen(e, e.sets.Keys);
    CancelKeeps(e, w.vlsh, w.vlsh, w, modOk, Identity(e.sets.Keys));
    Narrow(Withdraw(e, w, modOk), e.sets.Keys);
  }

  /** The close barrier: afterwards the handle has no wait set and no epoll
      interest, and every waiter that ever joined on it has been woken. */
  lemma UnregisterKeeps(e: Engine, vlsh: VLSH)
    requires Valid(e)
    ensures Valid(Unregister(e, vlsh))
    ensures vlsh !in Unregister(e, vlsh).sets && vlsh !in Unregister(e, vlsh).epoll
    ensures forall w :: w in e.joined && e.joined[w] == vlsh ==> Unregister(e, vlsh).woken[w] == 1
  {
    var keys := e.sets.Keys + {vlsh};
    Widen(e, keys);
    RemoveKeeps(e, vlsh, vlsh, Identity(keys));
    Narrow(Unregister(e, vlsh), keys);
  }

  lemma DeliverKeeps(e: Engine, vlsh: VLSH, events: Mask, modOk: bool)
    requires Valid(e)
    ensures Valid(Deliver(e, vlsh, events, modOk))
  {
    Widen(e, e.sets.Keys);
    HandleKeeps(e, vlsh, vlsh, events, modOk, Identity(e.sets.Keys));
    Narrow(Deliver(e, vlsh, events, modOk), e.sets.Keys);
  }

  lemma WakeAllValid(e: Engine)
    requires Valid(e)
    ensures Valid(WakeAll(e))
    ensures forall w :: w in e.joined ==> WakeAll(e).woken[w] == 1
  {
    WakeAllKeeps(e, Identity(e.sets.Keys));
    Narrow(WakeAll(e), e.sets.Keys);
  }

  /** Everybody an engine transition wakes had joined before, unless it is the
      waiter being installed; and nobody joins but that waiter. */
  lemma JoinedKept(e: Engine, w: Waiter, vlsh: VLSH, events: Mask, ok: bool)
    ensures Withdraw(e, w, ok).joined == e.joined
    ensures Unregister(e, vlsh).joined == e.joined
    ensures Deliver(e, vlsh, events, ok).joined == e.joined
    ensures WakeAll(e).joined == e.joined
  {
  }

  // ---------------------------------------------------------------- queues

  /** Queued registrations are of waiters that are new and all different. */
  ghost predicate AllNew(joined: map<Waiter, VLSH>, queue: seq<Waiter>) {
    && (forall k :: 0 <= k < |queue| ==> queue[k] !in joined)
    && (forall j, k :: 0 <= j < k < |queue| ==> queue[j] != queue[k])
  }

  lemma NewAfter(joined: map<Waiter, VLSH>, queue: seq<Waiter>)
    requires queue != [] && AllNew(joined, queue)
    ensures AllNew(joined[queue[0] := queue[0].vlsh], queue[1..])
  {
  }

  lemma InstallAllStep(e: Engine, queue: seq<Waiter>, ctl: seq<bool>, k: nat)
    requires |ctl| == |queue| && k < |queue|
    ensures InstallAll(e, queue[..k + 1], ctl[..k + 1]) == Install(InstallAll(e, queue[..k], ctl[..k]), queue[k], ctl[k])
  {
    assert queue[..k + 1][..k] == queue[..k] && ctl[..k + 1][..k] == ctl[..k];
  }

  lemma WithdrawAllStep(e: Engine, queue: seq<Waiter>, mods: seq<bool>, k: nat)
    requires |mods| == |queue| && k < |queue|
    ensures WithdrawAll(e, queue[..k + 1], mods[..k + 1]) == Withdraw(WithdrawAll(e, queue[..k], mods[..k]), queue[k], mods[k])
  {
    assert queue[..k + 1][..k] == queue[..k] && mods[..k + 1][..k] == mods[..k];
  }

  lemma UnregisterAllStep(e: Engine, queue: seq<Request>, k: nat)
    requires k < |queue|
    ensures UnregisterAll(e, queue[..k + 1]) == Unregister(UnregisterAll(e, queue[..k]), queue[k].vlsh)
  {
    assert queue[..k + 1][..k] == queue[..k];
  }

  lemma RejectAllStep(e: Engine, queue: seq<Waiter>, k: nat)
    requires k < |queue|
    ensures RejectAll(e, queue[..k + 1]) == Reject(RejectAll(e, queue[..k]), queue[k])
  {
    assert queue[..k + 1][..k] == queue[..k];
  }

  lemma WakeAllDels(e: Engine)
    requires Valid(e)
    ensures e.epoll - RawsOf(Identity(e.sets.Keys), e.sets.Keys) == map[]
    ensures forall k, w :: k in e.sets && w in e.sets[k].waiters ==> w !in e.woken && w in e.joined && e.joined[w] == k
  {
    var left := e.epoll - RawsOf(Identity(e.sets.Keys), e.sets.Keys);
    forall r ensures r !in left {
      if r in e.epoll {
        assert e.epoll[r].key == r && r in e.sets.Keys && Identity(e.sets.Keys)[r] == r;
      }
    }
    assert left.Keys == {};
  }

  predicate Names(queue: seq<Request>, vlsh: VLSH) {
    exists k :: 0 <= k < |queue| && queue[k].vlsh == vlsh
  }

  /** A whole drain acts on each handle separately: the handles named by a request
      end without a wait set, and the others keep the one they had. */
  lemma {:induction false} UnregisterAllEmpties(e: Engine, queue: seq<Request>, vlsh: VLSH)
    ensures Names(queue, vlsh) ==> vlsh !in UnregisterAll(e, queue).sets
    ensures !Names(queue, vlsh) ==> (vlsh in UnregisterAll(e, queue).sets <==> vlsh in e.sets)
    ensures !Names(queue, vlsh) && vlsh in e.sets ==> UnregisterAll(e, queue).sets[vlsh] == e.sets[vlsh]
    ensures UnregisterAll(e, queue).joined == e.joined
  {
    if queue != [] {
      var n := |queue| - 1;
      UnregisterAllEmpties(e, queue[..n], vlsh);
      if Names(queue, vlsh) && queue[n].vlsh != vlsh {
        var k :| 0 <= k < |queue| && queue[k].vlsh == vlsh;
        assert queue[..n][k].vlsh == vlsh;
      }
    }
  }
}
