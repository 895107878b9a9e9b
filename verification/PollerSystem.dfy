/** The Mode 3 poller as a system of threads: its goroutine, the callers waiting
    for readiness, the callers closing handles, and the stopping thread.  Any of
    them may step at any time; epoll calls may fail and epoll may report any
    events on the handles it holds. */
module PollerSystem {
  import opened WaitEngine
  import opened PollerSpec
  import Runs

  const CAP: nat := 256
  const BATCH: nat := 64

  datatype Event = Event(vlsh: VLSH, events: Mask)

  datatype Pc =
    | Idle
    | Top | Regs | Cancels | Unregs | Waiting
    | Handling(events: seq<Event>, fetched: nat)
    | Rejecting | Halted

  /** mode3PollWaitContext: at the registration send, at the wait, at the
      cancellation send, returned. */
  datatype Client = Sending | Parked | Withdrawing | Left(ready: bool)

  /** pollUnregister: at the send, at the wait, returned. */
  datatype Closer = Asking | Asked | Released

  /** `clock` counts steps.  `installed`, `acked` and `wokeBy` remember when a
      waiter joined, when a barrier was acknowledged, and when the event that
      woke a waiter was fetched.  `missed` holds the waiters whose cancellation
      was drained before their registration. */
  datatype Sys = Sys(
    pc: Pc,
    eng: Engine,
    regCh: seq<Waiter>,
    cancelCh: seq<Waiter>,
    unregCh: seq<Request>,
    stopCh: bool,
    disabled: bool,
    clients: map<Waiter, Client>,
    closers: map<Request, Closer>,
    clock: nat,
    installed: map<Waiter, nat>,
    acked: map<Request, nat>,
    wokeBy: map<Waiter, nat>,
    missed: set<Waiter>)

  datatype Step =
    | Start
    | Stop
    | Enter(w: Waiter)
    | SendReg(w: Waiter)
    | GiveUp(w: Waiter)
    | Ready(w: Waiter)
    | Expire(w: Waiter)
    | SendCancel(w: Waiter)
    | SeeHalt(w: Waiter)
    | Ask(r: Request)
    | SendUnreg(r: Request)
    | Release(r: Request)
    | Go
    | PopReg(ok: bool)
    | RegsDone
    | PopCancel(ok: bool)
    | CancelsDone
    | PopUnreg
    | UnregsDone
    | Fetch(events: seq<Event>)
    | HandleNext(ok: bool)
    | HandlingDone
    | SeeStop
    | PopReject
    | RejectsDone

  const BOOT := Sys(Idle, EMPTY, [], [], [], false, false, map[], map[], 0, map[], map[], map[], {})

  predicate Running(s: Sys) {
    !s.pc.Idle? && !s.pc.Halted?
  }

  predicate At(s: Sys, w: Waiter, c: Client) {
    w in s.clients && s.clients[w] == c
  }

  predicate CloserAt(s: Sys, r: Request, c: Closer) {
    r in s.closers && s.closers[r] == c
  }

  predicate Enabled(s: Sys, step: Step) {
    match step
    case Start => s.pc.Idle? && !s.disabled
    case Stop => true
    case Enter(w) => Running(s) && !s.disabled && w !in s.clients
    case SendReg(w) => At(s, w, Sending) && |s.regCh| < CAP
    case GiveUp(w) => At(s, w, Sending)
    case Ready(w) => (At(s, w, Parked) || At(s, w, Withdrawing)) && w in s.eng.woken
    case Expire(w) => At(s, w, Parked)
    case SendCancel(w) => At(s, w, Withdrawing) && |s.cancelCh| < CAP
    case SeeHalt(w) => (At(s, w, Parked) || At(s, w, Withdrawing)) && s.pc.Halted?
    case Ask(r) => Running(s) && !s.disabled && r !in s.closers
    case SendUnreg(r) => CloserAt(s, r, Asking) && |s.unregCh| < CAP
    case Release(r) => (CloserAt(s, r, Asked) && r in s.acked) || (s.pc.Halted? && r in s.closers && !s.closers[r].Released?)
    case Go => s.pc.Top? && !s.stopCh
    case PopReg(_) => s.pc.Regs? && s.regCh != []
    case RegsDone => s.pc.Regs? && s.regCh == []
    case PopCancel(_) => s.pc.Cancels? && s.cancelCh != []
    case CancelsDone => s.pc.Cancels? && s.cancelCh == []
    case PopUnreg => s.pc.Unregs? && s.unregCh != []
    case UnregsDone => s.pc.Unregs? && s.unregCh == []
    case Fetch(events) =>
      s.pc.Waiting? && |events| <= BATCH && forall k :: 0 <= k < |events| ==> events[k].vlsh in s.eng.epoll
    case HandleNext(_) => s.pc.Handling? && s.pc.events != []
    case HandlingDone => s.pc.Handling? && s.pc.events == []
    case SeeStop => s.pc.Top? && s.stopCh
    case PopReject => s.pc.Rejecting? && s.regCh != []
    case RejectsDone => s.pc.Rejecting? && s.regCh == []
  }

  /** Who was woken between two engine states. */
  function NewlyWoken(e: Engine, t: Engine): set<Waiter> {
    set w | w in t.woken && t.woken[w] > e.woken[w]
  }

  function Stamp(m: map<Waiter, nat>, ws: set<Waiter>, time: nat): map<Waiter, nat> {
    map w | w in m.Keys + ws :: if w in ws then time else m[w]
  }

  function Handled(s: Sys, t: Engine): Sys
    requires s.pc.Handling? && s.pc.events != []
  {
    s.(eng := t, pc := s.pc.(events := s.pc.events[1..]),
       wokeBy := Stamp(s.wokeBy, NewlyWoken(s.eng, t), s.pc.fetched))
  }

  /** The effect of a step, apart from the clock. */
  function Effect(s: Sys, step: Step): Sys
    requires Enabled(s, step)
  {
    match step
    case Start => s.(pc := Top)
    case Stop => s.(disabled := true, stopCh := s.stopCh || !s.pc.Idle?)
    case Enter(w) => s.(clients := s.clients[w := Sending])
    case SendReg(w) => s.(clients := s.clients[w := Parked], regCh := s.regCh + [w])
    case GiveUp(w) => s.(clients := s.clients[w := Left(false)])
    case Ready(w) => s.(clients := s.clients[w := Left(true)])
    case Expire(w) => s.(clients := s.clients[w := Withdrawing])
    case SendCancel(w) => s.(clients := s.clients[w := Left(false)], cancelCh := s.cancelCh + [w])
    case SeeHalt(w) => s.(clients := s.clients[w := Left(false)])
    case Ask(r) => s.(closers := s.closers[r := Asking])
    case SendUnreg(r) => s.(closers := s.closers[r := Asked], unregCh := s.unregCh + [r])
    case Release(r) => s.(closers := s.closers[r := Released])
    case Go => s.(pc := Regs)
    case PopReg(ok) =>
      var w := s.regCh[0];
      s.(regCh := s.regCh[1..], eng := Install(s.eng, w, ok), installed := s.installed[w := s.clock])
    case RegsDone => s.(pc := Cancels)
    case PopCancel(ok) =>
      var w := s.cancelCh[0];
      s.(cancelCh := s.cancelCh[1..], eng := Withdraw(s.eng, w, ok),
         missed := if w in s.eng.joined then s.missed else s.missed + {w})
    case CancelsDone => s.(pc := Unregs)
    case PopUnreg =>
      var r := s.unregCh[0];
      s.(unregCh := s.unregCh[1..], eng := Unregister(s.eng, r.vlsh), acked := s.acked[r := s.clock])
    case UnregsDone => s.(pc := Waiting)
    case Fetch(events) => s.(pc := Handling(events, s.clock))
    case HandleNext(ok) => Handled(s, Deliver(s.eng, s.pc.events[0].vlsh, s.pc.events[0].events, ok))
    case HandlingDone => s.(pc := Top)
    case SeeStop => s.(pc := Rejecting, eng := WakeAll(s.eng))
    case PopReject =>
      var w := s.regCh[0];
      s.(regCh := s.regCh[1..], eng := Reject(s.eng, w), installed := s.installed[w := s.clock])
    case RejectsDone => s.(pc := Halted)
  }

  function Do(s: Sys, step: Step): Sys
    requires Enabled(s, step)
  {
    Effect(s, step).(clock := s.clock + 1)
  }

  // ---------------------------------------------------------------- invariants

  /** The engine is coherent and keys waiters by their own handle. */
  ghost predicate EngineOk(e: Engine) {
    var joined := e.joined;
    Valid(e) && forall w :: w in joined ==> joined[w] == w.vlsh
  }

  predicate Waits(clients: map<Waiter, Client>, w: Waiter) {
    w in clients && (clients[w].Parked? || clients[w].Withdrawing?)
  }

  /** A waiter is not sent yet, queued once, or joined; its caller knows which of
      the first and the others, and returns true only if it was woken. */
  ghost predicate Places(e: Engine, regCh: seq<Waiter>, clients: map<Waiter, Client>) {
    && AllNew(e.joined, regCh)
    && (forall w :: w in regCh || w in e.joined ==> w in clients && !clients[w].Sending?)
    && (forall w :: Waits(clients, w) ==> w in regCh || w in e.joined)
    && (forall w :: w in clients && clients[w] == Left(true) ==> w in e.woken)
  }

  /** Only a caller that gave up after registering cancels, and only once. */
  ghost predicate Cancelling(cancelCh: seq<Waiter>, missed: set<Waiter>, clients: map<Waiter, Client>) {
    && (forall j, k :: 0 <= j < k < |cancelCh| ==> cancelCh[j] != cancelCh[k])
    && (forall w :: w in cancelCh || w in missed ==> w in clients && clients[w] == Left(false))
    && (forall w :: w in cancelCh ==> w !in missed)
  }

  /** Cancelled waiters have been sent. */
  ghost predicate Sent(cancelCh: seq<Waiter>, missed: set<Waiter>, regCh: seq<Waiter>, joined: map<Waiter, VLSH>) {
    forall w :: w in cancelCh || w in missed ==> w in regCh || w in joined
  }

  ghost predicate Closing(unregCh: seq<Request>, acked: map<Request, nat>, closers: map<Request, Closer>) {
    && (forall j, k :: 0 <= j < k < |unregCh| ==> unregCh[j] != unregCh[k])
    && (forall r :: r in unregCh || r in acked ==> r in closers && !closers[r].Asking?)
    && (forall r :: r in unregCh ==> r !in acked)
    && (forall r :: r in closers && closers[r].Asked? ==> r in unregCh || r in acked)
  }

  /** Everything recorded happened before `time`. */
  ghost predicate Before(installed: map<Waiter, nat>, acked: map<Request, nat>, time: nat) {
    && (forall w :: w in installed ==> installed[w] < time)
    && (forall r :: r in acked ==> acked[r] < time)
  }

  /** An event wakes only waiters that joined before it was fetched. */
  ghost predicate Woke(installed: map<Waiter, nat>, wokeBy: map<Waiter, nat>) {
    forall w :: w in wokeBy ==> w in installed && installed[w] < wokeBy[w]
  }

  /** Whoever joined a handle before an acknowledged barrier has been woken. */
  ghost predicate BarrierHolds(installed: map<Waiter, nat>, acked: map<Request, nat>, woken: multiset<Waiter>) {
    forall r, w :: r in acked && w in installed && w.vlsh == r.vlsh && installed[w] <= acked[r] ==> woken[w] == 1
  }

  ghost predicate Ended(pc: Pc, sets: map<VLSH, WaitSet>, stopCh: bool, disabled: bool) {
    && (pc.Rejecting? || pc.Halted? ==> sets == map[] && stopCh)
    && (stopCh ==> disabled)
  }

  ghost predicate Quiet(pc: Pc, clients: map<Waiter, Client>, closers: map<Request, Closer>) {
    pc.Idle? ==> clients == map[] && closers == map[]
  }

  ghost predicate Fetched(s: Sys) {
    s.pc.Handling? ==> s.pc.fetched < s.clock && Before(s.installed, s.acked, s.pc.fetched)
  }

  ghost predicate SysInv(s: Sys) {
    var e := s.eng;
    && EngineOk(e)
    && Places(e, s.regCh, s.clients)
    && Cancelling(s.cancelCh, s.missed, s.clients)
    && Sent(s.cancelCh, s.missed, s.regCh, e.joined)
    && Closing(s.unregCh, s.acked, s.closers)
    && s.installed.Keys == e.joined.Keys
    && Before(s.installed, s.acked, s.clock)
    && Woke(s.installed, s.wokeBy)
    && Fetched(s)
    && BarrierHolds(s.installed, s.acked, e.woken)
    && Ended(s.pc, e.sets, s.stopCh, s.disabled)
    && Quiet(s.pc, s.clients, s.closers)
  }

  // ---------------------------------------------------------------- steps keep the invariants

  predicate OfWaiter(step: Step) {
    step.Enter? || step.SendReg? || step.GiveUp? || step.Ready? || step.Expire? || step.SendCancel? || step.SeeHalt?
  }

  predicate OfCloser(step: Step) {
    step.Ask? || step.SendUnreg? || step.Release?
  }

  predicate OfEngine(step: Step) {
    step.PopReg? || step.PopCancel? || step.PopUnreg? || step.HandleNext? || step.SeeStop? || step.PopReject?
  }

  /** The engine moved on without anybody joining or being unwoken. */
  ghost predicate Advance(e: Engine, t: Engine) {
    var joined := e.joined;
    EngineOk(t) && t.joined == joined && forall w :: e.woken[w] <= t.woken[w]
  }

  ghost predicate Joining(e: Engine, t: Engine, w: Waiter) {
    var joined := e.joined[w := w.vlsh];
    EngineOk(t) && t.joined == joined && forall v :: e.woken[v] <= t.woken[v]
  }

  lemma Moves(e: Engine, regCh: seq<Waiter>, clients: map<Waiter, Client>, w: Waiter, c: Client)
    requires Places(e, regCh, clients)
    requires c.Sending? || c == Left(false) || (c.Withdrawing? && Waits(clients, w)) || (c == Left(true) && w in e.woken)
    requires c.Sending? ==> w !in clients
    ensures Places(e, regCh, clients[w := c])
  {
  }

  /** A caller that has not returned moves on without touching a queue. */
  lemma CallerMoves(s: Sys, w: Waiter, c: Client)
    requires SysInv(s)
    requires if w in s.clients then !s.clients[w].Left? else Running(s)
    requires c.Sending? || c == Left(false) || (c.Withdrawing? && Waits(s.clients, w)) || (c == Left(true) && w in s.eng.woken)
    requires c.Sending? ==> w !in s.clients
    ensures SysInv(s.(clients := s.clients[w := c], clock := s.clock + 1))
  {
    Moves(s.eng, s.regCh, s.clients, w, c);
    assert Cancelling(s.cancelCh, s.missed, s.clients[w := c]);
  }

  lemma Registers(e: Engine, regCh: seq<Waiter>, clients: map<Waiter, Client>, w: Waiter)
    requires Places(e, regCh, clients) && w in clients && clients[w].Sending?
    ensures Places(e, regCh + [w], clients[w := Parked])
  {
    assert w !in regCh && w !in e.joined;
  }

  lemma SendRegKeeps(s: Sys, w: Waiter)
    requires SysInv(s) && Enabled(s, SendReg(w))
    ensures SysInv(Do(s, SendReg(w)))
  {
    Registers(s.eng, s.regCh, s.clients, w);
    StillCancelling(s.cancelCh, s.missed, s.clients, w);
    StillSent(s.cancelCh, s.missed, s.regCh, s.eng.joined, w);
  }

  lemma StillCancelling(cancelCh: seq<Waiter>, missed: set<Waiter>, clients: map<Waiter, Client>, w: Waiter)
    requires Cancelling(cancelCh, missed, clients) && w in clients && clients[w].Sending?
    ensures Cancelling(cancelCh, missed, clients[w := Parked])
  {
  }

  lemma StillSent(cancelCh: seq<Waiter>, missed: set<Waiter>, regCh: seq<Waiter>, joined: map<Waiter, VLSH>, w: Waiter)
    requires Sent(cancelCh, missed, regCh, joined)
    ensures Sent(cancelCh, missed, regCh + [w], joined)
  {
  }

  lemma Queues(cancelCh: seq<Waiter>, missed: set<Waiter>, clients: map<Waiter, Client>, w: Waiter)
    requires Cancelling(cancelCh, missed, clients) && w in clients && clients[w].Withdrawing?
    ensures Cancelling(cancelCh + [w], missed, clients[w := Left(false)])
  {
    assert w !in cancelCh && w !in missed;
  }

  lemma SendCancelKeeps(s: Sys, w: Waiter)
    requires SysInv(s) && Enabled(s, SendCancel(w))
    ensures SysInv(Do(s, SendCancel(w)))
  {
    var t := Do(s, SendCancel(w));
    Queues(s.cancelCh, s.missed, s.clients, w);
    Moves(s.eng, s.regCh, s.clients, w, Left(false));
    assert w in s.regCh || w in s.eng.joined;
    assert Sent(t.cancelCh, s.missed, s.regCh, s.eng.joined);
    assert t == s.(cancelCh := t.cancelCh, clients := t.clients, clock := t.clock);
  }

  lemma WaiterStepKeeps(s: Sys, step: Step)
    requires SysInv(s) && Enabled(s, step) && OfWaiter(step)
    ensures SysInv(Do(s, step))
  {
    if step.SendReg? {
      SendRegKeeps(s, step.w);
    } else if step.SendCancel? {
      SendCancelKeeps(s, step.w);
    } else {
      TurnIs(s, step);
      CallerMoves(s, step.w, Turn(step));
    }
  }

  /** Where a caller's step leads that touches no queue. */
  function Turn(step: Step): Client {
    if step.Enter? then Sending else if step.Ready? then Left(true) else if step.Expire? then Withdrawing else Left(false)
  }

  lemma TurnIs(s: Sys, step: Step)
    requires Enabled(s, step) && OfWaiter(step) && !step.SendReg? && !step.SendCancel?
    ensures Do(s, step) == s.(clients := s.clients[step.w := Turn(step)], clock := s.clock + 1)
    ensures if step.w in s.clients then !s.clients[step.w].Left? else Running(s)
    ensures Turn(step).Sending? ==> step.w !in s.clients
    ensures Turn(step).Withdrawing? ==> Waits(s.clients, step.w)
    ensures Turn(step) == Left(true) ==> step.w in s.eng.woken
  {
    match step {
      case Enter(_) =>
      case GiveUp(_) =>
      case Ready(_) =>
      case Expire(_) =>
      case SeeHalt(_) =>
    }
  }

  lemma CloserIs(s: Sys, step: Step, t: Sys)
    requires Closing(s.unregCh, s.acked, s.closers) && Enabled(s, step) && OfCloser(step) && t == Do(s, step)
    ensures t == s.(unregCh := t.unregCh, closers := t.closers, clock := s.clock + 1)
    ensures Closing(t.unregCh, t.acked, t.closers)
    ensures s.pc.Idle? && s.closers == map[] ==> t.closers == map[]
  {
    match step {
      case Ask(_) =>
      case SendUnreg(_) =>
      case Release(_) =>
    }
  }

  lemma CloserStepKeeps(s: Sys, step: Step)
    requires SysInv(s) && Enabled(s, step) && OfCloser(step)
    ensures SysInv(Do(s, step))
  {
    CloserIs(s, step, Do(s, step));
  }

  /** The poller's thread and the callers of Start and Stop leave all else alone. */
  lemma ControlIs(s: Sys, step: Step, t: Sys)
    requires Enabled(s, step) && !OfWaiter(step) && !OfCloser(step) && !OfEngine(step) && t == Do(s, step)
    requires Ended(s.pc, s.eng.sets, s.stopCh, s.disabled) && Fetched(s) && Before(s.installed, s.acked, s.clock)
    ensures t == s.(pc := t.pc, disabled := t.disabled, stopCh := t.stopCh, clock := s.clock + 1)
    ensures Ended(t.pc, t.eng.sets, t.stopCh, t.disabled) && Fetched(t) && (t.pc.Idle? ==> s.pc.Idle?)
  {
    match step {
      case Start =>
      case Stop =>
      case Go =>
      case RegsDone =>
      case CancelsDone =>
      case UnregsDone =>
      case Fetch(_) =>
      case HandlingDone =>
      case RejectsDone =>
    }
  }

  lemma ControlStepKeeps(s: Sys, step: Step)
    requires SysInv(s) && Enabled(s, step) && !OfWaiter(step) && !OfCloser(step) && !OfEngine(step)
    ensures SysInv(Do(s, step))
  {
    ControlIs(s, step, Do(s, step));
  }

  lemma WithdrawAdvances(e: Engine, w: Waiter, ok: bool)
    requires EngineOk(e)
    ensures Advance(e, Withdraw(e, w, ok))
  {
    WithdrawKeeps(e, w, ok);
  }

  lemma UnregisterAdvances(e: Engine, vlsh: VLSH)
    requires EngineOk(e)
    ensures Advance(e, Unregister(e, vlsh))
    ensures forall w :: w in e.joined && w.vlsh == vlsh ==> Unregister(e, vlsh).woken[w] == 1
  {
    UnregisterKeeps(e, vlsh);
  }

  lemma DeliverAdvances(e: Engine, vlsh: VLSH, events: Mask, ok: bool)
    requires EngineOk(e)
    ensures Advance(e, Deliver(e, vlsh, events, ok))
  {
    DeliverKeeps(e, vlsh, events, ok);
    DeliverGrows(e, vlsh, events, ok);
  }

  lemma DeliverGrows(e: Engine, vlsh: VLSH, events: Mask, ok: bool)
    ensures var t := Deliver(e, vlsh, events, ok); t.joined == e.joined && forall w :: e.woken[w] <= t.woken[w]
  {
  }

  lemma WakeAllAdvances(e: Engine)
    requires EngineOk(e)
    ensures Advance(e, WakeAll(e)) && WakeAll(e).sets == map[]
  {
    WakeAllValid(e);
  }

  lemma InstallJoining(e: Engine, w: Waiter, ok: bool)
    requires EngineOk(e) && w !in e.joined
    ensures Joining(e, Install(e, w, ok), w)
  {
    InstallKeeps(e, w, ok);
    InstallJoins(e, w, ok);
  }

  lemma RejectJoining(e: Engine, w: Waiter)
    requires EngineOk(e) && w !in e.joined
    ensures Joining(e, Reject(e, w), w) && Reject(e, w).sets == e.sets
  {
    RejectKeeps(e, w);
  }

  /** What survives any engine step in which nobody joins. */
  lemma AdvanceKeeps(s: Sys, e: Engine)
    requires SysInv(s) && Advance(s.eng, e)
    ensures EngineOk(e) && e.joined == s.eng.joined
    ensures Places(e, s.regCh, s.clients)
    ensures BarrierHolds(s.installed, s.acked, e.woken)
  {
    assert forall w :: w in s.eng.woken ==> w in e.woken;
  }

  lemma CancelTaken(cancelCh: seq<Waiter>, missed: set<Waiter>, clients: map<Waiter, Client>)
    requires Cancelling(cancelCh, missed, clients) && cancelCh != []
    ensures Cancelling(cancelCh[1..], missed, clients) && Cancelling(cancelCh[1..], missed + {cancelCh[0]}, clients)
  {
  }

  lemma PopCancelKeeps(s: Sys, e: Engine, t: Sys)
    requires SysInv(s) && s.pc.Cancels? && s.cancelCh != [] && Advance(s.eng, e)
    requires t == s.(eng := e, cancelCh := s.cancelCh[1..], clock := s.clock + 1,
                     missed := if s.cancelCh[0] in s.eng.joined then s.missed else s.missed + {s.cancelCh[0]})
    ensures SysInv(t)
  {
    AdvanceKeeps(s, e);
    CancelTaken(s.cancelCh, s.missed, s.clients);
    assert Sent(t.cancelCh, t.missed, t.regCh, t.eng.joined);
  }

  lemma Acknowledged(unregCh: seq<Request>, acked: map<Request, nat>, closers: map<Request, Closer>, clock: nat)
    requires Closing(unregCh, acked, closers) && unregCh != []
    ensures Closing(unregCh[1..], acked[unregCh[0] := clock], closers)
  {
  }

  lemma Separates(installed: map<Waiter, nat>, acked: map<Request, nat>, e: Engine, r: Request, clock: nat)
    requires BarrierHolds(installed, acked, e.woken) && installed.Keys == e.joined.Keys
    requires forall w :: w in e.joined && w.vlsh == r.vlsh ==> e.woken[w] == 1
    ensures BarrierHolds(installed, acked[r := clock], e.woken)
  {
  }

  lemma PopUnregKeeps(s: Sys, e: Engine, t: Sys)
    requires SysInv(s) && s.pc.Unregs? && s.unregCh != [] && Advance(s.eng, e)
    requires forall w :: w in s.eng.joined && w.vlsh == s.unregCh[0].vlsh ==> e.woken[w] == 1
    requires t == s.(eng := e, unregCh := s.unregCh[1..], clock := s.clock + 1, acked := s.acked[s.unregCh[0] := s.clock])
    ensures SysInv(t)
  {
    AdvanceKeeps(s, e);
    Acknowledged(s.unregCh, s.acked, s.closers, s.clock);
    Separates(s.installed, s.acked, e, s.unregCh[0], s.clock);
  }

  lemma StampKeeps(s: Sys, e: Engine)
    requires SysInv(s) && s.pc.Handling? && Advance(s.eng, e)
    ensures Woke(s.installed, Stamp(s.wokeBy, NewlyWoken(s.eng, e), s.pc.fetched))
  {
    forall w | w in NewlyWoken(s.eng, e) ensures w in s.installed {
      assert w in e.joined;
    }
  }

  lemma HandleNextKeeps(s: Sys, e: Engine, t: Sys)
    requires SysInv(s) && s.pc.Handling? && s.pc.events != [] && Advance(s.eng, e)
    requires t == s.(eng := e, pc := t.pc, wokeBy := t.wokeBy, clock := s.clock + 1)
    requires t.pc == s.pc.(events := s.pc.events[1..]) && Woke(s.installed, t.wokeBy)
    ensures SysInv(t)
  {
    AdvanceKeeps(s, e);
  }

  lemma SeeStopKeeps(s: Sys, e: Engine, t: Sys)
    requires SysInv(s) && s.pc.Top? && s.stopCh && Advance(s.eng, e) && e.sets == map[]
    requires t == s.(eng := e, pc := Rejecting, clock := s.clock + 1)
    ensures SysInv(t)
  {
    AdvanceKeeps(s, e);
  }

  lemma PlacesAfterPop(e: Engine, t: Engine, regCh: seq<Waiter>, clients: map<Waiter, Client>)
    requires Places(e, regCh, clients) && regCh != [] && Joining(e, t, regCh[0])
    ensures Places(t, regCh[1..], clients)
  {
    NewAfter(e.joined, regCh);
    assert forall v :: v in e.woken ==> v in t.woken;
    assert forall v :: v in regCh <==> v == regCh[0] || v in regCh[1..];
  }

  lemma BarrierAfterJoin(installed: map<Waiter, nat>, acked: map<Request, nat>, e: Engine, t: Engine, w: Waiter, clock: nat)
    requires BarrierHolds(installed, acked, e.woken) && Before(installed, acked, clock) && Joining(e, t, w)
    ensures BarrierHolds(installed[w := clock], acked, t.woken)
  {
  }

  lemma RecordsAfterJoin(installed: map<Waiter, nat>, acked: map<Request, nat>, wokeBy: map<Waiter, nat>, w: Waiter, clock: nat)
    requires Before(installed, acked, clock) && Woke(installed, wokeBy) && w !in installed
    ensures Before(installed[w := clock], acked, clock + 1) && Woke(installed[w := clock], wokeBy)
  {
  }

  lemma SentAfterPop(e: Engine, t: Engine, s: Sys)
    requires Sent(s.cancelCh, s.missed, s.regCh, e.joined) && s.regCh != [] && Joining(e, t, s.regCh[0])
    ensures Sent(s.cancelCh, s.missed, s.regCh[1..], t.joined)
  {
    assert forall v :: v in s.regCh <==> v == s.regCh[0] || v in s.regCh[1..];
  }

  /** The head of the registration queue joins, parked or rejected. */
  lemma JoinKeeps(s: Sys, e: Engine, t: Sys)
    requires SysInv(s) && s.regCh != [] && Joining(s.eng, e, s.regCh[0])
    requires s.pc.Regs? || (s.pc.Rejecting? && e.sets == s.eng.sets)
    requires t == s.(eng := e, regCh := s.regCh[1..], installed := s.installed[s.regCh[0] := s.clock], clock := s.clock + 1)
    ensures SysInv(t)
  {
    PlacesAfterPop(s.eng, e, s.regCh, s.clients);
    SentAfterPop(s.eng, e, s);
    RecordsAfterJoin(s.installed, s.acked, s.wokeBy, s.regCh[0], s.clock);
    BarrierAfterJoin(s.installed, s.acked, s.eng, e, s.regCh[0], s.clock);
  }

  lemma EngineIsOk(s: Sys)
    requires SysInv(s)
    ensures EngineOk(s.eng)
  {
  }

  lemma HeadIsNew(s: Sys)
    requires SysInv(s) && s.regCh != []
    ensures EngineOk(s.eng) && s.regCh[0] !in s.eng.joined
  {
  }

  lemma RegistrationStepKeeps(s: Sys, ok: bool, t: Sys)
    requires SysInv(s) && s.pc.Regs? && s.regCh != []
    requires t == s.(regCh := s.regCh[1..], eng := Install(s.eng, s.regCh[0], ok),
                     installed := s.installed[s.regCh[0] := s.clock], clock := s.clock + 1)
    ensures SysInv(t)
  {
    HeadIsNew(s);
    InstallJoining(s.eng, s.regCh[0], ok);
    JoinKeeps(s, t.eng, t);
  }

  lemma RejectionStepKeeps(s: Sys, t: Sys)
    requires SysInv(s) && s.pc.Rejecting? && s.regCh != []
    requires t == s.(regCh := s.regCh[1..], eng := Reject(s.eng, s.regCh[0]),
                     installed := s.installed[s.regCh[0] := s.clock], clock := s.clock + 1)
    ensures SysInv(t)
  {
    HeadIsNew(s);
    RejectJoining(s.eng, s.regCh[0]);
    JoinKeeps(s, t.eng, t);
  }

  lemma CancellationStepKeeps(s: Sys, ok: bool, t: Sys)
    requires SysInv(s) && s.pc.Cancels? && s.cancelCh != []
    requires t == s.(eng := Withdraw(s.eng, s.cancelCh[0], ok), cancelCh := s.cancelCh[1..], clock := s.clock + 1,
                     missed := if s.cancelCh[0] in s.eng.joined then s.missed else s.missed + {s.cancelCh[0]})
    ensures SysInv(t)
  {
    EngineIsOk(s);
    WithdrawAdvances(s.eng, s.cancelCh[0], ok);
    PopCancelKeeps(s, t.eng, t);
  }

  lemma BarrierStepKeeps(s: Sys, t: Sys)
    requires SysInv(s) && s.pc.Unregs? && s.unregCh != []
    requires t == s.(eng := Unregister(s.eng, s.unregCh[0].vlsh), unregCh := s.unregCh[1..], clock := s.clock + 1,
                     acked := s.acked[s.unregCh[0] := s.clock])
    ensures SysInv(t)
  {
    EngineIsOk(s);
    UnregisterAdvances(s.eng, s.unregCh[0].vlsh);
    PopUnregKeeps(s, t.eng, t);
  }

  lemma EventStepKeeps(s: Sys, ok: bool, t: Sys)
    requires SysInv(s) && s.pc.Handling? && s.pc.events != []
    requires t == Handled(s, Deliver(s.eng, s.pc.events[0].vlsh, s.pc.events[0].events, ok)).(clock := s.clock + 1)
    ensures SysInv(t)
  {
    EngineIsOk(s);
    DeliverAdvances(s.eng, s.pc.events[0].vlsh, s.pc.events[0].events, ok);
    StampKeeps(s, t.eng);
    HandleNextKeeps(s, t.eng, t);
  }

  lemma StopStepKeeps(s: Sys, t: Sys)
    requires SysInv(s) && s.pc.Top? && s.stopCh
    requires t == s.(eng := WakeAll(s.eng), pc := Rejecting, clock := s.clock + 1)
    ensures SysInv(t)
  {
    EngineIsOk(s);
    WakeAllAdvances(s.eng);
    SeeStopKeeps(s, t.eng, t);
  }

  lemma PopRegKeeps(s: Sys, step: Step, t: Sys)
    requires SysInv(s) && Enabled(s, step) && t == Do(s, step) && step.PopReg?
    ensures SysInv(t)
  {
    RegistrationStepKeeps(s, step.ok, t);
  }

  lemma TakeCancelKeeps(s: Sys, step: Step, t: Sys)
    requires SysInv(s) && Enabled(s, step) && t == Do(s, step) && step.PopCancel?
    ensures SysInv(t)
  {
    CancellationStepKeeps(s, step.ok, t);
  }

  lemma LoopStepKeeps(s: Sys, step: Step, t: Sys)
    requires SysInv(s) && Enabled(s, step) && t == Do(s, step)
    requires step.PopUnreg? || step.PopReject? || step.HandleNext? || step.SeeStop?
    ensures SysInv(t)
  {
    if step.PopUnreg? {
      BarrierStepKeeps(s, t);
    } else if step.PopReject? {
      RejectionStepKeeps(s, t);
    } else {
      WakingStepKeeps(s, step, t);
    }
  }

  lemma WakingStepKeeps(s: Sys, step: Step, t: Sys)
    requires SysInv(s) && Enabled(s, step) && t == Do(s, step) && (step.HandleNext? || step.SeeStop?)
    ensures SysInv(t)
  {
    if step.HandleNext? {
      EventStepKeeps(s, step.ok, t);
    } else {
      StopStepKeeps(s, t);
    }
  }

  lemma StepKeeps(s: Sys, step: Step)
    requires SysInv(s) && Enabled(s, step)
    ensures SysInv(Do(s, step))
  {
    if OfWaiter(step) {
      WaiterStepKeeps(s, step);
    } else if OfCloser(step) {
      CloserStepKeeps(s, step);
    } else if step.PopReg? {
      PopRegKeeps(s, step, Do(s, step));
    } else if step.PopCancel? {
      TakeCancelKeeps(s, step, Do(s, step));
    } else if OfEngine(step) {
      LoopStepKeeps(s, step, Do(s, step));
    } else {
      ControlStepKeeps(s, step);
    }
  }

  ghost predicate Next(s: Sys, t: Sys) {
    exists step :: Enabled(s, step) && t == Do(s, step)
  }

  lemma NextKeeps(s: Sys, t: Sys)
    requires SysInv(s) && Next(s, t)
    ensures SysInv(t)
  {
    var step :| Enabled(s, step) && t == Do(s, step);
    StepKeeps(s, step);
  }

  ghost predicate Boots(s: Sys) {
    s == BOOT
  }

  ghost predicate IsRun(run: seq<Sys>) {
    Runs.IsRun(Boots, Next, run)
  }

  lemma BootKeeps()
    ensures SysInv(BOOT)
  {
    assert Places(EMPTY, [], map[]);
  }

  /** Every state of every run satisfies the invariant. */
  lemma RunsAreSound(run: seq<Sys>)
    requires IsRun(run)
    ensures forall p :: 0 <= p < |run| ==> SysInv(run[p])
  {
    BootKeeps();
    forall s, t | SysInv(s) && Next(s, t) ensures SysInv(t) {
      NextKeeps(s, t);
    }
    Runs.Sound(Boots, Next, SysInv, run);
  }

  // ---------------------------------------------------------------- laws

  /** A waiter is in exactly one place: still with its caller, queued once,
      parked under its own handle and unwoken, or gone and woken exactly once. */
  lemma WaiterPartition(s: Sys, w: Waiter)
    requires SysInv(s)
    ensures s.eng.woken[w] <= 1
    ensures w in s.regCh ==> w !in s.eng.joined && s.eng.woken[w] == 0 && multiset(s.regCh)[w] == 1
    ensures w in s.eng.joined ==>
              (s.eng.woken[w] == 0 <==> w.vlsh in s.eng.sets && w in s.eng.sets[w.vlsh].waiters)
    ensures w !in s.regCh && w !in s.eng.joined ==> s.eng.woken[w] == 0 && !Waits(s.clients, w)
  {
    OnceInQueue(s.regCh, w);
  }

  lemma {:induction false} OnceInQueue(queue: seq<Waiter>, w: Waiter)
    requires forall j, k :: 0 <= j < k < |queue| ==> queue[j] != queue[k]
    ensures multiset(queue)[w] == if w in queue then 1 else 0
  {
    if queue != [] {
      OnceInQueue(queue[1..], w);
      assert queue == [queue[0]] + queue[1..];
      assert w in queue[1..] ==> w != queue[0];
    }
  }

  /** The acknowledging step leaves the handle without wait set and epoll
      interest, with every waiter that ever joined on it woken. */
  lemma BarrierClears(s: Sys, w: Waiter)
    requires SysInv(s) && Enabled(s, PopUnreg)
    ensures var r, t := s.unregCh[0], Do(s, PopUnreg);
            && r !in s.acked && r in t.acked
            && r.vlsh !in t.eng.sets && r.vlsh !in t.eng.epoll
            && (w in s.eng.joined && w.vlsh == r.vlsh ==> t.eng.woken[w] == 1)
  {
    UnregisterKeeps(s.eng, s.unregCh[0].vlsh);
  }

  /** From the acknowledgement on, whoever is parked on the handle joined later,
      and no event fetched before it ever wakes such a waiter. */
  lemma BarrierSeparates(s: Sys, r: Request, w: Waiter)
    requires SysInv(s) && r in s.acked && w in s.eng.joined && w.vlsh == r.vlsh
    ensures s.eng.woken[w] == 0 ==> s.installed[w] > s.acked[r]
    ensures w in s.wokeBy && s.installed[w] > s.acked[r] ==> s.wokeBy[w] > s.acked[r]
    ensures s.pc.Handling? ==> s.pc.fetched > s.installed[w] && s.pc.fetched > s.acked[r]
  {
  }

  /** pollWaitContext returns true only for a waiter that was woken; after the
      poller has halted everybody who joined has been. */
  lemma TrueMeansWoken(s: Sys, w: Waiter)
    requires SysInv(s)
    ensures At(s, w, Left(true)) ==> s.eng.woken[w] == 1
    ensures s.pc.Halted? && w in s.eng.joined ==> s.eng.woken[w] == 1
  {
  }

  /** A cancellation takes effect exactly when the registration has been drained
      before it; otherwise it is lost, and the registration is still queued. */
  lemma CancelTakesEffectIff(s: Sys, ok: bool)
    requires SysInv(s) && Enabled(s, PopCancel(ok))
    ensures var w, t := s.cancelCh[0], Do(s, PopCancel(ok));
            && (t.eng.woken[w] == 1 <==> w in s.eng.joined)
            && (w in t.missed <==> w !in s.eng.joined)
            && (w in t.missed ==> w in t.regCh && t.eng == s.eng)
  {
    WithdrawKeeps(s.eng, s.cancelCh[0], ok);
  }

  /** The poller itself is never blocked between start and halt. */
  lemma PollerCanMove(s: Sys) returns (step: Step)
    requires Running(s)
    ensures Enabled(s, step) && !OfWaiter(step) && !OfCloser(step) && !step.Start? && !step.Stop?
  {
    match s.pc {
      case Top => step := if s.stopCh then SeeStop else Go;
      case Regs => step := if s.regCh == [] then RegsDone else PopReg(true);
      case Cancels => step := if s.cancelCh == [] then CancelsDone else PopCancel(true);
      case Unregs => step := if s.unregCh == [] then UnregsDone else PopUnreg;
      case Waiting => step := Fetch([]);
      case Handling(events, _) => step := if events == [] then HandlingDone else HandleNext(true);
      case Rejecting => step := if s.regCh == [] then RejectsDone else PopReject;
    }
  }

  /** Nobody is stuck behind a full queue or a lost wakeup: until the poller has
      halted it can move, and from then on every caller still inside can return. */
  lemma NobodyStuck(s: Sys, w: Waiter, r: Request) returns (step: Step)
    requires SysInv(s)
    ensures Running(s) ==> Enabled(s, step) && !OfWaiter(step) && !OfCloser(step) && !step.Start? && !step.Stop?
    ensures !Running(s) && w in s.clients && !s.clients[w].Left? ==> Enabled(s, GiveUp(w)) || Enabled(s, SeeHalt(w))
    ensures !Running(s) && r in s.closers && !s.closers[r].Released? ==> Enabled(s, Release(r))
  {
    step := Start;
    if Running(s) {
      step := PollerCanMove(s);
    }
    assert w in s.clients || r in s.closers ==> !s.pc.Idle?;
  }

  function Overtaken(w: Waiter): Sys {
    BOOT.(pc := Cancels, clock := 7, regCh := [w], cancelCh := [w], clients := map[w := Left(false)])
  }

  function Acknowledging(w: Waiter, r: Request): Sys {
    Overtaken(w).(pc := Unregs, clock := 13, cancelCh := [], missed := {w}, closers := map[r := Released], acked := map[r := 11])
  }

  lemma EnteredFirst(w: Waiter)
    ensures Reachable(BOOT.(pc := Cancels, clock := 4, clients := map[w := Sending]))
  {
    Booted();
    var s := Play(BOOT, Start);
    s := Play(s, Go);
    s := Play(s, Enter(w));
    s := Play(s, RegsDone);
    assert s == BOOT.(pc := Cancels, clock := 4, clients := map[w := Sending]);
  }

  lemma CancelledFirst(w: Waiter)
    ensures Reachable(Overtaken(w))
  {
    EnteredFirst(w);
    var s := Play(BOOT.(pc := Cancels, clock := 4, clients := map[w := Sending]), SendReg(w));
    s := Play(s, Expire(w));
    s := Play(s, SendCancel(w));
    assert s == Overtaken(w);
  }

  lemma AskedFirst(w: Waiter, r: Request)
    ensures Reachable(Overtaken(w).(closers := map[r := Asked], unregCh := [r], clock := 9))
  {
    CancelledFirst(w);
    var s := Play(Overtaken(w), Ask(r));
    s := Play(s, SendUnreg(r));
    assert s == Overtaken(w).(closers := map[r := Asked], unregCh := [r], clock := 9);
  }

  lemma AcknowledgedFirst(w: Waiter, r: Request)
    ensures Reachable(Acknowledging(w, r))
  {
    AskedFirst(w, r);
    var s := Play(Overtaken(w).(closers := map[r := Asked], unregCh := [r], clock := 9), PopCancel(true));
    s := Play(s, CancelsDone);
    assert s.eng == EMPTY;
    s := Play(s, PopUnreg);
    s := Play(s, Release(r));
    assert s == Acknowledging(w, r);
  }

  lemma DrainedNext(w: Waiter, r: Request)
    ensures Reachable(Acknowledging(w, r).(pc := Regs, clock := 17))
  {
    PolledOnce(w, r);
    var s := Play(Acknowledging(w, r).(pc := Handling([], 14), clock := 15), HandlingDone);
    s := Play(s, Go);
    assert s == Acknowledging(w, r).(pc := Regs, clock := 17);
  }

  lemma PolledOnce(w: Waiter, r: Request)
    ensures Reachable(Acknowledging(w, r).(pc := Handling([], 14), clock := 15))
  {
    AcknowledgedFirst(w, r);
    var s := Play(Acknowledging(w, r), UnregsDone);
    s := Play(s, Fetch([]));
    assert s == Acknowledging(w, r).(pc := Handling([], 14), clock := 15);
  }

  /** Both the cancellation and the barrier speak only about the moment they are
      served: a registration queued just after the registrations were drained is
      overtaken by its own cancellation and by a later close barrier, and is then
      installed although its caller has returned and the handle is closed. */
  lemma OvertakenRegistration(w: Waiter, r: Request) returns (s: Sys)
    requires w.vlsh == r.vlsh
    ensures Reachable(s)
    ensures At(s, w, Left(false)) && CloserAt(s, r, Released) && r in s.acked
    ensures w.vlsh in s.eng.sets && s.eng.sets[w.vlsh].waiters == {w}
  {
    DrainedNext(w, r);
    s := Play(Acknowledging(w, r).(pc := Regs, clock := 17), PopReg(true));
  }

  lemma Booted()
    ensures Reachable(BOOT)
  {
    Runs.Begin(Boots, Next, BOOT);
  }

  ghost predicate Reachable(s: Sys) {
    Runs.Reachable(Boots, Next, s)
  }

  lemma Play(s: Sys, step: Step) returns (t: Sys)
    requires Reachable(s) && Enabled(s, step)
    ensures Reachable(t) && t == Do(s, step)
  {
    t := Do(s, step);
    assert Next(s, t);
    Runs.Extend(Boots, Next, s, t);
  }

}
