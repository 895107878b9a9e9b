/** What the system of module PollerSystem owes its callers: answers, service of their
    requests, and peace for everybody a request does not name. */
module PollerLaws {
  import opened WaitEngine
  import opened WaitLaws
  import opened PollerSpec
  import opened PollerSystem

  // ---------------------------------------------------------------- answers

  /** A caller whose waiter was woken can return at once, and the answer is true. */
  lemma WokenReturnsTrue(s: Sys, w: Waiter)
    requires Waits(s.clients, w) && w in s.eng.woken
    ensures Enabled(s, Ready(w)) && At(Do(s, Ready(w)), w, Left(true))
  {
  }

  /** A caller turns to withdrawing only from waiting, by its own expiry. */
  lemma WithdrawsByExpiry(s: Sys, step: Step, w: Waiter)
    requires Enabled(s, step) && !At(s, w, Withdrawing) && At(Do(s, step), w, Withdrawing)
    ensures At(s, w, Parked) && step == Expire(w)
  {
    if !OfWaiter(step) {
      ClientsStay(s, step);
    }
  }

  /** A false answer comes from a caller that never registered, that has expired, or
      that saw the poller halted. */
  lemma FalseNeeds(s: Sys, step: Step, w: Waiter)
    requires Enabled(s, step) && !At(s, w, Left(false)) && At(Do(s, step), w, Left(false))
    ensures || (At(s, w, Sending) && step == GiveUp(w))
            || (At(s, w, Withdrawing) && step == SendCancel(w))
            || (Waits(s.clients, w) && step == SeeHalt(w) && s.pc.Halted?)
  {
  }

  /** A caller that has registered is waiting, withdrawing, or has its answer. */
  lemma StaysRegistered(s: Sys, step: Step, w: Waiter)
    requires Enabled(s, step) && w in s.clients && !s.clients[w].Sending?
    ensures w in Do(s, step).clients && !Do(s, step).clients[w].Sending?
    ensures s.clients[w].Left? ==> Do(s, step).clients[w] == s.clients[w]
  {
    if OfWaiter(step) {
      match step {
        case Enter(_) =>
        case SendReg(_) =>
        case GiveUp(_) =>
        case Ready(_) =>
        case Expire(_) =>
        case SendCancel(_) =>
        case SeeHalt(_) =>
      }
    } else {
      ClientsStay(s, step);
    }
  }

  lemma ClientsStay(s: Sys, step: Step)
    requires Enabled(s, step) && !OfWaiter(step)
    ensures Do(s, step).clients == s.clients
  {
    match step {
      case Start =>
      case Stop =>
      case Ask(_) =>
      case SendUnreg(_) =>
      case Release(_) =>
      case PopReg(_) =>
      case PopCancel(_) =>
      case PopUnreg =>
      case HandleNext(_) =>
      case Fetch(_) =>
      case SeeStop =>
      case PopReject =>
      case _ =>
    }
  }

  /** The caller has expired or sees the poller halted. */
  predicate Excused(s: Sys, w: Waiter) {
    At(s, w, Withdrawing) || s.pc.Halted?
  }

  ghost predicate NextAt(run: seq<Sys>, k: nat)
    requires k + 1 < |run|
  {
    Next(run[k], run[k + 1])
  }

  /** Over a run: whoever was registered and waiting returns false only after its own
      expiry or the halt. */
  lemma FalseAfterExpiry(run: seq<Sys>, p: nat, q: nat, w: Waiter)
    requires IsRun(run) && p <= q < |run| && At(run[p], w, Parked) && At(run[q], w, Left(false))
    ensures exists k :: p <= k <= q && Excused(run[k], w)
  {
    forall k: nat | k + 1 < |run| ensures NextAt(run, k) {
    }
    ExcusedBefore(run, p, q, w);
  }

  lemma {:induction false} ExcusedBefore(run: seq<Sys>, p: nat, q: nat, w: Waiter)
    requires forall k: nat :: k + 1 < |run| ==> NextAt(run, k)
    requires p <= q < |run| && At(run[p], w, Parked)
    ensures w in run[q].clients && !run[q].clients[w].Sending?
    ensures At(run[q], w, Left(false)) ==> exists k :: p <= k <= q && Excused(run[k], w)
    decreases q
  {
    if p < q {
      ExcusedBefore(run, p, q - 1, w);
      assert NextAt(run, q - 1);
      NextAnswer(run[q - 1], run[q], w);
      assert Excused(run[q - 1], w) ==> p <= q - 1 <= q;
    }
  }

  lemma NextAnswer(s: Sys, t: Sys, w: Waiter)
    requires Next(s, t) && w in s.clients && !s.clients[w].Sending?
    ensures w in t.clients && !t.clients[w].Sending?
    ensures At(t, w, Left(false)) ==> At(s, w, Left(false)) || At(s, w, Withdrawing) || s.pc.Halted?
  {
    var step :| Enabled(s, step) && t == Do(s, step);
    StaysRegistered(s, step, w);
    if At(t, w, Left(false)) && !At(s, w, Left(false)) {
      FalseNeeds(s, step, w);
    }
  }

  /** Nobody waits longer than for what it waits for: callers may come while the poller
      runs, send while there is room, expire at any time while waiting, and leave a
      barrier once it is acknowledged. */
  lemma NobodyHeldUp(s: Sys, w: Waiter, r: Request)
    ensures Running(s) && !s.disabled ==> (w !in s.clients ==> Enabled(s, Enter(w))) && (r !in s.closers ==> Enabled(s, Ask(r)))
    ensures At(s, w, Sending) ==> Enabled(s, GiveUp(w)) && (|s.regCh| < 256 ==> Enabled(s, SendReg(w)))
    ensures At(s, w, Parked) ==> Enabled(s, Expire(w))
    ensures At(s, w, Withdrawing) && |s.cancelCh| < 256 ==> Enabled(s, SendCancel(w))
    ensures CloserAt(s, r, Asking) && |s.unregCh| < 256 ==> Enabled(s, SendUnreg(r))
    ensures CloserAt(s, r, Asked) && r in s.acked ==> Enabled(s, Release(r))
  {
  }

  // ---------------------------------------------------------------- service

  predicate OfPoller(step: Step) {
    !OfWaiter(step) && !OfCloser(step) && !step.Start? && !step.Stop?
  }

  /** The rounds of the loop: the three drains, the wait, the batch, the stop check. */
  function Stage(pc: Pc): nat {
    match pc
    case Top => 0
    case Regs => 1
    case Cancels => 2
    case Unregs => 3
    case Waiting => 4
    case Handling(_, _) => 5
    case _ => 6
  }

  /** Stages still to come before stage `g`. */
  function Distance(pc: Pc, g: nat): nat {
    (g + 6 - Stage(pc)) % 6
  }

  /** What the poller still has to take in its stage. */
  function Pending(s: Sys): nat {
    match s.pc
    case Regs => |s.regCh|
    case Cancels => |s.cancelCh|
    case Unregs => |s.unregCh|
    case Handling(events, _) => |events|
    case _ => 0
  }

  predicate Serves(step: Step, g: nat) {
    (g == 1 && step.PopReg?) || (g == 2 && step.PopCancel?) || (g == 3 && step.PopUnreg?)
  }

  predicate Before(d: nat, n: nat, e: nat, m: nat) {
    d < e || (d == e && n < m)
  }

  function Queued(s: Sys, g: nat): nat {
    if g == 1 then |s.regCh| else if g == 2 then |s.cancelCh| else |s.unregCh|
  }

  /** Each move of the running poller serves queue `g` from its head, or leaves it alone
      and, if it is not empty, comes nearer to serving it. */
  lemma PollerAdvances(s: Sys, step: Step, g: nat)
    requires Enabled(s, step) && OfPoller(step) && !step.SeeStop? && Stage(s.pc) < 6 && 1 <= g <= 3
    ensures var t := Do(s, step);
            && Stage(t.pc) < 6
            && t.regCh == (if step.PopReg? then s.regCh[1..] else s.regCh)
            && t.cancelCh == (if step.PopCancel? then s.cancelCh[1..] else s.cancelCh)
            && t.unregCh == (if step.PopUnreg? then s.unregCh[1..] else s.unregCh)
            && (!Serves(step, g) && Queued(s, g) > 0 ==> Before(Distance(t.pc, g), Pending(t), Distance(s.pc, g), Pending(s)))
  {
    match step {
      case Go =>
      case PopReg(_) =>
      case RegsDone =>
      case PopCancel(_) =>
      case CancelsDone =>
      case PopUnreg =>
      case UnregsDone =>
      case Fetch(_) =>
      case HandleNext(_) =>
      case HandlingDone =>
    }
  }

  /** Others neither move the poller nor overtake what is queued. */
  lemma OthersQueueUp(s: Sys, step: Step)
    requires Enabled(s, step) && (OfWaiter(step) || OfCloser(step) || step.Stop?)
    ensures var t := Do(s, step);
            t.pc == s.pc && s.regCh <= t.regCh && s.cancelCh <= t.cancelCh && s.unregCh <= t.unregCh
  {
    if step.SendReg? {
      assert Do(s, step).regCh == s.regCh + [step.w];
    } else if step.SendCancel? {
      assert Do(s, step).cancelCh == s.cancelCh + [step.w];
    } else if step.SendUnreg? {
      assert Do(s, step).unregCh == s.unregCh + [step.r];
    } else {
      QueuesStay(s, step);
    }
  }

  lemma QueuesStay(s: Sys, step: Step)
    requires Enabled(s, step) && (OfWaiter(step) || OfCloser(step) || step.Stop?)
    requires !step.SendReg? && !step.SendCancel? && !step.SendUnreg?
    ensures var t := Do(s, step);
            t.pc == s.pc && t.regCh == s.regCh && t.cancelCh == s.cancelCh && t.unregCh == s.unregCh
  {
    match step {
      case Enter(_) =>
      case GiveUp(_) =>
      case Ready(_) =>
      case Expire(_) =>
      case SeeHalt(_) =>
      case Ask(_) =>
      case Release(_) =>
      case Stop =>
    }
  }

  // ---------------------------------------------------------------- who is concerned

  /** A cancellation takes out its own waiter and leaves readers and writers of the same
      session, and everybody else, waiting. */
  lemma CancellationIsPrecise(s: Sys, ok: bool)
    requires SysInv(s) && Enabled(s, PopCancel(ok))
    ensures var (w, t) := (s.cancelCh[0], Do(s, PopCancel(ok)));
            if ParkedAt(s.eng, w.vlsh, w) then Leaves(s.eng, t.eng, w.vlsh, w.vlsh, {w}, ok) else t.eng == s.eng
  {
    WithdrawLeaves(s.eng, s.cancelCh[0], ok);
  }

  /** An event wakes exactly the waiters of its session that it reaches. */
  lemma DeliveryIsPrecise(s: Sys, ok: bool)
    requires SysInv(s) && Enabled(s, HandleNext(ok))
    ensures var (x, t) := (s.pc.events[0], Do(s, HandleNext(ok)));
            if x.vlsh in s.eng.sets then Leaves(s.eng, t.eng, x.vlsh, x.vlsh, Reached(s.eng, x.vlsh, x.events), ok)
            else t.eng == s.eng
  {
    DeliverLeaves(s.eng, s.pc.events[0].vlsh, s.pc.events[0].events, ok);
  }

  /** A registration parks its waiter, or wakes it at once if epoll is needed and
      refuses. */
  lemma RegistrationIsPrecise(s: Sys, ok: bool)
    requires SysInv(s) && Enabled(s, PopReg(ok))
    ensures var (w, t) := (s.regCh[0], Do(s, PopReg(ok)));
            if ok || !NeedsEpoll(s.eng, w.vlsh, w) then Joins(s.eng, t.eng, w.vlsh, w.vlsh, w)
            else t.eng.sets == s.eng.sets && t.eng.epoll == s.eng.epoll && t.eng.woken == s.eng.woken + multiset{w}
  {
    InstallMeans(s.eng, s.regCh[0], ok);
  }

  /** A close barrier wakes the waiters of its session and nobody else. */
  lemma BarrierIsPrecise(s: Sys)
    requires SysInv(s) && Enabled(s, PopUnreg)
    ensures var (h, t) := (s.unregCh[0].vlsh, Do(s, PopUnreg));
            if h in s.eng.sets then Leaves(s.eng, t.eng, h, h, s.eng.sets[h].waiters, true) else t.eng == s.eng
  {
    UnregisterLeaves(s.eng, s.unregCh[0].vlsh);
  }

  // ---------------------------------------------------------------- start, batch and stop

  /** The poller starts once, unless it was stopped before; from then on a stop makes it
      leave its loop at the next check. */
  lemma StartAndStop(s: Sys)
    ensures Enabled(s, Start) <==> s.pc.Idle? && !s.disabled
    ensures Enabled(s, Start) ==> Do(s, Start).pc.Top?
    ensures Enabled(s, Stop) && Do(s, Stop).disabled && (!s.pc.Idle? ==> Do(s, Stop).stopCh)
    ensures s.pc.Top? ==> (Enabled(s, SeeStop) <==> s.stopCh) && (Enabled(s, Go) <==> !s.stopCh)
  {
  }

  /** Leaving its loop it wakes everybody who has joined. */
  lemma StopWakes(s: Sys, w: Waiter)
    requires EngineOk(s.eng) && s.pc.Top? && s.stopCh
    ensures Enabled(s, SeeStop)
    ensures var t := Do(s, SeeStop);
            && t.pc.Rejecting? && t.eng.sets == map[] && t.eng.epoll == map[] && t.regCh == s.regCh
            && (w in s.eng.joined ==> t.eng.woken[w] == 1)
  {
    WakeAllValid(s.eng);
  }

  /** Then it wakes everybody whose registration is still queued, and has halted. */
  lemma StopRejects(s: Sys)
    requires SysInv(s) && s.pc.Rejecting?
    ensures s.regCh != [] ==>
              && Enabled(s, PopReject)
              && var t := Do(s, PopReject); t.pc == s.pc && t.regCh == s.regCh[1..] && t.eng.woken[s.regCh[0]] == 1
    ensures s.regCh == [] ==> Enabled(s, RejectsDone) && Do(s, RejectsDone).pc.Halted?
  {
    if s.regCh != [] {
      HeadIsNew(s);
      RejectKeeps(s.eng, s.regCh[0]);
    }
  }

  /** Epoll may report up to 64 events on handles it holds. */
  lemma BatchMayCome(s: Sys, events: seq<Event>)
    requires s.pc.Waiting? && |events| <= 64 && forall k :: 0 <= k < |events| ==> events[k].vlsh in s.eng.epoll
    ensures Enabled(s, Fetch(events)) && Do(s, Fetch(events)).pc == Handling(events, s.clock)
  {
  }

  /** They are handled in order. */
  lemma BatchInOrder(s: Sys, ok: bool)
    requires s.pc.Handling?
    ensures s.pc.events != [] ==> Enabled(s, HandleNext(ok)) && Do(s, HandleNext(ok)).pc == s.pc.(events := s.pc.events[1..])
    ensures s.pc.events == [] ==> Enabled(s, HandlingDone) && Do(s, HandlingDone).pc.Top?
  {
  }
}
