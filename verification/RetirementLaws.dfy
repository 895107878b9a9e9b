/** Start-up and teardown of Mode 2 never stand still: whatever a control thread waits
    for, some thread can do. */
module RetirementLaws {
  import opened WaitEngine
  import opened Retirement

  datatype Turn = ByMain(m: Main) | ByWorker(i: nat, move: Move)

  predicate CanTake(c: Control, t: Turn) {
    match t
    case ByMain(m) => CanMain(c, m)
    case ByWorker(i, move) => CanMove(c, i, move)
  }

  predicate OfInit(m: Main) {
    m.SpawnNext? || m.TakeReg? || m.StartAll? || m.TakeReady? || m.StoreCreated? || m.GoLive?
  }

  predicate OfDestroy(m: Main) {
    m.StopBegin? || m.DestroyClose? || m.DestroyEnd?
  }

  /** Until initialisation has succeeded or failed, its thread can go on, or the worker
      it waits for can register, start or make its epoll handle. */
  lemma InitNeverStuck(c: Control) returns (t: Turn)
    requires Inv(c) && !Open(c)
    ensures CanTake(c, t) && (t.ByMain? ==> OfInit(t.m))
    ensures t.ByWorker? ==> t.i == c.init.i && (t.move.Register? || t.move.Start? || t.move.EpollMade?)
  {
    match c.init {
      case Spawn(i) => t := ByMain(if i < |c.phases| then SpawnNext else StartAll);
      case AwaitReg(i) => t := if i in c.registered then ByMain(TakeReg) else ByWorker(i, Register(true, false));
      case AwaitReady(i) =>
        if i == |c.phases| {
          t := ByMain(if c.stored then GoLive else StoreCreated);
        } else if i in c.ready {
          t := ByMain(TakeReady);
        } else {
          AwaitedWorker(c, i);
          t := ByWorker(i, if c.phases[i].AwaitStart? then Start else EpollMade(true));
        }
    }
  }

  lemma AwaitedWorker(c: Control, i: nat)
    requires Inv(c) && c.init == AwaitReady(i) && i != |c.phases| && i !in c.ready
    ensures i < |c.phases| && c.startCh && (c.phases[i].AwaitStart? || c.phases[i].MakeEpoll?)
  {
    assert c.stopCh == {};
  }

  /** The phases between registration and quiescence. */
  predicate IsUp(p: Phase) {
    !p.Unborn? && !p.Registering? && !p.Dead? && !HasQuiesced(p)
  }

  /** Until stop has returned, its thread can go on, or a worker that it has told to stop
      is still serving, or has quiesced and can unregister. */
  lemma StopNeverStuck(c: Control) returns (t: Turn, waits: bool)
    requires Inv(c) && !c.stop.StopIdle? && !c.stop.Stopped?
    ensures !waits ==> CanTake(c, t) && (t.ByMain? ==> Stops(t.m))
    ensures !waits && t.ByWorker? ==> t.move == Unregister && t.i in c.stopCh && t.i < |c.phases|
    ensures waits ==> t.ByWorker? && t.i in c.stopCh && t.i < |c.phases| && IsUp(c.phases[t.i])
  {
    waits := false;
    var i := c.stop.i;
    match c.stop {
      case CloseStop(_) => t := ByMain(StopClose);
      case AwaitQuiesced(_) =>
        t := ByMain(StopQuiesced);
        if i < c.count && !HasQuiesced(c.phases[i]) {
          t, waits := ByWorker(i, WakeAllNow), true;
        }
      case AwaitExited(_) =>
        t := ByMain(StopExited);
        if 0 < i < c.count && !c.phases[i].Exited? {
          assert HasQuiesced(c.phases[i]);
          t := ByWorker(i, Unregister);
        }
    }
  }

  /** Until the destroying thread has returned, it can begin stop, waits in stop, or can
      go on, or the bootstrap worker can destroy the app. */
  lemma DestroyNeverStuck(c: Control) returns (t: Turn)
    requires Inv(c) && (c.destroy.AwaitDestroyed? || (c.destroy.InStop? && (c.stop.StopIdle? || c.stop.Stopped?)))
    ensures CanTake(c, t) && (t.ByMain? ==> OfDestroy(t.m)) && (t.ByWorker? ==> t == ByWorker(0, DestroyApp))
  {
    if c.destroy.InStop? {
      t := ByMain(if c.stop.Stopped? then DestroyClose else StopBegin);
    } else {
      BootstrapQuiesced(c);
      t := if c.phases[0].Destroyed? then ByMain(DestroyEnd) else ByWorker(0, DestroyApp);
    }
  }

  lemma BootstrapQuiesced(c: Control)
    requires Inv(c) && c.destroy.AwaitDestroyed?
    ensures |c.phases| > 0 && c.destroyCh && (c.phases[0].Quiesced? || c.phases[0].Destroyed?)
  {
    assert c.count > 0 && HasQuiesced(c.phases[0]);
  }

  /** A shutdown that reads the Mode 2 dispatcher can begin once that is stored. */
  lemma ShutdownCanBegin(c: Control)
    requires Inv(c) && c.active && c.shut.NotAsked?
    ensures CanMain(c, DestroyBegin) && DoMain(c, DestroyBegin).destroy.InStop?
    ensures CanMain(c, BeginShutdown) && !DoMain(c, BeginShutdown).live
  {
  }

  // ---------------------------------------------------------------- a worker's way

  /** Where a move leads: registered or dead; at the start signal to the epoll handle and
      from there into the loop; round by round 64 operations, the events one by one, and
      the stop check again; and, without an epoll handle or told to stop, through
      quiescence: waiters first, then sessions, then the queue. */
  lemma WorkerWay(c: Control, i: nat, m: Move)
    requires CanMove(c, i, m)
    ensures var p, d := c.phases[i], DoMove(c, i, m);
            && |d.phases| == |c.phases|
            && var q := d.phases[i];
               && (p.Registering? ==> q == (if m.ok then AwaitStart else Dead) && d.registered == c.registered[i := m.ok])
               && (p.AwaitStart? ==> q == if m.Start? then MakeEpoll else Waking)
               && (p.MakeEpoll? ==> q == (if m.ok then LoopTop else Waking) && d.ready == c.ready[i := m.ok])
               && (p.LoopTop? ==> q == if i in c.stopCh then Waking else Draining(64))
               && (p.Draining? ==> q == if m.TakeOp? then Draining(p.left - 1) else Polled(m.events))
               && (p.Polled? ==> q == if p.events == [] then LoopTop else Polled(p.events[1..]))
               && (p.Waking? ==> q == Closing) && (p.Closing? ==> q == Flushing) && (p.Flushing? ==> q == Quiesced)
               && (p.Quiesced? ==> q == (if i == 0 then Destroyed else Exited)
                                   && d.destroys == c.destroys + (if i == 0 then 1 else 0))
  {
    match m {
      case Register(_, _) =>
      case Start =>
      case StopEarly =>
      case EpollMade(_) =>
      case LoopStop =>
      case LoopGo =>
      case TakeOp =>
      case DrainDone(_) =>
      case Event =>
      case EventsDone =>
      case _ =>
    }
  }

  /** No worker is held up on this way but at the start signal, in a drain that is limited
      to 64 operations, and, for the bootstrap, at the end. */
  lemma WorkerMayMove(c: Control, i: nat, ok: bool, events: seq<(VLSH, Mask)>)
    requires i < |c.phases| && |events| <= 64
    ensures var p := c.phases[i];
            && (p.Registering? ==> CanMove(c, i, Register(ok, false)))
            && (p.AwaitStart? ==> (CanMove(c, i, Start) <==> c.startCh) && (CanMove(c, i, StopEarly) <==> i in c.stopCh))
            && (p.MakeEpoll? ==> CanMove(c, i, EpollMade(ok)))
            && (p.LoopTop? ==> CanMove(c, i, LoopStop) || CanMove(c, i, LoopGo))
            && (p.Draining? ==> (CanMove(c, i, TakeOp) <==> p.left > 0) && CanMove(c, i, DrainDone(events)))
            && (p.Polled? ==> CanMove(c, i, if p.events == [] then EventsDone else Event))
            && (p.Waking? ==> CanMove(c, i, WakeAllNow)) && (p.Closing? ==> CanMove(c, i, RetireDone))
            && (p.Flushing? ==> CanMove(c, i, FlushDone))
            && (p.Quiesced? ==> if i == 0 then (CanMove(c, i, DestroyApp) <==> c.destroyCh) else CanMove(c, i, Unregister))
  {
  }

  /** A worker that cannot register, or cannot make its epoll handle, makes initialisation
      fail; whoever still waits for the start signal is let go. */
  lemma InitFails(c: Control)
    requires c.init.AwaitReg? || c.init.AwaitReady?
    ensures c.init.AwaitReg? && c.init.i in c.registered && !c.registered[c.init.i] ==>
              CanMain(c, TakeReg) && DoMain(c, TakeReg).init == Undo && DoMain(c, TakeReg).startCh
              && DoMain(c, TakeReg).count == c.count
    ensures c.init.AwaitReady? && c.init.i in c.ready && !c.ready[c.init.i] ==>
              CanMain(c, TakeReady) && DoMain(c, TakeReady).init == Undo
  {
  }

  /** Once every worker is ready the app goes live, and the dispatcher is stored. */
  lemma InitSucceeds(c: Control)
    requires Inv(c)
    ensures c.init.AwaitReady? && c.init.i == |c.phases| && c.stored ==>
              CanMain(c, GoLive) && DoMain(c, GoLive).init == Ready && DoMain(c, GoLive).live
    ensures c.init.Ready? && !c.active ==> CanMain(c, StoreActive) && DoMain(c, StoreActive).active
  {
  }
}
