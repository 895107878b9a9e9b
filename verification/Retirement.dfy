/** Start-up and retirement of the Mode 2 workers (mode2.go: appInit, stop,
    appDestroy; worker.go: loop, quiesce), as a control skeleton: the program
    counter of the initialising thread, of the two once-guarded teardown
    sequences, and of every worker.  Shutdown may come at any time; which
    dispatcher its calls reach depends on when they read activeDispatcher, which
    is the Mode 3 one until initialisation has stored its own (dispatch.go).  What workers do to sessions and operations
    between these moves is added in module Mode2. */
module Retirement {
  import opened WaitEngine

  datatype Phase =
    | Unborn
    | Registering
    | Dead                                   // registration failed, `exited` closed
    | AwaitStart
    | MakeEpoll
    | LoopTop
    | Draining(left: nat)
    | Polled(events: seq<(VLSH, Mask)>)
    | Waking                                 // quiesce from here on
    | Closing
    | Flushing
    | Quiesced                               // `quiesced` closed
    | Exited                                 // unregistered, `exited` closed
    | Destroyed                              // bootstrap: app destroyed, parked

  datatype InitPc = Spawn(i: nat) | AwaitReg(i: nat) | AwaitReady(i: nat) | Undo | Ready

  datatype StopPc = StopIdle | CloseStop(i: nat) | AwaitQuiesced(i: nat) | AwaitExited(i: nat) | Stopped

  datatype DestroyPc = DestroyIdle | InStop | AwaitDestroyed | DestroyDone

  /** Shutdown's AppDestroy call: not made, has read the Mode 3 dispatcher, has
      swapped appCreated there, has read the Mode 2 dispatcher. */
  datatype Shut = NotAsked | AskedMode3 | SwappedMode3 | AskedMode2

  datatype Control = Control(
    phases: seq<Phase>,          // one per requested worker; index 0 is the bootstrap
    count: nat,                  // length of d.workers
    init: InitPc,
    stop: StopPc,
    destroy: DestroyPc,
    startCh: bool,               // closed?
    stopCh: set<nat>,            // workers whose stopCh is closed
    destroyCh: bool,             // bootstrap's destroyCh closed?
    registered: map<nat, bool>,  // buffered registration outcomes
    ready: map<nat, bool>,       // buffered epoll-creation outcomes
    stopping: bool,
    live: bool,
    created: bool,               // rawAppCreate succeeded
    dud: bool,                   // created without multi-worker support, destroyed on the spot
    destroys: nat,               // calls of rawAppDestroy
    stored: bool,                // appInit has stored appCreated
    appCreated: bool,            // the flag's value
    active: bool,                // activeDispatcher is the Mode 2 one
    shut: Shut,
    overruns: nat)               // destroys by the Mode 3 dispatcher

  const DRAIN_LIMIT: nat := 64

  function Boot(workers: nat): Control {
    Control(seq(workers, _ => Unborn), 0, Spawn(0), StopIdle, DestroyIdle,
            false, {}, false, map[], map[], false, false, false, false, 0, false, false, false, NotAsked, 0)
  }

  datatype Main =
    | SpawnNext | TakeReg | StartAll | TakeReady | StoreCreated | GoLive | StoreActive
    | BeginShutdown
    | AskMode3 | SwapMode3
    | StopBegin | StopClose | StopQuiesced | StopExited
    | DestroyBegin | DestroyClose | DestroyEnd

  datatype Move =
    | Register(ok: bool, made: bool)
    | Start | StopEarly | EpollMade(ok: bool)
    | LoopStop | LoopGo | TakeOp | DrainDone(events: seq<(VLSH, Mask)>) | Event | EventsDone
    | WakeAllNow | RetireDone | FlushDone | Unregister | DestroyApp

  /** Initialisation has succeeded or failed. */
  predicate Open(c: Control) {
    c.init == Undo || c.init == Ready
  }

  predicate HasQuiesced(p: Phase) {
    p.Quiesced? || p.Exited? || p.Destroyed?
  }

  /** A worker that may still run an operation. */
  predicate Runnable(p: Phase) {
    p.AwaitStart? || p.MakeEpoll? || p.LoopTop? || p.Draining? || p.Polled?
  }

  predicate CanMain(c: Control, m: Main) {
    match m
    case SpawnNext => c.init.Spawn? && c.init.i < |c.phases|
    case TakeReg => c.init.AwaitReg? && c.init.i in c.registered
    case StartAll => c.init == Spawn(|c.phases|)
    case TakeReady => c.init.AwaitReady? && c.init.i in c.ready
    case StoreCreated => c.init == AwaitReady(|c.phases|) && !c.stored
    case GoLive => c.init == AwaitReady(|c.phases|) && c.stored
    case StoreActive => c.init == Ready && !c.active
    case BeginShutdown => true
    case AskMode3 => c.shut.NotAsked? && !c.active
    case SwapMode3 => c.shut.AskedMode3?
    case StopBegin => c.stop.StopIdle? && (c.init == Undo || (c.active && (c.shut.NotAsked? || c.shut.AskedMode2?)))
    case StopClose => c.stop.CloseStop?
    case StopQuiesced => c.stop.AwaitQuiesced? && (c.stop.i < c.count && c.stop.i < |c.phases| ==> HasQuiesced(c.phases[c.stop.i]))
    case StopExited => c.stop.AwaitExited? && (0 < c.stop.i < c.count && c.stop.i < |c.phases| ==> c.phases[c.stop.i].Exited?)
    case DestroyBegin => c.destroy.DestroyIdle? && (c.init == Undo || (c.active && c.shut.NotAsked?))
    case DestroyClose => c.destroy.InStop? && c.stop.Stopped?
    case DestroyEnd => c.destroy.AwaitDestroyed? && |c.phases| > 0 && c.phases[0].Destroyed?
  }

  function DoMain(c: Control, m: Main): Control
    requires CanMain(c, m)
  {
    match m
    case SpawnNext => c.(phases := c.phases[c.init.i := Registering], init := AwaitReg(c.init.i))
    case TakeReg =>
      if c.registered[c.init.i] then c.(count := c.count + 1, init := Spawn(c.init.i + 1))
      else c.(startCh := true, init := Undo)
    case StartAll => c.(startCh := true, init := AwaitReady(0))
    case TakeReady => c.(init := if c.ready[c.init.i] then AwaitReady(c.init.i + 1) else Undo)
    case StoreCreated => c.(stored := true, appCreated := true)
    case GoLive => c.(live := true, init := Ready)
    case StoreActive => c.(active := true)
    case AskMode3 => c.(shut := AskedMode3)
    case SwapMode3 =>
      if c.appCreated then c.(shut := SwappedMode3, appCreated := false, overruns := c.overruns + 1) else c.(shut := SwappedMode3)
    case BeginShutdown => c.(live := false)
    case StopBegin => c.(stopping := true, stop := CloseStop(0))
    case StopClose =>
      if c.stop.i < c.count then c.(stopCh := c.stopCh + {c.stop.i}, stop := CloseStop(c.stop.i + 1))
      else c.(stop := AwaitQuiesced(0))
    case StopQuiesced => c.(stop := if c.stop.i < c.count then AwaitQuiesced(c.stop.i + 1) else AwaitExited(0))
    case StopExited => c.(stop := if c.stop.i < c.count then AwaitExited(c.stop.i + 1) else Stopped)
    case DestroyBegin => c.(destroy := InStop, shut := if c.init == Undo then c.shut else AskedMode2)
    case DestroyClose =>
      if c.count == 0 then c.(destroy := DestroyDone) else c.(destroyCh := true, destroy := AwaitDestroyed)
    case DestroyEnd => c.(destroy := DestroyDone, appCreated := false)
  }

  /** Guards of worker `i`; those about tables and queues are in Mode2. */
  predicate CanMove(c: Control, i: nat, m: Move) {
    i < |c.phases| &&
    var p := c.phases[i];
    match m
    case Register(ok, made) => p.Registering? && (i > 0 ==> !made) && (ok ==> !made)
    case Start => p.AwaitStart? && c.startCh
    case StopEarly => p.AwaitStart? && i in c.stopCh
    case EpollMade(_) => p.MakeEpoll?
    case LoopStop => p.LoopTop? && i in c.stopCh
    case LoopGo => p.LoopTop? && i !in c.stopCh
    case TakeOp => p.Draining? && p.left > 0
    case DrainDone(events) => p.Draining? && |events| <= 64
    case Event => p.Polled? && |p.events| > 0
    case EventsDone => p.Polled? && |p.events| == 0
    case WakeAllNow => p.Waking?
    case RetireDone => p.Closing?
    case FlushDone => p.Flushing?
    case Unregister => p.Quiesced? && i > 0
    case DestroyApp => p.Quiesced? && i == 0 && c.destroyCh
  }

  function NextPhase(p: Phase, m: Move): Phase {
    match m
    case Register(ok, _) => if ok then AwaitStart else Dead
    case Start => MakeEpoll
    case StopEarly => Waking
    case EpollMade(ok) => if ok then LoopTop else Waking
    case LoopStop => Waking
    case LoopGo => Draining(DRAIN_LIMIT)
    case TakeOp => if p.Draining? && p.left > 0 then Draining(p.left - 1) else p
    case DrainDone(events) => Polled(events)
    case Event => if p.Polled? && p.events != [] then Polled(p.events[1..]) else p
    case EventsDone => LoopTop
    case WakeAllNow => Closing
    case RetireDone => Flushing
    case FlushDone => Quiesced
    case Unregister => Exited
    case DestroyApp => Destroyed
  }

  /** `made` marks a bootstrap whose app was created but lacks worker support. */
  function DoMove(c: Control, i: nat, m: Move): Control
    requires CanMove(c, i, m)
  {
    c.(phases := c.phases[i := NextPhase(c.phases[i], m)],
       registered := if m.Register? then c.registered[i := m.ok] else c.registered,
       ready := if m.EpollMade? then c.ready[i := m.ok] else c.ready,
       created := c.created || (m.Register? && i == 0 && (m.ok || m.made)),
       dud := c.dud || (m.Register? && m.made),
       destroys := c.destroys + (if (m.Register? && m.made) || m.DestroyApp? then 1 else 0))
  }

  // ---------------------------------------------------------------- invariant

  predicate Outside(p: Phase) {
    p.Unborn? || p.Dead?
  }

  /** Where the workers stand while the initialising thread is at `c.init`. */
  ghost predicate InitOk(c: Control) {
    var n := |c.phases|;
    && c.count <= n
    && (forall j :: 0 <= j < c.count ==> !Outside(c.phases[j]) && !c.phases[j].Registering?)
    && (c.init.Spawn? ==>
          && c.init.i == c.count && !c.startCh
          && (forall j :: 0 <= j < c.count ==> c.phases[j].AwaitStart?)
          && (forall j :: c.count <= j < n ==> c.phases[j].Unborn?))
    && (c.init.AwaitReg? ==>
          && c.init.i == c.count < n && !c.startCh
          && (forall j :: 0 <= j < c.count ==> c.phases[j].AwaitStart?)
          && (forall j :: c.count < j < n ==> c.phases[j].Unborn?)
          && (if c.count in c.registered
              then c.phases[c.count] == (if c.registered[c.count] then AwaitStart else Dead)
              else c.phases[c.count].Registering?))
    && (forall j :: j in c.registered ==> c.init.AwaitReg? ==> j <= c.count)
    && (forall j :: j in c.registered ==> c.init.Spawn? ==> j < c.count)
    && (c.init.AwaitReady? || c.init.Ready? ==> c.count == n && c.startCh)
    && (c.init.AwaitReady? ==> c.init.i <= n)
    && (c.init.AwaitReady? || Open(c) ==> forall j :: c.count <= j < n ==> Outside(c.phases[j]))
  }

  /** The app exists from the bootstrap's registration on. */
  ghost predicate AppOk(c: Control) {
    var n := |c.phases|;
    && (c.dud ==> n > 0 && c.phases[0].Dead?)
    && (c.count > 0 ==> c.created)
    && (n > 0 && c.created ==> !c.phases[0].Unborn? && !c.phases[0].Registering? && (c.phases[0].Dead? ==> c.dud))
    && (c.init == AwaitReg(0) && 0 in c.registered && c.registered[0] ==> c.created)
  }

  ghost predicate StopOk(c: Control) {
    var n := |c.phases|;
    && c.count <= n
    && (!c.stop.StopIdle? || !c.destroy.DestroyIdle? ==> Open(c))
    && (c.stopping <==> !c.stop.StopIdle?)
    && (forall j :: j in c.stopCh ==> j < c.count)
    && (c.stop.StopIdle? ==> c.stopCh == {})
    && (c.stop.CloseStop? ==> forall j :: 0 <= j < c.stop.i && j < c.count ==> j in c.stopCh)
    && (c.stop.AwaitQuiesced? || c.stop.AwaitExited? || c.stop.Stopped? ==> forall j :: 0 <= j < c.count ==> j in c.stopCh)
    && (c.stop.AwaitQuiesced? ==> forall j :: 0 <= j < c.stop.i && j < c.count ==> HasQuiesced(c.phases[j]))
    && (c.stop.AwaitExited? || c.stop.Stopped? ==> forall j :: 0 <= j < c.count ==> HasQuiesced(c.phases[j]))
    && (c.stop.AwaitExited? ==> forall j :: 0 < j < c.stop.i && j < c.count ==> c.phases[j].Exited?)
    && (c.stop.Stopped? ==> forall j :: 0 < j < c.count ==> c.phases[j].Exited?)
  }

  ghost predicate DestroyOk(c: Control) {
    var n := |c.phases|;
    && c.count <= n
    && (c.destroyCh ==> c.stop.Stopped? && c.count > 0)
    && (c.destroyCh <==> c.destroy.AwaitDestroyed? || (c.destroy.DestroyDone? && c.count > 0))
    && (c.destroy.DestroyDone? ==> c.stop.Stopped? && (c.count > 0 ==> c.phases[0].Destroyed?))
    && (forall j :: 0 <= j < n && c.phases[j].Destroyed? ==> j == 0 && c.destroyCh)
    && (forall j :: 0 <= j < n && c.phases[j].Exited? ==> j > 0)
    && c.destroys == (if n > 0 && c.phases[0].Destroyed? then 1 else 0) + (if c.dud then 1 else 0)
    && (c.destroys > 0 ==> c.created)
  }

  predicate Teardown(p: Phase) {
    p.Waking? || p.Closing? || p.Flushing? || HasQuiesced(p)
  }

  predicate PastEpoll(p: Phase) {
    !Outside(p) && !p.Registering? && !p.AwaitStart? && !p.MakeEpoll?
  }

  /** A worker retires only because it was told to or has no epoll handle. */
  ghost predicate UpOk(c: Control) {
    var n := |c.phases|;
    && (forall j :: 0 <= j < n && Teardown(c.phases[j]) ==> j in c.stopCh || (j in c.ready && !c.ready[j]))
    && (forall j :: j in c.ready ==> j < n && PastEpoll(c.phases[j]))
    && (forall j :: 0 <= j < n && PastEpoll(c.phases[j]) && !Teardown(c.phases[j]) ==> j in c.ready && c.ready[j])
    && (c.init.AwaitReady? ==> forall j :: 0 <= j < c.init.i && j < n ==> j in c.ready && c.ready[j])
    && (c.init.Ready? ==> forall j :: 0 <= j < n ==> j in c.ready && c.ready[j])
  }

  /** Which dispatcher tears down, and whether there is an app left to destroy. */
  ghost predicate ShutOk(c: Control) {
    var n := |c.phases|;
    && (c.stored ==> c.init == AwaitReady(n) || c.init.Ready?)
    && (c.init.Ready? ==> c.stored)
    && (c.active ==> c.init.Ready?)
    && (c.shut.AskedMode2? ==> c.active)
    && (!c.stop.StopIdle? ==> c.init.Undo? || (c.active && !c.shut.AskedMode3? && !c.shut.SwappedMode3?))
    && (!c.destroy.DestroyIdle? ==> c.init.Undo? || c.shut.AskedMode2?)
    && (c.appCreated <==> c.stored && c.overruns == 0 && !c.destroy.DestroyDone?)
    && c.overruns <= 1
    && (c.overruns == 1 ==> c.shut.SwappedMode3? && c.stored)
  }

  ghost predicate Inv(c: Control) {
    var n := |c.phases|;
    InitOk(c) && AppOk(c) && StopOk(c) && DestroyOk(c) && UpOk(c) && ShutOk(c) && n >= 1
  }

  lemma BootInv(workers: nat)
    requires workers >= 1
    ensures Inv(Boot(workers))
  {
  }

  lemma SpawnKeepsInit(c: Control)
    requires Inv(c) && CanMain(c, SpawnNext)
    ensures InitOk(DoMain(c, SpawnNext))
  {
  }

  lemma RegKeepsInit(c: Control)
    requires Inv(c) && CanMain(c, TakeReg)
    ensures InitOk(DoMain(c, TakeReg))
  {
  }

  /** Steps that only set flags. */
  predicate Flags(m: Main) {
    m.StoreCreated? || m.StoreActive? || m.BeginShutdown? || m.AskMode3? || m.SwapMode3?
  }

  lemma FlagsKeep(c: Control, m: Main)
    requires Inv(c) && CanMain(c, m) && Flags(m)
    ensures var d := DoMain(c, m); InitOk(d) && AppOk(d)
  {
    FlagsOnly(c, m);
  }

  lemma FlagsKeepUp(c: Control, m: Main)
    requires UpOk(c) && CanMain(c, m) && Flags(m)
    ensures UpOk(DoMain(c, m))
  {
    FlagsOnly(c, m);
  }

  lemma FlagsKeepStop(c: Control, m: Main)
    requires Inv(c) && CanMain(c, m) && Flags(m)
    ensures var d := DoMain(c, m); StopOk(d) && DestroyOk(d)
  {
    FlagsOnly(c, m);
  }

  lemma FlagsOnly(c: Control, m: Main)
    requires CanMain(c, m) && Flags(m)
    ensures var d := DoMain(c, m);
            d == c.(live := d.live, stored := d.stored, appCreated := d.appCreated, active := d.active,
                    shut := d.shut, overruns := d.overruns)
  {
    match m {
      case StoreCreated =>
      case StoreActive =>
      case BeginShutdown =>
      case AskMode3 =>
      case SwapMode3 =>
    }
  }

  lemma MainKeepsInit(c: Control, m: Main)
    requires Inv(c) && CanMain(c, m) && !Flags(m)
    ensures InitOk(DoMain(c, m))
  {
    if m == SpawnNext {
      SpawnKeepsInit(c);
    } else if m == TakeReg {
      RegKeepsInit(c);
    } else if m.StartAll? || m.TakeReady? || m.GoLive? {
      ReadyKeepsInit(c, m);
    } else {
      LateMoves(c, m);
    }
  }

  lemma ReadyKeepsInit(c: Control, m: Main)
    requires Inv(c) && CanMain(c, m) && (m.StartAll? || m.TakeReady? || m.GoLive?)
    ensures InitOk(DoMain(c, m))
  {
    match m {
      case StartAll =>
      case TakeReady =>
      case GoLive =>
    }
  }

  /** Stopping and destroying leave initialisation alone. */
  lemma LateMoves(c: Control, m: Main)
    requires Inv(c) && CanMain(c, m) && (Stops(m) || Destroys(m))
    ensures var d := DoMain(c, m);
            && d.phases == c.phases && d.init == c.init && d.count == c.count
            && d.registered == c.registered && d.startCh == c.startCh && c.stopCh <= d.stopCh && d.ready == c.ready
  {
    match m {
      case StopBegin =>
      case StopClose =>
      case StopQuiesced =>
      case StopExited =>
      case DestroyBegin =>
      case DestroyClose =>
      case DestroyEnd =>
    }
  }

  lemma MainKeepsApp(c: Control, m: Main)
    requires Inv(c) && CanMain(c, m) && !Flags(m)
    ensures AppOk(DoMain(c, m))
  {
  }

  predicate Stops(m: Main) {
    m.StopBegin? || m.StopClose? || m.StopQuiesced? || m.StopExited?
  }

  lemma StopBegins(c: Control)
    requires StopOk(c) && CanMain(c, StopBegin) && (c.active ==> c.init.Ready?)
    ensures StopOk(DoMain(c, StopBegin))
  {
  }

  lemma StopCloses(c: Control)
    requires Inv(c) && CanMain(c, StopClose)
    ensures StopOk(DoMain(c, StopClose))
  {
  }

  lemma StopWaits(c: Control, m: Main)
    requires StopOk(c) && CanMain(c, m) && (m.StopQuiesced? || m.StopExited?)
    ensures StopOk(DoMain(c, m))
  {
    match m {
      case StopQuiesced =>
      case StopExited =>
    }
  }

  lemma StopMoves(c: Control, m: Main)
    requires Inv(c) && CanMain(c, m) && Stops(m)
    ensures StopOk(DoMain(c, m))
  {
    if m == StopBegin {
      StopBegins(c);
    } else if m == StopClose {
      StopCloses(c);
    } else {
      StopWaits(c, m);
    }
  }

  lemma MainKeepsStop(c: Control, m: Main)
    requires Inv(c) && CanMain(c, m) && !Flags(m)
    ensures StopOk(DoMain(c, m))
  {
    if Stops(m) {
      StopMoves(c, m);
    } else {
      assert DoMain(c, m).stop == c.stop && DoMain(c, m).stopCh == c.stopCh && DoMain(c, m).stopping == c.stopping;
    }
  }

  lemma SpawnKeepsUp(c: Control)
    requires Inv(c) && CanMain(c, SpawnNext)
    ensures UpOk(DoMain(c, SpawnNext))
  {
    assert c.phases[c.init.i].Unborn?;
  }

  lemma InitKeepsUp(c: Control, m: Main)
    requires Inv(c) && CanMain(c, m) && (m.TakeReg? || m.StartAll? || m.TakeReady? || m.GoLive?)
    ensures UpOk(DoMain(c, m))
  {
    var d := DoMain(c, m);
    assert d.phases == c.phases && d.stopCh == c.stopCh && d.ready == c.ready;
    match m {
      case TakeReg =>
      case StartAll =>
      case TakeReady =>
      case GoLive =>
    }
  }

  lemma MainKeepsUp(c: Control, m: Main)
    requires Inv(c) && CanMain(c, m) && !Flags(m)
    ensures UpOk(DoMain(c, m))
  {
    if m.SpawnNext? {
      SpawnKeepsUp(c);
    } else if m.TakeReg? || m.StartAll? || m.TakeReady? || m.GoLive? {
      InitKeepsUp(c, m);
    } else {
      LateMoves(c, m);
      UpStays(c, DoMain(c, m));
    }
  }

  lemma UpStays(c: Control, d: Control)
    requires UpOk(c) && d.phases == c.phases && d.init == c.init && c.stopCh <= d.stopCh && d.ready == c.ready
    ensures UpOk(d)
  {
  }

  lemma FlagsKeepShut(c: Control, m: Main)
    requires Inv(c) && CanMain(c, m) && Flags(m)
    ensures ShutOk(DoMain(c, m))
  {
    match m {
      case StoreCreated =>
      case StoreActive =>
      case BeginShutdown =>
      case AskMode3 =>
      case SwapMode3 =>
    }
  }

  lemma MainKeepsShut(c: Control, m: Main)
    requires Inv(c) && CanMain(c, m)
    ensures ShutOk(DoMain(c, m))
  {
    if Flags(m) {
      FlagsKeepShut(c, m);
    }
  }

  predicate Destroys(m: Main) {
    m.DestroyBegin? || m.DestroyClose? || m.DestroyEnd?
  }

  lemma DestroyMoves(c: Control, m: Main)
    requires Inv(c) && CanMain(c, m) && Destroys(m)
    ensures DestroyOk(DoMain(c, m))
  {
    match m {
      case DestroyBegin =>
      case DestroyClose =>
      case DestroyEnd =>
    }
  }

  /** The steps of initialisation and of stop do not touch the app. */
  lemma NoDestroyMoves(c: Control, m: Main)
    requires Inv(c) && CanMain(c, m) && !Flags(m) && !Destroys(m)
    ensures var d := DoMain(c, m);
            && d.destroy == c.destroy && d.destroyCh == c.destroyCh && d.destroys == c.destroys
            && d.dud == c.dud && d.created == c.created
            && (c.stop.Stopped? ==> d.stop.Stopped?)
            && (!m.SpawnNext? ==> d.phases == c.phases)
            && (!m.TakeReg? ==> d.count == c.count)
  {
    match m {
      case SpawnNext =>
      case TakeReg =>
      case StartAll =>
      case TakeReady =>
      case GoLive =>
      case StopBegin =>
      case StopClose =>
      case StopQuiesced =>
      case StopExited =>
    }
  }

  lemma MainKeepsDestroy(c: Control, m: Main)
    requires Inv(c) && CanMain(c, m) && !Flags(m)
    ensures DestroyOk(DoMain(c, m))
  {
    if Destroys(m) {
      DestroyMoves(c, m);
    } else {
      NoDestroyMoves(c, m);
      if m.SpawnNext? {
        SpawnKeepsDestroy(c);
      }
    }
  }

  lemma SpawnKeepsDestroy(c: Control)
    requires InitOk(c) && DestroyOk(c) && CanMain(c, SpawnNext)
    ensures DestroyOk(DoMain(c, SpawnNext))
  {
    assert c.phases[c.init.i].Unborn?;
  }

  lemma MainKeeps(c: Control, m: Main)
    requires Inv(c) && CanMain(c, m)
    ensures Inv(DoMain(c, m))
  {
    if Flags(m) {
      FlagsKeep(c, m);
      FlagsKeepUp(c, m);
      FlagsKeepStop(c, m);
    } else {
      MainKeepsInit(c, m);
      MainKeepsApp(c, m);
      MainKeepsStop(c, m);
      MainKeepsUp(c, m);
      MainKeepsDestroy(c, m);
    }
    MainKeepsShut(c, m);
  }

  lemma RegisterKeepsInit(c: Control, i: nat, m: Move)
    requires InitOk(c) && CanMove(c, i, m) && m.Register?
    ensures InitOk(DoMove(c, i, m))
  {
  }

  /** Only registering brings a worker in or out. */
  lemma MoveInside(c: Control, i: nat, m: Move)
    requires CanMove(c, i, m) && !m.Register?
    ensures var d := DoMove(c, i, m);
            && d.phases == c.phases[i := d.phases[i]] && d.registered == c.registered
            && !Outside(c.phases[i]) && !Outside(d.phases[i]) && !c.phases[i].Registering? && !d.phases[i].Registering?
            && (c.phases[i].AwaitStart? ==> c.startCh || i in c.stopCh)
  {
  }

  lemma MoveKeepsInit(c: Control, i: nat, m: Move)
    requires InitOk(c) && StopOk(c) && CanMove(c, i, m)
    ensures InitOk(DoMove(c, i, m))
  {
    if m.Register? {
      RegisterKeepsInit(c, i, m);
    } else {
      MoveInside(c, i, m);
    }
  }

  lemma MoveKeepsApp(c: Control, i: nat, m: Move)
    requires Inv(c) && CanMove(c, i, m)
    ensures AppOk(DoMove(c, i, m))
  {
  }

  lemma MoveKeepsStop(c: Control, i: nat, m: Move)
    requires Inv(c) && CanMove(c, i, m)
    ensures StopOk(DoMove(c, i, m))
  {
  }

  lemma MoveKeepsUp(c: Control, i: nat, m: Move)
    requires UpOk(c) && CanMove(c, i, m)
    ensures UpOk(DoMove(c, i, m))
  {
    MoveUp(c, i, m);
  }

  lemma MoveUp(c: Control, i: nat, m: Move)
    requires CanMove(c, i, m)
    ensures var p, q := c.phases[i], DoMove(c, i, m).phases[i];
            && (Teardown(q) ==> Teardown(p) || i in c.stopCh || (m.EpollMade? && !m.ok))
            && (PastEpoll(p) ==> PastEpoll(q)) && (m.EpollMade? ==> p.MakeEpoll? && PastEpoll(q))
            && (PastEpoll(q) && !Teardown(q) && !m.EpollMade? ==> PastEpoll(p) && !Teardown(p))
            && (m.EpollMade? && !m.ok ==> Teardown(q))
  {
  }

  lemma MoveKeeps(c: Control, i: nat, m: Move)
    requires Inv(c) && CanMove(c, i, m)
    ensures Inv(DoMove(c, i, m))
  {
    MoveKeepsInit(c, i, m);
    MoveKeepsApp(c, i, m);
    MoveKeepsStop(c, i, m);
    MoveKeepsUp(c, i, m);
    MoveKeepsDestroy(c, i, m);
    MoveKeepsShut(c, i, m);
  }

  lemma MoveKeepsDestroy(c: Control, i: nat, m: Move)
    requires Inv(c) && CanMove(c, i, m)
    ensures DestroyOk(DoMove(c, i, m))
  {
  }

  lemma MoveKeepsShut(c: Control, i: nat, m: Move)
    requires ShutOk(c) && CanMove(c, i, m)
    ensures ShutOk(DoMove(c, i, m))
  {
  }

  /** The app is destroyed at most once and only if it was created; a bootstrap
      that destroyed it found every worker of the dispatcher quiesced and every
      other one unregistered, and no further worker exists. */
  lemma OrderedDestroy(c: Control)
    requires Inv(c)
    ensures c.destroys <= 1 && (c.destroys == 1 ==> c.created)
    ensures c.phases[0].Destroyed? ==> forall j :: 0 < j < |c.phases| ==> c.phases[j].Exited? || Outside(c.phases[j])
    ensures c.dud ==> forall j :: 0 <= j < |c.phases| ==> Outside(c.phases[j])
    ensures c.destroy.DestroyDone? && c.created ==> c.destroys == 1
  {
  }

  /** An AppDestroy call that read the Mode 3 dispatcher destroys the app exactly if
      initialisation has stored appCreated before its swap. */
  lemma OverrunIff(c: Control)
    requires Inv(c) && CanMain(c, SwapMode3)
    ensures DoMain(c, SwapMode3).overruns == 1 <==> c.stored
  {
  }

  /** Then every worker is up and none has been told to stop; nothing else ever
      destroys the app, and nothing ever does if the swap came too early. */
  lemma OverrunMeans(c: Control)
    requires Inv(c)
    ensures c.destroys + c.overruns <= 1
    ensures c.overruns == 1 ==> c.stopCh == {} && forall j :: 0 <= j < |c.phases| ==> !Outside(c.phases[j]) && !Teardown(c.phases[j])
    ensures c.shut.SwappedMode3? && !c.init.Undo? && !c.dud ==> c.destroys == 0 && c.destroy.DestroyIdle?
    ensures c.destroy.DestroyDone? && !c.init.Undo? ==> c.shut.AskedMode2? && c.overruns == 0
  {
  }

  /** A worker's move leaves the others alone, and quiescence is permanent. */
  lemma MoveStays(c: Control, i: nat, m: Move)
    requires CanMove(c, i, m)
    ensures var n := |c.phases|;
            var d := DoMove(c, i, m);
            && |d.phases| == n
            && d.phases == c.phases[i := d.phases[i]]
            && (HasQuiesced(c.phases[i]) ==> HasQuiesced(d.phases[i]))
            && (Runnable(d.phases[i]) ==> Runnable(c.phases[i]) || c.phases[i].Registering?)
            && d.stopping == c.stopping && d.init == c.init
  {
  }

  lemma MainStays(c: Control, m: Main)
    requires Inv(c) && CanMain(c, m)
    ensures var n := |c.phases|;
            var d := DoMain(c, m);
            && |d.phases| == n
            && (forall j :: 0 <= j < n ==> d.phases[j] == c.phases[j] || (c.phases[j].Unborn? && d.phases[j].Registering?))
            && (c.init.Ready? ==> d.init.Ready?)
  {
    if m.SpawnNext? {
      assert c.phases[c.init.i].Unborn?;
    } else {
      assert DoMain(c, m).phases == c.phases;
    }
  }
}
