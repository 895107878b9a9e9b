/** The reader/writer lock of Mode 3 (cgo.go) between VLS calls on the one side
    and worker registration, app creation and app destruction on the other, for
    any number of goroutines and OS threads; with the order of shutdown.go. */
module VlsGate {
  import Runs
  import opened Options

  /** A read, write or accept, gated by appLive; a one-shot call that only pins;
      the poller; the creating and the destroying caller. */
  datatype Kind = Gated | Pinned | Poll | Create | Destroy

  /** Where a goroutine is.  Registering, Calling and Exclusive are inside VLS. */
  datatype Pc =
    | AtFast | AtWLock | HasWLock | Registering
    | AtRLock | HasRLock | Calling | Leaving(again: bool)
    | Waiting
    | AtXLock | Exclusive | Storing
    | Gone

  datatype Lock = Lock(writer: Option<nat>, readers: set<nat>)

  datatype Goroutine = Goroutine(kind: Kind, thread: nat, pc: Pc)

  /** `registered` is the registry; `registrations` counts the register calls per
      thread.  `late` remembers that creation stored appLive after BeginShutdown
      had cleared it. */
  datatype Sys = Sys(
    gs: map<nat, Goroutine>,
    lock: Lock,
    registered: set<nat>,
    registrations: multiset<nat>,
    creator: Option<nat>,
    destroyer: Option<nat>,
    created: bool,
    appLive: bool,
    poller: Option<nat>,
    began: bool,
    disabled: bool,
    casDone: bool,
    destroys: nat,
    late: bool)

  datatype Step =
    | Spawn(g: nat, kind: Kind, thread: nat)
    | StartPoller(g: nat, thread: nat)
    | Init(g: nat, thread: nat)
    | FastCheck(g: nat) | LockW(g: nat) | SecondCheck(g: nat) | FinishRegister(g: nat)
    | LockR(g: nat) | Gate(g: nat) | Return(g: nat, again: bool) | UnlockR(g: nat)
    | Wake(g: nat, ok: bool)
    | HaltPoller(g: nat)
    | LockX(g: nat) | FinishCreate(g: nat, ok: bool) | StoreLive(g: nat) | FinishDestroy(g: nat)
    | BeginShutdown | StopPoller | SwapCreated(g: nat, thread: nat)

  const BOOT := Sys(map[], Lock(None, {}), {}, multiset{}, None, None, false, false, None, false, false, false, 0, false)

  predicate At(s: Sys, g: nat, pc: Pc) {
    g in s.gs && s.gs[g].pc == pc
  }

  predicate Unlocked(lock: Lock) {
    lock.writer.None? && lock.readers == {}
  }

  predicate PollerGone(s: Sys) {
    s.poller.Some? ==> At(s, s.poller.value, Gone)
  }

  predicate Enabled(s: Sys, step: Step) {
    match step
    case Spawn(g, kind, _) => g !in s.gs && (kind.Gated? || kind.Pinned?)
    case StartPoller(g, _) => g !in s.gs && s.poller.None? && !s.disabled
    case Init(g, _) => g !in s.gs && s.creator.None?
    case FastCheck(g) => At(s, g, AtFast)
    case LockW(g) => At(s, g, AtWLock) && Unlocked(s.lock)
    case SecondCheck(g) => At(s, g, HasWLock)
    case FinishRegister(g) => At(s, g, Registering)
    case LockR(g) => At(s, g, AtRLock) && s.lock.writer.None?
    case Gate(g) => At(s, g, HasRLock)
    case Return(g, _) => At(s, g, Calling)
    case UnlockR(g) => g in s.gs && s.gs[g].pc.Leaving?
    case Wake(g, _) => At(s, g, Waiting)
    case HaltPoller(g) => At(s, g, AtRLock) && s.gs[g].kind.Poll? && s.disabled
    case LockX(g) => At(s, g, AtXLock) && Unlocked(s.lock)
    case FinishCreate(g, _) => At(s, g, Exclusive) && s.gs[g].kind.Create?
    case StoreLive(g) => At(s, g, Storing)
    case FinishDestroy(g) => At(s, g, Exclusive) && s.gs[g].kind.Destroy?
    case BeginShutdown => !s.began
    case StopPoller => s.began && !s.disabled
    case SwapCreated(g, _) => s.disabled && PollerGone(s) && !s.casDone && g !in s.gs
  }

  predicate Starts(step: Step) {
    step.Spawn? || step.StartPoller? || step.Init? || step.SwapCreated?
  }

  /** Steps of a goroutine that is already there. */
  predicate Moves(step: Step) {
    !Starts(step) && !step.BeginShutdown? && !step.StopPoller?
  }

  /** Where registerThisThread leads. */
  function AfterRegistration(kind: Kind): Pc {
    if kind.Destroy? then AtXLock else AtRLock
  }

  function AfterCall(x: Goroutine): Pc {
    if x.kind.Poll? then AtRLock else if x.kind.Gated? && x.pc == Leaving(true) then Waiting else Gone
  }

  function PcAfter(x: Goroutine, registered: bool, live: bool, step: Step): Pc
    requires Moves(step)
  {
    match step
    case FastCheck(_) => if registered then AfterRegistration(x.kind) else AtWLock
    case LockW(_) => HasWLock
    case SecondCheck(_) => if registered then AfterRegistration(x.kind) else Registering
    case FinishRegister(_) => AfterRegistration(x.kind)
    case LockR(_) => HasRLock
    case Gate(_) => if x.kind.Gated? && !live then Leaving(false) else Calling
    case Return(_, again) => Leaving(again)
    case UnlockR(_) => AfterCall(x)
    case Wake(_, ok) => if ok then AtFast else Gone
    case HaltPoller(_) => Gone
    case LockX(_) => Exclusive
    case FinishCreate(_, ok) => if ok then Storing else Gone
    case StoreLive(_) => Gone
    case FinishDestroy(_) => Gone
  }

  function LockAfter(lock: Lock, registered: bool, step: Step): Lock {
    match step
    case LockW(g) => lock.(writer := Some(g))
    case SecondCheck(_) => if registered then lock.(writer := None) else lock
    case FinishRegister(_) => lock.(writer := None)
    case LockR(g) => lock.(readers := lock.readers + {g})
    case UnlockR(g) => lock.(readers := lock.readers - {g})
    case LockX(g) => lock.(writer := Some(g))
    case FinishCreate(_, ok) => if ok then lock else lock.(writer := None)
    case StoreLive(_) => lock.(writer := None)
    case FinishDestroy(_) => lock.(writer := None)
    case _ => lock
  }

  /** The registry, the register calls and the flags after a move. */
  function Noted(s: Sys, thread: nat, step: Step): Sys {
    match step
    case SecondCheck(_) =>
      if thread in s.registered then s else s.(registrations := s.registrations + multiset{thread})
    case FinishRegister(_) => s.(registered := s.registered + {thread})
    case FinishCreate(_, ok) => if ok then s.(created := true, registered := s.registered + {thread}) else s
    case StoreLive(_) => s.(appLive := true, late := s.began)
    case FinishDestroy(_) => s.(destroys := s.destroys + 1)
    case _ => s
  }

  function Started(step: Step): Goroutine
    requires Starts(step)
  {
    match step
    case Spawn(_, kind, thread) => Goroutine(kind, thread, AtFast)
    case StartPoller(_, thread) => Goroutine(Poll, thread, AtFast)
    case Init(_, thread) => Goroutine(Create, thread, AtXLock)
    case SwapCreated(_, thread) => Goroutine(Destroy, thread, AtFast)
  }

  function Do(s: Sys, step: Step): Sys
    requires Enabled(s, step)
  {
    if Moves(step) then
      var x := s.gs[step.g];
      var r := x.thread in s.registered;
      Noted(s, x.thread, step).(gs := s.gs[step.g := x.(pc := PcAfter(x, r, s.appLive, step))], lock := LockAfter(s.lock, r, step))
    else match step
      case Spawn(g, _, _) => s.(gs := s.gs[g := Started(step)])
      case StartPoller(g, _) => s.(gs := s.gs[g := Started(step)], poller := Some(g))
      case Init(g, _) => s.(gs := s.gs[g := Started(step)], creator := Some(g))
      case SwapCreated(g, _) =>
        if s.created then s.(casDone := true, created := false, destroyer := Some(g), gs := s.gs[g := Started(step)])
        else s.(casDone := true)
      case BeginShutdown => s.(began := true, appLive := false)
      case StopPoller => s.(disabled := true)
  }

  // ---------------------------------------------------------------- invariants

  predicate Writes(pc: Pc) {
    pc.HasWLock? || pc.Registering? || pc.Exclusive? || pc.Storing?
  }

  predicate Reads(pc: Pc) {
    pc.HasRLock? || pc.Calling? || pc.Leaving?
  }

  /** The lock is held by exactly those who are in a section it guards. */
  ghost predicate LockOk(gs: map<nat, Goroutine>, lock: Lock) {
    && (forall g :: g in gs ==> (Writes(gs[g].pc) <==> lock.writer == Some(g)))
    && (forall g :: g in gs ==> (Reads(gs[g].pc) <==> g in lock.readers))
    && (lock.writer.Some? ==> lock.writer.value in gs && lock.readers == {})
    && (forall g :: g in lock.readers ==> g in gs)
  }

  /** The holder of the write lock is in the register call of thread `t`. */
  predicate IsRegistering(gs: map<nat, Goroutine>, writer: Option<nat>, t: nat) {
    writer.Some? && writer.value in gs && gs[writer.value].pc.Registering? && gs[writer.value].thread == t
  }

  ghost predicate RegisteredOnce(s: Sys) {
    && (forall t :: s.registrations[t] <= 1)
    && (forall t :: t in s.registrations && t !in s.registered ==>
          IsRegistering(s.gs, s.lock.writer, t))
    && (forall g :: g in s.gs && s.gs[g].pc.Registering? ==> s.gs[g].thread !in s.registered)
  }

  predicate ForCreator(pc: Pc) {
    pc.AtXLock? || pc.Exclusive? || pc.Storing? || pc.Gone?
  }

  predicate ForDestroyer(pc: Pc) {
    pc.AtFast? || pc.AtWLock? || pc.HasWLock? || pc.Registering? || pc.AtXLock? || pc.Exclusive? || pc.Gone?
  }

  predicate PcOk(x: Goroutine) {
    match x.kind
    case Create => ForCreator(x.pc)
    case Destroy => ForDestroyer(x.pc)
    case _ => !x.pc.AtXLock? && !x.pc.Exclusive? && !x.pc.Storing?
  }

  ghost predicate KindsOk(gs: map<nat, Goroutine>, creator: Option<nat>, destroyer: Option<nat>, poller: Option<nat>) {
    && (forall g :: g in gs ==> PcOk(gs[g]))
    && (forall g :: g in gs ==> (gs[g].kind.Create? <==> creator == Some(g)))
    && (forall g :: g in gs ==> (gs[g].kind.Destroy? <==> destroyer == Some(g)))
    && (forall g :: g in gs ==> (gs[g].kind.Poll? <==> poller == Some(g)))
    && (creator.Some? ==> creator.value in gs)
    && (destroyer.Some? ==> destroyer.value in gs)
    && (poller.Some? ==> poller.value in gs)
  }

  predicate Is(gs: map<nat, Goroutine>, g: Option<nat>, pc: Pc) {
    g.Some? && g.value in gs && gs[g.value].pc == pc
  }

  /** The app is destroyed once, after its creation, with the poller halted. */
  ghost predicate Ordered(s: Sys) {
    && (s.created ==> Is(s.gs, s.creator, Storing) || Is(s.gs, s.creator, Gone))
    && (s.destroyer.Some? ==> s.casDone && !s.created && (Is(s.gs, s.creator, Storing) || Is(s.gs, s.creator, Gone)))
    && (s.casDone ==> s.disabled && PollerGone(s))
    && (s.disabled ==> s.began)
    && s.destroys == (if Is(s.gs, s.destroyer, Gone) then 1 else 0)
    && (s.destroys > 0 ==> Is(s.gs, s.creator, Gone))
  }

  /** Once shutdown has begun the app counts as live only if it was late. */
  ghost predicate LiveOk(s: Sys) {
    && (s.began ==> (s.appLive <==> s.late))
    && (!s.began ==> !s.late)
  }

  /** Destroyed: whoever destroyed it held the lock, so nobody was in a gated call;
      afterwards the gate stays shut unless the app was late. */
  ghost predicate GateOk(s: Sys) {
    s.destroys > 0 && !s.late ==> forall g :: g in s.gs && s.gs[g].kind.Gated? ==> !s.gs[g].pc.Calling?
  }

  ghost predicate SysInv(s: Sys) {
    var gs := s.gs;
    && LockOk(gs, s.lock)
    && KindsOk(gs, s.creator, s.destroyer, s.poller)
    && RegisteredOnce(s)
    && Ordered(s)
    && LiveOk(s)
    && GateOk(s)
  }

  lemma ActorIsOk(s: Sys, step: Step)
    requires SysInv(s) && Enabled(s, step) && Moves(step)
    ensures step.g in s.gs && PcOk(s.gs[step.g])
  {
  }

  /** Lock ownership follows the goroutine that moved. */
  ghost predicate Handed(x: Pc, y: Pc, g: nat, a: Lock, b: Lock) {
    && (Writes(y) == Writes(x) ==> b.writer == a.writer)
    && (Writes(y) && !Writes(x) ==> Unlocked(a) && b.writer == Some(g))
    && (!Writes(y) && Writes(x) ==> b.writer.None?)
    && (Reads(y) == Reads(x) ==> b.readers == a.readers)
    && (Reads(y) && !Reads(x) ==> a.writer.None? && b.readers == a.readers + {g})
    && (!Reads(y) && Reads(x) ==> b.readers == a.readers - {g})
  }

  lemma HandOver(gs: map<nat, Goroutine>, a: Lock, g: nat, y: Goroutine, b: Lock)
    requires LockOk(gs, a)
    requires var x := if g in gs then gs[g].pc else Gone; Handed(x, y.pc, g, a, b)
    ensures LockOk(gs[g := y], b)
  {
  }

  lemma MoveHands(s: Sys, step: Step, x: Goroutine, r: bool, live: bool)
    requires Enabled(s, step) && Moves(step) && x == s.gs[step.g] && PcOk(x)
    ensures Handed(x.pc, PcAfter(x, r, live, step), step.g, s.lock, LockAfter(s.lock, r, step))
  {
  }

  lemma MoveIsOk(s: Sys, step: Step, x: Goroutine, r: bool, live: bool)
    requires Enabled(s, step) && Moves(step) && x == s.gs[step.g] && PcOk(x)
    ensures PcOk(x.(pc := PcAfter(x, r, live, step)))
  {
  }

  lemma StepLocks(s: Sys, step: Step)
    requires SysInv(s) && Enabled(s, step)
    ensures LockOk(Do(s, step).gs, Do(s, step).lock)
  {
    var t := Do(s, step);
    if Moves(step) {
      ActorIsOk(s, step);
      MoveHands(s, step, s.gs[step.g], s.gs[step.g].thread in s.registered, s.appLive);
      HandOver(s.gs, s.lock, step.g, t.gs[step.g], t.lock);
    } else if t.gs != s.gs {
      HandOver(s.gs, s.lock, step.g, t.gs[step.g], s.lock);
    }
  }

  lemma KindKept(s: Sys, g: nat, y: Goroutine)
    requires KindsOk(s.gs, s.creator, s.destroyer, s.poller)
    requires g in s.gs && y.kind == s.gs[g].kind && PcOk(y)
    ensures KindsOk(s.gs[g := y], s.creator, s.destroyer, s.poller)
  {
  }

  lemma KindAdded(s: Sys, g: nat, y: Goroutine)
    requires KindsOk(s.gs, s.creator, s.destroyer, s.poller)
    requires g !in s.gs && PcOk(y)
    requires (y.kind.Create? ==> s.creator.None?) && (y.kind.Destroy? ==> s.destroyer.None?) && (y.kind.Poll? ==> s.poller.None?)
    ensures KindsOk(s.gs[g := y], if y.kind.Create? then Some(g) else s.creator,
                    if y.kind.Destroy? then Some(g) else s.destroyer, if y.kind.Poll? then Some(g) else s.poller)
  {
  }

  lemma StepKinds(s: Sys, step: Step)
    requires SysInv(s) && Enabled(s, step)
    ensures var t := Do(s, step); KindsOk(t.gs, t.creator, t.destroyer, t.poller)
  {
    var t := Do(s, step);
    if Moves(step) {
      ActorIsOk(s, step);
      MoveIsOk(s, step, s.gs[step.g], s.gs[step.g].thread in s.registered, s.appLive);
      KindKept(s, step.g, t.gs[step.g]);
    } else if t.gs != s.gs {
      KindAdded(s, step.g, t.gs[step.g]);
    }
  }

  /** Whoever is in a register call holds the lock; it begins only for a thread
      found unregistered under the lock. */
  lemma RegisterMoveKeeps(s: Sys, step: Step)
    requires SysInv(s) && Enabled(s, step) && (step.SecondCheck? || step.FinishRegister?)
    ensures RegisteredOnce(Do(s, step))
  {
    assert Writes(s.gs[step.g].pc) && s.lock.writer == Some(step.g);
    assert forall h :: h in s.gs && h != step.g ==> !Writes(s.gs[h].pc);
    if step.SecondCheck? {
      CheckRegisters(s, step.g, Do(s, step));
    } else {
      FinishRegisters(s, step.g, Do(s, step));
    }
  }

  /** The holder finds its thread registered, or starts to register it. */
  lemma CheckRegisters(s: Sys, g: nat, t: Sys)
    requires RegisteredOnce(s) && g in s.gs && s.lock.writer == Some(g) && !s.gs[g].pc.Registering?
    requires forall h :: h in s.gs && h != g ==> !Writes(s.gs[h].pc)
    requires g in t.gs && t.gs == s.gs[g := t.gs[g]] && t.gs[g].thread == s.gs[g].thread && t.registered == s.registered
    requires var thread := s.gs[g].thread;
             if thread in s.registered then !t.gs[g].pc.Registering? && t.registrations == s.registrations
             else t.gs[g].pc.Registering? && t.registrations == s.registrations + multiset{thread} && t.lock == s.lock
    ensures RegisteredOnce(t)
  {
  }

  lemma FinishRegisters(s: Sys, g: nat, t: Sys)
    requires RegisteredOnce(s) && g in s.gs && s.lock.writer == Some(g) && s.gs[g].pc.Registering?
    requires forall h :: h in s.gs && h != g ==> !Writes(s.gs[h].pc)
    requires g in t.gs && t.gs == s.gs[g := t.gs[g]] && !t.gs[g].pc.Registering? && t.registrations == s.registrations
    requires t.registered == s.registered + {s.gs[g].thread}
    ensures RegisteredOnce(t)
  {
  }

  lemma OtherMoveKeeps(s: Sys, step: Step)
    requires SysInv(s) && Enabled(s, step) && Moves(step) && !step.SecondCheck? && !step.FinishRegister?
    ensures RegisteredOnce(Do(s, step))
  {
    var t := Do(s, step);
    ActorIsOk(s, step);
    assert !s.gs[step.g].pc.Registering? && !t.gs[step.g].pc.Registering?;
    assert t.registrations == s.registrations;
    if step.FinishCreate? {
      assert s.lock.writer == Some(step.g);
    } else {
      assert t.registered == s.registered;
    }
  }

  lemma StartKeeps(s: Sys, step: Step)
    requires SysInv(s) && Enabled(s, step) && !Moves(step)
    ensures RegisteredOnce(Do(s, step))
  {
  }

  lemma StepRegisters(s: Sys, step: Step)
    requires SysInv(s) && Enabled(s, step)
    ensures RegisteredOnce(Do(s, step))
  {
    if !Moves(step) {
      StartKeeps(s, step);
    } else if step.SecondCheck? || step.FinishRegister? {
      RegisterMoveKeeps(s, step);
    } else {
      OtherMoveKeeps(s, step);
    }
  }

  lemma MoveOrders(s: Sys, step: Step)
    requires SysInv(s) && Enabled(s, step) && Moves(step)
    ensures Ordered(Do(s, step))
  {
    ActorIsOk(s, step);
    var x, u := s.gs[step.g], Do(s, step);
    if step.FinishDestroy? {
      assert s.lock.writer == Some(step.g);
      DestroyOrders(s, step.g, u);
    } else if step.FinishCreate? || step.StoreLive? {
      CreateOrders(s, step, u);
    } else {
      SharedMove(s, step, x, x.thread in s.registered, s.appLive);
      SharedOrders(s, step.g, u.gs[step.g], u);
    }
  }

  /** Where the creator and the destroyer stand decides what may happen next. */
  ghost predicate SameOrder(s: Sys, t: Sys) {
    && t.casDone == s.casDone && t.disabled == s.disabled && t.began == s.began
    && t.creator == s.creator && t.destroyer == s.destroyer && t.poller == s.poller
  }

  lemma DestroyOrders(s: Sys, g: nat, t: Sys)
    requires Ordered(s) && KindsOk(s.gs, s.creator, s.destroyer, s.poller) && LockOk(s.gs, s.lock)
    requires g in s.gs && s.gs[g].kind.Destroy? && s.gs[g].pc.Exclusive?
    requires t.gs == s.gs[g := s.gs[g].(pc := Gone)] && t.destroys == s.destroys + 1 && t.created == s.created && SameOrder(s, t)
    ensures Ordered(t)
  {
    assert s.lock.writer == Some(g);
  }

  lemma CreateOrders(s: Sys, step: Step, t: Sys)
    requires Ordered(s) && KindsOk(s.gs, s.creator, s.destroyer, s.poller)
    requires Enabled(s, step) && (step.FinishCreate? || step.StoreLive?) && PcOk(s.gs[step.g]) && t == Do(s, step)
    ensures Ordered(t)
  {
    CreatorOrders(s, step.g, t.gs[step.g].pc, t);
  }

  lemma CreatorOrders(s: Sys, g: nat, pc: Pc, t: Sys)
    requires Ordered(s) && KindsOk(s.gs, s.creator, s.destroyer, s.poller)
    requires g in s.gs && s.gs[g].kind.Create? && (s.gs[g].pc.Exclusive? || s.gs[g].pc.Storing?)
    requires (pc.Gone? && t.created == s.created) || (s.gs[g].pc.Exclusive? && pc.Storing? && t.created)
    requires t.gs == s.gs[g := s.gs[g].(pc := pc)] && t.destroys == s.destroys && SameOrder(s, t)
    ensures Ordered(t)
  {
  }

  lemma SharedMove(s: Sys, step: Step, x: Goroutine, r: bool, live: bool)
    requires Enabled(s, step) && Moves(step) && x == s.gs[step.g] && PcOk(x)
    requires !step.FinishCreate? && !step.StoreLive? && !step.FinishDestroy?
    ensures var pc := PcAfter(x, r, live, step);
            && !x.pc.Gone? && !x.pc.Storing? && !pc.Storing?
            && (pc.Gone? ==> !x.kind.Create? && !x.kind.Destroy?)
  {
  }

  /** Every other move leaves the creator and the destroyer short of their ends. */
  lemma SharedOrders(s: Sys, g: nat, y: Goroutine, t: Sys)
    requires Ordered(s) && KindsOk(s.gs, s.creator, s.destroyer, s.poller)
    requires g in s.gs && y.kind == s.gs[g].kind && !s.gs[g].pc.Gone? && !s.gs[g].pc.Storing? && !y.pc.Storing?
    requires y.pc.Gone? ==> !y.kind.Create? && !y.kind.Destroy?
    requires t.gs == s.gs[g := y] && t.destroys == s.destroys && t.created == s.created && SameOrder(s, t)
    ensures Ordered(t)
  {
  }

  lemma StepOrders(s: Sys, step: Step)
    requires SysInv(s) && Enabled(s, step)
    ensures Ordered(Do(s, step))
  {
    if Moves(step) {
      MoveOrders(s, step);
    }
  }

  lemma StepLives(s: Sys, step: Step)
    requires LiveOk(s) && Enabled(s, step)
    ensures LiveOk(Do(s, step))
  {
    if Moves(step) {
      NotedLives(s, s.gs[step.g].thread, step);
    }
  }

  lemma NotedLives(s: Sys, thread: nat, step: Step)
    requires LiveOk(s)
    ensures LiveOk(Noted(s, thread, step))
  {
    match step {
      case StoreLive(_) =>
      case _ =>
    }
  }

  lemma MoveGates(s: Sys, step: Step)
    requires SysInv(s) && Enabled(s, step) && Moves(step)
    ensures GateOk(Do(s, step))
  {
    ActorIsOk(s, step);
    if step.FinishDestroy? || step.StoreLive? {
      assert s.lock.writer == Some(step.g);
      HolderGates(s, step, Do(s, step));
    } else {
      OtherGates(s, step, Do(s, step));
    }
  }

  /** Nobody is in a call while the lock is held for writing. */
  lemma HolderGates(s: Sys, step: Step, t: Sys)
    requires LockOk(s.gs, s.lock) && Enabled(s, step) && (step.FinishDestroy? || step.StoreLive?) && t == Do(s, step)
    requires s.lock.writer == Some(step.g)
    ensures GateOk(t)
  {
    assert forall h :: h in s.gs ==> !Reads(s.gs[h].pc);
  }

  lemma OtherGates(s: Sys, step: Step, t: Sys)
    requires GateOk(s) && LiveOk(s) && (s.destroys > 0 ==> s.began) && Enabled(s, step) && Moves(step)
    requires !step.FinishDestroy? && !step.StoreLive? && t == Do(s, step)
    ensures GateOk(t)
  {
    match step {
      case Gate(_) =>
      case Return(_, _) =>
      case _ =>
    }
  }

  lemma StepGates(s: Sys, step: Step)
    requires SysInv(s) && Enabled(s, step)
    ensures GateOk(Do(s, step))
  {
    if Moves(step) {
      MoveGates(s, step);
    }
  }

  lemma StepKeeps(s: Sys, step: Step)
    requires SysInv(s) && Enabled(s, step)
    ensures SysInv(Do(s, step))
  {
    StepLocks(s, step);
    StepKinds(s, step);
    StepRegisters(s, step);
    StepOrders(s, step);
    StepLives(s, step);
    StepGates(s, step);
  }

  ghost predicate Next(s: Sys, t: Sys) {
    exists step :: Enabled(s, step) && t == Do(s, step)
  }

  ghost predicate Boots(s: Sys) {
    s == BOOT
  }

  ghost predicate IsRun(run: seq<Sys>) {
    Runs.IsRun(Boots, Next, run)
  }

  lemma NextKeeps(s: Sys, t: Sys)
    requires SysInv(s) && Next(s, t)
    ensures SysInv(t)
  {
    var step :| Enabled(s, step) && t == Do(s, step);
    StepKeeps(s, step);
  }

  /** Every state of every run satisfies the invariant. */
  lemma RunsAreSound(run: seq<Sys>)
    requires IsRun(run)
    ensures forall p :: 0 <= p < |run| ==> SysInv(run[p])
  {
    forall s, t | SysInv(s) && Next(s, t) ensures SysInv(t) {
      NextKeeps(s, t);
    }
    Runs.Sound(Boots, Next, SysInv, run);
  }

  // ---------------------------------------------------------------- laws

  predicate InVls(pc: Pc) {
    pc.Registering? || pc.Calling? || pc.Exclusive?
  }

  /** Registration, creation and destruction overlap no other call into VLS. */
  lemma Exclusion(s: Sys, g: nat, h: nat)
    requires SysInv(s) && g in s.gs && h in s.gs && g != h
    requires s.gs[g].pc.Registering? || s.gs[g].pc.Exclusive?
    ensures !InVls(s.gs[h].pc)
  {
    assert Writes(s.gs[g].pc);
  }

  /** No thread is registered twice, and a registered thread never again. */
  lemma EachThreadOnce(s: Sys, step: Step, t: nat)
    requires SysInv(s) && Enabled(s, step)
    ensures s.registrations[t] <= 1
    ensures t in s.registered ==> t in Do(s, step).registered && Do(s, step).registrations[t] == s.registrations[t]
  {
    if t in s.registered {
      NeverAgain(s, step, t);
    }
  }

  lemma NeverAgain(s: Sys, step: Step, t: nat)
    requires Enabled(s, step) && t in s.registered
    ensures t in Do(s, step).registered && Do(s, step).registrations[t] == s.registrations[t]
  {
    if Moves(step) {
      NotedKeeps(s, s.gs[step.g].thread, step, t);
    }
  }

  lemma NotedKeeps(s: Sys, thread: nat, step: Step, t: nat)
    requires t in s.registered
    ensures t in Noted(s, thread, step).registered && Noted(s, thread, step).registrations[t] == s.registrations[t]
  {
    match step {
      case SecondCheck(_) =>
      case FinishRegister(_) =>
      case FinishCreate(_, _) =>
      case _ =>
    }
  }

  /** How a goroutine gets into VLS once the app is destroyed: by registering a thread
      that is not in the registry, or by a call behind the gate, which lets through
      what only pins, and a read, write or accept if the app was created late. */
  predicate EntersLate(s: Sys, step: Step, g: nat)
    requires g in s.gs
  {
    || (step == SecondCheck(g) && s.gs[g].thread !in s.registered)
    || (step == Gate(g) && (s.gs[g].kind.Pinned? || s.late))
  }

  /** After the destruction a goroutine enters VLS exactly in one of these ways; the
      poller and the creating and the destroying caller do not enter it any more. */
  lemma EntersAfterDestroyIff(s: Sys, step: Step, g: nat)
    requires SysInv(s) && s.destroys > 0 && Enabled(s, step) && g in s.gs && !InVls(s.gs[g].pc)
    ensures g in Do(s, step).gs && (InVls(Do(s, step).gs[g].pc) <==> EntersLate(s, step, g))
    ensures InVls(Do(s, step).gs[g].pc) ==> s.gs[g].kind.Gated? || s.gs[g].kind.Pinned?
  {
    GoneAfterDestroy(s, g);
    if Moves(step) && step.g == g {
      EntersBy(s, step, s.gs[g], s.gs[g].thread in s.registered, s.appLive);
    } else {
      OthersStay(s, step, g);
      assert InVls(Do(s, step).gs[g].pc) == InVls(s.gs[g].pc);
    }
  }

  lemma EntersBy(s: Sys, step: Step, x: Goroutine, r: bool, live: bool)
    requires Enabled(s, step) && Moves(step) && x == s.gs[step.g] && PcOk(x) && !InVls(x.pc)
    requires x.kind.Gated? || x.kind.Pinned?
    ensures InVls(PcAfter(x, r, live, step)) <==> (step.SecondCheck? && !r) || (step.Gate? && (x.kind.Pinned? || live))
  {
    match step {
      case SecondCheck(_) =>
      case Gate(_) =>
      case _ =>
    }
  }

  lemma OthersStay(s: Sys, step: Step, g: nat)
    requires Enabled(s, step) && g in s.gs && !(Moves(step) && step.g == g)
    ensures g in Do(s, step).gs && Do(s, step).gs[g] == s.gs[g]
  {
    if !Moves(step) {
      StartsApart(s, step, g);
    }
  }

  lemma StartsApart(s: Sys, step: Step, g: nat)
    requires Enabled(s, step) && g in s.gs && !Moves(step)
    ensures g in Do(s, step).gs && Do(s, step).gs[g] == s.gs[g]
  {
    match step {
      case Spawn(_, _, _) =>
      case StartPoller(_, _) =>
      case Init(_, _) =>
      case SwapCreated(_, _) =>
      case BeginShutdown =>
      case StopPoller =>
    }
  }

  /** Only reads, writes, accepts and pinned calls are left after the destruction. */
  lemma GoneAfterDestroy(s: Sys, g: nat)
    requires SysInv(s) && s.destroys > 0 && g in s.gs
    ensures s.gs[g].kind.Gated? || s.gs[g].kind.Pinned? || s.gs[g].pc.Gone?
  {
    assert PollerGone(s);
  }

  /** So whoever is inside VLS then registers a thread for the first time, or calls
      and only pins, or calls and the app was created late. */
  lemma InsideAfterDestroy(s: Sys, g: nat)
    requires SysInv(s) && s.destroys > 0 && g in s.gs && InVls(s.gs[g].pc)
    ensures s.destroys == 1 && (s.gs[g].kind.Gated? || s.gs[g].kind.Pinned?)
    ensures s.gs[g].pc.Registering? ==> s.gs[g].thread !in s.registered
    ensures !s.gs[g].pc.Registering? ==> s.gs[g].pc.Calling? && (s.gs[g].kind.Pinned? || s.late)
  {
    GoneAfterDestroy(s, g);
    assert PcOk(s.gs[g]);
  }

  /** The gate: under the read lock a read, write or accept goes on exactly while
      appLive holds; once shutdown has begun that is exactly when the creation
      stored it afterwards. */
  lemma GateOpensIff(s: Sys, g: nat)
    requires SysInv(s) && Enabled(s, Gate(g)) && s.gs[g].kind.Gated?
    ensures Do(s, Gate(g)).gs[g].pc.Calling? <==> s.appLive
    ensures s.began ==> (s.appLive <==> s.late)
  {
  }

  ghost predicate Reachable(s: Sys) {
    Runs.Reachable(Boots, Next, s)
  }

  lemma Play(s: Sys, step: Step) returns (t: Sys)
    requires Reachable(s) && Enabled(s, step)
    ensures Reachable(t) && t == Do(s, step)
  {
    t := Do(s, step);
    assert Next(s, t);
    Runs.Extend(Boots, Next, s, t);
  }

  /** An app created on thread 0 by goroutine 0, with shutdown begun or not. */
  function Born(began: bool, late: bool): Sys {
    BOOT.(gs := map[0 := Goroutine(Create, 0, Gone)], creator := Some(0), registered := {0},
          created := true, appLive := !began || late, began := began, late := late)
  }

  function Creating(): Sys {
    BOOT.(gs := map[0 := Goroutine(Create, 0, Storing)], creator := Some(0), lock := Lock(Some(0), {}), registered := {0}, created := true)
  }

  lemma BeingCreated()
    ensures Reachable(Creating())
  {
    Runs.Begin(Boots, Next, BOOT);
    var s := Play(BOOT, Init(0, 0));
    s := Play(s, LockX(0));
    s := Play(s, FinishCreate(0, true));
    assert s == Creating();
  }

  lemma BornEarly()
    ensures Reachable(Born(true, false))
  {
    BeingCreated();
    var s := Play(Creating(), StoreLive(0));
    s := Play(s, BeginShutdown);
    assert s == Born(true, false);
  }

  lemma BornLate()
    ensures Reachable(Born(true, true))
  {
    BeingCreated();
    var s := Play(Creating(), BeginShutdown);
    s := Play(s, StoreLive(0));
    assert s == Born(true, true);
  }

  /** The same app destroyed by goroutine 1 on the same thread. */
  function Dead(late: bool): Sys {
    Born(true, late).(gs := map[0 := Goroutine(Create, 0, Gone), 1 := Goroutine(Destroy, 0, Gone)], destroyer := Some(1),
                      created := false, disabled := true, casDone := true, destroys := 1)
  }

  function Dying(late: bool): Sys {
    Born(true, late).(gs := map[0 := Goroutine(Create, 0, Gone), 1 := Goroutine(Destroy, 0, AtXLock)], destroyer := Some(1),
                      created := false, disabled := true, casDone := true)
  }

  lemma BeginToDie(late: bool)
    requires Reachable(Born(true, late))
    ensures Reachable(Dying(late))
  {
    var s := Play(Born(true, late), StopPoller);
    s := Play(s, SwapCreated(1, 0));
    s := Play(s, FastCheck(1));
    assert s == Dying(late);
  }

  lemma Die(late: bool)
    requires Reachable(Born(true, late))
    ensures Reachable(Dead(late))
  {
    BeginToDie(late);
    var s := Play(Dying(late), LockX(1));
    s := Play(s, FinishDestroy(1));
    assert s == Dead(late);
  }

  /** Registration is not gated: a read, write or accept on a fresh thread registers
      that with an app which has been destroyed, before it looks at the gate. */
  lemma RegisteredAfterDestroy() returns (s: Sys)
    ensures Reachable(s) && s.destroys == 1 && !s.late && At(s, 2, Registering) && s.gs[2].kind.Gated?
  {
    BornEarly();
    Die(false);
    s := Play(Dead(false), Spawn(2, Gated, 7));
    s := Play(s, FastCheck(2));
    assert s.gs[2] == Goroutine(Gated, 7, AtWLock) && s.registered == {0};
    s := Play(s, LockW(2));
    s := Play(s, SecondCheck(2));
  }

  /** A creation that overlaps BeginShutdown leaves the gate open for good: a read
      can enter VLS after the app is gone. */
  lemma LateCreationOpensGate() returns (s: Sys)
    ensures Reachable(s) && s.destroys == 1 && At(s, 2, Calling) && s.gs[2].kind.Gated?
  {
    BornLate();
    Die(true);
    s := Play(Dead(true), Spawn(2, Gated, 0));
    s := Play(s, FastCheck(2));
    assert s.gs[2] == Goroutine(Gated, 0, AtRLock) && s.lock == Lock(None, {});
    s := Play(s, LockR(2));
    s := Play(s, Gate(2));
  }
}
