/** What the gate of module VlsGate is for: VLS is entered by registered threads only,
    and nobody waits for its lock for ever. */
module VlsLaws {
  import opened VlsGate
  import opened Options
  import Runs

  /** Past registration: at the read lock, in a call or about to leave one, or at the
      destroyer's lock. */
  predicate PastRegistration(x: Goroutine) {
    || x.pc.AtRLock? || x.pc.HasRLock? || x.pc.Calling? || x.pc.Leaving?
    || (x.kind.Destroy? && (x.pc.AtXLock? || x.pc.Exclusive?))
  }

  /** Whoever is past registration has a registered thread. */
  ghost predicate OnlyRegistered(s: Sys) {
    forall g :: g in s.gs && PastRegistration(s.gs[g]) ==> s.gs[g].thread in s.registered
  }

  ghost predicate SafeInv(s: Sys) {
    SysInv(s) && OnlyRegistered(s)
  }

  lemma MoveRegisters(s: Sys, step: Step, x: Goroutine)
    requires Enabled(s, step) && Moves(step) && x == s.gs[step.g] && PcOk(x)
    requires PastRegistration(x) ==> x.thread in s.registered
    ensures var y := Do(s, step).gs[step.g];
            PastRegistration(y) ==> y.thread in Do(s, step).registered
  {
    match step {
      case FastCheck(_) =>
      case LockW(_) =>
      case SecondCheck(_) =>
      case FinishRegister(_) =>
      case LockR(_) =>
      case Gate(_) =>
      case Return(_, _) =>
      case UnlockR(_) =>
      case Wake(_, _) =>
      case HaltPoller(_) =>
      case LockX(_) =>
      case FinishCreate(_, _) =>
      case StoreLive(_) =>
      case FinishDestroy(_) =>
    }
  }

  lemma StepRegistered(s: Sys, step: Step)
    requires SafeInv(s) && Enabled(s, step)
    ensures OnlyRegistered(Do(s, step))
  {
    var t := Do(s, step);
    if Moves(step) {
      ActorIsOk(s, step);
      MoveRegisters(s, step, s.gs[step.g]);
    }
    forall g | g in t.gs && PastRegistration(t.gs[g]) ensures t.gs[g].thread in t.registered {
      if g in s.gs && !(Moves(step) && step.g == g) {
        OthersStay(s, step, g);
        RegistryGrows(s, step, s.gs[g].thread);
      } else if g !in s.gs {
        Newcomer(s, step, g);
      }
    }
  }

  lemma RegistryGrows(s: Sys, step: Step, thread: nat)
    requires Enabled(s, step) && thread in s.registered
    ensures thread in Do(s, step).registered
  {
    NeverAgain(s, step, thread);
  }

  lemma Newcomer(s: Sys, step: Step, g: nat)
    requires Enabled(s, step) && g !in s.gs && g in Do(s, step).gs
    ensures !PastRegistration(Do(s, step).gs[g])
  {
    match step {
      case Spawn(_, _, _) =>
      case StartPoller(_, _) =>
      case Init(_, _) =>
      case SwapCreated(_, _) =>
      case _ =>
    }
  }

  lemma NextSafe(s: Sys, t: Sys)
    requires SafeInv(s) && Next(s, t)
    ensures SafeInv(t)
  {
    var step :| Enabled(s, step) && t == Do(s, step);
    StepKeeps(s, step);
    StepRegistered(s, step);
  }

  /** In every state of every run whoever is in a call, or next to make one, is on a
      registered thread. */
  lemma OnlyRegisteredEnter(run: seq<Sys>)
    requires IsRun(run)
    ensures forall p :: 0 <= p < |run| ==> SafeInv(run[p])
  {
    forall s, t | SafeInv(s) && Next(s, t) ensures SafeInv(t) {
      NextSafe(s, t);
    }
    Runs.Sound(Boots, Next, SafeInv, run);
  }

  lemma CallersAreRegistered(s: Sys, g: nat)
    requires SafeInv(s) && g in s.gs && (s.gs[g].pc.Calling? || (s.gs[g].pc.Exclusive? && s.gs[g].kind.Destroy?))
    ensures s.gs[g].thread in s.registered
  {
  }

  // ---------------------------------------------------------------- progress

  /** Whoever holds the lock can go on. */
  lemma HolderCanMove(s: Sys, g: nat) returns (step: Step)
    requires SysInv(s) && g in s.gs && (Writes(s.gs[g].pc) || Reads(s.gs[g].pc))
    ensures Enabled(s, step) && Moves(step) && step.g == g
  {
    assert PcOk(s.gs[g]);
    match s.gs[g].pc {
      case HasWLock => step := SecondCheck(g);
      case Registering => step := FinishRegister(g);
      case Exclusive => step := if s.gs[g].kind.Create? then FinishCreate(g, true) else FinishDestroy(g);
      case Storing => step := StoreLive(g);
      case HasRLock => step := Gate(g);
      case Calling => step := Return(g, false);
      case Leaving(_) => step := UnlockR(g);
    }
  }

  /** No deadlock: while a goroutine has not gone, it can go on, or somebody who holds the
      lock it waits for can. */
  lemma NobodyStuck(s: Sys, g: nat) returns (step: Step)
    requires SysInv(s) && g in s.gs && !s.gs[g].pc.Gone?
    ensures Enabled(s, step) && Moves(step)
    ensures step.g == g || s.lock.writer == Some(step.g) || step.g in s.lock.readers
  {
    var pc := s.gs[g].pc;
    if Writes(pc) || Reads(pc) {
      step := HolderCanMove(s, g);
    } else if pc.AtFast? {
      step := FastCheck(g);
    } else if pc.Waiting? {
      step := Wake(g, false);
    } else if s.lock.writer.Some? {
      step := HolderCanMove(s, s.lock.writer.value);
    } else if pc.AtRLock? {
      step := LockR(g);
    } else if s.lock.readers == {} {
      step := if pc.AtWLock? then LockW(g) else LockX(g);
    } else {
      var h :| h in s.lock.readers;
      step := HolderCanMove(s, h);
    }
  }

  /** Shutdown can always go on: it may begin, then stop the poller, and once that has
      gone swap the created flag and destroy what was created. */
  lemma ShutdownCanGoOn(s: Sys, g: nat, thread: nat)
    requires g !in s.gs
    ensures !s.began ==> Enabled(s, BeginShutdown)
    ensures s.began && !s.disabled ==> Enabled(s, StopPoller)
    ensures s.disabled && PollerGone(s) && !s.casDone ==>
              && Enabled(s, SwapCreated(g, thread))
              && (s.created <==> g in Do(s, SwapCreated(g, thread)).gs)
              && (s.created ==> Do(s, SwapCreated(g, thread)).gs[g] == Goroutine(Destroy, thread, AtFast))
    ensures s.disabled ==> forall p :: At(s, p, AtRLock) && s.gs[p].kind.Poll? ==> Enabled(s, HaltPoller(p))
  {
  }

  // ---------------------------------------------------------------- the way of a call

  /** Calls may come at any time, also after shutdown has begun; the poller comes once,
      unless it has been stopped, and so does the creation of the app. */
  lemma CallsMayCome(s: Sys, g: nat, thread: nat)
    requires g !in s.gs
    ensures Enabled(s, Spawn(g, Gated, thread)) && Do(s, Spawn(g, Gated, thread)).gs[g] == Goroutine(Gated, thread, AtFast)
    ensures Enabled(s, Spawn(g, Pinned, thread)) && Do(s, Spawn(g, Pinned, thread)).gs[g] == Goroutine(Pinned, thread, AtFast)
    ensures Enabled(s, StartPoller(g, thread)) <==> s.poller.None? && !s.disabled
    ensures Enabled(s, StartPoller(g, thread)) ==> Do(s, StartPoller(g, thread)).gs[g] == Goroutine(Poll, thread, AtFast)
    ensures Enabled(s, Init(g, thread)) <==> s.creator.None?
    ensures Enabled(s, Init(g, thread)) ==> Do(s, Init(g, thread)).gs[g] == Goroutine(Create, thread, AtXLock)
  {
  }

  /** On a thread that is registered a call goes straight to the read lock; on any other
      it registers the thread first. */
  lemma CallArrives(s: Sys, g: nat)
    requires At(s, g, AtFast) && !s.gs[g].kind.Destroy?
    ensures Enabled(s, FastCheck(g))
    ensures At(Do(s, FastCheck(g)), g, if s.gs[g].thread in s.registered then AtRLock else AtWLock)
    ensures s.gs[g].thread !in s.registered && Unlocked(s.lock) ==> Registers(Do(s, FastCheck(g)), g)
  {
    if s.gs[g].thread !in s.registered && Unlocked(s.lock) {
      LockAndRegister(Do(s, FastCheck(g)), g);
    }
  }

  /** Lock, second check, register call, and on to the read lock. */
  ghost predicate Registers(s: Sys, g: nat)
    requires g in s.gs
  {
    && Enabled(s, LockW(g))
    && var a := Do(s, LockW(g));
       && Enabled(a, SecondCheck(g))
       && var b := Do(a, SecondCheck(g));
          && At(b, g, Registering) && Enabled(b, FinishRegister(g))
          && var c := Do(b, FinishRegister(g));
             At(c, g, AtRLock) && s.gs[g].thread in c.registered && Unlocked(c.lock)
  }

  lemma LockAndRegister(s: Sys, g: nat)
    requires At(s, g, AtWLock) && !s.gs[g].kind.Destroy? && s.gs[g].thread !in s.registered && Unlocked(s.lock)
    ensures Registers(s, g)
  {
  }

  /** A call that has returned lets go of the lock; then the poller goes on to its next
      round, a read, write or accept that would block waits for readiness, and everything
      else is over. */
  lemma CallReturns(s: Sys, g: nat, again: bool)
    requires At(s, g, Calling)
    ensures Enabled(s, Return(g, again)) && Enabled(Do(s, Return(g, again)), UnlockR(g))
    ensures var t := Do(Do(s, Return(g, again)), UnlockR(g));
            && g !in t.lock.readers
            && At(t, g, if s.gs[g].kind.Poll? then AtRLock else if s.gs[g].kind.Gated? && again then Waiting else Gone)
  {
  }

  /** Ready, it tries again from the start; cancelled, it is over. */
  lemma WaitReturns(s: Sys, g: nat)
    requires At(s, g, Waiting)
    ensures Enabled(s, Wake(g, true)) && At(Do(s, Wake(g, true)), g, AtFast)
    ensures Enabled(s, Wake(g, false)) && At(Do(s, Wake(g, false)), g, Gone)
  {
  }

  /** A call that the gate refuses lets go of the lock and is over. */
  lemma RefusedReturns(s: Sys, g: nat)
    requires At(s, g, HasRLock) && s.gs[g].kind.Gated? && !s.appLive
    ensures Enabled(s, Gate(g)) && Enabled(Do(s, Gate(g)), UnlockR(g))
    ensures At(Do(Do(s, Gate(g)), UnlockR(g)), g, Gone) && g !in Do(Do(s, Gate(g)), UnlockR(g)).lock.readers
  {
  }
}
