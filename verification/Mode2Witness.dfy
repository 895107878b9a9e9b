/** Concrete runs of one worker: one in which submit returns ErrClosed although the
    operation ran and made a session, and one in which the Mode 3 dispatcher
    destroys the app under the worker. */
module Mode2Witness {
  import opened Handles
  import T = WorkerTables
  import S = Sessions
  import R = Retirement
  import Runs
  import opened Mode2
  import opened Options

  const NONE := S.Env(false, 0, false, false, false, false)
  const MADE := S.Env(true, 5, true, true, true, true)  // raw handle 5, owned

  /** The control state of one worker at `phase`, initialisation at `init`. */
  function Ctl(phase: R.Phase, init: R.InitPc): R.Control {
    R.Boot(1).(phases := [phase], init := init, count := 1, registered := map[0 := true], created := true)
  }

  function Started(phase: R.Phase): R.Control {
    Ctl(phase, R.Ready).(startCh := true, ready := map[0 := true], live := true, stored := true, appCreated := true, active := true)
  }

  function Stopping(phase: R.Phase): R.Control {
    Started(phase).(stopping := true, stopCh := {0}, stop := R.CloseStop(1))
  }

  lemma WorkerRegistered()
    ensures Reachable(Boot(1).(ctl := Ctl(R.AwaitStart, R.Spawn(1))))
  {
    Runs.Begin(Boots, Next, Boot(1));
    var s := Play(Boot(1), Main(R.SpawnNext));
    s := Play(s, Move(0, R.Register(true, false), NONE, true));
    assert s.ctl.phases == [R.AwaitStart] && s.ctl.registered == map[0 := true];
    s := Play(s, Main(R.TakeReg));
    assert s == Boot(1).(ctl := Ctl(R.AwaitStart, R.Spawn(1)));
  }

  lemma WorkerReady()
    ensures Reachable(Boot(1).(ctl := Ctl(R.LoopTop, R.AwaitReady(0)).(startCh := true, ready := map[0 := true])))
  {
    WorkerRegistered();
    var s := Play(Boot(1).(ctl := Ctl(R.AwaitStart, R.Spawn(1))), Main(R.StartAll));
    s := Play(s, Move(0, R.Start, NONE, true));
    assert s.ctl.phases == [R.MakeEpoll];
    s := Play(s, Move(0, R.EpollMade(true), NONE, true));
    assert s.ctl == Ctl(R.LoopTop, R.AwaitReady(0)).(startCh := true, ready := map[0 := true]);
    assert s == Boot(1).(ctl := s.ctl);
  }

  lemma Live()
    ensures Reachable(Boot(1).(ctl := Started(R.LoopTop)))
  {
    WorkerReady();
    var s := Play(Boot(1).(ctl := Ctl(R.LoopTop, R.AwaitReady(0)).(startCh := true, ready := map[0 := true])), Main(R.TakeReady));
    s := Play(s, Main(R.StoreCreated));
    s := Play(s, Main(R.GoLive));
    s := Play(s, Main(R.StoreActive));
    assert s == Boot(1).(ctl := Started(R.LoopTop));
  }

  function Waiting(stage: Stage): Op {
    Op(0, S.Create, stage, 0, [], None)
  }

  function Before(ctl: R.Control, queue: seq<nat>, stage: Stage): Sys {
    Boot(1).(ctl := ctl, queues := [queue], ops := map[0 := Waiting(stage)])
  }

  lemma Submitted()
    ensures Reachable(Before(Started(R.LoopTop), [], Sending))
  {
    Live();
    var s := Play(Boot(1).(ctl := Started(R.LoopTop)), Submit(0, 0, S.Create, 0));
    assert s.ops == map[0 := Waiting(Sending)] && s.loops == map[] && s.queues == [[]];
    assert s == Before(Started(R.LoopTop), [], Sending);
  }

  lemma Enqueued()
    ensures Reachable(Before(Started(R.LoopTop), [0], Queued))
  {
    Submitted();
    var b := Before(Started(R.LoopTop), [], Sending);
    assert b.queues[0] == [] && b.ops[0] == Waiting(Sending);
    var s := Play(b, Send(0));
    assert b.queues[0] + [0] == [0];
    assert s.queues == b.queues[0 := [0]] == [[0]];
    assert s.ops == map[0 := Waiting(Queued)];
    assert s == Before(Started(R.LoopTop), [0], Queued);
  }

  lemma Sent()
    ensures Reachable(Before(Started(R.Draining(64)), [0], Queued))
  {
    Enqueued();
    var s := Play(Before(Started(R.LoopTop), [0], Queued), Move(0, R.LoopGo, NONE, true));
    assert s.ctl == Started(R.Draining(64));
    assert s == Before(Started(R.Draining(64)), [0], Queued);
  }

  /** The sessions once the operation has run, and once it was retired. */
  function Made(): S.Data {
    S.Exec(S.Fresh(1), 0, S.Create, MADE).0
  }

  function Woken(): S.Data
    requires S.Sized(Made(), 0)
  {
    S.SetTables(Made(), 0, T.WakeAllWaiters(Made().tables[0]))
  }

  lemma OneSession()
    ensures S.Sized(Made(), 0) && Made().tables[0].sessions == map[1 := 5]
    ensures S.Exec(S.Fresh(1), 0, S.Create, MADE).1 == S.Handle(1)
    ensures S.Sized(Woken(), 0) && Woken().tables[0].sessions == map[1 := 5]
    ensures S.Retire(Woken(), 0, 1, true).tables[0].sessions == map[]
  {
  }

  /** The operation has run, its reply is waiting, and nobody took it. */
  function Replied(): Op {
    Op(0, S.Create, Taken, 1, [S.Handle(1)], None)
  }

  function State(ctl: R.Control, data: S.Data): Sys {
    Sys(ctl, [[]], map[0 := Replied()], map[], map[], data)
  }

  lemma Takes(s: Sys)
    requires s == Before(Started(R.Draining(64)), [0], Queued)
    ensures Enabled(s, Move(0, R.TakeOp, MADE, true))
    ensures S.Sized(s.data, 0) && R.DoMove(s.ctl, 0, R.TakeOp) == Started(R.Draining(63))
  {
    assert R.DoMove(s.ctl, 0, R.TakeOp).phases == [R.Draining(63)];
  }

  lemma TookIs(s: Sys, t: Sys)
    requires t == Before(Started(R.Draining(63)), [0], Queued) && t.data == S.Fresh(1)
    requires s == Took(t, 0, 0, Waiting(Queued), MADE)
    ensures s == State(Started(R.Draining(63)), Made())
  {
    OneSession();
    assert t.queues[0] == [0] && t.queues[0][1..] == [];
    assert s.queues == t.queues[0 := []] == [[]];
    assert S.Exec(t.data, 0, S.Create, MADE) == (Made(), S.Handle(1));
    assert Waiting(Queued).replies + [S.Handle(1)] == [S.Handle(1)];
    assert s.ops == t.ops[0 := Replied()] == map[0 := Replied()];
    assert s.loops == map[];
  }

  lemma Ran()
    ensures Reachable(State(Started(R.Draining(63)), Made()))
  {
    Sent();
    var s := Before(Started(R.Draining(64)), [0], Queued);
    Takes(s);
    var t := Play(s, Move(0, R.TakeOp, MADE, true));
    TookIs(t, Before(Started(R.Draining(63)), [0], Queued));
  }

  lemma StopBegun()
    ensures Reachable(State(Stopping(R.Draining(63)), Made()))
  {
    Ran();
    var s := Play(State(Started(R.Draining(63)), Made()), Main(R.StopBegin));
    s := Play(s, Main(R.StopClose));
    assert s == State(Stopping(R.Draining(63)), Made());
  }

  lemma Drained()
    ensures Reachable(State(Stopping(R.Polled([])), Made()))
  {
    StopBegun();
    var s := Play(State(Stopping(R.Draining(63)), Made()), Move(0, R.DrainDone([]), NONE, true));
    assert s == State(Stopping(R.Polled([])), Made());
  }

  lemma StopSeen()
    ensures Reachable(State(Stopping(R.LoopTop), Made()))
  {
    Drained();
    var s := Play(State(Stopping(R.Polled([])), Made()), Move(0, R.EventsDone, NONE, true));
    assert s == State(Stopping(R.LoopTop), Made());
  }

  lemma LoopLeft()
    ensures Reachable(State(Stopping(R.Waking), Made()))
  {
    StopSeen();
    var s := Play(State(Stopping(R.LoopTop), Made()), Move(0, R.LoopStop, NONE, true));
    assert s == State(Stopping(R.Waking), Made());
  }

  lemma AllWoken()
    ensures S.Sized(Woken(), 0) && Reachable(State(Stopping(R.Closing), Woken()))
  {
    LoopLeft();
    OneSession();
    var s := Play(State(Stopping(R.Waking), Made()), Move(0, R.WakeAllNow, NONE, true));
    assert s.ctl == Stopping(R.Closing);
    assert s == State(Stopping(R.Closing), Woken());
  }

  function Gone(): S.Data
    requires S.Sized(Woken(), 0) && 1 in Woken().tables[0].sessions
  {
    S.Retire(Woken(), 0, 1, true)
  }

  lemma Retired()
    ensures S.Sized(Woken(), 0) && 1 in Woken().tables[0].sessions && Reachable(State(Stopping(R.Closing), Gone()))
  {
    AllWoken();
    OneSession();
    var s := Play(State(Stopping(R.Closing), Woken()), RetireOne(0, 1, true));
    assert s == State(Stopping(R.Closing), Gone());
  }

  lemma NothingLeft()
    ensures S.Sized(Woken(), 0) && 1 in Woken().tables[0].sessions && Reachable(State(Stopping(R.Flushing), Gone()))
  {
    Retired();
    OneSession();
    var s := Play(State(Stopping(R.Closing), Gone()), Move(0, R.RetireDone, NONE, true));
    assert s == State(Stopping(R.Flushing), Gone());
  }

  lemma GoneQuiet()
    ensures S.Sized(Woken(), 0) && 1 in Woken().tables[0].sessions && Reachable(State(Stopping(R.Quiesced), Gone()))
  {
    NothingLeft();
    var s := Play(State(Stopping(R.Flushing), Gone()), Move(0, R.FlushDone, NONE, true));
    assert s == State(Stopping(R.Quiesced), Gone());
  }

  /** The submitter returns ErrClosed for an operation that ran and succeeded. */
  lemma RanButErrClosed() returns (s: Sys)
    ensures Reachable(s) && 0 in s.ops
    ensures s.ops[0].runs == 1 && s.ops[0].replies == [S.Handle(1)] && s.ops[0].result == Some(S.ErrClosed)
  {
    GoneQuiet();
    s := Play(State(Stopping(R.Quiesced), Gone()), GiveUp(0));
  }

  /** Created, and destroyed by a Mode 3 call that came before the dispatcher was stored. */
  function Overrun(init: R.InitPc): R.Control {
    Ctl(R.LoopTop, init).(startCh := true, ready := map[0 := true], stored := true, shut := R.SwappedMode3, overruns := 1)
  }

  lemma SwappedEarly()
    ensures Reachable(Boot(1).(ctl := Overrun(R.AwaitReady(1))))
  {
    WorkerReady();
    var s := Play(Boot(1).(ctl := Ctl(R.LoopTop, R.AwaitReady(0)).(startCh := true, ready := map[0 := true])), Main(R.TakeReady));
    s := Play(s, Main(R.StoreCreated));
    s := Play(s, Main(R.AskMode3));
    s := Play(s, Main(R.SwapMode3));
    assert s == Boot(1).(ctl := Overrun(R.AwaitReady(1)));
  }

  /** Shutdown can overtake the end of initialisation: the app is destroyed under a
      running worker that nobody told to stop, and then goes live. */
  lemma DestroyedUnderWorker() returns (s: Sys)
    ensures Reachable(s) && s.ctl.overruns == 1 && s.ctl.phases == [R.LoopTop] && s.ctl.stopCh == {}
    ensures s.ctl.live && s.ctl.active && !s.ctl.stopping
  {
    SwappedEarly();
    s := Play(Boot(1).(ctl := Overrun(R.AwaitReady(1))), Main(R.GoLive));
    s := Play(s, Main(R.StoreActive));
  }
}
