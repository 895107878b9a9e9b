/** What the invariant of module Mode2 means to a caller. */
module Mode2Laws {
  import opened WaitEngine
  import opened Handles
  import T = WorkerTables
  import S = Sessions
  import R = Retirement
  import opened Mode2
  import opened Options

  /** Worker `i` is about to run (not refuse) the operation at its queue head. */
  ghost predicate AboutToRun(s: Sys, i: nat, o: nat, env: S.Env) {
    && SysInv(s) && Enabled(s, Move(i, R.TakeOp, env, true))
    && o == s.queues[i][0] && !s.ctl.stopping && s.ctl.live
  }

  ghost function AfterRun(s: Sys, i: nat, env: S.Env): Sys
    requires Enabled(s, Move(i, R.TakeOp, env, true))
  {
    Do(s, Move(i, R.TakeOp, env, true))
  }

  // ---------------------------------------------------------------- handles

  /** The owner map and the session tables say the same about every handle. */
  lemma OwnerMapAgrees(s: Sys, h: VLSH, i: nat, raw: VLSH)
    requires SysInv(s)
    ensures (h in s.data.owners && s.data.owners[h] == S.SessionRef(i, raw)) <==>
            (h > 0 && i < |s.data.tables| && h in s.data.tables[i].sessions && s.data.tables[i].sessions[h] == raw)
  {
    if h in s.data.owners {
      assert S.OwnerOk(s.data, h, s.data.owners[h]);
    }
    if h > 0 && i < |s.data.tables| && h in s.data.tables[i].sessions {
      assert S.WorkerOk(s.data, i) && S.EntryOk(s.data, i, h, s.data.tables[i].sessions[h]);
    }
  }

  /** A session call run by a worker reaches the session its handle was created
      for, on the worker that created it; it answers ErrClosed, touching nothing,
      exactly when the handle has been closed, however raw handles were reused
      between the caller's lookup and this run. */
  lemma NoUseAfterClose(s: Sys, i: nat, o: nat, env: S.Env, h: VLSH, raw: VLSH)
    requires AboutToRun(s, i, o, env) && s.ops[o].kind == S.Use(h, raw)
    ensures h in s.data.born && s.data.born[h].worker == i == s.ops[o].worker && o in AfterRun(s, i, env).ops
    ensures AfterRun(s, i, env).ops[o].replies == [S.ErrClosed] <==> h !in s.data.owners
    ensures AfterRun(s, i, env).ops[o].replies == [S.Done] <==> h in s.data.owners && env.owned && env.ok
    ensures AfterRun(s, i, env).ops[o].replies == [S.ErrOther] <==> h in s.data.owners && !(env.owned && env.ok)
    ensures !(h in s.data.owners && env.owned) ==> AfterRun(s, i, env).data == s.data
    ensures h in s.data.owners && env.owned ==>
              && S.SessAt(s.data, i, raw) == s.data.born[h].sess
              && AfterRun(s, i, env).data ==
                 s.data.(touched := s.data.touched + {S.ByHandle(h, i, s.data.born[h].sess)})
  {
    TakenWellIssued(s, i);
    AfterRunIs(s, i, o, env);
    UseTells(s.data, i, env, h, raw);
  }

  lemma UseTells(d: S.Data, i: nat, env: S.Env, h: VLSH, raw: VLSH)
    requires S.Inv(d) && S.Sized(d, i) && S.Aimed(d, i, h, raw)
    ensures var (u, reply) := S.Exec(d, i, S.Use(h, raw), env);
            && (reply == S.ErrClosed <==> h !in d.owners)
            && (reply == S.Done <==> h in d.owners && env.owned && env.ok)
            && (reply == S.ErrOther <==> h in d.owners && !(env.owned && env.ok))
            && (!(h in d.owners && env.owned) ==> u == d)
            && (h in d.owners && env.owned ==>
                  && S.SessAt(d, i, raw) == d.born[h].sess
                  && u == d.(touched := d.touched + {S.ByHandle(h, i, d.born[h].sess)}))
  {
    S.ResolveMeans(d, i, h, raw, env.owned);
  }

  /** Births are permanent: a handle stands for one session in the whole run. */
  lemma StepLater(s: Sys, step: Step)
    requires S.Inv(s.data) && Enabled(s, step) && Do(s, step).data.allocs < WIDTH
    ensures S.Later(s.data, Do(s, step).data)
  {
    if step.Move? && step.move.TakeOp? {
      TakeLater(s, step.i, step.env, step.modOk, Do(s, step));
    } else if step.RetireOne? {
      S.RetireFootprint(s.data, step.i, step.key, step.closeOk);
    } else if step.Move? {
      MoveDataLater(s, step.i, step.move, step.modOk);
    } else {
      OtherData(s, step, Do(s, step));
    }
  }

  lemma ExecSized(d: S.Data, i: nat, kind: S.Kind, env: S.Env)
    requires S.Sized(d, i)
    ensures S.Sized(S.Exec(d, i, kind, env).0, i)
  {
  }

  lemma MoveDataLater(s: Sys, i: nat, m: R.Move, modOk: bool)
    requires Sized(s, i) && R.CanMove(s.ctl, i, m)
    requires m.Event? ==> s.data.tables[i].engine.sets.Keys <= s.data.tables[i].sessions.Keys
    ensures S.Later(s.data, MoveData(s, i, m, modOk))
  {
  }

  /** Callers, the control threads and accept loops leave the data to the workers,
      but for the entries of listeners in the owner map. */
  lemma OtherData(s: Sys, step: Step, t: Sys)
    requires Enabled(s, step) && !step.Move? && !step.RetireOne? && t == Do(s, step)
    ensures t.data == s.data.(allocs := t.data.allocs, owners := t.data.owners)
    ensures t.loops.Keys <= s.loops.Keys
  {
  }

  lemma TakeLater(s: Sys, i: nat, env: S.Env, modOk: bool, t: Sys)
    requires S.Inv(s.data) && Enabled(s, Move(i, R.TakeOp, env, modOk)) && t == Do(s, Move(i, R.TakeOp, env, modOk))
    requires t.data.allocs < WIDTH
    ensures S.Later(s.data, t.data)
  {
    if s.ctl.stopping || !s.ctl.live {
      LaterRefl(s.data);
    } else {
      S.ExecLater(s.data, i, s.ops[s.queues[i][0]].kind, env);
    }
  }

  lemma NextLater(s: Sys, t: Sys)
    requires SysInv(s) && Next(s, t) && t.data.allocs < WIDTH
    ensures S.Later(s.data, t.data)
  {
    var step :| Enabled(s, step) && t == Do(s, step);
    StepLater(s, step);
  }

  lemma {:induction false} LaterAlongRun(run: seq<Sys>, p: nat, q: nat)
    requires p <= q < |run| && |run[p].data.tables| == |run[p].data.open|
    requires forall k :: 0 <= k < |run| - 1 ==> S.Later(run[k].data, run[k + 1].data)
    ensures S.Later(run[p].data, run[q].data)
    decreases q
  {
    if p < q {
      LaterAlongRun(run, p, q - 1);
      assert S.Later(run[q - 1].data, run[q - 1 + 1].data);
      LaterTrans(run[p].data, run[q - 1].data, run[q].data);
    } else {
      LaterRefl(run[p].data);
    }
  }

  lemma LaterTrans(d: S.Data, e: S.Data, f: S.Data)
    requires S.Later(d, e) && S.Later(e, f)
    ensures S.Later(d, f)
  {
  }

  lemma HandlesKeepTheirSession(run: seq<Sys>, p: nat, q: nat)
    requires IsRun(run) && run[|run| - 1].data.allocs < WIDTH && p <= q < |run|
    ensures S.Later(run[p].data, run[q].data)
  {
    forall k | 0 <= k < |run| - 1 ensures S.Later(run[k].data, run[k + 1].data) {
      LaterAt(run, k);
    }
    SizedAt(run, p);
    LaterAlongRun(run, p, q);
  }

  lemma LaterAt(run: seq<Sys>, k: nat)
    requires IsRun(run) && run[|run| - 1].data.allocs < WIDTH && k < |run| - 1
    ensures S.Later(run[k].data, run[k + 1].data)
  {
    RunsAreSound(run);
    AllocsBounded(run, k + 1);
    assert Next(run[k], run[k + 1]);
    NextLater(run[k], run[k + 1]);
  }

  lemma SizedAt(run: seq<Sys>, p: nat)
    requires IsRun(run) && run[|run| - 1].data.allocs < WIDTH && p < |run|
    ensures |run[p].data.tables| == |run[p].data.open|
  {
    RunsAreSound(run);
  }

  /** So over a whole run every foreign call made for a handle, at any time,
      reached the one session that handle was created for. */
  lemma EveryTouchIsItsOwn(run: seq<Sys>, p: nat, q: nat, x: S.Touch)
    requires IsRun(run) && run[|run| - 1].data.allocs < WIDTH && p <= q < |run|
    requires x in run[p].data.touched && x.ByHandle?
    ensures x.handle in run[q].data.born
    ensures run[q].data.born[x.handle].worker == x.worker && run[q].data.born[x.handle].sess == x.sess
  {
    TouchAt(run, p, x);
    HandlesKeepTheirSession(run, p, q);
  }

  lemma TouchAt(run: seq<Sys>, p: nat, x: S.Touch)
    requires IsRun(run) && run[|run| - 1].data.allocs < WIDTH && p < |run| && x in run[p].data.touched
    ensures S.TouchOk(run[p].data, x)
  {
    RunsAreSound(run);
  }

  // ---------------------------------------------------------------- operations

  /** An operation is run at most once, by its target worker, while that worker
      is draining its queue and neither stop nor shutdown has begun. */
  lemma RunsOnlyOnTarget(s: Sys, step: Step, o: nat)
    requires SysInv(s) && Enabled(s, step) && o in s.ops
    ensures o in Do(s, step).ops
    ensures Do(s, step).ops[o].runs != s.ops[o].runs ==>
              && step.Move? && step.move.TakeOp? && step.i == s.ops[o].worker
              && s.ctl.phases[step.i].Draining? && !s.ctl.stopping && s.ctl.live
              && s.ops[o].runs == 0 && Do(s, step).ops[o].runs == 1
  {
    if step.Move? && step.move.TakeOp? {
      assert QueueOk(s, step.i) && OpOk(s, o, s.ops[o]);
      TakeRuns(s, step.i, step.env, step.modOk, o);
    } else {
      OthersRunNothing(s, step, o);
    }
  }

  lemma TakeRuns(s: Sys, i: nat, env: S.Env, modOk: bool, o: nat)
    requires MailInv(s) && Enabled(s, Move(i, R.TakeOp, env, modOk)) && o in s.ops && OpOk(s, o, s.ops[o])
    ensures var t := Do(s, Move(i, R.TakeOp, env, modOk));
            && o in t.ops
            && (t.ops[o].runs != s.ops[o].runs ==>
                  i == s.ops[o].worker && s.ctl.phases[i].Draining? && !s.ctl.stopping && s.ctl.live
                  && s.ops[o].runs == 0 && t.ops[o].runs == 1)
  {
    assert QueueOk(s, i);
  }

  lemma OthersRunNothing(s: Sys, step: Step, o: nat)
    requires Enabled(s, step) && o in s.ops && !(step.Move? && step.move.TakeOp?)
    ensures o in Do(s, step).ops && Do(s, step).ops[o].runs == s.ops[o].runs
  {
  }

  /** A dequeued operation has exactly one reply; submit returns that reply, or
      ErrClosed once the worker has quiesced; anything else it returns proves
      that the operation ran. */
  lemma ResultsAreReplies(s: Sys, o: nat)
    requires SysInv(s) && o in s.ops
    ensures s.ops[o].stage.Taken? <==> |s.ops[o].replies| == 1
    ensures s.ops[o].runs <= 1 && |s.ops[o].replies| <= 1
    ensures s.ops[o].result.Some? && s.ops[o].result.value != S.ErrClosed ==>
              s.ops[o].runs == 1 && s.ops[o].replies == [s.ops[o].result.value]
    ensures s.ops[o].result == Some(S.ErrClosed) ==>
              s.ops[o].replies == [S.ErrClosed] || Quiesced(s, s.ops[o].worker)
  {
    assert OpOk(s, o, s.ops[o]);
  }

  /** Steps of the submitter itself or of the worker it waits for. */
  predicate HelpsAt(step: Step, o: nat, i: nat) {
    match step
    case Send(p) => p == o
    case Receive(p) => p == o
    case GiveUp(p) => p == o
    case Move(j, _, _, _) => j == i
    case RetireOne(j, _, _) => j == i
    case Flush(j) => j == i
    case _ => false
  }

  const REFUSAL := S.Env(false, 0, false, false, false, false)

  /** A worker that has not quiesced is never blocked once the app is live. */
  lemma WorkerCanMove(s: Sys, i: nat) returns (step: Step)
    requires SysInv(s) && s.ctl.init.Ready? && i < |s.queues| && !Quiesced(s, i)
    ensures Enabled(s, step) && HelpsAt(step, 0, i) && !step.Send? && !step.Receive? && !step.GiveUp?
  {
    assert QueueOk(s, i) && S.WorkerOk(s.data, i);
    step := StartedCanMove(s, i);
  }

  /** Registered, not quiesced, and past the start signal or told to stop. */
  predicate IsUp(c: R.Control, i: nat) {
    && i < |c.phases| && !R.Outside(c.phases[i]) && !c.phases[i].Registering? && !R.HasQuiesced(c.phases[i])
    && (c.phases[i].AwaitStart? ==> c.startCh || i in c.stopCh)
  }

  /** A worker may move if it serves, its queue holds operations, and it watches nothing
      but listed sessions. */
  lemma StartedCanMove(s: Sys, i: nat) returns (step: Step)
    requires IsUp(s.ctl, i) && Sized(s, i)
    requires s.queues[i] == [] || s.queues[i][0] in s.ops
    requires s.data.tables[i].engine.sets.Keys <= s.data.tables[i].sessions.Keys
    ensures Enabled(s, step) && HelpsAt(step, 0, i) && !step.Send? && !step.Receive? && !step.GiveUp?
  {
    var p := s.ctl.phases[i];
    var m: R.Move := if s.ctl.startCh then R.Start else R.StopEarly;
    if p.MakeEpoll? { m := R.EpollMade(true); }
    else if p.LoopTop? { m := if i in s.ctl.stopCh then R.LoopStop else R.LoopGo; }
    else if p.Draining? { m := if p.left == 0 || s.queues[i] == [] then R.DrainDone([]) else R.TakeOp; }
    else if p.Polled? { m := if |p.events| > 0 then R.Event else R.EventsDone; }
    else if p.Waking? { m := R.WakeAllNow; }
    else if p.Closing? {
      var listed := s.data.tables[i].sessions;
      if listed != map[] {
        assert (forall k :: k !in listed) ==> listed == map[];
        var key :| key in listed;
        return RetireOne(i, key, true);
      }
      m := R.RetireDone;
    } else if p.Flushing? {
      if s.queues[i] != [] {
        return Flush(i);
      }
      m := R.FlushDone;
    }
    step := Move(i, m, REFUSAL, true);
  }

  /** No submitter is ever stuck: in every reachable state, with a full queue or
      an operation enqueued after the last drain, either it can step itself or
      the worker it waits for can. */
  lemma SubmitterNeverStuck(s: Sys, o: nat) returns (step: Step)
    requires SysInv(s) && o in s.ops && s.ops[o].result.None?
    ensures Enabled(s, step) && HelpsAt(step, o, s.ops[o].worker)
  {
    assert s.ops != map[];
    assert OpOk(s, o, s.ops[o]);
    if Quiesced(s, s.ops[o].worker) {
      step := GiveUp(o);
    } else {
      step := WorkerCanMove(s, s.ops[o].worker);
    }
  }

  // ---------------------------------------------------------------- waiters

  /** A waiter whose registration succeeded is parked and unwoken, or it has left
      its wait set and its channel was closed exactly once. */
  lemma WaiterPartition(s: Sys, o: nat, h: VLSH, raw: VLSH, w: Waiter)
    requires SysInv(s) && o in s.ops && s.ops[o].kind == S.AddWait(h, raw, w) && s.ops[o].replies == [S.Done]
    ensures var i := s.ops[o].worker;
            && i < |s.data.tables|
            && var e := s.data.tables[i].engine;
            && e.woken[w] <= 1
            && (e.woken[w] == 0 <==> h in e.sets && w in e.sets[h].waiters)
  {
    assert AddDone(s, s.ops[o]);
    assert w in S.JoinedBy(s.ops[o].kind);
    assert S.WorkerOk(s.data, s.ops[o].worker);
  }

  /** The answer of a cancellation that its worker runs: true exactly when the waiter
      had been woken by something else; afterwards it is woken. */
  lemma CancelAnswer(s: Sys, i: nat, o: nat, env: S.Env, h: VLSH, raw: VLSH, w: Waiter)
    requires AboutToRun(s, i, o, env) && s.ops[o].kind == S.CancelWait(h, raw, w)
    ensures o in AfterRun(s, i, env).ops && i < |s.data.tables|
    ensures AfterRun(s, i, env).ops[o].replies == [S.Flag(s.data.tables[i].engine.woken[w] == 1)]
    ensures i < |AfterRun(s, i, env).data.tables| && AfterRun(s, i, env).data.tables[i].engine.woken[w] == 1
  {
    TakenWellIssued(s, i);
    AfterRunIs(s, i, o, env);
    CancelTells(s.data, i, env, h, raw, w);
  }

  lemma AfterRunIs(s: Sys, i: nat, o: nat, env: S.Env)
    requires AboutToRun(s, i, o, env)
    ensures o in s.ops && S.Sized(s.data, i)
    ensures var (d, reply) := S.Exec(s.data, i, s.ops[o].kind, env);
            AfterRun(s, i, env).data == d && o in AfterRun(s, i, env).ops && AfterRun(s, i, env).ops[o].replies == [reply]
  {
    assert QueueOk(s, i) && OpOk(s, o, s.ops[o]);
  }

  lemma CancelTells(d: S.Data, i: nat, env: S.Env, h: VLSH, raw: VLSH, w: Waiter)
    requires S.Inv(d) && S.Sized(d, i) && S.WellIssued(d, i, S.CancelWait(h, raw, w))
    ensures var (u, reply) := S.Exec(d, i, S.CancelWait(h, raw, w), env);
            && reply == S.Flag(d.tables[i].engine.woken[w] == 1)
            && i < |u.tables| && u.tables[i].engine.woken[w] == 1
  {
    assert S.WorkerOk(d, i);
    S.ResolveMeans(d, i, h, raw, env.owned);
    T.CancelTellsWhoWoke(d.tables[i], h, raw, w, env.ctlOk);
  }

  /** How pollWaitContext returns once its waiter is registered, apart from the answer
      of a cancellation: the waiter is ready, the worker has quiesced, or submit
      refuses the cancellation. */
  datatype Exit = ByReady | ByQuiesced | ByRefusal

  predicate ExitOpen(s: Sys, i: nat, w: Waiter, exit: Exit)
    requires i < |s.data.tables|
  {
    match exit
    case ByReady => w in s.data.tables[i].engine.woken
    case ByQuiesced => Quiesced(s, i)
    case ByRefusal => s.ctl.stopping || !s.ctl.live || Quiesced(s, i)
  }

  predicate Answer(s: Sys, i: nat, w: Waiter, exit: Exit)
    requires i < |s.data.tables|
  {
    match exit
    case ByReady => true
    case ByQuiesced => false
    case ByRefusal => w in s.data.tables[i].engine.woken
  }

  /** A true answer means that the waiter was woken.  A false one means that it was
      not, as long as its worker has not quiesced; from then on the waiter has been
      woken and both answers are open. */
  lemma PollWaitAnswers(s: Sys, o: nat, h: VLSH, raw: VLSH, w: Waiter, exit: Exit)
    requires SysInv(s) && o in s.ops && s.ops[o].kind == S.AddWait(h, raw, w) && s.ops[o].replies == [S.Done]
    ensures var i := s.ops[o].worker;
            && i < |s.data.tables|
            && var woken := s.data.tables[i].engine.woken[w];
            && woken <= 1
            && (ExitOpen(s, i, w, exit) && Answer(s, i, w, exit) ==> woken == 1)
            && (ExitOpen(s, i, w, exit) && !Answer(s, i, w, exit) && woken == 1 ==> Quiesced(s, i))
            && (Quiesced(s, i) <==> ExitOpen(s, i, w, ByReady) && ExitOpen(s, i, w, ByQuiesced))
  {
    WaiterPartition(s, o, h, raw, w);
    var i := s.ops[o].worker;
    assert S.WorkerOk(s.data, i);
    if Quiesced(s, i) {
      assert s.data.tables[i].sessions == map[];
      assert h !in s.data.tables[i].engine.sets.Keys;
    }
  }

  /** Epoll mirrors the wait sets on every worker in every reachable state. */
  lemma EpollMirrorsWaitSets(s: Sys, i: nat, k: VLSH)
    requires SysInv(s) && i < |s.data.tables|
    ensures var t := s.data.tables[i];
            && (k in t.engine.sets ==>
                  && k in t.sessions && t.engine.sets[k].waiters != {}
                  && t.engine.sets[k].events == Combined(t.engine.sets[k].waiters)
                  && t.sessions[k] in t.engine.epoll && t.sessions[k] in s.data.open[i]
                  && t.engine.epoll[t.sessions[k]] == Interest(k, t.engine.sets[k].events))
            && (forall r :: r in t.engine.epoll ==>
                  && t.engine.epoll[r].key in t.engine.sets && t.engine.epoll[r].key in t.sessions
                  && t.sessions[t.engine.epoll[r].key] == r)
  {
    assert S.WorkerOk(s.data, i);
    if k in s.data.tables[i].engine.sets {
      assert S.EntryOk(s.data, i, k, s.data.tables[i].sessions[k]);
    }
  }

  // ---------------------------------------------------------------- retirement

  /** A quiesced worker has nothing left in its table, and every session ever
      registered on it was closed exactly once and is gone from the owner map. */
  lemma QuiescedWorkerClosedAll(s: Sys, i: nat, h: VLSH)
    requires SysInv(s) && Quiesced(s, i) && h in s.data.born && s.data.born[h].worker == i
    ensures s.data.tables[i].sessions == map[]
    ensures s.data.closes[s.data.born[h].sess] == 1
    ensures !(h in s.data.owners && s.data.owners[h].SessionRef?)
  {
    assert s.data.tables[i].sessions == map[];
    S.OwnedIsListed(s.data, h);
  }

  /** The app is destroyed at most once.  A worker destroys it only after every
      started worker has quiesced with all its sessions closed, and every other
      started worker has also finished its unregister call; the Mode 3 dispatcher,
      reached by a shutdown that overtook initialisation, while every worker is up. */
  lemma AppDestroyedLast(s: Sys)
    requires SysInv(s)
    ensures s.ctl.destroys + s.ctl.overruns <= 1 && (s.ctl.destroys == 1 ==> s.ctl.created)
    ensures s.ctl.overruns == 1 ==> s.ctl.stopCh == {} && forall j :: 0 <= j < |s.ctl.phases| ==> !Quiesced(s, j)
    ensures s.ctl.destroys == 1 && !s.ctl.dud ==>
              && (forall j :: 0 < j < |s.ctl.phases| ==> s.ctl.phases[j].Exited? || R.Outside(s.ctl.phases[j]))
              && (forall j :: 0 <= j < s.ctl.count ==> s.data.tables[j].sessions == map[])
              && (forall h :: h in s.data.born ==> s.data.closes[s.data.born[h].sess] == 1)
    ensures s.ctl.dud ==> s.data.born == map[] && s.ctl.count == 0
  {
    R.OrderedDestroy(s.ctl);
    R.OverrunMeans(s.ctl);
    if s.ctl.destroys == 1 && !s.ctl.dud {
      forall j | 0 <= j < s.ctl.count ensures s.data.tables[j].sessions == map[] {
        assert Quiesced(s, j);
      }
      forall h | h in s.data.born ensures s.data.closes[s.data.born[h].sess] == 1 {
        assert s.data.born != map[];
        QuiescedWorkerClosedAll(s, s.data.born[h].worker, h);
      }
    }
  }
}
