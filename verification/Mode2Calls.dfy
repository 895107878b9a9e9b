/** The two ends of a call into a worker (lookup and submit in mode2.go), and what a
    worker does besides running closures: events and the session loop of quiesce. */
module Mode2Calls {
  import opened WaitEngine
  import opened WaitLaws
  import opened Handles
  import T = WorkerTables
  import S = Sessions
  import R = Retirement
  import L = RetirementLaws
  import opened Mode2
  import opened Mode2Laws
  import opened Mode2Answers
  import opened Options

  /** A lookup succeeds exactly for the handles in the owner map, and yields the worker
      and raw handle the session was born with. */
  lemma LookupYields(s: Sys, c: nat, h: VLSH)
    requires SysInv(s) && s.ctl.init.Ready? && h in s.data.born
    ensures Enabled(s, Lookup(c, h)) <==> h in s.data.owners
    ensures Enabled(s, Lookup(c, h)) ==>
              Do(s, Lookup(c, h)) == s.(refs := s.refs[c := Held(h, s.data.born[h].worker, s.data.born[h].raw)])
  {
    if h in s.data.owners {
      assert S.OwnerOk(s.data, h, s.data.owners[h]);
      if s.data.owners[h].SessionRef? {
        LookupAimed(s.data, h);
      }
    }
  }

  /** What a caller may ask of a handle it has looked up. */
  predicate OnHandle(kind: S.Kind, h: VLSH, raw: VLSH, o: nat) {
    || kind == S.Use(h, raw) || kind == S.AcceptFrom(h, raw) || kind == S.Close(h, raw) || kind == S.WakeHandle(h, raw)
    || (kind.AddWait? && kind.handle == h && kind.raw == raw && kind.w.id == o)
  }

  /** The operation `o` is new: parked at the queue, without a reply, for worker `i`. */
  ghost predicate Submitted(s: Sys, t: Sys, o: nat, i: nat, kind: S.Kind) {
    t == s.(ops := s.ops[o := Op(i, kind, Sending, 0, [], None)])
  }

  /** Calls on a handle once looked up, and the creation of sessions and listeners, can
      be submitted exactly until stopping or shutdown has begun. */
  lemma SubmitOpenIff(s: Sys, o: nat, i: nat, c: nat, h: VLSH, raw: VLSH, kind: S.Kind)
    requires s.ctl.init.Ready? && o !in s.ops && Sized(s, i)
    requires kind == S.Create || kind == S.Listen || (Holds(s, c, h, i, raw) && OnHandle(kind, h, raw, o))
    ensures Enabled(s, Submit(o, i, kind, c)) <==> s.ctl.live && !s.ctl.stopping
    ensures Enabled(s, Submit(o, i, kind, c)) ==> Submitted(s, Do(s, Submit(o, i, kind, c)), o, i, kind)
  {
  }

  /** So can the cancellation of a wait that was registered. */
  lemma CancelOpenIff(s: Sys, o: nat, x: nat, c: nat, h: VLSH, raw: VLSH, w: Waiter)
    requires MailInv(s) && KindsOk(s) && SizesOk(s) && o !in s.ops && x in s.ops
    requires s.ops[x].kind == S.AddWait(h, raw, w) && s.ops[x].result == Some(S.Done)
    ensures var i := s.ops[x].worker;
            && (Enabled(s, Submit(o, i, S.CancelWait(h, raw, w), c)) <==> s.ctl.live && !s.ctl.stopping)
            && (Enabled(s, Submit(o, i, S.CancelWait(h, raw, w), c)) ==>
                  Submitted(s, Do(s, Submit(o, i, S.CancelWait(h, raw, w), c)), o, i, S.CancelWait(h, raw, w)))
  {
    assert s.ops != map[];
    assert KindOk(s, x, s.ops[x]) && OpOk(s, x, s.ops[x]);
  }

  /** What may be asked of a shard: accepting and waiting by its idle accept loop, closing
      once that has finished or before it was started, querying by anybody at any time. */
  predicate OnShard(loop: Loop, kind: S.Kind, l: nat, raw: VLSH, o: nat) {
    || (loop.Serving? && (kind == S.ShardAccept(l, raw) || (kind.ShardCancel? && kind.shard == l && kind.raw == raw)))
    || (loop.Serving? && kind.ShardAdd? && kind.shard == l && kind.raw == raw && kind.w.id == o)
    || (loop.Finished? && kind == S.ShardClose(l, raw))
    || (loop.Fresh? && kind == S.ShardAbandon(l, raw))
    || kind == S.ShardQuery(l, raw)
  }

  lemma ShardOpenIff(s: Sys, o: nat, i: nat, c: nat, l: nat, raw: VLSH, kind: S.Kind)
    requires s.ctl.init.Ready? && o !in s.ops && Sized(s, i) && l in s.loops
    requires l in s.data.home && s.data.home[l] == S.Home(i, raw) && OnShard(s.loops[l], kind, l, raw, o)
    requires s.loops[l].Serving? ==> Settled(s, s.loops[l].op)
    ensures Enabled(s, Submit(o, i, kind, c)) <==> s.ctl.live && !s.ctl.stopping
    ensures Enabled(s, Submit(o, i, kind, c)) ==>
              var t := Do(s, Submit(o, i, kind, c));
              && Submitted(s.(loops := t.loops), t, o, i, kind)
              && t.loops == (if kind.ShardQuery? then s.loops
                             else s.loops[l := if s.loops[l].Serving? then Loop.Serving(Some(o)) else ClosingBy(o)])
    ensures s.loops[l].Fresh? ==> Enabled(s, StartLoop(l))
    ensures s.loops[l].Serving? ==> Enabled(s, LoopExit(l)) && Do(s, LoopExit(l)).loops == s.loops[l := Finished]
  {
  }

  /** A waiting submitter sends while its worker's queue of 256 has room, takes its reply
      once there is one, and may return ErrClosed exactly once the worker has quiesced,
      also when a reply is there. */
  lemma SubmitReturns(s: Sys, o: nat)
    requires MailInv(s) && o in s.ops && s.ops[o].result.None?
    ensures s.ops[o].worker < |s.queues|
    ensures s.ops[o].stage.Sending? ==> (Enabled(s, Send(o)) <==> |s.queues[s.ops[o].worker]| < 256)
    ensures Enabled(s, Receive(o)) <==> s.ops[o].stage.Taken?
    ensures Enabled(s, Receive(o)) ==> Do(s, Receive(o)).ops[o].result == Some(s.ops[o].replies[0])
    ensures Enabled(s, GiveUp(o)) <==> Quiesced(s, s.ops[o].worker)
    ensures Enabled(s, GiveUp(o)) ==> Do(s, GiveUp(o)).ops[o].result == Some(S.ErrClosed)
  {
    assert OpOk(s, o, s.ops[o]);
  }

  /** What a worker pops once stopping or shutdown has begun it refuses without running
      it; the caller gets ErrClosed. */
  lemma RefusedUnrun(s: Sys, i: nat, env: S.Env, modOk: bool)
    requires MailInv(s) && Enabled(s, Move(i, R.TakeOp, env, modOk)) && (s.ctl.stopping || !s.ctl.live)
    ensures var (o, t) := (s.queues[i][0], Do(s, Move(i, R.TakeOp, env, modOk)));
            && o in s.ops && o in t.ops && t.ops[o].replies == [S.ErrClosed] && t.ops[o].runs == s.ops[o].runs == 0
            && t.data == s.data && t.queues == s.queues[i := s.queues[i][1..]]
  {
    assert QueueOk(s, i) && OpOk(s, s.queues[i][0], s.ops[s.queues[i][0]]);
  }

  /** While neither has, what it pops it runs. */
  lemma PoppedIsRun(s: Sys, i: nat, o: nat, env: S.Env)
    requires AboutToRun(s, i, o, env)
    ensures o in s.ops && o in AfterRun(s, i, env).ops
    ensures s.ops[o].runs == 0 && AfterRun(s, i, env).ops[o].runs == 1
    ensures AfterRun(s, i, env).queues == s.queues[i := s.queues[i][1..]]
  {
    assert QueueOk(s, i) && OpOk(s, o, s.ops[o]);
  }

  /** An event wakes exactly the waiters of its key that it reaches. */
  lemma EventIsPrecise(s: Sys, i: nat, env: S.Env, modOk: bool)
    requires SysInv(s) && Enabled(s, Move(i, R.Event, env, modOk))
    ensures var (x, d, u) := (s.ctl.phases[i].events[0], s.data, Do(s, Move(i, R.Event, env, modOk)).data);
            && OnlyWaiters(d, u, i) && u.tables[i].sessions == d.tables[i].sessions
            && (if x.0 in d.tables[i].engine.sets then
                  && x.0 in d.tables[i].sessions
                  && Leaves(d.tables[i].engine, u.tables[i].engine, x.0, d.tables[i].sessions[x.0],
                            Reached(d.tables[i].engine, x.0, x.1), modOk)
                else u == d)
  {
    var (key, events) := s.ctl.phases[i].events[0];
    assert S.WorkerOk(s.data, i);
    HandleEventLeaves(s.data.tables[i], key, events, modOk);
    SetOnlyWaiters(s.data, i, T.HandleEvent(s.data.tables[i], key, events, modOk));
  }

  ghost predicate EntryRetired(d: S.Data, u: S.Data, i: nat, key: VLSH, ok: bool)
    requires S.Sized(d, i) && key in d.tables[i].sessions
  {
    var raw := d.tables[i].sessions[key];
    && raw in d.open[i] && SessionClosed(d, u, i, raw, ok)
    && u.owners == d.owners - {key} && |u.tables| == |d.tables|
    && u.tables[i] == d.tables[i].(sessions := d.tables[i].sessions - {key})
    && (forall j :: 0 <= j < |d.tables| && j != i ==> u.tables[j] == d.tables[j])
    && u.shards == d.shards - {d.open[i][raw]} && u.born == d.born && u.home == d.home && u.touched == d.touched
  }

  lemma RetireTells(d: S.Data, i: nat, key: VLSH, ok: bool)
    requires S.Inv(d) && S.Sized(d, i) && key in d.tables[i].sessions
    ensures EntryRetired(d, S.Retire(d, i, key, ok), i, key, ok)
  {
    assert S.WorkerOk(d, i) && S.EntryOk(d, i, key, d.tables[i].sessions[key]);
  }

  /** Retiring an entry closes its session, whatever the answer, and takes the entry off
      the table and the owner map; every other session, handle and listener stays. */
  lemma RetireOutcome(s: Sys, i: nat, key: VLSH, ok: bool)
    requires SysInv(s) && Enabled(s, RetireOne(i, key, ok))
    ensures EntryRetired(s.data, Do(s, RetireOne(i, key, ok)).data, i, key, ok)
  {
    RetireTells(s.data, i, key, ok);
  }

  /** A new listener's handle is no session's, and no other listener's while it is
      positive; only its own entry comes and goes. */
  lemma PublishTells(d: S.Data, id: nat)
    requires S.Inv(d) && d.allocs + 1 < WIDTH
    ensures var p := if d.allocs + 1 <= 0x7FFF_FFFF then d.allocs + 1 else d.allocs + 1 - 0x1_0000_0000;
            && p !in d.born && (p > 0 ==> p !in d.owners)
            && S.Publish(d, id) == d.(allocs := d.allocs + 1, owners := d.owners[p := S.ListenerRef(id)])
  {
    S.NewHandleFresh(d);
    assert Id(d.allocs + 1) == d.allocs + 1;
  }

  lemma ListenerEntry(s: Sys, id: nat)
    requires S.Inv(s.data) && s.ctl.init.Ready? && s.data.allocs + 1 < WIDTH
    ensures Enabled(s, Publish(id))
    ensures var (d, u) := (s.data, Do(s, Publish(id)).data);
            var p := if d.allocs + 1 <= 0x7FFF_FFFF then d.allocs + 1 else d.allocs + 1 - 0x1_0000_0000;
            && p !in d.born && (p > 0 ==> p !in d.owners)
            && u == d.(allocs := d.allocs + 1, owners := d.owners[p := S.ListenerRef(id)])
  {
    PublishTells(s.data, id);
  }

  lemma ListenerGone(s: Sys, p: VLSH)
    requires S.Inv(s.data) && s.ctl.init.Ready? && p in s.data.owners && s.data.owners[p].ListenerRef?
    ensures Enabled(s, Unpublish(p))
    ensures Do(s, Unpublish(p)).data == s.data.(owners := s.data.owners - {p}) && p !in s.data.born
  {
    assert S.OwnerOk(s.data, p, s.data.owners[p]);
  }

  // ---------------------------------------------------------------- teardown

  lemma ServingCanMove(s: Sys, i: nat) returns (step: Step)
    requires SysInv(s) && IsUp(s.ctl, i)
    ensures Enabled(s, step) && HelpsAt(step, 0, i) && !step.Send? && !step.Receive? && !step.GiveUp?
  {
    assert QueueOk(s, i) && S.WorkerOk(s.data, i);
    step := StartedCanMove(s, i);
  }

  predicate OfTurn(step: Step, t: L.Turn) {
    match t
    case ByMain(m) => step == Main(m)
    case ByWorker(i, m) => step.Move? && step.i == i && step.move == m
  }

  lemma TurnIsEnabled(s: Sys, t: L.Turn) returns (step: Step)
    requires L.CanTake(s.ctl, t) && (t.ByWorker? ==> Sized(s, t.i))
    requires t.ByWorker? ==> t.move.Register? || t.move.Start? || t.move.EpollMade? || t.move.Unregister? || t.move.DestroyApp?
    ensures Enabled(s, step) && OfTurn(step, t)
  {
    match t {
      case ByMain(m) => step := Main(m);
      case ByWorker(i, m) => step := Move(i, m, REFUSAL, true);
    }
  }

  /** Initialisation never stands still. */
  lemma InitialisationNeverStuck(s: Sys) returns (step: Step)
    requires SysInv(s) && !R.Open(s.ctl)
    ensures Enabled(s, step) && ((step.Main? && L.OfInit(step.main)) || (step.Move? && step.i == s.ctl.init.i))
  {
    var t := L.InitNeverStuck(s.ctl);
    step := TurnIsEnabled(s, t);
  }

  /** Nor does stop, whatever the workers are at: the stopping thread can go on, or a
      worker it waits for can. */
  lemma StopNeverStuck(s: Sys) returns (step: Step, i: nat)
    requires SysInv(s) && !s.ctl.stop.StopIdle? && !s.ctl.stop.Stopped?
    ensures Enabled(s, step)
    ensures (step.Main? && R.Stops(step.main)) || (i in s.ctl.stopCh && OfWorkerAt(step, i))
  {
    var t, waits := L.StopNeverStuck(s.ctl);
    i := if t.ByWorker? then t.i else 0;
    if waits {
      step := ServingCanMove(s, i);
    } else {
      step := TurnIsEnabled(s, t);
    }
  }

  /** A step of worker `i`. */
  predicate OfWorkerAt(step: Step, i: nat) {
    (step.Move? && step.i == i) || (step.RetireOne? && step.i == i) || (step.Flush? && step.i == i)
  }

  /** Nor does the destruction of the app, once stop has returned or is still to begin. */
  lemma DestructionNeverStuck(s: Sys) returns (step: Step)
    requires SysInv(s)
    requires s.ctl.destroy.AwaitDestroyed? || (s.ctl.destroy.InStop? && (s.ctl.stop.StopIdle? || s.ctl.stop.Stopped?))
    ensures Enabled(s, step)
    ensures (step.Main? && L.OfDestroy(step.main)) || (step.Move? && step.i == 0 && step.move.DestroyApp?)
  {
    var t := L.DestroyNeverStuck(s.ctl);
    step := TurnIsEnabled(s, t);
  }
}
