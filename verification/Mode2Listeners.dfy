/** Which listeners a worker closes when it quiesces (worker.go quiesce): the ones
    whose accept loop has entered them into the session table to wait on them. */
module Mode2Listeners {
  import opened WaitEngine
  import opened Handles
  import T = WorkerTables
  import S = Sessions
  import R = Retirement
  import Runs
  import opened Mode2
  import opened Mode2Laws
  import opened Mode2Queries

  /** The shard is listed and its worker's session table does not know it. */
  ghost predicate Spared(d: S.Data, l: nat) {
    && l in d.shards && d.shards[l].worker < |d.tables|
    && RawKey(d.shards[l].raw) !in d.tables[d.shards[l].worker].sessions
  }

  /** Worker `i`, the shard's home, runs no more operations. */
  ghost predicate Winding(s: Sys, i: nat, l: nat) {
    l in s.loops && l in s.data.home && s.data.home[l].worker == i && !RunnableAt(s, i)
  }

  ghost predicate Unmoved(s: Sys, t: Sys, i: nat, l: nat) {
    Winding(t, i, l) && (Spared(t.data, l) <==> Spared(s.data, l))
  }

  /** Shards and session tables stay as they are. */
  lemma SameTables(d: S.Data, u: S.Data, l: nat)
    requires u.shards == d.shards && |u.tables| == |d.tables|
    requires forall j :: 0 <= j < |d.tables| ==> u.tables[j].sessions == d.tables[j].sessions
    ensures Spared(u, l) <==> Spared(d, l)
  {
  }

  lemma OtherUnmoved(s: Sys, step: Step, t: Sys, i: nat, l: nat)
    requires R.Inv(s.ctl) && s.ctl.init.Ready? && |s.data.tables| == |s.data.open| && Winding(s, i, l)
    requires Enabled(s, step) && !step.Move? && !step.RetireOne? && t == Do(s, step)
    ensures Unmoved(s, t, i, l)
  {
    OtherData(s, step, t);
    SameTables(s.data, t.data, l);
    OtherRunnable(s, step, t, i);
    OtherLoops(s, step, t, l);
  }

  lemma OtherRunnable(s: Sys, step: Step, t: Sys, i: nat)
    requires R.Inv(s.ctl) && Enabled(s, step) && !step.Move? && t == Do(s, step) && !RunnableAt(s, i)
    ensures !RunnableAt(t, i)
  {
    if step.Main? {
      R.MainStays(s.ctl, step.main);
    }
  }

  lemma OtherLoops(s: Sys, step: Step, t: Sys, l: nat)
    requires Enabled(s, step) && t == Do(s, step) && !step.Move? && l in s.loops
    ensures l in t.loops
  {
  }

  lemma MoveSessions(s: Sys, i: nat, m: R.Move, modOk: bool)
    requires S.Inv(s.data) && Sized(s, i) && R.CanMove(s.ctl, i, m)
    requires m.Event? ==> s.data.tables[i].engine.sets.Keys <= s.data.tables[i].sessions.Keys
    ensures var u := MoveData(s, i, m, modOk);
            && u.home == s.data.home && u.shards == s.data.shards && |u.tables| == |s.data.tables|
            && forall j :: 0 <= j < |s.data.tables| ==> u.tables[j].sessions == s.data.tables[j].sessions
  {
    assert S.WorkerOk(s.data, i);
    if m.Event? {
      var (key, events) := s.ctl.phases[i].events[0];
      EventTables(s.data.tables[i], key, events, modOk);
    } else if m.WakeAllNow? {
      WakeTables(s.data.tables[i]);
    }
  }

  lemma MoveUnmoved(s: Sys, j: nat, m: R.Move, env: S.Env, modOk: bool, t: Sys, i: nat, l: nat)
    requires SysInv(s) && Winding(s, i, l) && !m.TakeOp?
    requires Enabled(s, Move(j, m, env, modOk)) && t == Do(s, Move(j, m, env, modOk))
    ensures Unmoved(s, t, i, l)
  {
    assert s.loops != map[];
    MovedRunnable(s, j, m, t);
    MoveSessions(s, j, m, modOk);
    SameTables(s.data, t.data, l);
  }

  /** Closures of another worker do not reach the shard. */
  lemma ExecUnmoved(d: S.Data, j: nat, kind: S.Kind, env: S.Env, i: nat, l: nat)
    requires S.Sized(d, j) && (l in d.shards ==> S.Sized(d, i)) && j != i
    requires l in d.home && d.home[l].worker == i && l != d.nextSess
    requires !S.Closes(kind, l) && (l in d.shards ==> d.shards[l] == d.home[l])
    ensures Spared(S.Exec(d, j, kind, env).0, l) <==> Spared(d, l)
  {
    S.ExecTables(d, j, kind, env);
    S.ExecShards(d, j, kind, env);
  }

  lemma RetireUnmoved(d: S.Data, j: nat, key: VLSH, closeOk: bool, l: nat)
    requires S.Inv(d) && S.Sized(d, j) && key in d.tables[j].sessions && l in d.home
    ensures var u := S.Retire(d, j, key, closeOk);
            u.home == d.home && (Spared(u, l) <==> Spared(d, l))
  {
    assert S.WorkerOk(d, j) && S.EntryOk(d, j, key, d.tables[j].sessions[key]);
  }

  /** A queued operation of another worker does not close the shard. */
  lemma NotItsCloser(s: Sys, j: nat, i: nat, l: nat)
    requires SysInv(s) && Winding(s, i, l) && j != i && j < |s.queues| && s.queues[j] != []
    ensures s.queues[j][0] in s.ops && !S.Closes(s.ops[s.queues[j][0]].kind, l)
  {
    var o := s.queues[j][0];
    assert QueueOk(s, j) && KindOk(s, o, s.ops[o]);
  }

  /** The state after worker `j` ran an operation that is not the shard's close. */
  lemma RanUnmoved(s: Sys, j: nat, op: Op, o: nat, env: S.Env, u: Sys, i: nat, l: nat)
    requires S.Inv(s.data) && Winding(s, i, l) && Sized(s, j) && s.queues[j] != [] && j != i
    requires !S.Closes(op.kind, l) && l != s.data.nextSess && s.data.nextSess !in s.data.home
    requires u == Took(s, j, o, op, env)
    ensures u.ctl == s.ctl && l in u.loops && l in u.data.home && u.data.home[l] == s.data.home[l]
    ensures Spared(u.data, l) <==> Spared(s.data, l)
  {
    HomeStays(s.data, j, op.kind, env, l);
    ExecUnmoved(s.data, j, op.kind, env, i, l);
  }

  lemma TakeUnmoved(s: Sys, j: nat, env: S.Env, modOk: bool, t: Sys, i: nat, l: nat)
    requires SysInv(s) && Winding(s, i, l)
    requires Enabled(s, Move(j, R.TakeOp, env, modOk)) && t == Do(s, Move(j, R.TakeOp, env, modOk))
    ensures Unmoved(s, t, i, l)
  {
    assert s.loops != map[];
    MovedRunnable(s, j, R.TakeOp, t);
    NotItsCloser(s, j, i, l);
    LoopsAreOld(s);
    var o := s.queues[j][0];
    var u := s.(ctl := t.ctl);
    RanUnmoved(u, j, u.ops[o], o, env, t, i, l);
  }

  lemma HomeStays(d: S.Data, j: nat, kind: S.Kind, env: S.Env, l: nat)
    requires S.Sized(d, j) && l in d.home && l != d.nextSess
    ensures var u := S.Exec(d, j, kind, env).0; l in u.home && u.home[l] == d.home[l]
  {
  }

  lemma StepUnmoved(s: Sys, step: Step, t: Sys, i: nat, l: nat)
    requires SysInv(s) && Winding(s, i, l) && Enabled(s, step) && t == Do(s, step)
    ensures Unmoved(s, t, i, l)
  {
    if step.RetireOne? {
      RetireUnmoved(s.data, step.i, step.key, step.closeOk, l);
    } else if !step.Move? {
      assert s.loops != map[];
      OtherUnmoved(s, step, t, i, l);
    } else {
      WorkerUnmoved(s, step, t, i, l);
    }
  }

  lemma WorkerUnmoved(s: Sys, step: Step, t: Sys, i: nat, l: nat)
    requires SysInv(s) && Winding(s, i, l) && Enabled(s, step) && step.Move? && t == Do(s, step)
    ensures Unmoved(s, t, i, l)
  {
    if step.move.TakeOp? {
      TakeUnmoved(s, step.i, step.env, step.modOk, t, i, l);
    } else {
      MoveUnmoved(s, step.i, step.move, step.env, step.modOk, t, i, l);
    }
  }

  /** What a continuation keeps, as long as handles have not wrapped. */
  ghost predicate Steady(s: Sys, i: nat, l: nat, spared: bool) {
    s.data.allocs < WIDTH ==> SysInv(s) && QueriesOk(s) && Winding(s, i, l) && Spared(s.data, l) == spared
  }

  lemma NextSteady(s: Sys, t: Sys, i: nat, l: nat, spared: bool)
    requires Steady(s, i, l, spared) && Next(s, t)
    ensures Steady(t, i, l, spared)
  {
    NextGrows(s, t);
    if t.data.allocs < WIDTH {
      NextQueries(s, t);
      var step :| Enabled(s, step) && t == Do(s, step);
      StepUnmoved(s, step, t, i, l);
    }
  }

  lemma SparedAtEnd(s: Sys, i: nat, l: nat)
    requires SysInv(s) && QueriesOk(s) && Winding(s, i, l) && Quiesced(s, i)
    ensures s.data.closes[l] == (if Spared(s.data, l) then 0 else 1)
    ensures Spared(s.data, l) ==> S.Sized(s.data, i) && S.SessAt(s.data, i, s.data.home[l].raw) == l
  {
  }

  /** A listener whose worker has left its loop is closed, once, while the worker
      quiesces, exactly if its accept loop had entered it into the session table or it
      had been closed before; any other listener is left open. */
  lemma QuiesceClosesIff(run: seq<Sys>, s: Sys, i: nat, l: nat)
    requires SysInv(s) && QueriesOk(s) && Winding(s, i, l) && Runs.From(Next, run, s)
    requires run[|run| - 1].data.allocs < WIDTH && Quiesced(run[|run| - 1], i)
    ensures var d := run[|run| - 1].data;
            && d.closes[l] == (if Spared(s.data, l) then 0 else 1)
            && (Spared(s.data, l) ==> l in d.home && S.Sized(d, i) && S.SessAt(d, i, d.home[l].raw) == l)
  {
    var spared := Spared(s.data, l);
    var steady := (x: Sys) => Steady(x, i, l, spared);
    forall u, v | steady(u) && Next(u, v) ensures steady(v) {
      NextSteady(u, v, i, l, spared);
    }
    Runs.Forwards(Next, steady, run, s);
    SparedAtEnd(run[|run| - 1], i, l);
  }

  /** So a listener whose accept loop was never started is left open. */
  lemma UnservedIsSpared(s: Sys, l: nat)
    requires SysInv(s) && l in s.loops && s.loops[l].Fresh? && l in s.data.shards
    ensures Spared(s.data, l)
  {
    assert KeyOk(s, l, s.data.shards[l]);
  }
}
