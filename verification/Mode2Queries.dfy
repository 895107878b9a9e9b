/** Address and option calls on a listener (getLocalAddr and setV6Only in mode2.go):
    the closure uses the raw handle of a shard that its caller found earlier, and
    the worker does not look again. */
module Mode2Queries {
  import opened Handles
  import T = WorkerTables
  import S = Sessions
  import R = Retirement
  import opened Mode2
  import opened Mode2Laws

  /** A session is open exactly until rawClose succeeds on it. */
  ghost predicate LiveAt(d: S.Data, s: nat)
    requires s in d.home && S.Sized(d, d.home[s].worker)
  {
    S.SessAt(d, d.home[s].worker, d.home[s].raw) == s <==> d.closes[s] == 0 || s in d.stuck
  }

  ghost predicate LiveOk(d: S.Data) {
    var n := |d.open|;
    && |d.tables| == n
    && (forall s :: s in d.home ==> d.home[s].worker < n && LiveAt(d, s))
    && (forall s :: s in d.stuck ==> d.closes[s] > 0)
  }

  /** Every shard ever made is listed or has been closed. */
  ghost predicate GoneOk(loops: map<nat, Loop>, d: S.Data) {
    forall l :: l in loops ==> l in d.home && (l in d.shards || d.closes[l] > 0)
  }

  lemma Frame(d: S.Data, u: S.Data)
    requires LiveOk(d) && u.open == d.open && u.home == d.home && u.closes == d.closes && u.stuck == d.stuck
    requires |u.tables| == |d.tables|
    ensures LiveOk(u)
  {
    forall s | s in u.home ensures u.home[s].worker < |u.open| && LiveAt(u, s) {
      assert LiveAt(d, s);
    }
  }

  lemma OpenLive(d: S.Data, i: nat, raw: int)
    requires S.Inv(d) && LiveOk(d) && S.Sized(d, i) && raw !in d.open[i]
    ensures LiveOk(S.Open(d, i, raw))
  {
    var u := S.Open(d, i, raw);
    assert d.nextSess !in d.home && d.closes[d.nextSess] == 0;
    forall s | s in u.home ensures u.home[s].worker < |u.open| && LiveAt(u, s) {
      if s != d.nextSess {
        assert LiveAt(d, s);
      }
    }
  }

  /** What a raw close needs: an open session that was not closed before. */
  ghost predicate Closable(d: S.Data, i: nat, raw: int)
    requires S.Sized(d, i)
  {
    && raw in d.open[i] && d.closes[d.open[i][raw]] == 0
    && d.open[i][raw] in d.home && d.home[d.open[i][raw]] == S.Home(i, raw)
  }

  lemma CloseLive(d: S.Data, i: nat, raw: int, ok: bool)
    requires LiveOk(d) && S.Sized(d, i) && Closable(d, i, raw)
    ensures LiveOk(S.CloseRaw(d, i, raw, ok))
  {
    var u := S.CloseRaw(d, i, raw, ok);
    forall s | s in u.home ensures u.home[s].worker < |u.open| && LiveAt(u, s) {
      assert LiveAt(d, s);
    }
  }

  lemma RegisterLive(d: S.Data, i: nat, raw: int, owned: bool)
    requires LiveOk(d) && S.Sized(d, i) && Closable(d, i, raw)
    ensures LiveOk(S.Register(d, i, raw, owned).0)
  {
    if !owned {
      CloseLive(d, i, raw, true);
    } else if !Usable(Id(d.allocs + 1)) {
      RefusedLive(d, i, raw);
    } else {
      BoundLive(d, i, raw, S.Register(d, i, raw, owned).0);
    }
  }

  lemma BoundLive(d: S.Data, i: nat, raw: int, u: S.Data)
    requires LiveOk(d) && S.Sized(d, i) && Usable(Id(d.allocs + 1)) && u == S.Register(d, i, raw, true).0
    ensures LiveOk(u)
  {
    Frame(d, u);
  }

  /** The counter has left the range of handles. */
  lemma RefusedLive(d: S.Data, i: nat, raw: int)
    requires LiveOk(d) && S.Sized(d, i) && Closable(d, i, raw)
    ensures LiveOk(S.CloseRaw(d.(allocs := d.allocs + 1), i, raw, true))
  {
    var c := d.(allocs := d.allocs + 1);
    Frame(d, c);
    CloseLive(c, i, raw, true);
  }

  lemma CreateLive(d: S.Data, i: nat, env: S.Env)
    requires S.Inv(d) && LiveOk(d) && S.Sized(d, i) && env.ok && S.EnvOk(d, i, env)
    ensures LiveOk(S.Register(S.Open(d, i, env.raw), i, env.raw, env.newOwned).0)
  {
    OpenLive(d, i, env.raw);
    assert d.closes[d.nextSess] == 0;
    RegisterLive(S.Open(d, i, env.raw), i, env.raw, env.newOwned);
  }

  lemma ListenLive(d: S.Data, i: nat, env: S.Env)
    requires S.Inv(d) && LiveOk(d) && S.Sized(d, i) && S.EnvOk(d, i, env)
    ensures LiveOk(S.Exec(d, i, S.Listen, env).0)
  {
    if env.ok {
      OpenLive(d, i, env.raw);
      var u := S.Open(d, i, env.raw);
      assert d.closes[d.nextSess] == 0;
      if env.newOwned {
        Frame(u, S.Exec(d, i, S.Listen, env).0);
      } else {
        CloseLive(u, i, env.raw, true);
      }
    }
  }

  lemma SessionClosable(d: S.Data, i: nat, h: int, raw: int, owned: bool)
    requires S.Inv(d) && S.Sized(d, i) && T.Resolve(d.tables[i], h, raw, owned).OwnedRaw?
    ensures Closable(d, i, raw)
  {
    assert S.WorkerOk(d, i) && S.EntryOk(d, i, h, d.tables[i].sessions[h]);
  }

  lemma ShardClosable(d: S.Data, i: nat, l: nat, raw: int)
    requires S.Inv(d) && S.Sized(d, i) && S.OnShard(d, i, l, raw)
    ensures Closable(d, i, raw) && S.SessAt(d, i, raw) == l
  {
    assert S.WorkerOk(d, i);
  }

  lemma CloseKindLive(d: S.Data, i: nat, h: int, raw: int, env: S.Env)
    requires S.Inv(d) && LiveOk(d) && S.Sized(d, i)
    ensures LiveOk(S.Exec(d, i, S.Close(h, raw), env).0)
  {
    if T.Resolve(d.tables[i], h, raw, env.owned).OwnedRaw? {
      SessionClosable(d, i, h, raw, env.owned);
      var u := S.TouchHandle(S.SetTables(d, i, T.RemoveWaiters(d.tables[i], h, raw)), i, h, raw);
      Frame(d, u);
      CloseLive(u, i, raw, env.closeOk);
      Frame(S.CloseRaw(u, i, raw, env.closeOk), S.Exec(d, i, S.Close(h, raw), env).0);
    }
  }

  lemma ShardCloseLive(d: S.Data, i: nat, kind: S.Kind, env: S.Env)
    requires S.Inv(d) && LiveOk(d) && S.Sized(d, i) && S.WellIssued(d, i, kind)
    requires kind.ShardClose? || kind.ShardAbandon?
    ensures LiveOk(S.Exec(d, i, kind, env).0)
  {
    ShardClosable(d, i, kind.shard, kind.raw);
    var u := if kind.ShardClose? then S.SetTables(d, i, T.RemoveWaitersRaw(d.tables[i], kind.raw)) else d;
    Frame(d, u);
    CloseLive(u, i, kind.raw, env.closeOk);
    Frame(S.CloseRaw(u, i, kind.raw, env.closeOk), S.Exec(d, i, kind, env).0);
  }

  lemma AcceptLive(d: S.Data, i: nat, env: S.Env, touch: S.Touch)
    requires S.Inv(d) && LiveOk(d) && S.Sized(d, i) && S.EnvOk(d, i, env) && S.TouchOk(d, touch)
    ensures var u := d.(touched := d.touched + {touch});
            LiveOk(u) && (env.ok ==> LiveOk(S.Register(S.Open(u, i, env.raw), i, env.raw, env.newOwned).0))
  {
    var u := d.(touched := d.touched + {touch});
    S.TouchKeeps(d, touch);
    Frame(d, u);
    if env.ok {
      CreateLive(u, i, env);
    }
  }

  lemma AcceptFromLive(d: S.Data, i: nat, h: int, raw: int, env: S.Env)
    requires S.Inv(d) && LiveOk(d) && S.Sized(d, i) && S.Aimed(d, i, h, raw) && S.EnvOk(d, i, env)
    ensures LiveOk(S.Exec(d, i, S.AcceptFrom(h, raw), env).0)
  {
    S.ResolveMeans(d, i, h, raw, env.owned);
    if T.Resolve(d.tables[i], h, raw, env.owned).OwnedRaw? {
      AcceptLive(d, i, env, S.ByHandle(h, i, S.SessAt(d, i, raw)));
    }
  }

  lemma ShardAcceptLive(d: S.Data, i: nat, l: nat, raw: int, env: S.Env)
    requires S.Inv(d) && LiveOk(d) && S.Sized(d, i) && S.OnShard(d, i, l, raw) && S.EnvOk(d, i, env)
    ensures LiveOk(S.Exec(d, i, S.ShardAccept(l, raw), env).0)
  {
    ShardClosable(d, i, l, raw);
    AcceptLive(d, i, env, S.ByShard(l, i, S.SessAt(d, i, raw)));
  }

  /** Closures that open and close nothing. */
  lemma OtherLive(d: S.Data, i: nat, kind: S.Kind, env: S.Env)
    requires LiveOk(d) && S.Sized(d, i)
    requires kind.Use? || kind.AddWait? || kind.CancelWait? || kind.WakeHandle?
             || kind.ShardAdd? || kind.ShardCancel? || kind.ShardQuery?
    ensures LiveOk(S.Exec(d, i, kind, env).0)
  {
    OtherFields(d, i, kind, env);
    Frame(d, S.Exec(d, i, kind, env).0);
  }

  lemma OtherFields(d: S.Data, i: nat, kind: S.Kind, env: S.Env)
    requires S.Sized(d, i)
    requires kind.Use? || kind.AddWait? || kind.CancelWait? || kind.WakeHandle?
             || kind.ShardAdd? || kind.ShardCancel? || kind.ShardQuery?
    ensures var u := S.Exec(d, i, kind, env).0;
            && u.open == d.open && u.home == d.home && u.closes == d.closes && u.stuck == d.stuck
            && |u.tables| == |d.tables|
  {
  }

  lemma ExecLive(d: S.Data, i: nat, kind: S.Kind, env: S.Env)
    requires S.Inv(d) && LiveOk(d) && S.Sized(d, i) && S.WellIssued(d, i, kind) && S.EnvOk(d, i, env)
    ensures LiveOk(S.Exec(d, i, kind, env).0)
  {
    match kind {
      case Create => if env.ok { CreateLive(d, i, env); }
      case AcceptFrom(h, raw) => AcceptFromLive(d, i, h, raw, env);
      case ShardAccept(l, raw) => ShardAcceptLive(d, i, l, raw, env);
      case Listen => ListenLive(d, i, env);
      case Close(h, raw) => CloseKindLive(d, i, h, raw, env);
      case ShardClose(_, _) => ShardCloseLive(d, i, kind, env);
      case ShardAbandon(_, _) => ShardCloseLive(d, i, kind, env);
      case _ => OtherLive(d, i, kind, env);
    }
  }

  lemma RetireLive(d: S.Data, i: nat, key: int, closeOk: bool)
    requires S.Inv(d) && LiveOk(d) && S.Sized(d, i) && key in d.tables[i].sessions
    ensures LiveOk(S.Retire(d, i, key, closeOk))
  {
    var raw := d.tables[i].sessions[key];
    assert S.WorkerOk(d, i) && S.EntryOk(d, i, key, raw);
    CloseLive(d, i, raw, closeOk);
    Frame(S.CloseRaw(d, i, raw, closeOk), S.Retire(d, i, key, closeOk));
  }

  lemma ClosesGrow(d: S.Data, i: nat, kind: S.Kind, env: S.Env, l: int)
    requires S.Sized(d, i)
    ensures d.closes[l] <= S.Exec(d, i, kind, env).0.closes[l]
  {
  }

  lemma HomesStay(d: S.Data, i: nat, kind: S.Kind, env: S.Env, l: nat)
    requires S.Sized(d, i) && l in d.home
    ensures l in S.Exec(d, i, kind, env).0.home
  {
  }

  /** A shard leaves the list only by being closed. */
  lemma ExecGone(d: S.Data, i: nat, kind: S.Kind, env: S.Env, l: nat)
    requires S.Inv(d) && S.Sized(d, i) && S.WellIssued(d, i, kind)
    requires l in d.home && (l in d.shards || d.closes[l] > 0)
    ensures var u := S.Exec(d, i, kind, env).0; l in u.home && (l in u.shards || u.closes[l] > 0)
  {
    HomesStay(d, i, kind, env, l);
    ClosesGrow(d, i, kind, env, l);
    if l in d.shards {
      assert l != d.nextSess;
      if S.Closes(kind, l) {
        ShardClosable(d, i, l, kind.raw);
      } else {
        S.ExecShards(d, i, kind, env);
      }
    }
  }

  lemma TakeGone(s: Sys, i: nat, env: S.Env, t: Sys)
    requires SysInv(s) && GoneOk(s.loops, s.data) && Ran(s, i, env, t)
    ensures GoneOk(t.loops, t.data)
  {
    var kind := s.ops[s.queues[i][0]].kind;
    TakenWellIssued(s, i);
    RanShards(s, i, env, t);
    forall l | l in t.loops ensures l in t.data.home && (l in t.data.shards || t.data.closes[l] > 0) {
      if l in s.loops {
        ExecGone(s.data, i, kind, env, l);
      }
    }
  }

  lemma RetireGone(loops: map<nat, Loop>, d: S.Data, i: nat, key: int, closeOk: bool)
    requires S.Inv(d) && S.Sized(d, i) && key in d.tables[i].sessions && GoneOk(loops, d)
    ensures GoneOk(loops, S.Retire(d, i, key, closeOk))
  {
  }

  ghost predicate QueriesOk(s: Sys) {
    var d := s.data;
    LiveOk(d) && GoneOk(s.loops, d)
  }

  lemma TakeStep(s: Sys, i: nat, env: S.Env, modOk: bool, t: Sys)
    requires SysInv(s) && QueriesOk(s)
    requires Enabled(s, Move(i, R.TakeOp, env, modOk)) && t == Do(s, Move(i, R.TakeOp, env, modOk))
    requires t.data.allocs < WIDTH
    ensures QueriesOk(t)
  {
    if !s.ctl.stopping && s.ctl.live {
      assert s.ops != map[];
      DrainerRan(s, i, env, modOk, t);
      RanQueries(s, i, env, t);
    } else {
      Frame(s.data, t.data);
    }
  }

  lemma DrainerRan(s: Sys, i: nat, env: S.Env, modOk: bool, t: Sys)
    requires R.Inv(s.ctl) && s.ctl.init.Ready? && !s.ctl.stopping && s.ctl.live && t.data.allocs < WIDTH
    requires Enabled(s, Move(i, R.TakeOp, env, modOk)) && t == Do(s, Move(i, R.TakeOp, env, modOk))
    ensures Popped(s, i, env, t)
  {
    R.MoveStays(s.ctl, i, R.TakeOp);
    MovedRunnable(s, i, R.TakeOp, t);
  }

  lemma RanQueries(s: Sys, i: nat, env: S.Env, t: Sys)
    requires QueriesOk(s) && Ran(s, i, env, t)
    ensures QueriesOk(t)
  {
    TakenWellIssued(s, i);
    ExecLive(s.data, i, s.ops[s.queues[i][0]].kind, env);
    TakeGone(s, i, env, t);
  }

  lemma MoveStep(s: Sys, step: Step, t: Sys)
    requires QueriesOk(s) && Enabled(s, step) && step.Move? && !step.move.TakeOp? && t == Do(s, step)
    ensures QueriesOk(t)
  {
    Frame(s.data, t.data);
  }

  lemma OtherStep(s: Sys, step: Step, t: Sys)
    requires QueriesOk(s) && Enabled(s, step) && !step.Move? && !step.RetireOne? && t == Do(s, step)
    ensures QueriesOk(t)
  {
    OtherData(s, step, t);
    Frame(s.data, t.data);
  }

  lemma RetireStep(s: Sys, step: Step, t: Sys)
    requires S.Inv(s.data) && QueriesOk(s) && Enabled(s, step) && step.RetireOne? && t == Do(s, step)
    ensures QueriesOk(t)
  {
    RetireLive(s.data, step.i, step.key, step.closeOk);
    RetireGone(s.loops, s.data, step.i, step.key, step.closeOk);
  }

  lemma StepQueries(s: Sys, step: Step)
    requires SysInv(s) && QueriesOk(s) && Enabled(s, step) && Do(s, step).data.allocs < WIDTH
    ensures QueriesOk(Do(s, step))
  {
    if step.RetireOne? {
      RetireStep(s, step, Do(s, step));
    } else if !step.Move? {
      OtherStep(s, step, Do(s, step));
    } else {
      WorkerStep(s, step, Do(s, step));
    }
  }

  lemma WorkerStep(s: Sys, step: Step, t: Sys)
    requires SysInv(s) && QueriesOk(s) && Enabled(s, step) && step.Move? && t == Do(s, step) && t.data.allocs < WIDTH
    ensures QueriesOk(t)
  {
    if step.move.TakeOp? {
      TakeStep(s, step.i, step.env, step.modOk, t);
    } else {
      MoveStep(s, step, t);
    }
  }

  lemma NextQueries(s: Sys, t: Sys)
    requires SysInv(s) && QueriesOk(s) && Next(s, t) && t.data.allocs < WIDTH
    ensures SysInv(t) && QueriesOk(t)
  {
    var step :| Enabled(s, step) && t == Do(s, step);
    StepQueries(s, step);
    StepKeeps(s, step);
  }

  /** In every state of every run a session is open exactly until it was closed, and
      every shard ever made is listed or closed. */
  lemma {:induction false} RunsAreSound(run: seq<Sys>, p: nat)
    requires IsRun(run) && run[|run| - 1].data.allocs < WIDTH && p < |run|
    ensures SysInv(run[p]) && QueriesOk(run[p])
  {
    if p == 0 {
      BootKeeps(|run[0].ctl.phases|);
    } else {
      RunsAreSound(run, p - 1);
      AllocsBounded(run, p);
      assert Next(run[p - 1], run[p - 1 + 1]);
      NextQueries(run[p - 1], run[p]);
    }
  }

  /** A query on a listener reaches that listener exactly if the shard is still listed
      when the closure runs, or its close failed; otherwise it reaches whatever
      session has been given the raw handle since, or none. */
  lemma QueryReachesIff(s: Sys, i: nat, o: nat, env: S.Env, l: nat, raw: int)
    requires QueriesOk(s) && AboutToRun(s, i, o, env) && s.ops[o].kind == S.ShardQuery(l, raw)
    ensures var x := S.SessAt(s.data, i, raw);
            && AfterRun(s, i, env).data == s.data.(touched := s.data.touched + {S.ByQuery(l, i, x)})
            && (x == l <==> l in s.data.shards || l in s.data.stuck)
            && (x >= 0 ==> s.data.closes[x] == 0 || x in s.data.stuck)
  {
    TakenWellIssued(s, i);
    QueryAt(s, i, o, l, raw);
    AfterRunIs(s, i, o, env);
    QueryTells(s.data, i, l, raw);
  }

  lemma QueryAt(s: Sys, i: nat, o: nat, l: nat, raw: int)
    requires GoneOk(s.loops, s.data) && KindsOk(s) && o in s.ops && s.ops[o].worker == i && s.ops[o].kind == S.ShardQuery(l, raw)
    ensures l in s.data.home && s.data.home[l] == S.Home(i, raw) && (l in s.data.shards || s.data.closes[l] > 0)
  {
    assert KindOk(s, o, s.ops[o]);
  }

  lemma QueryTells(d: S.Data, i: nat, l: nat, raw: int)
    requires S.Inv(d) && LiveOk(d) && S.Sized(d, i) && l in d.home && d.home[l] == S.Home(i, raw)
    requires l in d.shards || d.closes[l] > 0
    ensures var x := S.SessAt(d, i, raw);
            && (x == l <==> l in d.shards || l in d.stuck)
            && (x >= 0 ==> d.closes[x] == 0 || x in d.stuck)
  {
    assert LiveAt(d, l);
    if l in d.shards {
      assert d.closes[l] == 0;
    }
    var x := S.SessAt(d, i, raw);
    if x >= 0 {
      assert S.WorkerOk(d, i);
      assert LiveAt(d, x);
    }
  }
}
