/** How far a queued operation is from its reply, counted in moves of its worker. */
module Mode2Progress {
  import opened WaitEngine
  import S = Sessions
  import R = Retirement
  import opened Mode2
  import opened Mode2Laws

  /** The moves of a worker in this phase, with `n` sessions listed, before it pops
      its queue again. */
  function Rank(p: R.Phase, n: nat): nat {
    match p
    case Closing => n + 1
    case Waking => n + 2
    case LoopTop => n + 3
    case MakeEpoll => n + 4
    case Polled(events) => n + 4 + |events|
    case AwaitStart => n + 5
    case Draining(left) => if left == 0 then n + 69 else 0
    case _ => 0
  }

  function RankAt(s: Sys, i: nat): nat
    requires Sized(s, i)
  {
    Rank(s.ctl.phases[i], |s.data.tables[i].sessions|)
  }

  predicate OwnMove(step: Step, i: nat) {
    (step.Move? && step.i == i) || (step.RetireOne? && step.i == i) || (step.Flush? && step.i == i)
  }

  predicate Pops(step: Step) {
    (step.Move? && step.move.TakeOp?) || step.Flush?
  }

  /** The head is popped: every other operation moves up by one. */
  lemma PopAdvances(s: Sys, step: Step, i: nat)
    requires Enabled(s, step) && OwnMove(step, i) && Pops(step) && Sized(s, i)
    ensures Do(s, step).queues == s.queues[i := s.queues[i][1..]]
  {
  }

  lemma RetireRank(s: Sys, step: Step, i: nat)
    requires Enabled(s, step) && OwnMove(step, i) && step.RetireOne? && Sized(s, i)
    ensures var t := Do(s, step);
            t.queues == s.queues && Sized(t, i) && RankAt(t, i) < RankAt(s, i)
  {
    var mine := s.data.tables[i].sessions;
    assert (mine - {step.key}).Keys == mine.Keys - {step.key};
    assert |mine| == |mine.Keys| && |mine - {step.key}| == |(mine - {step.key}).Keys|;
  }

  /** Moves of the worker that pop nothing leave its queue and sessions alone. */
  lemma MoveLeaves(s: Sys, i: nat, m: R.Move, env: S.Env, modOk: bool, t: Sys)
    requires Enabled(s, Move(i, m, env, modOk)) && !m.TakeOp? && t == Do(s, Move(i, m, env, modOk))
    ensures t.queues == s.queues && t.ctl == R.DoMove(s.ctl, i, m) && Sized(t, i)
    ensures t.data.tables[i].sessions == s.data.tables[i].sessions
  {
  }

  lemma PhaseRank(p: R.Phase, m: R.Move, n: nat, c: R.Control, i: nat)
    requires R.CanMove(c, i, m) && p == c.phases[i] && !m.TakeOp?
    requires p.Draining? && m.DrainDone? ==> p.left == 0
    requires m.RetireDone? ==> n == 0
    requires !m.FlushDone? && !R.HasQuiesced(p) && !p.Registering?
    ensures Rank(R.NextPhase(p, m), n) < Rank(p, n)
  {
  }

  lemma OwnMoveRank(s: Sys, i: nat, m: R.Move, env: S.Env, modOk: bool, t: Sys)
    requires R.Inv(s.ctl) && Enabled(s, Move(i, m, env, modOk)) && !m.TakeOp? && t == Do(s, Move(i, m, env, modOk))
    requires s.queues[i] != [] && !Quiesced(s, i) && s.ctl.init.Ready?
    ensures t.queues == s.queues && Sized(t, i) && RankAt(t, i) < RankAt(s, i)
  {
    MoveLeaves(s, i, m, env, modOk, t);
    NotRegistering(s, i);
    PhaseRank(s.ctl.phases[i], m, |s.data.tables[i].sessions|, s.ctl, i);
  }

  lemma NotRegistering(s: Sys, i: nat)
    requires R.Inv(s.ctl) && s.ctl.init.Ready? && i < |s.ctl.phases|
    ensures !s.ctl.phases[i].Registering?
  {
  }

  /** Of two waiting positions, with the ranks of the worker, the first is nearer. */
  predicate Nearer(p: nat, r: nat, q: nat, rank: nat) {
    p < q || (p == q && r < rank)
  }

  /** From `s` to `t` the operation at position `p` was popped or came nearer. */
  ghost predicate Closer(s: Sys, t: Sys, i: nat, p: nat, popped: bool)
    requires Sized(s, i) && Sized(t, i) && p < |s.queues[i]|
  {
    || (popped && p == 0 && t.queues[i] == s.queues[i][1..])
    || (exists q :: 0 <= q < |t.queues[i]| && t.queues[i][q] == s.queues[i][p] && Nearer(q, RankAt(t, i), p, RankAt(s, i)))
  }

  lemma PopCloser(s: Sys, t: Sys, i: nat, p: nat)
    requires Sized(s, i) && Sized(t, i) && p < |s.queues[i]| && t.queues[i] == s.queues[i][1..]
    ensures Closer(s, t, i, p, true)
  {
    if p > 0 {
      assert t.queues[i][p - 1] == s.queues[i][p] && Nearer(p - 1, RankAt(t, i), p, RankAt(s, i));
    }
  }

  lemma RankCloser(s: Sys, t: Sys, i: nat, p: nat)
    requires Sized(s, i) && Sized(t, i) && p < |s.queues[i]| && t.queues[i] == s.queues[i]
    requires RankAt(t, i) < RankAt(s, i)
    ensures Closer(s, t, i, p, false)
  {
    assert t.queues[i][p] == s.queues[i][p] && Nearer(p, RankAt(t, i), p, RankAt(s, i));
  }

  /** Every move of its worker brings an operation at position `p` of the queue
      nearer to being popped, or pops it. */
  lemma OperationAdvances(s: Sys, step: Step, i: nat, p: nat)
    requires R.Inv(s.ctl) && Enabled(s, step) && OwnMove(step, i) && Sized(s, i)
    requires p < |s.queues[i]| && !Quiesced(s, i) && s.ctl.init.Ready?
    ensures Sized(Do(s, step), i) && Closer(s, Do(s, step), i, p, Pops(step))
  {
    var t := Do(s, step);
    if Pops(step) {
      PopAdvances(s, step, i);
      StaysSized(s, step, i);
      PopCloser(s, t, i, p);
    } else {
      if step.RetireOne? {
        RetireRank(s, step, i);
      } else {
        OwnMoveRank(s, i, step.move, step.env, step.modOk, t);
      }
      RankCloser(s, t, i, p);
    }
  }

  lemma StaysSized(s: Sys, step: Step, i: nat)
    requires Enabled(s, step) && OwnMove(step, i) && Pops(step) && Sized(s, i)
    ensures Sized(Do(s, step), i)
  {
    if step.Move? {
      S.ExecTables(s.data, i, s.ops[s.queues[i][0]].kind, step.env);
      ExecSized(s.data, i, s.ops[s.queues[i][0]].kind, step.env);
    }
  }

  lemma ExecOther(d: S.Data, j: nat, kind: S.Kind, env: S.Env, i: nat)
    requires S.Sized(d, j) && j != i && S.Sized(d, i)
    ensures S.Sized(S.Exec(d, j, kind, env).0, i) && S.Exec(d, j, kind, env).0.tables[i] == d.tables[i]
  {
    S.ExecTables(d, j, kind, env);
  }

  lemma TookOther(s: Sys, j: nat, o: nat, op: Op, env: S.Env, i: nat, t: Sys)
    requires Sized(s, j) && s.queues[j] != [] && j != i && Sized(s, i) && t == Took(s, j, o, op, env)
    ensures t.ctl == s.ctl && t.queues == s.queues[j := s.queues[j][1..]]
    ensures S.Sized(t.data, i) && t.data.tables[i] == s.data.tables[i]
  {
    ExecOther(s.data, j, op.kind, env, i);
  }

  lemma PlainOther(s: Sys, j: nat, m: R.Move, modOk: bool, i: nat, d: S.Data)
    requires Sized(s, j) && R.CanMove(s.ctl, j, m) && j != i && Sized(s, i)
    requires m.Event? ==> s.data.tables[j].engine.sets.Keys <= s.data.tables[j].sessions.Keys
    requires d == MoveData(s, j, m, modOk)
    ensures S.Sized(d, i) && d.tables[i] == s.data.tables[i]
  {
  }

  lemma DoMoveOther(c: R.Control, j: nat, m: R.Move, i: nat)
    requires R.CanMove(c, j, m) && j != i && i < |c.phases|
    ensures |R.DoMove(c, j, m).phases| == |c.phases| && R.DoMove(c, j, m).phases[i] == c.phases[i]
  {
  }

  /** What another worker does to its own tables leaves this worker's sessions. */
  lemma OtherMove(s: Sys, j: nat, m: R.Move, env: S.Env, modOk: bool, i: nat, t: Sys)
    requires Enabled(s, Move(j, m, env, modOk)) && j != i && Sized(s, i) && t == Do(s, Move(j, m, env, modOk))
    ensures Sized(t, i) && t.queues[i] == s.queues[i] && t.data.tables[i] == s.data.tables[i]
    ensures t.ctl.phases[i] == s.ctl.phases[i]
  {
    var u := s.(ctl := R.DoMove(s.ctl, j, m));
    DoMoveOther(s.ctl, j, m, i);
    if m.TakeOp? {
      var o := u.queues[j][0];
      TookOther(u, j, o, u.ops[o], env, i, t);
    } else {
      PlainOther(s, j, m, modOk, i, t.data);
    }
  }

  lemma OtherRetires(s: Sys, j: nat, key: VLSH, closeOk: bool, i: nat, t: Sys)
    requires Enabled(s, RetireOne(j, key, closeOk)) && j != i && Sized(s, i) && t == Do(s, RetireOne(j, key, closeOk))
    ensures Sized(t, i) && t.queues == s.queues && t.data.tables[i] == s.data.tables[i] && t.ctl == s.ctl
  {
  }

  lemma ControlLeavesIt(s: Sys, m: R.Main, t: Sys)
    requires R.Inv(s.ctl) && Enabled(s, Main(m)) && s.ctl.init.Ready? && t == Do(s, Main(m))
    ensures t.data == s.data && t.queues == s.queues && t.ctl.phases == s.ctl.phases
  {
    R.MainStays(s.ctl, m);
    assert forall j :: 0 <= j < |s.ctl.phases| ==> !s.ctl.phases[j].Unborn?;
  }

  lemma SendLeavesIt(s: Sys, o: nat, i: nat, t: Sys)
    requires Enabled(s, Send(o)) && i < |s.queues| && t == Do(s, Send(o))
    ensures t.data == s.data && t.ctl == s.ctl && |t.queues| == |s.queues| && s.queues[i] <= t.queues[i]
  {
  }

  predicate OfCaller(step: Step) {
    !step.Main? && !step.Move? && !step.RetireOne? && !step.Flush? && !step.Send?
  }

  lemma CallersLeaveIt(s: Sys, step: Step, t: Sys)
    requires Enabled(s, step) && OfCaller(step) && t == Do(s, step)
    ensures t.data.tables == s.data.tables && t.ctl == s.ctl && t.queues == s.queues
  {
  }

  /** Worker `i` keeps its phase and tables, and its queue at most grows. */
  ghost predicate Undisturbed(s: Sys, t: Sys, i: nat)
    requires Sized(s, i)
  {
    && Sized(t, i) && s.queues[i] <= t.queues[i]
    && t.ctl.phases[i] == s.ctl.phases[i] && t.data.tables[i] == s.data.tables[i]
  }

  lemma WorkersLeaveIt(s: Sys, step: Step, i: nat, t: Sys)
    requires Enabled(s, step) && !OwnMove(step, i) && (step.Move? || step.RetireOne? || step.Flush?)
    requires Sized(s, i) && t == Do(s, step)
    ensures Undisturbed(s, t, i)
  {
    match step
    case Move(j, m, env, modOk) => OtherMove(s, j, m, env, modOk, i, t);
    case RetireOne(j, key, closeOk) => OtherRetires(s, j, key, closeOk, i, t);
    case _ =>
  }

  lemma StepsLeaveIt(s: Sys, step: Step, i: nat, t: Sys)
    requires R.Inv(s.ctl) && Enabled(s, step) && !OwnMove(step, i)
    requires Sized(s, i) && s.ctl.init.Ready? && t == Do(s, step)
    ensures Undisturbed(s, t, i)
  {
    if OfCaller(step) {
      CallersLeaveIt(s, step, t);
    } else if step.Main? {
      ControlLeavesIt(s, step.main, t);
    } else if step.Send? {
      SendLeavesIt(s, step.o, i, t);
    } else {
      WorkersLeaveIt(s, step, i, t);
    }
  }

  /** No other step sets it back: later arrivals queue up behind it, and its worker's
      phase and sessions are its own. */
  lemma OthersLeaveIt(s: Sys, step: Step, i: nat, p: nat)
    requires R.Inv(s.ctl) && Enabled(s, step) && !OwnMove(step, i)
    requires Sized(s, i) && s.ctl.init.Ready? && p < |s.queues[i]|
    ensures Sized(Do(s, step), i)
    ensures var t := Do(s, step);
            p < |t.queues[i]| && t.queues[i][p] == s.queues[i][p] && RankAt(t, i) == RankAt(s, i)
  {
    StepsLeaveIt(s, step, i, Do(s, step));
  }
}
