/** The Mode 2 dispatcher as a system of threads: the initialising and stopping
    threads and every worker (module Retirement), the operation queues between
    submitters and workers (mode2.go submit, worker.go drainOps and quiesce),
    accept loops, and the sessions they all act on (module Sessions).  A run is
    any interleaving of these steps, with any outcome of the foreign calls. */
module Mode2 {
  import opened WaitEngine
  import opened Handles
  import T = WorkerTables
  import S = Sessions
  import R = Retirement
  import Runs
  import opened Options

  const QUEUE_CAP: nat := 256

  /** Sending: parked at the queue send; Queued; Taken: dequeued and replied to. */
  datatype Stage = Sending | Queued | Taken

  /** A submitted closure; `result` is what submit returned to its caller. */
  datatype Op = Op(worker: nat, kind: S.Kind, stage: Stage, runs: nat, replies: seq<S.Reply>, result: Option<S.Reply>)

  /** What a caller read from the owner map, possibly long ago. */
  datatype Held = Held(handle: VLSH, worker: nat, raw: VLSH)

  /** Life of one listener shard: created, served by its accept loop (`op` is the
      loop's current submission), loop finished, close submitted. */
  datatype Loop = Fresh | Serving(op: Option<nat>) | Finished | ClosingBy(closer: nat)

  datatype Sys = Sys(
    ctl: R.Control,
    queues: seq<seq<nat>>,
    ops: map<nat, Op>,
    refs: map<nat, Held>,
    loops: map<nat, Loop>,
    data: S.Data)

  datatype Step =
    | Main(main: R.Main)
    | Move(i: nat, move: R.Move, env: S.Env, modOk: bool)  // worker control moves
    | RetireOne(i: nat, key: VLSH, closeOk: bool)
    | Flush(i: nat)
    | Lookup(c: nat, handle: VLSH)
    | Submit(o: nat, i: nat, kind: S.Kind, c: nat)
    | Send(o: nat)
    | GiveUp(o: nat)
    | Receive(o: nat)
    | StartLoop(shard: nat)
    | LoopExit(shard: nat)
    | Publish(id: nat)
    | Unpublish(public: VLSH)

  function Boot(workers: nat): Sys {
    Sys(R.Boot(workers), seq(workers, _ => []), map[], map[], map[], S.Fresh(workers))
  }

  // ---------------------------------------------------------------- steps

  predicate Sized(s: Sys, i: nat) {
    i < |s.ctl.phases| && i < |s.queues| && S.Sized(s.data, i)
  }

  predicate Quiesced(s: Sys, i: nat) {
    i < |s.ctl.phases| && R.HasQuiesced(s.ctl.phases[i])
  }

  predicate Settled(s: Sys, o: Option<nat>) {
    o.Some? ==> o.value in s.ops && s.ops[o.value].result.Some?
  }

  predicate Holds(s: Sys, c: nat, h: VLSH, i: nat, raw: VLSH) {
    c in s.refs && s.refs[c] == Held(h, i, raw)
  }

  /** The shard's accept loop is between two submissions. */
  predicate LoopIdle(s: Sys, i: nat, shard: nat, raw: VLSH) {
    && shard in s.loops && s.loops[shard].Serving? && Settled(s, s.loops[shard].op)
    && shard in s.data.home && s.data.home[shard] == S.Home(i, raw)
  }

  /** Who may submit what: session operations need a reference from the owner
      map (`c`), waiters are new and named after their operation, a waiter is
      cancelled by the caller that added it, shard operations come from the
      shard's accept loop, a shard is closed once its loop has finished (or was
      never started), and it is queried by anybody who ever found its listener. */
  predicate MaySubmit(s: Sys, o: nat, i: nat, kind: S.Kind, c: nat) {
    match kind
    case Create => true
    case Listen => true
    case Use(h, raw) => Holds(s, c, h, i, raw)
    case AcceptFrom(h, raw) => Holds(s, c, h, i, raw)
    case Close(h, raw) => Holds(s, c, h, i, raw)
    case WakeHandle(h, raw) => Holds(s, c, h, i, raw)
    case AddWait(h, raw, w) => Holds(s, c, h, i, raw) && w.id == o
    case CancelWait(h, raw, w) =>
      w.id in s.ops && s.ops[w.id].kind == S.AddWait(h, raw, w) && s.ops[w.id].worker == i && s.ops[w.id].result == Some(S.Done)
    case ShardAccept(l, raw) => LoopIdle(s, i, l, raw)
    case ShardAdd(l, raw, w) => LoopIdle(s, i, l, raw) && w.id == o
    case ShardCancel(l, raw, _) => LoopIdle(s, i, l, raw)
    case ShardClose(l, raw) => l in s.loops && s.loops[l].Finished? && l in s.data.home && s.data.home[l] == S.Home(i, raw)
    case ShardAbandon(l, raw) => l in s.loops && s.loops[l].Fresh? && l in s.data.home && s.data.home[l] == S.Home(i, raw)
    case ShardQuery(l, raw) => l in s.loops && l in s.data.home && s.data.home[l] == S.Home(i, raw)
  }

  function LoopsAfterSubmit(loops: map<nat, Loop>, o: nat, kind: S.Kind): map<nat, Loop> {
    match kind
    case ShardAccept(l, _) => loops[l := Serving(Some(o))]
    case ShardAdd(l, _, _) => loops[l := Serving(Some(o))]
    case ShardCancel(l, _, _) => loops[l := Serving(Some(o))]
    case ShardClose(l, _) => loops[l := ClosingBy(o)]
    case ShardAbandon(l, _) => loops[l := ClosingBy(o)]
    case _ => loops
  }

  ghost predicate Enabled(s: Sys, step: Step) {
    match step
    case Main(m) => R.CanMain(s.ctl, m)
    case Move(i, m, env, _) =>
      && Sized(s, i) && R.CanMove(s.ctl, i, m)
      && (m.TakeOp? ==> s.queues[i] != [] && s.queues[i][0] in s.ops && S.EnvOk(s.data, i, env))
      && (m.DrainDone? ==> s.ctl.phases[i].left == 0 || s.queues[i] == [])
      && (m.Event? ==> s.data.tables[i].engine.sets.Keys <= s.data.tables[i].sessions.Keys)
      && (m.RetireDone? ==> s.data.tables[i].sessions == map[])
      && (m.FlushDone? ==> s.queues[i] == [])
    case RetireOne(i, key, _) => Sized(s, i) && s.ctl.phases[i].Closing? && key in s.data.tables[i].sessions
    case Flush(i) => Sized(s, i) && s.ctl.phases[i].Flushing? && s.queues[i] != [] && s.queues[i][0] in s.ops
    case Lookup(c, h) => s.ctl.init.Ready? && h in s.data.owners && s.data.owners[h].SessionRef?
    case Submit(o, i, kind, c) =>
      s.ctl.init.Ready? && Sized(s, i) && !s.ctl.stopping && s.ctl.live && o !in s.ops && MaySubmit(s, o, i, kind, c)
    case Send(o) =>
      && o in s.ops && s.ops[o].stage.Sending? && s.ops[o].result.None?
      && s.ops[o].worker < |s.queues| && |s.queues[s.ops[o].worker]| < QUEUE_CAP
    case GiveUp(o) => o in s.ops && s.ops[o].result.None? && Quiesced(s, s.ops[o].worker)
    case Receive(o) => o in s.ops && s.ops[o].result.None? && s.ops[o].replies != []
    case StartLoop(l) => l in s.loops && s.loops[l].Fresh?
    case LoopExit(l) => l in s.loops && s.loops[l].Serving? && Settled(s, s.loops[l].op)
    case Publish(_) => s.ctl.init.Ready?
    case Unpublish(p) => s.ctl.init.Ready? && p in s.data.owners && s.data.owners[p].ListenerRef?
  }

  /** drainOps pops one operation: refused while stopping or not live, else run. */
  function Take(s: Sys, i: nat, env: S.Env): Sys
    requires Sized(s, i) && s.queues[i] != [] && s.queues[i][0] in s.ops
  {
    var o := s.queues[i][0];
    var op := s.ops[o];
    Took(s, i, o, op, env)
  }

  function Took(s: Sys, i: nat, o: nat, op: Op, env: S.Env): Sys
    requires Sized(s, i) && s.queues[i] != []
  {
    var queues := s.queues[i := s.queues[i][1..]];
    if s.ctl.stopping || !s.ctl.live then
      s.(queues := queues, ops := s.ops[o := op.(stage := Taken, replies := op.replies + [S.ErrClosed])])
    else
      var (d, reply) := S.Exec(s.data, i, op.kind, env);
      s.(queues := queues,
         ops := s.ops[o := op.(stage := Taken, runs := op.runs + 1, replies := op.replies + [reply])],
         loops := LoopsAfter(s.loops, reply),
         data := d)
  }

  function MoveData(s: Sys, i: nat, m: R.Move, modOk: bool): S.Data
    requires Sized(s, i) && R.CanMove(s.ctl, i, m)
    requires m.Event? ==> s.data.tables[i].engine.sets.Keys <= s.data.tables[i].sessions.Keys
  {
    if m.Event? then
      var (key, events) := s.ctl.phases[i].events[0];
      S.SetTables(s.data, i, T.HandleEvent(s.data.tables[i], key, events, modOk))
    else if m.WakeAllNow? then S.SetTables(s.data, i, T.WakeAllWaiters(s.data.tables[i]))
    else s.data
  }

  ghost function Do(s: Sys, step: Step): Sys
    requires Enabled(s, step)
  {
    match step
    case Main(m) => s.(ctl := R.DoMain(s.ctl, m))
    case Move(i, m, env, modOk) =>
      var t := s.(ctl := R.DoMove(s.ctl, i, m));
      if m.TakeOp? then Take(t, i, env) else t.(data := MoveData(s, i, m, modOk))
    case RetireOne(i, key, closeOk) => s.(data := S.Retire(s.data, i, key, closeOk))
    case Flush(i) =>
      var o := s.queues[i][0];
      var op := s.ops[o];
      s.(queues := s.queues[i := s.queues[i][1..]],
         ops := s.ops[o := op.(stage := Taken, replies := op.replies + [S.ErrClosed])])
    case Lookup(c, h) => s.(refs := s.refs[c := Held(h, s.data.owners[h].worker, s.data.owners[h].raw)])
    case Submit(o, i, kind, c) =>
      s.(ops := s.ops[o := Op(i, kind, Sending, 0, [], None)], loops := LoopsAfterSubmit(s.loops, o, kind))
    case Send(o) =>
      var op := s.ops[o];
      s.(queues := s.queues[op.worker := s.queues[op.worker] + [o]], ops := s.ops[o := op.(stage := Queued)])
    case GiveUp(o) => s.(ops := s.ops[o := s.ops[o].(result := Some(S.ErrClosed))])
    case Receive(o) => s.(ops := s.ops[o := s.ops[o].(result := Some(s.ops[o].replies[0]))])
    case StartLoop(l) => s.(loops := s.loops[l := Serving(None)])
    case LoopExit(l) => s.(loops := s.loops[l := Finished])
    case Publish(id) => s.(data := S.Publish(s.data, id))
    case Unpublish(p) => s.(data := S.Unpublish(s.data, p))
  }

  // ---------------------------------------------------------------- operations

  /** What an operation's stage says about its runs, replies and result. */
  ghost predicate OpOk(s: Sys, o: nat, op: Op) {
    && op.worker < |s.queues|
    && op.runs <= 1
    && (op.stage.Taken? ==> |op.replies| == 1 && (op.runs == 0 ==> op.replies == [S.ErrClosed]))
    && (!op.stage.Taken? ==> op.runs == 0 && op.replies == [])
    && (op.stage.Queued? ==> o in s.queues[op.worker])
    && (op.result.Some? ==>
          (op.stage.Taken? && op.result.value == op.replies[0]) || (op.result.value == S.ErrClosed && Quiesced(s, op.worker)))
  }

  /** Queues hold distinct queued operations of their own worker. */
  ghost predicate QueueOk(s: Sys, i: nat)
    requires i < |s.queues|
  {
    var q := s.queues[i];
    && |q| <= QUEUE_CAP
    && (forall p :: 0 <= p < |q| ==> q[p] in s.ops && s.ops[q[p]].worker == i && s.ops[q[p]].stage.Queued?)
    && (forall p, r :: 0 <= p < r < |q| ==> q[p] != q[r])
  }

  ghost predicate MailInv(s: Sys) {
    var n := |s.queues|;
    && |s.ctl.phases| == n
    && (forall i :: 0 <= i < n ==> QueueOk(s, i))
    && (forall o :: o in s.ops ==> OpOk(s, o, s.ops[o]))
  }

  lemma PopKeeps(s: Sys, i: nat, op': Op, t: Sys)
    requires MailInv(s) && i < |s.queues| && s.queues[i] != [] && s.queues[i][0] in s.ops
    requires var o := s.queues[i][0]; var op := s.ops[o];
             && op'.worker == op.worker && op'.kind == op.kind && op'.result == op.result
             && op'.stage.Taken? && op'.runs <= 1 && |op'.replies| == 1
             && (op'.runs == 0 ==> op'.replies == [S.ErrClosed])
             && t.queues == s.queues[i := s.queues[i][1..]] && t.ops == s.ops[o := op']
    requires |t.ctl.phases| == |s.ctl.phases|
    requires forall j :: Quiesced(s, j) ==> Quiesced(t, j)
    ensures MailInv(t)
  {
    var o := s.queues[i][0];
    assert QueueOk(s, i);
    assert OpOk(s, o, s.ops[o]);
    forall j | 0 <= j < |t.queues| ensures QueueOk(t, j) {
      assert QueueOk(s, j);
    }
    forall x | x in t.ops ensures OpOk(t, x, t.ops[x]) {
      if x != o {
        assert OpOk(s, x, s.ops[x]);
        if t.ops[x].stage.Queued? {
          var p :| 0 <= p < |s.queues[t.ops[x].worker]| && s.queues[t.ops[x].worker][p] == x;
          if t.ops[x].worker == i {
            assert p > 0 && t.queues[i][p - 1] == x;
          }
        }
      }
    }
  }

  /** Nothing in the queues or operations changes; workers only move on. */
  lemma MailFrame(s: Sys, t: Sys)
    requires MailInv(s) && t.queues == s.queues && t.ops == s.ops
    requires |t.ctl.phases| == |s.ctl.phases|
    requires forall j :: Quiesced(s, j) ==> Quiesced(t, j)
    ensures MailInv(t)
  {
    forall j | 0 <= j < |t.queues| ensures QueueOk(t, j) {
      assert QueueOk(s, j);
    }
    forall x | x in t.ops ensures OpOk(t, x, t.ops[x]) {
      assert OpOk(s, x, s.ops[x]);
    }
  }

  lemma MoveKeepsMail(s: Sys, i: nat, m: R.Move, env: S.Env, modOk: bool)
    requires MailInv(s) && Enabled(s, Move(i, m, env, modOk))
    ensures MailInv(Do(s, Move(i, m, env, modOk)))
  {
    var t := Do(s, Move(i, m, env, modOk));
    R.MoveStays(s.ctl, i, m);
    if m.TakeOp? {
      var o := s.queues[i][0];
      assert QueueOk(s, i) && OpOk(s, o, s.ops[o]);
      PopKeeps(s, i, t.ops[o], t);
    } else {
      MailFrame(s, t);
    }
  }

  lemma UpdateKeepsMail(s: Sys, o: nat, op: Op, t: Sys)
    requires MailInv(s) && t.ops == s.ops[o := op] && t.queues == s.queues && t.ctl == s.ctl
    requires OpOk(t, o, op) && (o in s.ops ==> op.worker == s.ops[o].worker && op.stage == s.ops[o].stage)
    ensures MailInv(t)
  {
    forall j | 0 <= j < |t.queues| ensures QueueOk(t, j) {
      assert QueueOk(s, j);
    }
    forall x | x in t.ops ensures OpOk(t, x, t.ops[x]) {
      if x != o {
        assert OpOk(s, x, s.ops[x]);
      }
    }
  }

  lemma SendKeepsMail(s: Sys, o: nat)
    requires MailInv(s) && Enabled(s, Send(o))
    ensures MailInv(Do(s, Send(o)))
  {
    var t := Do(s, Send(o));
    var i := s.ops[o].worker;
    assert OpOk(s, o, s.ops[o]);
    forall j | 0 <= j < |t.queues| ensures QueueOk(t, j) {
      assert QueueOk(s, j);
      assert forall p :: 0 <= p < |s.queues[j]| ==> s.queues[j][p] != o;
    }
    forall x | x in t.ops ensures OpOk(t, x, t.ops[x]) {
      if x == o {
        assert t.queues[i][|s.queues[i]|] == o;
      } else {
        assert OpOk(s, x, s.ops[x]);
      }
    }
  }

  lemma FlushKeepsMail(s: Sys, i: nat)
    requires MailInv(s) && Enabled(s, Flush(i))
    ensures MailInv(Do(s, Flush(i)))
  {
    var t := Do(s, Flush(i));
    var o := s.queues[i][0];
    assert QueueOk(s, i) && OpOk(s, o, s.ops[o]);
    PopKeeps(s, i, t.ops[o], t);
  }

  predicate OfSubmitter(step: Step) {
    step.Submit? || step.GiveUp? || step.Receive?
  }

  lemma UpdateStepMail(s: Sys, step: Step)
    requires MailInv(s) && Enabled(s, step) && OfSubmitter(step)
    ensures MailInv(Do(s, step))
  {
    var t := Do(s, step);
    if !step.Submit? {
      assert OpOk(s, step.o, s.ops[step.o]);
    }
    UpdateKeepsMail(s, step.o, t.ops[step.o], t);
  }

  predicate OfQueue(step: Step) {
    step.Move? || step.Send? || step.Flush?
  }

  lemma MainKeepsMail(s: Sys, m: R.Main)
    requires MailInv(s) && R.Inv(s.ctl) && Enabled(s, Main(m))
    ensures MailInv(Do(s, Main(m)))
  {
    R.MainStays(s.ctl, m);
    MailFrame(s, Do(s, Main(m)));
  }

  lemma FrameStepMail(s: Sys, step: Step)
    requires MailInv(s) && Enabled(s, step) && !step.Main? && !OfQueue(step) && !OfSubmitter(step)
    ensures MailInv(Do(s, step))
  {
    MailFrame(s, Do(s, step));
  }

  /** Every step keeps the discipline of queues, operations and replies. */
  lemma StepKeepsMail(s: Sys, step: Step)
    requires MailInv(s) && R.Inv(s.ctl) && Enabled(s, step)
    ensures MailInv(Do(s, step))
  {
    if step.Move? {
      MoveKeepsMail(s, step.i, step.move, step.env, step.modOk);
    } else if step.Send? {
      SendKeepsMail(s, step.o);
    } else if step.Flush? {
      FlushKeepsMail(s, step.i);
    } else if OfSubmitter(step) {
      UpdateStepMail(s, step);
    } else if step.Main? {
      MainKeepsMail(s, step.main);
    } else {
      FrameStepMail(s, step);
    }
  }

  // ---------------------------------------------------------------- sessions

  ghost predicate RunnableAt(s: Sys, i: nat) {
    i < |s.ctl.phases| && R.Runnable(s.ctl.phases[i])
  }

  ghost predicate AtHome(s: Sys, l: nat, i: nat, raw: VLSH) {
    l in s.loops && l in s.data.home && s.data.home[l] == S.Home(i, raw)
  }

  /** What an operation in flight may rely on when it is finally run. */
  ghost predicate KindOk(s: Sys, o: nat, op: Op) {
    var pending := !op.stage.Taken? && RunnableAt(s, op.worker);
    match op.kind
    case Create => true
    case Listen => true
    case Use(h, raw) => S.Aimed(s.data, op.worker, h, raw)
    case AcceptFrom(h, raw) => S.Aimed(s.data, op.worker, h, raw)
    case Close(h, raw) => S.Aimed(s.data, op.worker, h, raw)
    case WakeHandle(h, raw) => S.Aimed(s.data, op.worker, h, raw)
    case AddWait(h, raw, w) => S.Aimed(s.data, op.worker, h, raw) && w.id == o
    case CancelWait(h, raw, w) =>
      && S.Aimed(s.data, op.worker, h, raw)
      && w.id in s.ops && s.ops[w.id].kind == S.AddWait(h, raw, w)
      && s.ops[w.id].worker == op.worker && s.ops[w.id].replies == [S.Done]
    case ShardAccept(l, raw) => AtHome(s, l, op.worker, raw) && (pending ==> s.loops[l] == Serving(Some(o)))
    case ShardAdd(l, raw, w) => AtHome(s, l, op.worker, raw) && w.id == o && (pending ==> s.loops[l] == Serving(Some(o)))
    case ShardCancel(l, raw, _) => AtHome(s, l, op.worker, raw) && (pending ==> s.loops[l] == Serving(Some(o)))
    case ShardClose(l, raw) => AtHome(s, l, op.worker, raw) && s.loops[l] == ClosingBy(o)
    case ShardAbandon(l, raw) => AtHome(s, l, op.worker, raw) && s.loops[l] == ClosingBy(o)
    case ShardQuery(l, raw) => AtHome(s, l, op.worker, raw)
  }

  /** Every waiter in an engine was put there by the operation it is named after. */
  ghost predicate JoinOk(s: Sys, i: nat)
    requires i < |s.data.tables|
  {
    var joined := s.data.tables[i].engine.joined;
    forall w :: w in joined ==>
      && w.id in s.ops && s.ops[w.id].worker == i && s.ops[w.id].replies == [S.Done]
      && w in S.JoinedBy(s.ops[w.id].kind) && S.JoinedBy(s.ops[w.id].kind)[w] == joined[w]
  }

  ghost predicate AddDone(s: Sys, op: Op) {
    op.replies == [S.Done] ==>
      op.worker < |s.data.tables| &&
      forall w :: w in S.JoinedBy(op.kind) ==>
        && w in s.data.tables[op.worker].engine.joined
        && s.data.tables[op.worker].engine.joined[w] == S.JoinedBy(op.kind)[w]
  }

  ghost predicate CloserPending(s: Sys, l: Loop) {
    l.ClosingBy? ==> l.closer in s.ops && !s.ops[l.closer].stage.Taken?
  }

  /** A shard's listener stays open until its one close operation runs. */
  ghost predicate LoopOk(s: Sys, l: nat, loop: Loop) {
    && l in s.data.home
    && (RunnableAt(s, s.data.home[l].worker) && CloserPending(s, loop) ==>
          l in s.data.shards && s.data.shards[l] == s.data.home[l])
    && (loop.ClosingBy? ==> loop.closer in s.ops && S.Closes(s.ops[loop.closer].kind, l))
  }

  /** A complement key is present only for shards whose loop was started. */
  ghost predicate KeyOk(s: Sys, l: nat, home: S.Home) {
    home.worker < |s.data.tables| && home.raw >= 0 && RawKey(home.raw) in s.data.tables[home.worker].sessions ==>
      && l in s.loops && !s.loops[l].Fresh?
      && (s.loops[l].ClosingBy? ==> s.loops[l].closer in s.ops && s.ops[s.loops[l].closer].kind.ShardClose?)
  }

  ghost predicate SizesOk(s: Sys) {
    var n := |s.queues|;
    && |s.ctl.phases| == n && |s.data.tables| == n && |s.data.open| == n
    && (s.ops != map[] || s.loops != map[] || s.refs != map[] || s.data.born != map[] ==> s.ctl.init.Ready?)
  }

  ghost predicate RefsOk(s: Sys) {
    forall c :: c in s.refs ==> S.Aimed(s.data, s.refs[c].worker, s.refs[c].handle, s.refs[c].raw)
  }

  ghost predicate KindsOk(s: Sys) {
    forall o :: o in s.ops ==> KindOk(s, o, s.ops[o])
  }

  ghost predicate JoinsOk(s: Sys) {
    && (forall i :: 0 <= i < |s.data.tables| ==> JoinOk(s, i))
    && (forall o :: o in s.ops ==> AddDone(s, s.ops[o]))
  }

  ghost predicate LoopsOk(s: Sys) {
    && (forall l :: l in s.loops ==> LoopOk(s, l, s.loops[l]))
    && (forall l :: l in s.data.shards ==> KeyOk(s, l, s.data.shards[l]))
  }

  /** From the session loop of quiesce on nobody waits, and after it nothing is
      left in the table. */
  ghost predicate RetiredOk(s: Sys) {
    forall i :: 0 <= i < |s.ctl.phases| && i < |s.data.tables| ==>
      && (s.ctl.phases[i].Flushing? || R.HasQuiesced(s.ctl.phases[i]) ==> s.data.tables[i].sessions == map[])
      && (s.ctl.phases[i].Closing? ==> s.data.tables[i].engine.sets == map[])
  }

  ghost predicate SysInv(s: Sys) {
    var n := |s.queues|;
    && |s.ctl.phases| == n
    && R.Inv(s.ctl) && MailInv(s) && S.Inv(s.data)
    && SizesOk(s) && RefsOk(s) && KindsOk(s) && JoinsOk(s) && LoopsOk(s) && RetiredOk(s)
  }

  // ------------------------------------------------------- frame of one step

  /** Operations keep their kind and worker; replies are only ever added, and
      here only refusals; workers do not become runnable again. */
  ghost predicate OpsMild(s: Sys, t: Sys) {
    && s.ops.Keys == t.ops.Keys
    && (forall o :: o in s.ops ==>
          && t.ops[o].kind == s.ops[o].kind && t.ops[o].worker == s.ops[o].worker
          && (s.ops[o].stage.Taken? ==> t.ops[o].stage.Taken? && t.ops[o].replies == s.ops[o].replies)
          && (!s.ops[o].stage.Taken? && t.ops[o].stage.Taken? ==> t.ops[o].replies == [S.ErrClosed])
          && (!t.ops[o].stage.Taken? ==> t.ops[o].replies == s.ops[o].replies))
    && (s.ctl.init.Ready? ==> forall i :: RunnableAt(t, i) ==> RunnableAt(s, i))
  }

  /** Engines keep their members, complement keys and shards only disappear, and
      shards only from workers that no longer run operations. */
  ghost predicate DataMild(s: Sys, t: Sys) {
    && S.Later(s.data, t.data) && t.data.born == s.data.born
    && (forall i :: 0 <= i < |s.data.tables| && i < |t.data.tables| ==>
          && t.data.tables[i].engine.joined == s.data.tables[i].engine.joined
          && (forall k :: k < 0 && k in t.data.tables[i].sessions ==> k in s.data.tables[i].sessions))
    && (forall l :: l in t.data.shards ==> l in s.data.shards && t.data.shards[l] == s.data.shards[l])
    && (forall l :: l in s.data.shards && l !in t.data.shards ==> l in s.data.home && !RunnableAt(t, s.data.home[l].worker))
  }

  lemma MildKinds(s: Sys, t: Sys)
    requires KindsOk(s) && OpsMild(s, t) && DataMild(s, t) && t.loops == s.loops && MailInv(s) && SizesOk(s)
    ensures KindsOk(t)
  {
    forall o | o in t.ops ensures KindOk(t, o, t.ops[o]) {
      assert KindOk(s, o, s.ops[o]);
      if t.ops[o].kind.CancelWait? {
        var x := t.ops[o].kind.w.id;
        assert OpOk(s, x, s.ops[x]);
      }
    }
  }

  lemma MildJoins(s: Sys, t: Sys)
    requires JoinsOk(s) && OpsMild(s, t) && DataMild(s, t) && MailInv(s)
    ensures JoinsOk(t)
  {
    forall i | 0 <= i < |t.data.tables| ensures JoinOk(t, i) {
      assert JoinOk(s, i);
      forall w | w in s.data.tables[i].engine.joined ensures w.id in s.ops && s.ops[w.id].stage.Taken? {
        assert OpOk(s, w.id, s.ops[w.id]);
      }
    }
    forall o | o in t.ops ensures AddDone(t, t.ops[o]) {
      assert AddDone(s, s.ops[o]) && OpOk(s, o, s.ops[o]);
    }
  }

  lemma MildLoops(s: Sys, t: Sys)
    requires LoopsOk(s) && OpsMild(s, t) && DataMild(s, t) && t.loops == s.loops && SizesOk(s)
    ensures LoopsOk(t)
  {
    forall l | l in t.loops ensures LoopOk(t, l, t.loops[l]) {
      assert LoopOk(s, l, s.loops[l]);
    }
    forall l | l in t.data.shards ensures KeyOk(t, l, t.data.shards[l]) {
      assert KeyOk(s, l, s.data.shards[l]);
    }
  }

  lemma MildKeeps(s: Sys, t: Sys)
    requires SysInv(s) && OpsMild(s, t) && DataMild(s, t) && t.loops == s.loops && t.refs == s.refs
    requires |t.queues| == |s.queues| && (s.ctl.init.Ready? ==> t.ctl.init.Ready?)
    requires R.Inv(t.ctl) && MailInv(t) && S.Inv(t.data) && RetiredOk(t)
    ensures SysInv(t)
  {
    MildKinds(s, t);
    MildJoins(s, t);
    MildLoops(s, t);
    assert s.ops == map[] <==> s.ops.Keys == {};
    assert t.ops == map[] <==> t.ops.Keys == {};
  }

  lemma LaterRefl(d: S.Data)
    requires |d.tables| == |d.open|
    ensures S.Later(d, d)
  {
  }

  // ------------------------------------------------------- running an operation

  /** The head of the queue is a queued operation of this worker without a reply. */
  ghost predicate AtHead(s: Sys, i: nat, o: nat) {
    Sized(s, i) && RunnableAt(s, i) && o in s.ops &&
    s.ops[o].worker == i && s.ops[o].stage.Queued? && s.ops[o].replies == [] && KindOk(s, o, s.ops[o])
  }

  lemma ShardOpIssued(s: Sys, i: nat, o: nat)
    requires AtHead(s, i, o) && LoopsOk(s) && S.ShardsOk(s.data) && OnLoop(s.ops[o].kind)
    ensures S.OnShard(s.data, i, s.ops[o].kind.shard, s.ops[o].kind.raw)
    ensures s.ops[o].kind.ShardAbandon? ==> S.WellIssued(s.data, i, s.ops[o].kind)
  {
    var l := s.ops[o].kind.shard;
    assert LoopOk(s, l, s.loops[l]);
    assert KeyOk(s, l, s.data.shards[l]);
  }

  lemma NewWaiter(s: Sys, i: nat, o: nat)
    requires AtHead(s, i, o) && JoinsOk(s)
    ensures forall w :: w in s.data.tables[i].engine.joined ==> w.id != o
  {
    assert JoinOk(s, i);
  }

  lemma CancelIssued(s: Sys, i: nat, o: nat)
    requires AtHead(s, i, o) && JoinsOk(s) && s.ops[o].kind.CancelWait?
    ensures S.WellIssued(s.data, i, s.ops[o].kind)
  {
    assert AddDone(s, s.ops[s.ops[o].kind.w.id]);
  }

  lemma HeadIssued(s: Sys, i: nat, o: nat)
    requires AtHead(s, i, o) && JoinsOk(s) && LoopsOk(s) && S.ShardsOk(s.data)
    ensures S.WellIssued(s.data, i, s.ops[o].kind)
  {
    NewWaiter(s, i, o);
    if OnLoop(s.ops[o].kind) {
      ShardOpIssued(s, i, o);
    } else if s.ops[o].kind.CancelWait? {
      CancelIssued(s, i, o);
    }
  }

  lemma TakenAtHead(s: Sys, i: nat)
    requires MailInv(s) && KindsOk(s) && Sized(s, i) && RunnableAt(s, i) && s.queues[i] != []
    ensures AtHead(s, i, s.queues[i][0])
  {
    var o := s.queues[i][0];
    assert QueueOk(s, i);
    assert OpOk(s, o, s.ops[o]);
  }

  lemma TakenWellIssued(s: Sys, i: nat)
    requires SysInv(s) && Sized(s, i) && RunnableAt(s, i) && s.queues[i] != []
    ensures s.queues[i][0] in s.ops && S.WellIssued(s.data, i, s.ops[s.queues[i][0]].kind)
  {
    TakenAtHead(s, i);
    HeadIssued(s, i, s.queues[i][0]);
  }

  /** `t` is `s` after worker `i` ran its first queued operation. */
  ghost predicate Ran(s: Sys, i: nat, env: S.Env, t: Sys) {
    SysInv(s) && Popped(s, i, env, t)
  }

  ghost predicate Popped(s: Sys, i: nat, env: S.Env, t: Sys) {
    && Sized(s, i) && s.ctl.phases[i].Draining? && s.queues[i] != [] && s.queues[i][0] in s.ops
    && !s.ctl.stopping && s.ctl.live && S.EnvOk(s.data, i, env)
    && |t.ctl.phases| == |s.ctl.phases|
    && (forall j :: RunnableAt(t, j) ==> RunnableAt(s, j))
    && t == Took(s, i, s.queues[i][0], s.ops[s.queues[i][0]], env).(ctl := t.ctl)
    && t.data.allocs < WIDTH
  }

  lemma RanData(s: Sys, i: nat, env: S.Env, t: Sys)
    requires Ran(s, i, env, t)
    ensures S.Inv(t.data) && S.Later(s.data, t.data)
  {
    TakenWellIssued(s, i);
    S.ExecKeeps(s.data, i, s.ops[s.queues[i][0]].kind, env);
    S.ExecLater(s.data, i, s.ops[s.queues[i][0]].kind, env);
  }

  /** The shards after the run: one may have been closed, one may be new. */
  lemma RanShards(s: Sys, i: nat, env: S.Env, t: Sys)
    requires Ran(s, i, env, t)
    ensures var kind := s.ops[s.queues[i][0]].kind;
            ShardsStep(s, i, kind, env, t)
  {
    LoopsAreOld(s);
    ExecShardsStep(s, i, s.ops[s.queues[i][0]].kind, env, t);
  }

  function LoopsAfter(loops: map<nat, Loop>, reply: S.Reply): map<nat, Loop> {
    if reply.Shard? then loops[reply.shard := Fresh] else loops
  }

  lemma ExecShardsStep(s: Sys, i: nat, kind: S.Kind, env: S.Env, t: Sys)
    requires Sized(s, i) && s.data.nextSess !in s.data.home && s.data.nextSess !in s.data.shards
    requires forall l :: l in s.loops ==> l in s.data.home && l != s.data.nextSess
    requires forall l :: l in s.data.shards ==> l in s.data.home
    requires var (u, r) := S.Exec(s.data, i, kind, env); t.data == u && t.loops == LoopsAfter(s.loops, r)
    ensures ShardsStep(s, i, kind, env, t)
  {
    S.ExecShards(s.data, i, kind, env);
  }

  /** Sessions to come stand for no loop, no shard and no home yet. */
  lemma LoopsAreOld(s: Sys)
    requires SysInv(s)
    ensures forall l :: l in s.loops ==> l in s.data.home && l != s.data.nextSess
    ensures s.data.nextSess !in s.data.home && s.data.nextSess !in s.data.shards
    ensures forall l :: l in s.data.shards ==> l in s.data.home
  {
    forall l | l in s.loops ensures l in s.data.home && l != s.data.nextSess {
      assert LoopOk(s, l, s.loops[l]);
    }
  }

  /** The same, without the definition of what the closure did. */
  ghost predicate After(s: Sys, i: nat, o: nat, env: S.Env, t: Sys) {
    Sized(s, i) && o in s.ops && o in t.ops && S.EnvOk(s.data, i, env) &&
    var op := s.ops[o];
    && op.worker == i && op.stage.Queued? && op.replies == [] && KindOk(s, o, op) && RunnableAt(s, i)
    && S.WellIssued(s.data, i, op.kind)
    && t.ops == s.ops[o := t.ops[o]] && t.ops[o].kind == op.kind && t.ops[o].worker == i
    && t.ops[o].stage.Taken? && |t.ops[o].replies| == 1
    && (forall j :: RunnableAt(t, j) ==> RunnableAt(s, j))
    && S.Later(s.data, t.data)
    && S.TablesStep(s.data, t.data, i, if t.ops[o].replies == [S.Done] then S.JoinedBy(op.kind) else map[])
    && (forall k :: k < 0 && k in t.data.tables[i].sessions ==>
          k in s.data.tables[i].sessions || (op.kind.ShardAdd? && k == RawKey(op.kind.raw)))
    && ShardsStep(s, i, op.kind, env, t)
    && t.refs == s.refs
  }

  ghost predicate ShardsStep(s: Sys, i: nat, kind: S.Kind, env: S.Env, t: Sys) {
    && (forall l :: l in s.data.shards && !S.Closes(kind, l) ==> l in t.data.shards && t.data.shards[l] == s.data.shards[l])
    && (forall l :: l in t.data.shards && l in s.data.home ==> l in s.data.shards && t.data.shards[l] == s.data.shards[l])
    && (forall l :: l in t.data.shards && l !in s.data.home ==>
          l in t.loops && t.loops[l].Fresh? && t.data.shards[l] == S.Home(i, env.raw) && env.ok
          && l in t.data.home && t.data.home[l] == t.data.shards[l])
    && (forall l :: l in s.loops ==> l in t.loops && t.loops[l] == s.loops[l])
    && (forall l :: l in t.loops && l !in s.loops ==> l in t.data.shards && l !in s.data.home)
  }

  lemma RanAfter(s: Sys, i: nat, env: S.Env, t: Sys)
    requires Ran(s, i, env, t)
    ensures After(s, i, s.queues[i][0], env, t) && S.Inv(t.data)
  {
    var o := s.queues[i][0];
    var kind := s.ops[o].kind;
    RanData(s, i, env, t);
    RanShards(s, i, env, t);
    RanTables(s, i, env, t);
    TakenWellIssued(s, i);
    assert QueueOk(s, i);
    assert OpOk(s, o, s.ops[o]) && KindOk(s, o, s.ops[o]);
  }

  lemma RanTables(s: Sys, i: nat, env: S.Env, t: Sys)
    requires Ran(s, i, env, t)
    ensures var o := s.queues[i][0];
            var op := s.ops[o];
            && t.ops == s.ops[o := t.ops[o]] && t.ops[o].kind == op.kind && t.ops[o].worker == op.worker
            && t.ops[o].stage.Taken? && |t.ops[o].replies| == 1 && op.replies == []
            && S.TablesStep(s.data, t.data, i, if t.ops[o].replies == [S.Done] then S.JoinedBy(op.kind) else map[])
            && (forall k :: k < 0 && k in t.data.tables[i].sessions ==>
                  k in s.data.tables[i].sessions || (op.kind.ShardAdd? && k == RawKey(op.kind.raw)))
  {
    var o := s.queues[i][0];
    var op := s.ops[o];
    assert QueueOk(s, i);
    assert OpOk(s, o, op);
    S.ExecTables(s.data, i, op.kind, env);
    var r := S.Exec(s.data, i, op.kind, env).1;
    assert t.ops[o].replies == [r];
    assert t.data == S.Exec(s.data, i, op.kind, env).0;
    forall k | k < 0 && k in t.data.tables[i].sessions
      ensures k in s.data.tables[i].sessions || (op.kind.ShardAdd? && k == RawKey(op.kind.raw))
    {
      S.ExecKeys(s.data, i, op.kind, env, k);
    }
  }

  lemma RanKinds(s: Sys, i: nat, o: nat, env: S.Env, t: Sys)
    requires After(s, i, o, env, t) && KindsOk(s)
    ensures KindsOk(t)
  {
    forall x | x in t.ops ensures KindOk(t, x, t.ops[x]) {
      assert KindOk(s, x, s.ops[x]);
    }
  }

  lemma RanJoin(s: Sys, i: nat, o: nat, t: Sys, j: nat)
    requires Sized(s, i) && o in s.ops && o in t.ops && t.ops == s.ops[o := t.ops[o]] && t.ops[o].kind == s.ops[o].kind
    requires s.ops[o].worker == i && t.ops[o].worker == i && s.ops[o].replies == [] && KindOk(s, o, s.ops[o])
    requires S.TablesStep(s.data, t.data, i, if t.ops[o].replies == [S.Done] then S.JoinedBy(s.ops[o].kind) else map[])
    requires JoinsOk(s) && j < |t.data.tables|
    ensures JoinOk(t, j)
  {
    assert JoinOk(s, j);
    if j == i && t.ops[o].replies == [S.Done] {
      var more := S.JoinedBy(s.ops[o].kind);
      forall w | w in more ensures w.id == o {
      }
    }
  }

  lemma RanJoins(s: Sys, i: nat, o: nat, env: S.Env, t: Sys)
    requires After(s, i, o, env, t) && JoinsOk(s) && KindsOk(s)
    ensures JoinsOk(t)
  {
    forall j | 0 <= j < |t.data.tables| ensures JoinOk(t, j) {
      RanJoin(s, i, o, t, j);
    }
    forall x | x in t.ops ensures AddDone(t, t.ops[x]) {
      assert AddDone(s, s.ops[x]) && KindOk(s, x, s.ops[x]);
    }
  }

  lemma RanLoops(s: Sys, i: nat, o: nat, env: S.Env, t: Sys)
    requires After(s, i, o, env, t) && LoopsOk(s)
    ensures forall l :: l in t.loops ==> LoopOk(t, l, t.loops[l])
  {
    forall l | l in t.loops ensures LoopOk(t, l, t.loops[l]) {
      if l in s.loops {
        assert LoopOk(s, l, s.loops[l]);
      }
    }
  }

  ghost predicate NoKey(s: Sys, home: S.Home) {
    !(home.worker < |s.data.tables| && home.raw >= 0 && RawKey(home.raw) in s.data.tables[home.worker].sessions)
  }

  /** Complement keys after the run are old ones, or the one of the shard whose
      waiter was added. */
  ghost predicate KeysStep(s: Sys, i: nat, o: nat, kind: S.Kind, t: Sys) {
    && (forall home :: !NoKey(t, home) && !(kind.ShardAdd? && home == S.Home(i, kind.raw)) ==> !NoKey(s, home))
    && (kind.ShardAdd? ==>
          S.OnShard(s.data, i, kind.shard, kind.raw) && AtHome(s, kind.shard, i, kind.raw) && s.loops[kind.shard] == Serving(Some(o)))
    && o in s.ops && o in t.ops && t.ops == s.ops[o := t.ops[o]] && t.ops[o].kind == s.ops[o].kind == kind
  }

  lemma AfterKeys(s: Sys, i: nat, o: nat, env: S.Env, t: Sys)
    requires After(s, i, o, env, t)
    ensures KeysStep(s, i, o, s.ops[o].kind, t)
  {
  }

  lemma OldKey(s: Sys, t: Sys, o: nat, l: nat, home: S.Home)
    requires KeyOk(s, l, home) && !NoKey(s, home)
    requires l in s.loops ==> l in t.loops && t.loops[l] == s.loops[l]
    requires o in s.ops && o in t.ops && t.ops == s.ops[o := t.ops[o]] && t.ops[o].kind == s.ops[o].kind
    ensures KeyOk(t, l, home)
  {
  }

  /** Only the shard that owns a raw handle can be meant by its complement key. */
  lemma AddedKey(s: Sys, i: nat, o: nat, kind: S.Kind, env: S.Env, t: Sys, l: nat)
    requires ShardsStep(s, i, kind, env, t) && KeysStep(s, i, o, kind, t) && |t.data.tables| == |t.data.open| && S.ShardsOk(t.data)
    requires kind.ShardAdd? && l in t.data.shards && t.data.shards[l] == S.Home(i, kind.raw)
    ensures KeyOk(t, l, t.data.shards[l])
  {
    assert t.data.shards[kind.shard] == S.Home(i, kind.raw);
    assert l == kind.shard;
  }

  lemma KeptKey(s: Sys, i: nat, o: nat, kind: S.Kind, env: S.Env, t: Sys, l: nat)
    requires ShardsStep(s, i, kind, env, t) && KeysStep(s, i, o, kind, t) && LoopsOk(s)
    requires l in t.data.shards && l in s.data.home && !NoKey(t, t.data.shards[l])
    requires !(kind.ShardAdd? && t.data.shards[l] == S.Home(i, kind.raw))
    ensures KeyOk(t, l, t.data.shards[l])
  {
    assert KeyOk(s, l, s.data.shards[l]);
    OldKey(s, t, o, l, s.data.shards[l]);
  }

  lemma RanKey(s: Sys, i: nat, o: nat, kind: S.Kind, env: S.Env, t: Sys, l: nat)
    requires ShardsStep(s, i, kind, env, t) && KeysStep(s, i, o, kind, t) && LoopsOk(s)
    requires S.Inv(s.data) && |t.data.tables| == |t.data.open| && S.ShardsOk(t.data)
    requires Sized(s, i) && S.EnvOk(s.data, i, env) && l in t.data.shards
    ensures KeyOk(t, l, t.data.shards[l])
  {
    if kind.ShardAdd? && t.data.shards[l] == S.Home(i, kind.raw) {
      AddedKey(s, i, o, kind, env, t, l);
    } else if NoKey(t, t.data.shards[l]) {
    } else if l !in s.data.home {
      S.UnopenedKeyless(s.data, i, env.raw);
      assert NoKey(s, t.data.shards[l]);
    } else {
      KeptKey(s, i, o, kind, env, t, l);
    }
  }

  lemma RanKeys(s: Sys, i: nat, o: nat, env: S.Env, t: Sys)
    requires After(s, i, o, env, t) && LoopsOk(s) && S.Inv(s.data) && S.Inv(t.data)
    ensures forall l :: l in t.data.shards ==> KeyOk(t, l, t.data.shards[l])
  {
    AfterKeys(s, i, o, env, t);
    forall l | l in t.data.shards ensures KeyOk(t, l, t.data.shards[l]) {
      RanKey(s, i, o, s.ops[o].kind, env, t, l);
    }
  }

  lemma RanKeeps(s: Sys, i: nat, env: S.Env, t: Sys)
    requires Ran(s, i, env, t) && R.Inv(t.ctl) && MailInv(t) && RetiredOk(t) && t.ctl.init.Ready?
    ensures SysInv(t)
  {
    var o := s.queues[i][0];
    RanAfter(s, i, env, t);
    RanKinds(s, i, o, env, t);
    RanJoins(s, i, o, env, t);
    RanLoops(s, i, o, env, t);
    RanKeys(s, i, o, env, t);
  }

  // ------------------------------------------------------- every step

  lemma SameData(s: Sys, t: Sys)
    requires t.data == s.data && |s.data.tables| == |s.data.open|
    ensures DataMild(s, t)
  {
    LaterRefl(s.data);
  }

  lemma MainKeeps(s: Sys, m: R.Main, t: Sys)
    requires SysInv(s) && R.CanMain(s.ctl, m) && t == s.(ctl := R.DoMain(s.ctl, m)) && MailInv(t)
    ensures SysInv(t)
  {
    var c := R.DoMain(s.ctl, m);
    R.MainKeeps(s.ctl, m);
    R.MainStays(s.ctl, m);
    MainRetired(s, c, t);
    MainMild(s, c, t);
  }

  /** Workers stay where they are, but for one that is being started. */
  ghost predicate Spawns(s: Sys, c: R.Control) {
    var n := |s.ctl.phases|;
    && |c.phases| == n
    && (forall j :: 0 <= j < n ==> c.phases[j] == s.ctl.phases[j] || (s.ctl.phases[j].Unborn? && c.phases[j].Registering?))
    && (s.ctl.init.Ready? ==> c.init.Ready?)
  }

  lemma MainRetired(s: Sys, c: R.Control, t: Sys)
    requires RetiredOk(s) && Spawns(s, c) && t == s.(ctl := c)
    ensures RetiredOk(t)
  {
  }

  lemma MainMild(s: Sys, c: R.Control, t: Sys)
    requires SysInv(s) && R.Inv(c) && Spawns(s, c) && t == s.(ctl := c) && MailInv(t) && RetiredOk(t)
    ensures SysInv(t)
  {
    SameData(s, t);
    SpawnsMild(s, c, t);
    MildKeeps(s, t);
  }

  lemma SpawnsMild(s: Sys, c: R.Control, t: Sys)
    requires Spawns(s, c) && t.ctl == c && t.ops == s.ops
    ensures OpsMild(s, t)
  {
  }

  lemma MovedRunnable(s: Sys, i: nat, m: R.Move, t: Sys)
    requires R.Inv(s.ctl) && R.CanMove(s.ctl, i, m) && s.ctl.init.Ready? && t.ctl == R.DoMove(s.ctl, i, m)
    ensures forall j :: RunnableAt(t, j) ==> RunnableAt(s, j)
  {
    R.MoveStays(s.ctl, i, m);
    assert !s.ctl.phases[i].Registering?;
  }

  lemma MovedRetired(s: Sys, i: nat, m: R.Move, modOk: bool, t: Sys)
    requires RetiredOk(s) && Sized(s, i) && R.CanMove(s.ctl, i, m) && !m.TakeOp?
    requires m.Event? ==> s.data.tables[i].engine.sets.Keys <= s.data.tables[i].sessions.Keys
    requires m.RetireDone? ==> s.data.tables[i].sessions == map[]
    requires t.ctl == R.DoMove(s.ctl, i, m) && t.data == MoveData(s, i, m, modOk)
    ensures RetiredOk(t)
  {
  }

  lemma TookRetired(s: Sys, i: nat, t: Sys)
    requires RetiredOk(s) && i < |s.ctl.phases| && i < |t.ctl.phases| && t.ctl.phases == s.ctl.phases[i := t.ctl.phases[i]]
    requires t.ctl.phases[i].Draining? && |t.data.tables| == |s.data.tables|
    requires forall j :: 0 <= j < |s.data.tables| && j != i ==> t.data.tables[j] == s.data.tables[j]
    ensures RetiredOk(t)
  {
  }

  lemma TookTables(s: Sys, i: nat, env: S.Env)
    requires Sized(s, i) && s.queues[i] != [] && s.queues[i][0] in s.ops
    ensures var t := Take(s, i, env);
            && |t.data.tables| == |s.data.tables|
            && (forall j :: 0 <= j < |s.data.tables| && j != i ==> t.data.tables[j] == s.data.tables[j])
  {
    S.ExecTables(s.data, i, s.ops[s.queues[i][0]].kind, env);
  }

  lemma TakeKeeps(s: Sys, i: nat, env: S.Env, t: Sys)
    requires SysInv(s) && Sized(s, i) && R.CanMove(s.ctl, i, R.TakeOp)
    requires s.queues[i] != [] && s.queues[i][0] in s.ops && S.EnvOk(s.data, i, env)
    requires t.ctl == R.DoMove(s.ctl, i, R.TakeOp) && t == Take(s.(ctl := t.ctl), i, env)
    requires t.data.allocs < WIDTH && MailInv(t)
    ensures SysInv(t)
  {
    var o := s.queues[i][0];
    assert s.ops != map[];
    R.MoveKeeps(s.ctl, i, R.TakeOp);
    R.MoveStays(s.ctl, i, R.TakeOp);
    TookTables(s.(ctl := t.ctl), i, env);
    TookRetired(s, i, t);
    MovedRunnable(s, i, R.TakeOp, t);
    if s.ctl.stopping || !s.ctl.live {
      RefusedKeeps(s, i, t);
    } else {
      assert t == Took(s, i, o, s.ops[o], env).(ctl := t.ctl);
      RanKeeps(s, i, env, t);
    }
  }

  lemma RefusedKeeps(s: Sys, i: nat, t: Sys)
    requires SysInv(s) && Sized(s, i) && s.queues[i] != [] && s.queues[i][0] in s.ops
    requires var o := s.queues[i][0]; var op := s.ops[o];
             t == s.(ctl := t.ctl, queues := s.queues[i := s.queues[i][1..]],
                     ops := s.ops[o := op.(stage := Taken, replies := op.replies + [S.ErrClosed])])
    requires R.Inv(t.ctl) && MailInv(t) && RetiredOk(t) && (s.ctl.init.Ready? ==> t.ctl.init.Ready?)
    requires forall j :: RunnableAt(t, j) ==> RunnableAt(s, j)
    ensures SysInv(t)
  {
    RefusedMild(s, i, t);
    SameData(s, t);
    MildKeeps(s, t);
  }

  lemma RefusedMild(s: Sys, i: nat, t: Sys)
    requires MailInv(s) && Sized(s, i) && s.queues[i] != [] && s.queues[i][0] in s.ops
    requires var o := s.queues[i][0]; var op := s.ops[o];
             t.ops == s.ops[o := op.(stage := Taken, replies := op.replies + [S.ErrClosed])]
    requires forall j :: RunnableAt(t, j) ==> RunnableAt(s, j)
    ensures OpsMild(s, t)
  {
    assert QueueOk(s, i) && OpOk(s, s.queues[i][0], s.ops[s.queues[i][0]]);
  }

  /** A step that only rewrites the engine of worker `i`. */
  lemma EngineMild(s: Sys, t: Sys, i: nat, u: T.Tables)
    requires S.Inv(s.data) && Sized(s, i) && t.data == S.SetTables(s.data, i, u)
    requires T.Valid(u) && u.sessions == s.data.tables[i].sessions && u.engine.joined == s.data.tables[i].engine.joined
    ensures S.Inv(t.data) && DataMild(s, t)
  {
    S.SetEngineKeeps(s.data, i, u);
  }

  lemma EventTables(t: T.Tables, key: VLSH, events: Mask, modOk: bool)
    requires T.Valid(t)
    ensures var u := T.HandleEvent(t, key, events, modOk);
            T.Valid(u) && u.sessions == t.sessions && u.engine.joined == t.engine.joined
  {
    T.HandleEventKeeps(t, key, events, modOk);
  }

  lemma WakeTables(t: T.Tables)
    requires T.Valid(t)
    ensures var u := T.WakeAllWaiters(t); T.Valid(u) && u.sessions == t.sessions && u.engine.joined == t.engine.joined
  {
    T.WakeAllEmptiesEpoll(t);
  }

  lemma MoveMild(s: Sys, i: nat, m: R.Move, modOk: bool, t: Sys)
    requires S.Inv(s.data) && Sized(s, i) && R.CanMove(s.ctl, i, m)
    requires m.Event? ==> s.data.tables[i].engine.sets.Keys <= s.data.tables[i].sessions.Keys
    requires t.data == MoveData(s, i, m, modOk)
    ensures S.Inv(t.data) && DataMild(s, t)
  {
    var tab := s.data.tables[i];
    assert T.Valid(tab) by {
      assert S.WorkerOk(s.data, i);
    }
    if m.Event? {
      var (key, events) := s.ctl.phases[i].events[0];
      EventTables(tab, key, events, modOk);
      EngineMild(s, t, i, T.HandleEvent(tab, key, events, modOk));
    } else if m.WakeAllNow? {
      WakeTables(tab);
      EngineMild(s, t, i, T.WakeAllWaiters(tab));
    } else {
      SameData(s, t);
    }
  }

  lemma MoveKeeps(s: Sys, i: nat, m: R.Move, modOk: bool, t: Sys)
    requires SysInv(s) && Sized(s, i) && R.CanMove(s.ctl, i, m) && !m.TakeOp?
    requires m.Event? ==> s.data.tables[i].engine.sets.Keys <= s.data.tables[i].sessions.Keys
    requires m.RetireDone? ==> s.data.tables[i].sessions == map[]
    requires t == s.(ctl := R.DoMove(s.ctl, i, m), data := MoveData(s, i, m, modOk)) && MailInv(t)
    ensures SysInv(t)
  {
    R.MoveKeeps(s.ctl, i, m);
    R.MoveStays(s.ctl, i, m);
    MovedRetired(s, i, m, modOk, t);
    if s.ctl.init.Ready? {
      MovedRunnable(s, i, m, t);
    }
    MoveMild(s, i, m, modOk, t);
    MildKeeps(s, t);
  }

  lemma RetireMild(s: Sys, i: nat, key: VLSH, closeOk: bool, t: Sys)
    requires S.Inv(s.data) && Sized(s, i) && key in s.data.tables[i].sessions
    requires s.ctl.phases[i].Closing? && s.data.tables[i].engine.sets == map[]
    requires t.data == S.Retire(s.data, i, key, closeOk) && t.ctl == s.ctl
    ensures S.Inv(t.data) && DataMild(s, t) && TablesShrink(s.data, t.data)
  {
    S.RetireKeeps(s.data, i, key, closeOk);
    S.RetireFootprint(s.data, i, key, closeOk);
    assert !RunnableAt(s, i);
    ShrinkMild(s, i, t);
  }

  /** Engines stay as they are, and sessions only leave the tables. */
  ghost predicate TablesShrink(d: S.Data, u: S.Data) {
    var n := |d.tables|;
    && |u.tables| == n
    && forall j :: 0 <= j < n ==> u.tables[j].engine == d.tables[j].engine && u.tables[j].sessions.Keys <= d.tables[j].sessions.Keys
  }

  lemma ShrinkMild(s: Sys, i: nat, t: Sys)
    requires S.Later(s.data, t.data) && t.data.born == s.data.born && TablesShrink(s.data, t.data) && !RunnableAt(t, i)
    requires forall l :: l in t.data.shards ==> l in s.data.shards && t.data.shards[l] == s.data.shards[l]
    requires forall l :: l in s.data.shards && l !in t.data.shards ==> l in s.data.home && s.data.home[l].worker == i
    ensures DataMild(s, t)
  {
  }

  lemma RetireStepKeeps(s: Sys, i: nat, key: VLSH, closeOk: bool, t: Sys)
    requires SysInv(s) && Sized(s, i) && key in s.data.tables[i].sessions && s.ctl.phases[i].Closing?
    requires t == s.(data := S.Retire(s.data, i, key, closeOk)) && MailInv(t)
    ensures SysInv(t)
  {
    RetireMild(s, i, key, closeOk, t);
    Emptier(s, t);
    RetiredMild(s, t.data, t);
  }

  lemma Emptier(s: Sys, t: Sys)
    requires RetiredOk(s) && t.ctl == s.ctl && TablesShrink(s.data, t.data)
    ensures RetiredOk(t)
  {
    forall j | 0 <= j < |t.data.tables| && s.data.tables[j].sessions == map[]
      ensures t.data.tables[j].sessions == map[]
    {
      assert t.data.tables[j].sessions.Keys <= {};
    }
  }

  lemma SameOps(s: Sys, t: Sys)
    requires t.ops == s.ops && t.ctl == s.ctl
    ensures OpsMild(s, t)
  {
  }

  lemma RetiredMild(s: Sys, d: S.Data, t: Sys)
    requires SysInv(s) && t == s.(data := d) && S.Inv(d) && DataMild(s, t) && MailInv(t) && RetiredOk(t)
    ensures SysInv(t)
  {
    SameOps(s, t);
    MildKeeps(s, t);
  }

  /** Queue sends, refusals and returns touch neither kinds nor data. */
  lemma MailStepKeeps(s: Sys, t: Sys)
    requires SysInv(s) && t.ctl == s.ctl && t.data == s.data && t.loops == s.loops && t.refs == s.refs
    requires |t.queues| == |s.queues| && OpsMild(s, t) && MailInv(t)
    ensures SysInv(t)
  {
    SameData(s, t);
    MildKeeps(s, t);
  }

  lemma OneOpMild(s: Sys, o: nat, op: Op, t: Sys)
    requires o in s.ops && t.ops == s.ops[o := op] && t.ctl == s.ctl
    requires op.kind == s.ops[o].kind && op.worker == s.ops[o].worker
    requires ((op.stage.Taken? <==> s.ops[o].stage.Taken?) && op.replies == s.ops[o].replies)
             || (!s.ops[o].stage.Taken? && op.stage.Taken? && op.replies == [S.ErrClosed])
    ensures OpsMild(s, t)
  {
  }

  lemma PublishStepKeeps(s: Sys, t: Sys, d: S.Data)
    requires SysInv(s) && t == s.(data := d) && S.Inv(d) && MailInv(t)
    requires S.Later(s.data, d) && d.tables == s.data.tables && d.shards == s.data.shards && d.born == s.data.born
    ensures SysInv(t)
  {
    PublishMild(s, t);
    MildKeeps(s, t);
  }

  lemma PublishMild(s: Sys, t: Sys)
    requires RetiredOk(s) && t.ctl == s.ctl && t.ops == s.ops && t.data.tables == s.data.tables
    requires S.Later(s.data, t.data) && t.data.shards == s.data.shards && t.data.born == s.data.born
    ensures OpsMild(s, t) && DataMild(s, t) && RetiredOk(t)
  {
  }

  lemma LookupAimed(d: S.Data, h: VLSH)
    requires S.Inv(d) && h in d.owners && d.owners[h].SessionRef?
    ensures S.Aimed(d, d.owners[h].worker, h, d.owners[h].raw)
  {
    var ref := d.owners[h];
    assert S.OwnerOk(d, h, ref);
    assert S.WorkerOk(d, ref.worker) && S.EntryOk(d, ref.worker, h, ref.raw);
  }

  lemma LookupRefs(s: Sys, c: nat, h: VLSH, t: Sys)
    requires RefsOk(s) && h in s.data.owners && s.data.owners[h].SessionRef?
    requires S.Aimed(s.data, s.data.owners[h].worker, h, s.data.owners[h].raw)
    requires t.refs == s.refs[c := Held(h, s.data.owners[h].worker, s.data.owners[h].raw)] && t.data == s.data
    ensures RefsOk(t)
  {
  }

  /** A reference read from the owner map names the session's birth. */
  lemma LookupKeeps(s: Sys, c: nat, h: VLSH, t: Sys)
    requires SysInv(s) && h in s.data.owners && s.data.owners[h].SessionRef? && s.ctl.init.Ready?
    requires t == s.(refs := s.refs[c := Held(h, s.data.owners[h].worker, s.data.owners[h].raw)]) && MailInv(t)
    ensures SysInv(t)
  {
    LookupAimed(s.data, h);
    LookupRefs(s, c, h, t);
    OtherRefs(s, t);
    Reassemble(s, t);
  }

  /** References matter to nothing but the submissions made with them. */
  lemma OtherRefs(s: Sys, t: Sys)
    requires KindsOk(s) && JoinsOk(s) && LoopsOk(s) && t == s.(refs := t.refs)
    ensures KindsOk(t) && JoinsOk(t) && LoopsOk(t)
  {
    forall x | x in t.ops ensures KindOk(t, x, t.ops[x]) {
      assert KindOk(s, x, s.ops[x]);
    }
    JoinsStay(s, t);
    forall m | m in t.loops ensures LoopOk(t, m, t.loops[m]) {
      assert LoopOk(s, m, s.loops[m]);
    }
    forall m | m in t.data.shards ensures KeyOk(t, m, t.data.shards[m]) {
      assert KeyOk(s, m, s.data.shards[m]);
    }
  }

  lemma Reassemble(s: Sys, t: Sys)
    requires SysInv(s) && s.ctl.init.Ready? && t.data == s.data && t.ctl == s.ctl && t.queues == s.queues
    requires MailInv(t) && RefsOk(t) && KindsOk(t) && JoinsOk(t) && LoopsOk(t)
    ensures SysInv(t)
  {
    RetiredStays(s, t);
  }

  lemma RefsStay(s: Sys, t: Sys)
    requires RefsOk(s) && t.data == s.data && t.refs == s.refs
    ensures RefsOk(t)
  {
  }

  lemma RetiredStays(s: Sys, t: Sys)
    requires RetiredOk(s) && t.data == s.data && t.ctl == s.ctl
    ensures RetiredOk(t)
  {
  }

  /** A pending operation of an accept loop is the one its loop waits for. */
  lemma SettledNotPending(s: Sys, x: nat)
    requires MailInv(s) && x in s.ops && s.ops[x].result.Some?
    ensures s.ops[x].stage.Taken? || !RunnableAt(s, s.ops[x].worker)
  {
    assert OpOk(s, x, s.ops[x]);
  }

  /** An accept loop (or closer) may change its stage whenever no operation of
      the shard can still be run. */
  lemma LoopStepKinds(s: Sys, l: nat, loop: Loop, t: Sys)
    requires MailInv(s) && KindsOk(s) && l in s.loops && !s.loops[l].ClosingBy?
    requires s.loops[l].Serving? ==> Settled(s, s.loops[l].op)
    requires t.loops == s.loops[l := loop] && t.data == s.data && t.ctl == s.ctl
    requires s.ops.Keys <= t.ops.Keys && forall x :: x in s.ops ==> t.ops[x] == s.ops[x]
    ensures forall x :: x in s.ops ==> KindOk(t, x, t.ops[x])
  {
    forall x | x in s.ops ensures KindOk(t, x, t.ops[x]) {
      assert KindOk(s, x, s.ops[x]);
      if s.loops[l].Serving? && s.loops[l].op == Some(x) {
        SettledNotPending(s, x);
      }
    }
  }

  lemma LoopStepKeeps(s: Sys, l: nat, loop: Loop, t: Sys)
    requires SysInv(s) && l in s.loops && !s.loops[l].ClosingBy?
    requires s.loops[l].Serving? ==> Settled(s, s.loops[l].op)
    requires loop == Serving(None) || loop == Finished
    requires t == s.(loops := s.loops[l := loop]) && MailInv(t)
    ensures SysInv(t)
  {
    assert s.loops != map[];
    LoopStepKinds(s, l, loop, t);
    JoinsStay(s, t);
    LoopStepLoops(s, l, loop, t);
    RefsStay(s, t);
    Reassemble(s, t);
  }

  /** No operation is new but for unanswered ones. */
  lemma JoinsStay(s: Sys, t: Sys)
    requires JoinsOk(s) && t.data == s.data && s.ops.Keys <= t.ops.Keys
    requires forall x :: x in s.ops ==> t.ops[x] == s.ops[x]
    requires forall x :: x in t.ops && x !in s.ops ==> t.ops[x].replies == []
    ensures JoinsOk(t)
  {
    forall j | 0 <= j < |t.data.tables| ensures JoinOk(t, j) {
      assert JoinOk(s, j);
    }
    forall x | x in t.ops ensures AddDone(t, t.ops[x]) {
      if x in s.ops {
        assert AddDone(s, s.ops[x]);
      }
    }
  }

  lemma LoopStepLoops(s: Sys, l: nat, loop: Loop, t: Sys)
    requires LoopsOk(s) && l in s.loops && !s.loops[l].ClosingBy?
    requires !loop.Fresh? && (loop.ClosingBy? ==>
               && loop.closer !in s.ops && loop.closer in t.ops && !t.ops[loop.closer].stage.Taken?
               && S.Closes(t.ops[loop.closer].kind, l)
               && (t.ops[loop.closer].kind.ShardAbandon? ==> s.loops[l].Fresh?))
    requires t.loops == s.loops[l := loop] && t.data == s.data && t.ctl == s.ctl
    requires s.ops.Keys <= t.ops.Keys && forall x :: x in s.ops ==> t.ops[x] == s.ops[x]
    ensures LoopsOk(t)
  {
    assert forall x :: x in s.ops ==> x in s.ops.Keys;
    forall m | m in t.loops ensures LoopOk(t, m, t.loops[m]) {
      assert LoopOk(s, m, s.loops[m]);
    }
    forall m | m in t.data.shards ensures KeyOk(t, m, t.data.shards[m]) {
      assert KeyOk(s, m, s.data.shards[m]);
    }
  }

  lemma SubmitKind(s: Sys, o: nat, i: nat, kind: S.Kind, c: nat, t: Sys)
    requires MailInv(s) && RefsOk(s) && KindsOk(s) && o !in s.ops && MaySubmit(s, o, i, kind, c)
    requires t == s.(ops := s.ops[o := Op(i, kind, Sending, 0, [], None)], loops := LoopsAfterSubmit(s.loops, o, kind))
    ensures KindOk(t, o, t.ops[o])
  {
    if kind.CancelWait? {
      assert OpOk(s, kind.w.id, s.ops[kind.w.id]) && KindOk(s, kind.w.id, s.ops[kind.w.id]);
    }
  }

  predicate OnLoop(kind: S.Kind) {
    kind.ShardAccept? || kind.ShardAdd? || kind.ShardCancel? || kind.ShardClose? || kind.ShardAbandon?
  }

  lemma SubmitOthers(s: Sys, o: nat, i: nat, kind: S.Kind, c: nat, t: Sys)
    requires MailInv(s) && KindsOk(s) && LoopsOk(s) && o !in s.ops && MaySubmit(s, o, i, kind, c)
    requires t == s.(ops := s.ops[o := Op(i, kind, Sending, 0, [], None)], loops := LoopsAfterSubmit(s.loops, o, kind))
    ensures forall x :: x in s.ops ==> KindOk(t, x, t.ops[x])
    ensures LoopsOk(t)
  {
    if OnLoop(kind) {
      LoopStepKinds(s, kind.shard, t.loops[kind.shard], t);
      LoopStepLoops(s, kind.shard, t.loops[kind.shard], t);
    } else {
      NewOpKeeps(s, o, Op(i, kind, Sending, 0, [], None), t);
    }
  }

  /** One more operation disturbs neither the others nor the loops. */
  lemma NewOpKeeps(s: Sys, o: nat, op: Op, t: Sys)
    requires KindsOk(s) && LoopsOk(s) && o !in s.ops && op.stage.Sending? && t == s.(ops := s.ops[o := op])
    ensures forall x :: x in s.ops ==> KindOk(t, x, t.ops[x])
    ensures LoopsOk(t)
  {
    forall x | x in s.ops ensures KindOk(t, x, t.ops[x]) {
      assert KindOk(s, x, s.ops[x]);
    }
    forall m | m in t.loops ensures LoopOk(t, m, t.loops[m]) {
      assert LoopOk(s, m, s.loops[m]);
    }
    forall m | m in t.data.shards ensures KeyOk(t, m, t.data.shards[m]) {
      assert KeyOk(s, m, s.data.shards[m]);
    }
  }

  lemma SubmitLaws(s: Sys, o: nat, i: nat, kind: S.Kind, c: nat, t: Sys)
    requires MailInv(s) && RefsOk(s) && KindsOk(s) && JoinsOk(s) && LoopsOk(s) && o !in s.ops && MaySubmit(s, o, i, kind, c)
    requires t == s.(ops := s.ops[o := Op(i, kind, Sending, 0, [], None)], loops := LoopsAfterSubmit(s.loops, o, kind))
    ensures RefsOk(t) && KindsOk(t) && JoinsOk(t) && LoopsOk(t)
  {
    SubmitKind(s, o, i, kind, c, t);
    SubmitOthers(s, o, i, kind, c, t);
    JoinsStay(s, t);
    RefsStay(s, t);
  }

  lemma SubmitKeeps(s: Sys, o: nat, i: nat, kind: S.Kind, c: nat, t: Sys)
    requires SysInv(s) && o !in s.ops && MaySubmit(s, o, i, kind, c) && s.ctl.init.Ready?
    requires t == s.(ops := s.ops[o := Op(i, kind, Sending, 0, [], None)], loops := LoopsAfterSubmit(s.loops, o, kind))
    requires MailInv(t)
    ensures SysInv(t)
  {
    SubmitLaws(s, o, i, kind, c, t);
    Reassemble(s, t);
  }

  lemma TakeStepKeeps(s: Sys, step: Step, t: Sys)
    requires SysInv(s) && Enabled(s, step) && step.Move? && step.move.TakeOp?
    requires t == Do(s, step) && t.data.allocs < WIDTH && MailInv(t)
    ensures SysInv(t)
  {
    TakeKeeps(s, step.i, step.env, t);
  }

  lemma PlainMoveKeeps(s: Sys, step: Step, t: Sys)
    requires SysInv(s) && Enabled(s, step) && step.Move? && !step.move.TakeOp? && t == Do(s, step) && MailInv(t)
    ensures SysInv(t)
  {
    MoveKeeps(s, step.i, step.move, step.modOk, t);
  }

  lemma MoveStepKeeps(s: Sys, step: Step)
    requires SysInv(s) && Enabled(s, step) && step.Move? && Do(s, step).data.allocs < WIDTH
    ensures SysInv(Do(s, step))
  {
    StepKeepsMail(s, step);
    if step.move.TakeOp? {
      TakeStepKeeps(s, step, Do(s, step));
    } else {
      PlainMoveKeeps(s, step, Do(s, step));
    }
  }

  lemma QuiesceStepKeeps(s: Sys, step: Step)
    requires SysInv(s) && Enabled(s, step) && (step.RetireOne? || step.Flush?)
    ensures SysInv(Do(s, step))
  {
    var t := Do(s, step);
    StepKeepsMail(s, step);
    if step.RetireOne? {
      RetireStepKeeps(s, step.i, step.key, step.closeOk, t);
    } else {
      FlushKeeps(s, step.i, t);
    }
  }

  lemma FlushKeeps(s: Sys, i: nat, t: Sys)
    requires SysInv(s) && Sized(s, i) && s.queues[i] != [] && s.queues[i][0] in s.ops && MailInv(t)
    requires var o := s.queues[i][0]; var op := s.ops[o];
             t == s.(queues := s.queues[i := s.queues[i][1..]],
                     ops := s.ops[o := op.(stage := Taken, replies := op.replies + [S.ErrClosed])])
    ensures SysInv(t)
  {
    var o := s.queues[i][0];
    assert QueueOk(s, i) && OpOk(s, o, s.ops[o]);
    OneOpMild(s, o, t.ops[o], t);
    MailStepKeeps(s, t);
  }

  lemma OneOpKeeps(s: Sys, o: nat, t: Sys)
    requires SysInv(s) && o in s.ops && o in t.ops && MailInv(t) && |t.queues| == |s.queues|
    requires t == s.(queues := t.queues, ops := s.ops[o := t.ops[o]])
    requires t.ops[o].kind == s.ops[o].kind && t.ops[o].worker == s.ops[o].worker && t.ops[o].replies == s.ops[o].replies
    requires t.ops[o].stage.Taken? <==> s.ops[o].stage.Taken?
    ensures SysInv(t)
  {
    OneOpMild(s, o, t.ops[o], t);
    MailStepKeeps(s, t);
  }

  predicate OfWaiting(step: Step) {
    step.Send? || step.GiveUp? || step.Receive?
  }

  lemma SubmitStepKeeps(s: Sys, step: Step)
    requires SysInv(s) && Enabled(s, step) && step.Submit?
    ensures SysInv(Do(s, step))
  {
    StepKeepsMail(s, step);
    SubmitKeeps(s, step.o, step.i, step.kind, step.c, Do(s, step));
  }

  /** Steps taken by a submitter whose operation is under way. */
  lemma WaitingStepKeeps(s: Sys, step: Step)
    requires SysInv(s) && Enabled(s, step) && OfWaiting(step)
    ensures SysInv(Do(s, step))
  {
    StepKeepsMail(s, step);
    OneOpKeeps(s, step.o, Do(s, step));
  }

  /** Steps taken by accept loops. */
  lemma ShardStepKeeps(s: Sys, step: Step)
    requires SysInv(s) && Enabled(s, step) && (step.StartLoop? || step.LoopExit?)
    ensures SysInv(Do(s, step))
  {
    var t := Do(s, step);
    StepKeepsMail(s, step);
    LoopStepKeeps(s, step.shard, t.loops[step.shard], t);
  }

  predicate OfOwners(step: Step) {
    step.Publish? || step.Unpublish?
  }

  lemma OwnersStep(s: Sys, step: Step)
    requires S.Inv(s.data) && Enabled(s, step) && OfOwners(step) && Do(s, step).data.allocs < WIDTH
    ensures OwnersOnly(s.data, Do(s, step).data) && Do(s, step) == s.(data := Do(s, step).data)
  {
    if step.Publish? {
      Published(s.data, step.id);
    } else {
      Unpublished(s.data, step.public);
    }
  }

  /** Listeners enter and leave the owner map outside every worker. */
  lemma OwnerStepKeeps(s: Sys, step: Step)
    requires SysInv(s) && Enabled(s, step) && OfOwners(step) && Do(s, step).data.allocs < WIDTH
    ensures SysInv(Do(s, step))
  {
    var t := Do(s, step);
    StepKeepsMail(s, step);
    OwnersStep(s, step);
    PublishStepKeeps(s, t, t.data);
  }

  /** Steps taken by the initialising thread and callers elsewhere. */
  lemma CallerStepKeeps(s: Sys, step: Step)
    requires SysInv(s) && Enabled(s, step) && (step.Main? || step.Lookup?)
    ensures SysInv(Do(s, step))
  {
    var t := Do(s, step);
    StepKeepsMail(s, step);
    if step.Main? {
      MainKeeps(s, step.main, t);
    } else {
      LookupKeeps(s, step.c, step.handle, t);
    }
  }

  /** Sessions, shards and tables stay as they are. */
  ghost predicate OwnersOnly(d: S.Data, u: S.Data) {
    S.Inv(u) && S.Later(d, u) && u.tables == d.tables && u.shards == d.shards && u.born == d.born
  }

  lemma Published(d: S.Data, id: nat)
    requires S.Inv(d) && d.allocs + 1 < WIDTH
    ensures OwnersOnly(d, S.Publish(d, id))
  {
    S.PublishKeeps(d, id);
  }

  lemma Unpublished(d: S.Data, public: VLSH)
    requires S.Inv(d) && public in d.owners && d.owners[public].ListenerRef?
    ensures OwnersOnly(d, S.Unpublish(d, public))
  {
    S.UnpublishKeeps(d, public);
  }

  /** One step of the whole system, whatever the foreign calls answer, as long
      as the handle counter has not wrapped. */
  lemma StepKeeps(s: Sys, step: Step)
    requires SysInv(s) && Enabled(s, step) && Do(s, step).data.allocs < WIDTH
    ensures SysInv(Do(s, step))
  {
    if step.Move? || step.RetireOne? || step.Flush? {
      WorkerStepKeeps(s, step);
    } else if step.Submit? {
      SubmitStepKeeps(s, step);
    } else if OfWaiting(step) {
      WaitingStepKeeps(s, step);
    } else {
      OtherStepKeeps(s, step);
    }
  }

  lemma WorkerStepKeeps(s: Sys, step: Step)
    requires SysInv(s) && Enabled(s, step) && Do(s, step).data.allocs < WIDTH
    requires step.Move? || step.RetireOne? || step.Flush?
    ensures SysInv(Do(s, step))
  {
    if step.Move? {
      MoveStepKeeps(s, step);
    } else {
      QuiesceStepKeeps(s, step);
    }
  }

  lemma OtherStepKeeps(s: Sys, step: Step)
    requires SysInv(s) && Enabled(s, step) && Do(s, step).data.allocs < WIDTH
    requires !step.Move? && !step.RetireOne? && !step.Flush? && !step.Submit? && !OfWaiting(step)
    ensures SysInv(Do(s, step))
  {
    if OfOwners(step) {
      OwnerStepKeeps(s, step);
    } else if step.StartLoop? || step.LoopExit? {
      ShardStepKeeps(s, step);
    } else {
      CallerStepKeeps(s, step);
    }
  }

  lemma BootKeeps(workers: nat)
    requires workers >= 1
    ensures SysInv(Boot(workers))
  {
    R.BootInv(workers);
    S.FreshInv(workers);
  }

  // ---------------------------------------------------------------- runs

  ghost predicate Next(s: Sys, t: Sys) {
    exists step :: Enabled(s, step) && t == Do(s, step)
  }

  ghost predicate Boots(s: Sys) {
    |s.ctl.phases| >= 1 && s == Boot(|s.ctl.phases|)
  }

  /** A run: any number of workers, any interleaving. */
  ghost predicate IsRun(run: seq<Sys>) {
    Runs.IsRun(Boots, Next, run)
  }

  lemma AllocsGrow(s: Sys, step: Step)
    requires Enabled(s, step)
    ensures s.data.allocs <= Do(s, step).data.allocs
  {
    if step.Move? {
      if step.move.TakeOp? {
        S.ExecAllocs(s.data, step.i, s.ops[s.queues[step.i][0]].kind, step.env);
      }
    }
  }

  lemma NextGrows(s: Sys, t: Sys)
    requires Next(s, t)
    ensures s.data.allocs <= t.data.allocs
  {
    var step :| Enabled(s, step) && t == Do(s, step);
    AllocsGrow(s, step);
  }

  lemma NextKeeps(s: Sys, t: Sys)
    requires SysInv(s) && Next(s, t) && t.data.allocs < WIDTH
    ensures SysInv(t)
  {
    var step :| Enabled(s, step) && t == Do(s, step);
    StepKeeps(s, step);
  }

  lemma {:induction false} AllocsBounded(run: seq<Sys>, p: nat)
    requires IsRun(run) && p < |run|
    ensures run[p].data.allocs <= run[|run| - 1].data.allocs
    decreases |run| - p
  {
    if p < |run| - 1 {
      assert Next(run[p], run[p + 1]);
      NextGrows(run[p], run[p + 1]);
      AllocsBounded(run, p + 1);
    }
  }

  ghost predicate BoundedInv(s: Sys) {
    s.data.allocs < WIDTH ==> SysInv(s)
  }

  lemma NextKeepsBounded(s: Sys, t: Sys)
    requires BoundedInv(s) && Next(s, t)
    ensures BoundedInv(t)
  {
    NextGrows(s, t);
    if t.data.allocs < WIDTH {
      NextKeeps(s, t);
    }
  }

  /** Every state of every run with fewer than 2^32 handle allocations is sound. */
  lemma RunsAreSound(run: seq<Sys>)
    requires IsRun(run) && run[|run| - 1].data.allocs < WIDTH
    ensures forall p :: 0 <= p < |run| ==> SysInv(run[p])
  {
    forall s | Boots(s) ensures BoundedInv(s) {
      BootKeeps(|s.ctl.phases|);
    }
    forall s, t | BoundedInv(s) && Next(s, t) ensures BoundedInv(t) {
      NextKeepsBounded(s, t);
    }
    Runs.Sound(Boots, Next, BoundedInv, run);
    forall p | 0 <= p < |run| ensures SysInv(run[p]) {
      AllocsBounded(run, p);
      assert BoundedInv(run[p]);
    }
  }

  ghost predicate Reachable(s: Sys) {
    Runs.Reachable(Boots, Next, s)
  }

  lemma Play(s: Sys, step: Step) returns (t: Sys)
    requires Reachable(s) && Enabled(s, step)
    ensures Reachable(t) && t == Do(s, step)
  {
    t := Do(s, step);
    assert Next(s, t);
    Runs.Extend(Boots, Next, s, t);
  }
}
