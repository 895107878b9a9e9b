/** A concrete run of one worker in which an address or option call on a listener
    reaches a session that has nothing to do with it. */
module QueryWitness {
  import opened Handles
  import T = WorkerTables
  import S = Sessions
  import R = Retirement
  import opened Mode2
  import Laws = Mode2Laws
  import opened Options
  import opened Mode2Witness

  /** The worker is between two rounds with nothing queued. */
  predicate Idle(s: Sys) {
    s.ctl == Started(R.LoopTop) && s.queues == [[]] && S.Sized(s.data, 0)
  }

  function Parked(kind: S.Kind): Op {
    Op(0, kind, Sending, 0, [], None)
  }

  predicate Awaits(s: Sys, o: nat, kind: S.Kind) {
    o in s.ops && s.ops[o] == Parked(kind)
  }

  /** The state once a parked submission has been served. */
  function Served(s: Sys, o: nat, kind: S.Kind, env: S.Env): Sys
    requires S.Sized(s.data, 0)
  {
    var (d, reply) := S.Exec(s.data, 0, kind, env);
    s.(ops := s.ops[o := Op(0, kind, Taken, 1, [reply], None)],
       loops := if reply.Shard? then s.loops[reply.shard := Fresh] else s.loops,
       data := d)
  }

  function InQueue(s: Sys, o: nat, kind: S.Kind, ctl: R.Control): Sys {
    s.(ctl := ctl, queues := [[o]], ops := s.ops[o := Parked(kind).(stage := Queued)])
  }

  lemma Enqueues(s: Sys, o: nat, kind: S.Kind)
    requires Reachable(s) && Idle(s) && Awaits(s, o, kind)
    ensures Reachable(InQueue(s, o, kind, Started(R.LoopTop)))
  {
    assert s.queues[0] == [];
    var t := Play(s, Send(o));
    assert s.queues[0] + [o] == [o];
    assert t.queues == s.queues[0 := [o]] == [[o]];
    assert t == InQueue(s, o, kind, Started(R.LoopTop));
  }

  lemma Drains(s: Sys, o: nat, kind: S.Kind)
    requires Reachable(InQueue(s, o, kind, Started(R.LoopTop))) && S.Sized(s.data, 0)
    ensures Reachable(InQueue(s, o, kind, Started(R.Draining(64))))
  {
    var t := Play(InQueue(s, o, kind, Started(R.LoopTop)), Move(0, R.LoopGo, NONE, true));
    assert t.ctl == Started(R.Draining(64));
    assert t == InQueue(s, o, kind, Started(R.Draining(64)));
  }

  lemma TookServes(s: Sys, o: nat, kind: S.Kind, env: S.Env, t: Sys)
    requires S.Sized(s.data, 0) && t == InQueue(s, o, kind, Started(R.Draining(63)))
    ensures Took(t, 0, o, Parked(kind).(stage := Queued), env) == Served(s, o, kind, env).(ctl := Started(R.Draining(63)), queues := [[]])
  {
    var u := Took(t, 0, o, Parked(kind).(stage := Queued), env);
    assert t.queues[0] == [o] && t.queues[0][1..] == [];
    assert u.queues == t.queues[0 := []] == [[]];
    var reply := S.Exec(s.data, 0, kind, env).1;
    assert Parked(kind).replies + [reply] == [reply];
    assert u.ops == Served(s, o, kind, env).ops;
  }

  lemma Executes(s: Sys, o: nat, kind: S.Kind, env: S.Env)
    requires Reachable(InQueue(s, o, kind, Started(R.Draining(64)))) && S.Sized(s.data, 0) && S.EnvOk(s.data, 0, env)
    ensures Reachable(Served(s, o, kind, env).(ctl := Started(R.Draining(63)), queues := [[]]))
  {
    var q := InQueue(s, o, kind, Started(R.Draining(64)));
    assert R.DoMove(q.ctl, 0, R.TakeOp).phases == [R.Draining(63)];
    assert R.DoMove(q.ctl, 0, R.TakeOp) == Started(R.Draining(63));
    var t := Play(q, Move(0, R.TakeOp, env, true));
    TookServes(s, o, kind, env, InQueue(s, o, kind, Started(R.Draining(63))));
  }

  lemma Polls(u: Sys)
    requires Reachable(u.(ctl := Started(R.Draining(63)), queues := [[]])) && S.Sized(u.data, 0)
    ensures Reachable(u.(ctl := Started(R.LoopTop), queues := [[]]))
  {
    var t := Play(u.(ctl := Started(R.Draining(63)), queues := [[]]), Move(0, R.DrainDone([]), NONE, true));
    assert t == u.(ctl := Started(R.Polled([])), queues := [[]]);
    t := Play(t, Move(0, R.EventsDone, NONE, true));
    assert t == u.(ctl := Started(R.LoopTop), queues := [[]]);
  }

  /** A parked submission can be served and the worker be idle again. */
  lemma Serve(s: Sys, o: nat, kind: S.Kind, env: S.Env)
    requires Reachable(s) && Idle(s) && Awaits(s, o, kind) && S.EnvOk(s.data, 0, env)
    ensures Reachable(Served(s, o, kind, env))
  {
    Enqueues(s, o, kind);
    Drains(s, o, kind);
    Executes(s, o, kind, env);
    var u := Served(s, o, kind, env);
    ServedSized(s, o, kind, env);
    Polls(u);
    assert u == u.(ctl := Started(R.LoopTop), queues := [[]]);
  }

  lemma ServedSized(s: Sys, o: nat, kind: S.Kind, env: S.Env)
    requires S.Sized(s.data, 0)
    ensures S.Sized(Served(s, o, kind, env).data, 0)
  {
    Laws.ExecSized(s.data, 0, kind, env);
  }

  // ---------------------------------------------------------------- the run

  /** As MADE, with a raw handle that is not in use. */
  const MADE2 := S.Env(true, 6, true, true, true, true)

  function Listened(): S.Data {
    S.Publish(S.Exec(S.Fresh(1), 0, S.Listen, MADE).0, 0)
  }

  function Closed(): S.Data
    requires S.Sized(Listened(), 0)
  {
    S.Exec(Listened(), 0, S.ShardClose(0, 5), MADE2).0
  }

  function Reused(): S.Data
    requires S.Sized(Listened(), 0) && S.Sized(Closed(), 0)
  {
    S.Exec(Closed(), 0, S.Create, MADE).0
  }

  lemma ListenedIs()
    ensures S.Exec(S.Fresh(1), 0, S.Listen, MADE).1 == S.Shard(0, 5)
    ensures S.Sized(Listened(), 0) && Listened().open == [map[5 := 0]] && Listened().home == map[0 := S.Home(0, 5)]
    ensures Listened().nextSess == 1 && Listened().allocs == 1 && Listened().closes == multiset{}
  {
  }

  lemma ClosedIs()
    ensures S.Sized(Listened(), 0) && S.Exec(Listened(), 0, S.ShardClose(0, 5), MADE2).1 == S.Done
    ensures S.Sized(Closed(), 0) && Closed().open == [map[]] && Closed().closes[0] == 1
    ensures Closed().nextSess == 1 && Closed().allocs == 1
  {
    ListenedIs();
  }

  lemma ReusedIs()
    ensures S.Sized(Listened(), 0) && S.Sized(Closed(), 0)
    ensures S.Sized(Reused(), 0) && Reused().open == [map[5 := 1]] && Reused().closes == Closed().closes
    ensures S.Exec(Closed(), 0, S.Create, MADE).1 == S.Handle(2) && 2 in Reused().born && Reused().born[2].sess == 1
  {
    ClosedIs();
  }

  lemma QueryStrays()
    ensures S.Sized(Listened(), 0) && S.Sized(Closed(), 0) && S.Sized(Reused(), 0)
    ensures var (d, reply) := S.Exec(Reused(), 0, QUERY, MADE2);
            && reply == S.Done && S.ByQuery(0, 0, 1) in d.touched && d.closes[0] == 1
            && 2 in d.born && d.born[2].sess == 1
  {
    ClosedIs();
    ReusedIs();
  }

  function Ran(kind: S.Kind, reply: S.Reply): Op {
    Op(0, kind, Taken, 1, [reply], None)
  }

  function At(ops: map<nat, Op>, loops: map<nat, Loop>, data: S.Data): Sys {
    Boot(1).(ctl := Started(R.LoopTop), queues := [[]], ops := ops, loops := loops, data := data)
  }

  const QUERY := S.ShardQuery(0, 5)

  lemma ListenServed()
    ensures Reachable(At(map[0 := Ran(S.Listen, S.Shard(0, 5))], map[0 := Fresh], S.Exec(S.Fresh(1), 0, S.Listen, MADE).0))
  {
    Live();
    ListenedIs();
    var s := Play(Boot(1).(ctl := Started(R.LoopTop)), Submit(0, 0, S.Listen, 0));
    assert s == At(map[0 := Parked(S.Listen)], map[], S.Fresh(1));
    Serve(s, 0, S.Listen, MADE);
    assert Served(s, 0, S.Listen, MADE) ==
           At(map[0 := Ran(S.Listen, S.Shard(0, 5))], map[0 := Fresh], S.Exec(S.Fresh(1), 0, S.Listen, MADE).0);
  }

  function Found(): map<nat, Op> {
    map[0 := Ran(S.Listen, S.Shard(0, 5)), 1 := Parked(QUERY)]
  }

  lemma LoopServes()
    requires S.Sized(Listened(), 0) && Reachable(At(Found(), map[0 := Fresh], Listened()))
    ensures Reachable(At(Found(), map[0 := Finished], Listened()))
  {
    var s := Play(At(Found(), map[0 := Fresh], Listened()), StartLoop(0));
    s := Play(s, LoopExit(0));
    assert s == At(Found(), map[0 := Finished], Listened());
  }

  /** The listener is published, somebody submits a query, and the accept loop ends. */
  lemma QuerySubmitted()
    ensures Reachable(At(Found(), map[0 := Finished], Listened()))
  {
    ListenServed();
    ListenedIs();
    var d := S.Exec(S.Fresh(1), 0, S.Listen, MADE).0;
    var s := Play(At(map[0 := Ran(S.Listen, S.Shard(0, 5))], map[0 := Fresh], d), Publish(0));
    assert s == At(map[0 := Ran(S.Listen, S.Shard(0, 5))], map[0 := Fresh], Listened());
    s := Play(s, Submit(1, 0, QUERY, 0));
    assert s == At(Found(), map[0 := Fresh], Listened());
    LoopServes();
  }

  lemma CloseSubmitted()
    ensures Reachable(At(Found()[2 := Parked(S.ShardClose(0, 5))], map[0 := ClosingBy(2)], Listened()))
  {
    QuerySubmitted();
    ListenedIs();
    var s := Play(At(Found(), map[0 := Finished], Listened()), Submit(2, 0, S.ShardClose(0, 5), 0));
    assert s == At(Found()[2 := Parked(S.ShardClose(0, 5))], map[0 := ClosingBy(2)], Listened());
  }

  lemma ClosedServes(s: Sys, t: Sys)
    requires S.Sized(Listened(), 0) && s == At(Found()[2 := Parked(S.ShardClose(0, 5))], map[0 := ClosingBy(2)], Listened())
    requires t == Served(s, 2, S.ShardClose(0, 5), MADE2)
    ensures t == At(Found()[2 := Ran(S.ShardClose(0, 5), S.Done)], map[0 := ClosingBy(2)], Closed())
  {
    ClosedIs();
    assert t.ops == Found()[2 := Ran(S.ShardClose(0, 5), S.Done)];
  }

  lemma CloseServed()
    ensures S.Sized(Listened(), 0)
    ensures Reachable(At(Found()[2 := Ran(S.ShardClose(0, 5), S.Done)], map[0 := ClosingBy(2)], Closed()))
  {
    CloseSubmitted();
    ListenedIs();
    var s := At(Found()[2 := Parked(S.ShardClose(0, 5))], map[0 := ClosingBy(2)], Listened());
    Serve(s, 2, S.ShardClose(0, 5), MADE2);
    ClosedServes(s, Served(s, 2, S.ShardClose(0, 5), MADE2));
  }

  function Ended(): map<nat, Op> {
    Found()[2 := Ran(S.ShardClose(0, 5), S.Done)][3 := Ran(S.Create, S.Handle(2))]
  }

  function OneClosed(): map<nat, Op> {
    Found()[2 := Ran(S.ShardClose(0, 5), S.Done)]
  }

  lemma CreateSubmitted()
    ensures S.Sized(Listened(), 0)
    ensures Reachable(At(OneClosed()[3 := Parked(S.Create)], map[0 := ClosingBy(2)], Closed()))
  {
    CloseServed();
    ClosedIs();
    var s := Play(At(OneClosed(), map[0 := ClosingBy(2)], Closed()), Submit(3, 0, S.Create, 0));
    assert s == At(OneClosed()[3 := Parked(S.Create)], map[0 := ClosingBy(2)], Closed());
  }

  lemma CreateServed()
    ensures S.Sized(Listened(), 0) && S.Sized(Closed(), 0)
    ensures Reachable(At(Ended(), map[0 := ClosingBy(2)], Reused()))
  {
    CreateSubmitted();
    ClosedIs();
    ReusedIs();
    var s := At(OneClosed()[3 := Parked(S.Create)], map[0 := ClosingBy(2)], Closed());
    Serve(s, 3, S.Create, MADE);
    assert Served(s, 3, S.Create, MADE) == At(Ended(), map[0 := ClosingBy(2)], Reused());
  }

  lemma QueryReady()
    ensures S.Sized(Listened(), 0) && S.Sized(Closed(), 0) && S.Sized(Reused(), 0)
    ensures S.EnvOk(Reused(), 0, MADE2)
    ensures Awaits(At(Ended(), map[0 := ClosingBy(2)], Reused()), 1, QUERY)
  {
    ReusedIs();
  }

  /** The query of one caller, the close by another and the creation by a third end
      with the query on the session of the third. */
  lemma QueryTouchesStranger() returns (s: Sys)
    ensures Reachable(s) && 1 in s.ops && s.ops[1].kind == QUERY && s.ops[1].replies == [S.Done]
    ensures S.ByQuery(0, 0, 1) in s.data.touched && s.data.closes[0] == 1
    ensures 2 in s.data.born && s.data.born[2].sess == 1
  {
    CreateServed();
    QueryReady();
    QueryStrays();
    Serve(At(Ended(), map[0 := ClosingBy(2)], Reused()), 1, QUERY, MADE2);
    s := Served(At(Ended(), map[0 := ClosingBy(2)], Reused()), 1, QUERY, MADE2);
  }
}
