/** What each closure a worker runs answers, and what it does, kind by kind: in terms of
    handles and sessions, for the caller that submitted it. */
module Mode2Answers {
  import opened WaitEngine
  import opened WaitLaws
  import opened Handles
  import T = WorkerTables
  import S = Sessions
  import opened Mode2
  import opened Mode2Laws

  /** Sessions, handles and listeners are as they were; so are the other workers. */
  ghost predicate OnlyWaiters(d: S.Data, u: S.Data, i: nat)
    requires S.Sized(d, i)
  {
    && u == d.(tables := u.tables) && |u.tables| == |d.tables|
    && (forall j :: 0 <= j < |d.tables| && j != i ==> u.tables[j] == d.tables[j])
  }

  /** All waiters of `key` have been woken once, and nobody else. */
  ghost predicate KeyCleared(d: S.Data, u: S.Data, i: nat, key: VLSH, raw: VLSH)
    requires S.Sized(d, i) && i < |u.tables|
  {
    var e := d.tables[i].engine;
    if key in e.sets then Leaves(e, u.tables[i].engine, key, raw, e.sets[key].waiters, true) else u.tables[i].engine == e
  }

  /** The session behind `raw` was closed once more, and is open exactly if that failed;
      all the others are as they were. */
  ghost predicate SessionClosed(d: S.Data, u: S.Data, i: nat, raw: VLSH, ok: bool)
    requires S.Sized(d, i) && raw in d.open[i]
  {
    var sess := d.open[i][raw];
    && |u.open| == |d.open| && u.closes == d.closes + multiset{sess}
    && u.stuck == (if ok then d.stuck else d.stuck + {sess})
    && (raw in u.open[i] <==> !ok)
    && (forall j, r :: 0 <= j < |d.open| && !(j == i && r == raw) ==> (r in u.open[j] <==> r in d.open[j]))
    && (forall j, r :: 0 <= j < |d.open| && r in u.open[j] ==> r in d.open[j] && u.open[j][r] == d.open[j][r])
  }

  // ---------------------------------------------------------------- session calls

  ghost predicate UseOutcome(d: S.Data, i: nat, h: VLSH, env: S.Env, u: S.Data, reply: S.Reply)
    requires h in d.born
  {
    && (reply == S.ErrClosed <==> h !in d.owners)
    && (reply == S.Done <==> h in d.owners && env.owned && env.ok)
    && (reply == S.ErrOther <==> h in d.owners && !(env.owned && env.ok))
    && u == (if h in d.owners && env.owned then d.(touched := d.touched + {S.ByHandle(h, i, d.born[h].sess)}) else d)
  }

  lemma UseAnswers(d: S.Data, i: nat, h: VLSH, raw: VLSH, env: S.Env)
    requires S.Inv(d) && S.Sized(d, i) && S.Aimed(d, i, h, raw)
    ensures var (u, reply) := S.Exec(d, i, S.Use(h, raw), env); UseOutcome(d, i, h, env, u, reply)
  {
    UseTells(d, i, env, h, raw);
  }

  ghost predicate CloseOutcome(d: S.Data, i: nat, h: VLSH, raw: VLSH, env: S.Env, u: S.Data, reply: S.Reply)
    requires h in d.born && S.Sized(d, i)
  {
    if h !in d.owners then reply == S.ErrClosed && u == d
    else if !env.owned then reply == S.ErrOther && u == d
    else
      && reply == (if env.closeOk then S.Done else S.ErrOther)
      && raw in d.open[i] && d.open[i][raw] == d.born[h].sess && SessionClosed(d, u, i, raw, env.closeOk)
      && u.owners == d.owners - {h} && |u.tables| == |d.tables|
      && (forall j :: 0 <= j < |d.tables| && j != i ==> u.tables[j] == d.tables[j])
      && u.tables[i].sessions == d.tables[i].sessions - {h} && KeyCleared(d, u, i, h, raw)
      && u.born == d.born && u.home == d.home && u.shards == d.shards && u.allocs == d.allocs
      && u.touched == d.touched + {S.ByHandle(h, i, d.born[h].sess)}
  }

  lemma CloseAnswers(d: S.Data, i: nat, h: VLSH, raw: VLSH, env: S.Env)
    requires S.Inv(d) && S.Sized(d, i) && S.Aimed(d, i, h, raw)
    ensures var (u, reply) := S.Exec(d, i, S.Close(h, raw), env); CloseOutcome(d, i, h, raw, env, u, reply)
  {
    S.ResolveMeans(d, i, h, raw, env.owned);
    assert S.WorkerOk(d, i);
    if h in d.owners && env.owned {
      assert S.EntryOk(d, i, h, raw);
      RemoveWaitersLeaves(d.tables[i], h, raw);
    }
  }

  // ---------------------------------------------------------------- new sessions

  /** The session VLS just made under `env.raw` gets the next handle and is listed under
      it; or, if it is not the worker's own or the counter has left the range of handles,
      it is closed again and nobody hears of it. */
  ghost predicate NewSession(d: S.Data, i: nat, env: S.Env, u: S.Data, reply: S.Reply)
    requires S.Sized(d, i)
  {
    var sess, id := d.nextSess, (d.allocs + 1) % 0x1_0000_0000;
    && |u.open| == |d.open| && |u.tables| == |d.tables|
    && u.home == d.home[sess := S.Home(i, env.raw)] && u.nextSess == sess + 1
    && u.shards == d.shards && u.stuck == d.stuck && u.touched == d.touched
    && u.allocs == d.allocs + (if env.newOwned then 1 else 0)
    && (forall j, r :: 0 <= j < |d.open| && !(j == i && r == env.raw) ==> (r in u.open[j] <==> r in d.open[j]))
    && (if env.newOwned && 1 <= id <= 0x7FFF_FFFF then
          && reply == S.Handle(id) && id !in d.born && u.born == d.born[id := S.Birth(i, env.raw, sess)]
          && u.owners == d.owners[id := S.SessionRef(i, env.raw)] && u.closes == d.closes
          && u.tables == d.tables[i := d.tables[i].(sessions := d.tables[i].sessions[id := env.raw])]
          && env.raw in u.open[i] && u.open[i][env.raw] == sess
        else
          && reply == S.ErrOther && u.born == d.born && u.owners == d.owners && u.tables == d.tables
          && u.closes == d.closes + multiset{sess} && env.raw !in u.open[i])
  }

  ghost predicate CreateOutcome(d: S.Data, i: nat, env: S.Env, u: S.Data, reply: S.Reply)
    requires S.Sized(d, i)
  {
    if env.ok then NewSession(d, i, env, u, reply) else reply == S.ErrOther && u == d
  }

  lemma CreateAnswers(d: S.Data, i: nat, env: S.Env)
    requires S.Inv(d) && S.Sized(d, i) && S.EnvOk(d, i, env)
    requires S.Exec(d, i, S.Create, env).0.allocs < WIDTH
    ensures var (u, reply) := S.Exec(d, i, S.Create, env); CreateOutcome(d, i, env, u, reply)
  {
    if env.ok {
      S.NewHandleFresh(d);
      if !env.newOwned {
        NewForeign(d, i, env);
      } else if 1 <= (d.allocs + 1) % 0x1_0000_0000 <= 0x7FFF_FFFF {
        NewGiven(d, i, env);
      } else {
        NewRefused(d, i, env);
      }
    }
  }

  lemma NewGiven(d: S.Data, i: nat, env: S.Env)
    requires S.Sized(d, i) && env.raw !in d.open[i] && env.newOwned && d.allocs + 1 !in d.born
    requires d.allocs + 1 <= 0x7FFF_FFFF
    ensures var (u, reply) := S.Register(S.Open(d, i, env.raw), i, env.raw, env.newOwned); NewSession(d, i, env, u, reply)
  {
    assert Id(d.allocs + 1) == d.allocs + 1;
    var o := S.Open(d, i, env.raw);
    OpenedIs(d, i, env.raw);
    RegisteredIs(o, i, env.raw, d.allocs + 1);
  }

  lemma OpenedIs(d: S.Data, i: nat, raw: VLSH)
    requires S.Sized(d, i) && raw !in d.open[i]
    ensures var o := S.Open(d, i, raw);
            && o == d.(open := o.open, home := d.home[d.nextSess := S.Home(i, raw)], nextSess := d.nextSess + 1)
            && |o.open| == |d.open| && raw in o.open[i] && o.open[i][raw] == d.nextSess
            && forall j, r :: 0 <= j < |d.open| && !(j == i && r == raw) ==> (r in o.open[j] <==> r in d.open[j])
  {
  }

  lemma RegisteredIs(o: S.Data, i: nat, raw: VLSH, id: VLSH)
    requires S.Sized(o, i) && raw in o.open[i] && id == Id(o.allocs + 1) && Usable(id)
    ensures S.Register(o, i, raw, true) ==
            (o.(allocs := o.allocs + 1, born := o.born[id := S.Birth(i, raw, o.open[i][raw])],
                owners := o.owners[id := S.SessionRef(i, raw)],
                tables := o.tables[i := o.tables[i].(sessions := o.tables[i].sessions[id := raw])]),
             S.Handle(id))
  {
  }

  lemma NewRefused(d: S.Data, i: nat, env: S.Env)
    requires S.Sized(d, i) && env.raw !in d.open[i] && env.newOwned && !(1 <= (d.allocs + 1) % 0x1_0000_0000 <= 0x7FFF_FFFF)
    ensures var (u, reply) := S.Register(S.Open(d, i, env.raw), i, env.raw, env.newOwned); NewSession(d, i, env, u, reply)
  {
    OpenedAndClosed(d, i, env.raw);
  }

  lemma NewForeign(d: S.Data, i: nat, env: S.Env)
    requires S.Sized(d, i) && env.raw !in d.open[i] && !env.newOwned
    ensures var (u, reply) := S.Register(S.Open(d, i, env.raw), i, env.raw, env.newOwned); NewSession(d, i, env, u, reply)
  {
    OpenedAndClosed(d, i, env.raw);
  }

  lemma OpenedAndClosed(d: S.Data, i: nat, raw: VLSH)
    requires S.Sized(d, i) && raw !in d.open[i]
    ensures var u := S.CloseRaw(S.Open(d, i, raw), i, raw, true);
            && |u.open| == |d.open| && raw !in u.open[i] && u.closes == d.closes + multiset{d.nextSess}
            && u.stuck == d.stuck && u.owners == d.owners && u.born == d.born && u.tables == d.tables
            && u.shards == d.shards && u.touched == d.touched && u.allocs == d.allocs && u.nextSess == d.nextSess + 1
            && u.home == d.home[d.nextSess := S.Home(i, raw)]
            && forall j, r :: 0 <= j < |d.open| && !(j == i && r == raw) ==> (r in u.open[j] <==> r in d.open[j])
  {
  }

  ghost predicate AcceptOutcome(d: S.Data, i: nat, h: VLSH, env: S.Env, u: S.Data, reply: S.Reply)
    requires h in d.born && S.Sized(d, i)
  {
    if h !in d.owners then reply == S.ErrClosed && u == d
    else if !env.owned then reply == S.ErrOther && u == d
    else CreateOutcome(d.(touched := d.touched + {S.ByHandle(h, i, d.born[h].sess)}), i, env, u, reply)
  }

  lemma AcceptAnswers(d: S.Data, i: nat, h: VLSH, raw: VLSH, env: S.Env)
    requires S.Inv(d) && S.Sized(d, i) && S.Aimed(d, i, h, raw) && S.EnvOk(d, i, env)
    requires S.Exec(d, i, S.AcceptFrom(h, raw), env).0.allocs < WIDTH
    ensures var (u, reply) := S.Exec(d, i, S.AcceptFrom(h, raw), env); AcceptOutcome(d, i, h, env, u, reply)
  {
    S.ResolveMeans(d, i, h, raw, env.owned);
    var x := S.ByHandle(h, i, d.born[h].sess);
    if h in d.owners && env.owned {
      S.TouchKeeps(d, x);
      CreateAnswers(d.(touched := d.touched + {x}), i, env);
    }
  }

  // ---------------------------------------------------------------- waiters of a session

  ghost predicate AddOutcome(d: S.Data, i: nat, h: VLSH, raw: VLSH, w: Waiter, env: S.Env, u: S.Data, reply: S.Reply)
    requires h in d.born && S.Sized(d, i)
  {
    var e := d.tables[i].engine;
    && (reply == S.ErrClosed <==> h !in d.owners)
    && (reply == S.Done <==> h in d.owners && env.owned && (env.ctlOk || !NeedsEpoll(e, h, w)))
    && (reply == S.Done || reply == S.ErrClosed || reply == S.ErrOther)
    && (if reply == S.Done then
          OnlyWaiters(d, u, i) && u.tables[i].sessions == d.tables[i].sessions && Joins(e, u.tables[i].engine, h, raw, w)
        else u == d)
  }

  lemma AddAnswers(d: S.Data, i: nat, h: VLSH, raw: VLSH, w: Waiter, env: S.Env)
    requires S.Inv(d) && S.Sized(d, i) && S.WellIssued(d, i, S.AddWait(h, raw, w))
    ensures var (u, reply) := S.Exec(d, i, S.AddWait(h, raw, w), env); AddOutcome(d, i, h, raw, w, env, u, reply)
  {
    S.ResolveMeans(d, i, h, raw, env.owned);
    assert S.WorkerOk(d, i);
    AddWaiterJoins(d.tables[i], h, raw, w, env.owned, env.ctlOk);
    assert d.tables[i := d.tables[i]] == d.tables;
  }

  /** The cancelled waiter leaves alone; the answer tells whether it was woken before. */
  ghost predicate CancelOutcome(d: S.Data, i: nat, h: VLSH, raw: VLSH, w: Waiter, env: S.Env, u: S.Data, reply: S.Reply)
    requires S.Sized(d, i)
  {
    var e := d.tables[i].engine;
    && reply == S.Flag(e.woken[w] == 1)
    && (if e.woken[w] == 1 then u == d
        else
          && OnlyWaiters(d, u, i) && u.tables[i].sessions == d.tables[i].sessions
          && ParkedAt(e, h, w) && Leaves(e, u.tables[i].engine, h, raw, {w}, env.ctlOk))
  }

  lemma CancelAnswers(d: S.Data, i: nat, h: VLSH, raw: VLSH, w: Waiter, env: S.Env)
    requires S.Inv(d) && S.Sized(d, i) && S.WellIssued(d, i, S.CancelWait(h, raw, w))
    ensures var (u, reply) := S.Exec(d, i, S.CancelWait(h, raw, w), env); CancelOutcome(d, i, h, raw, w, env, u, reply)
  {
    S.ResolveMeans(d, i, h, raw, env.owned);
    assert S.WorkerOk(d, i);
    CancelWaiterLeaves(d.tables[i], h, raw, w, env.ctlOk);
    assert d.tables[i := d.tables[i]] == d.tables;
  }

  ghost predicate WakeOutcome(d: S.Data, i: nat, h: VLSH, raw: VLSH, u: S.Data, reply: S.Reply)
    requires S.Sized(d, i)
  {
    && reply == S.Done && OnlyWaiters(d, u, i) && u.tables[i].sessions == d.tables[i].sessions
    && KeyCleared(d, u, i, h, raw)
  }

  lemma WakeAnswers(d: S.Data, i: nat, h: VLSH, raw: VLSH, env: S.Env)
    requires S.Inv(d) && S.Sized(d, i) && S.Aimed(d, i, h, raw)
    ensures var (u, reply) := S.Exec(d, i, S.WakeHandle(h, raw), env); WakeOutcome(d, i, h, raw, u, reply)
  {
    S.ResolveMeans(d, i, h, raw, env.owned);
    assert S.WorkerOk(d, i);
    RemoveWaitersLeaves(d.tables[i], h, raw);
  }

  // ---------------------------------------------------------------- listeners

  /** A listening session of the worker's own becomes a shard; any other is closed. */
  ghost predicate ListenOutcome(d: S.Data, i: nat, env: S.Env, u: S.Data, reply: S.Reply)
    requires S.Sized(d, i)
  {
    var sess := d.nextSess;
    if !env.ok then reply == S.ErrOther && u == d
    else
      && |u.open| == |d.open| && u.home == d.home[sess := S.Home(i, env.raw)] && u.nextSess == sess + 1
      && u.owners == d.owners && u.born == d.born && u.tables == d.tables && u.stuck == d.stuck
      && u.touched == d.touched && u.allocs == d.allocs
      && (forall j, r :: 0 <= j < |d.open| && !(j == i && r == env.raw) ==> (r in u.open[j] <==> r in d.open[j]))
      && (if env.newOwned then
            && reply == S.Shard(sess, env.raw) && u.shards == d.shards[sess := S.Home(i, env.raw)]
            && u.closes == d.closes && env.raw in u.open[i] && u.open[i][env.raw] == sess
          else
            && reply == S.ErrOther && u.shards == d.shards
            && u.closes == d.closes + multiset{sess} && env.raw !in u.open[i])
  }

  lemma ListenAnswers(d: S.Data, i: nat, env: S.Env)
    requires S.Sized(d, i) && S.EnvOk(d, i, env)
    ensures var (u, reply) := S.Exec(d, i, S.Listen, env); ListenOutcome(d, i, env, u, reply)
  {
    if env.ok && !env.newOwned {
      OpenedAndClosed(d, i, env.raw);
    }
  }

  ghost predicate ShardAcceptOutcome(d: S.Data, i: nat, l: nat, env: S.Env, u: S.Data, reply: S.Reply)
    requires S.Sized(d, i)
  {
    CreateOutcome(d.(touched := d.touched + {S.ByShard(l, i, l)}), i, env, u, reply)
  }

  lemma ShardAcceptAnswers(d: S.Data, i: nat, l: nat, raw: VLSH, env: S.Env)
    requires S.Inv(d) && S.Sized(d, i) && S.OnShard(d, i, l, raw) && S.EnvOk(d, i, env)
    requires S.Exec(d, i, S.ShardAccept(l, raw), env).0.allocs < WIDTH
    ensures var (u, reply) := S.Exec(d, i, S.ShardAccept(l, raw), env); ShardAcceptOutcome(d, i, l, env, u, reply)
  {
    S.ShardKeyAlone(d, i, l, raw);
    var x := S.ByShard(l, i, l);
    S.TouchKeeps(d, x);
    CreateAnswers(d.(touched := d.touched + {x}), i, env);
  }

  /** The complement key of the listener enters the session table even if epoll refuses. */
  ghost predicate ShardAddOutcome(d: S.Data, i: nat, raw: VLSH, w: Waiter, env: S.Env, u: S.Data, reply: S.Reply)
    requires S.Sized(d, i)
  {
    var e, key := d.tables[i].engine, -1 - raw;
    && OnlyWaiters(d, u, i) && u.tables[i].sessions == d.tables[i].sessions[key := raw]
    && (reply == S.Done <==> env.ctlOk || !NeedsEpoll(e, key, w)) && (reply == S.Done || reply == S.ErrOther)
    && (if reply == S.Done then Joins(e, u.tables[i].engine, key, raw, w) else u.tables[i].engine == e)
  }

  lemma ShardAddAnswers(d: S.Data, i: nat, l: nat, raw: VLSH, w: Waiter, env: S.Env)
    requires S.Inv(d) && S.Sized(d, i) && S.WellIssued(d, i, S.ShardAdd(l, raw, w))
    ensures var (u, reply) := S.Exec(d, i, S.ShardAdd(l, raw, w), env); ShardAddOutcome(d, i, raw, w, env, u, reply)
  {
    S.ShardKeyAlone(d, i, l, raw);
    assert S.WorkerOk(d, i);
    ShardAddTells(d, i, l, raw, w, env);
  }

  lemma ShardAddTells(d: S.Data, i: nat, l: nat, raw: VLSH, w: Waiter, env: S.Env)
    requires S.Sized(d, i) && T.Valid(d.tables[i]) && w !in d.tables[i].engine.joined
    requires forall k :: k in d.tables[i].sessions ==> (k == RawKey(raw) <==> d.tables[i].sessions[k] == raw)
    ensures var (u, reply) := S.Exec(d, i, S.ShardAdd(l, raw, w), env); ShardAddOutcome(d, i, raw, w, env, u, reply)
  {
    var (t, ok) := T.AddWaiterRaw(d.tables[i], raw, w, env.ctlOk);
    AddWaiterRawJoins(d.tables[i], raw, w, env.ctlOk);
    assert S.Exec(d, i, S.ShardAdd(l, raw, w), env) == (S.SetTables(d, i, t), if ok then S.Done else S.ErrOther);
    SetOnlyWaiters(d, i, t);
    assert RawKey(raw) == -1 - raw;
  }

  ghost predicate ShardCancelOutcome(d: S.Data, i: nat, raw: VLSH, w: Waiter, env: S.Env, u: S.Data, reply: S.Reply)
    requires S.Sized(d, i)
  {
    reply == S.Done && OnlyWaiters(d, u, i) && RawCancelled(d.tables[i], u.tables[i], raw, w, env.ctlOk)
  }

  lemma ShardCancelAnswers(d: S.Data, i: nat, l: nat, raw: VLSH, w: Waiter, env: S.Env)
    requires S.Inv(d) && S.Sized(d, i) && S.OnShard(d, i, l, raw)
    ensures var (u, reply) := S.Exec(d, i, S.ShardCancel(l, raw, w), env); ShardCancelOutcome(d, i, raw, w, env, u, reply)
  {
    S.ShardKeyAlone(d, i, l, raw);
    assert S.WorkerOk(d, i);
    ShardCancelTells(d, i, l, raw, w, env);
  }

  lemma ShardCancelTells(d: S.Data, i: nat, l: nat, raw: VLSH, w: Waiter, env: S.Env)
    requires S.Sized(d, i) && T.Valid(d.tables[i])
    requires RawKey(raw) in d.tables[i].sessions ==> d.tables[i].sessions[RawKey(raw)] == raw
    ensures var (u, reply) := S.Exec(d, i, S.ShardCancel(l, raw, w), env); ShardCancelOutcome(d, i, raw, w, env, u, reply)
  {
    var t := T.CancelWaiterRaw(d.tables[i], raw, w, env.ctlOk);
    CancelWaiterRawLeaves(d.tables[i], raw, w, env.ctlOk);
    assert S.Exec(d, i, S.ShardCancel(l, raw, w), env) == (S.SetTables(d, i, t), S.Done);
    SetOnlyWaiters(d, i, t);
    assert RawKey(raw) == -1 - raw;
  }

  lemma SetOnlyWaiters(d: S.Data, i: nat, t: T.Tables)
    requires S.Sized(d, i)
    ensures var u := S.SetTables(d, i, t);
            OnlyWaiters(d, u, i) && u.tables[i] == t && (t == d.tables[i] ==> u == d)
  {
    assert d.tables[i := d.tables[i]] == d.tables;
  }

  /** The listener is off the list whatever its close answers; `served` says whether its
      loop may have waited on it. */
  ghost predicate ShardCloseOutcome(d: S.Data, i: nat, l: nat, raw: VLSH, served: bool, env: S.Env, u: S.Data, reply: S.Reply)
    requires S.Sized(d, i)
  {
    var key := -1 - raw;
    && reply == (if env.closeOk then S.Done else S.ErrOther)
    && raw in d.open[i] && d.open[i][raw] == l && SessionClosed(d, u, i, raw, env.closeOk)
    && u.shards == d.shards - {l} && |u.tables| == |d.tables|
    && (forall j :: 0 <= j < |d.tables| && j != i ==> u.tables[j] == d.tables[j])
    && (if served then u.tables[i].sessions == d.tables[i].sessions - {key} && KeyCleared(d, u, i, key, raw)
        else u.tables == d.tables)
    && u.owners == d.owners && u.born == d.born && u.home == d.home && u.allocs == d.allocs && u.touched == d.touched
  }

  lemma ShardCloseAnswers(d: S.Data, i: nat, l: nat, raw: VLSH, env: S.Env)
    requires S.Inv(d) && S.Sized(d, i) && S.OnShard(d, i, l, raw)
    ensures var (u, reply) := S.Exec(d, i, S.ShardClose(l, raw), env); ShardCloseOutcome(d, i, l, raw, true, env, u, reply)
    ensures var (u, reply) := S.Exec(d, i, S.ShardAbandon(l, raw), env); ShardCloseOutcome(d, i, l, raw, false, env, u, reply)
  {
    S.ShardKeyAlone(d, i, l, raw);
    assert S.WorkerOk(d, i);
    ShardCloseTells(d, i, l, raw, env);
    ShardAbandonTells(d, i, l, raw, env);
  }

  lemma ShardCloseTells(d: S.Data, i: nat, l: nat, raw: VLSH, env: S.Env)
    requires S.Sized(d, i) && T.Valid(d.tables[i]) && raw in d.open[i] && d.open[i][raw] == l
    requires RawKey(raw) in d.tables[i].sessions ==> d.tables[i].sessions[RawKey(raw)] == raw
    ensures var (u, reply) := S.Exec(d, i, S.ShardClose(l, raw), env); ShardCloseOutcome(d, i, l, raw, true, env, u, reply)
  {
    RemoveWaitersRawLeaves(d.tables[i], raw);
  }

  lemma ShardAbandonTells(d: S.Data, i: nat, l: nat, raw: VLSH, env: S.Env)
    requires S.Sized(d, i) && raw in d.open[i] && d.open[i][raw] == l
    ensures var (u, reply) := S.Exec(d, i, S.ShardAbandon(l, raw), env); ShardCloseOutcome(d, i, l, raw, false, env, u, reply)
  {
  }

  // ---------------------------------------------------------------- every closure

  ghost predicate Outcome(d: S.Data, i: nat, kind: S.Kind, env: S.Env, u: S.Data, reply: S.Reply)
    requires S.Sized(d, i) && S.WellIssued(d, i, kind)
  {
    match kind
    case Create => CreateOutcome(d, i, env, u, reply)
    case Use(h, _) => UseOutcome(d, i, h, env, u, reply)
    case AcceptFrom(h, _) => AcceptOutcome(d, i, h, env, u, reply)
    case Close(h, raw) => CloseOutcome(d, i, h, raw, env, u, reply)
    case AddWait(h, raw, w) => AddOutcome(d, i, h, raw, w, env, u, reply)
    case CancelWait(h, raw, w) => CancelOutcome(d, i, h, raw, w, env, u, reply)
    case WakeHandle(h, raw) => WakeOutcome(d, i, h, raw, u, reply)
    case Listen => ListenOutcome(d, i, env, u, reply)
    case ShardAccept(l, _) => ShardAcceptOutcome(d, i, l, env, u, reply)
    case ShardAdd(_, raw, w) => ShardAddOutcome(d, i, raw, w, env, u, reply)
    case ShardCancel(_, raw, w) => ShardCancelOutcome(d, i, raw, w, env, u, reply)
    case ShardClose(l, raw) => ShardCloseOutcome(d, i, l, raw, true, env, u, reply)
    case ShardAbandon(l, raw) => ShardCloseOutcome(d, i, l, raw, false, env, u, reply)
    case ShardQuery(l, raw) =>
      && reply == (if env.ok then S.Done else S.ErrOther)
      && u == d.(touched := d.touched + {S.ByQuery(l, i, S.SessAt(d, i, raw))})
  }

  lemma ClosureAnswers(d: S.Data, i: nat, kind: S.Kind, env: S.Env)
    requires S.Inv(d) && S.Sized(d, i) && S.WellIssued(d, i, kind) && S.EnvOk(d, i, env)
    requires S.Exec(d, i, kind, env).0.allocs < WIDTH
    ensures var (u, reply) := S.Exec(d, i, kind, env); Outcome(d, i, kind, env, u, reply)
  {
    match kind {
      case Create => CreateAnswers(d, i, env);
      case Use(h, raw) => UseAnswers(d, i, h, raw, env);
      case AcceptFrom(h, raw) => AcceptAnswers(d, i, h, raw, env);
      case Close(h, raw) => CloseAnswers(d, i, h, raw, env);
      case AddWait(h, raw, w) => AddAnswers(d, i, h, raw, w, env);
      case CancelWait(h, raw, w) => CancelAnswers(d, i, h, raw, w, env);
      case WakeHandle(h, raw) => WakeAnswers(d, i, h, raw, env);
      case Listen => ListenAnswers(d, i, env);
      case ShardAccept(l, raw) => ShardAcceptAnswers(d, i, l, raw, env);
      case ShardAdd(l, raw, w) => ShardAddAnswers(d, i, l, raw, w, env);
      case ShardCancel(l, raw, w) => ShardCancelAnswers(d, i, l, raw, w, env);
      case ShardClose(l, raw) => ShardCloseAnswers(d, i, l, raw, env);
      case ShardAbandon(l, raw) => ShardCloseAnswers(d, i, l, raw, env);
      case ShardQuery(_, _) =>
    }
  }

  /** Whatever a worker takes from its queue and runs, its one answer and its effect are
      those its kind is for. */
  lemma RunAnswers(s: Sys, i: nat, o: nat, env: S.Env)
    requires AboutToRun(s, i, o, env) && AfterRun(s, i, env).data.allocs < WIDTH
    ensures o in s.ops && S.Sized(s.data, i) && S.WellIssued(s.data, i, s.ops[o].kind)
    ensures var t := AfterRun(s, i, env);
            && o in t.ops && |t.ops[o].replies| == 1
            && Outcome(s.data, i, s.ops[o].kind, env, t.data, t.ops[o].replies[0])
  {
    TakenWellIssued(s, i);
    AfterRunIs(s, i, o, env);
    ClosureAnswers(s.data, i, s.ops[o].kind, env);
  }
}
