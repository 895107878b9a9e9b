/** Sessions of the Mode 2 dispatcher (mode2.go, shard_listener.go): the owner
    map, the session tables of all workers, and a VLS library that may hand out
    any raw handle not currently open on the asking worker.

    Every VLS session gets a ghost identity when it is opened, so that "the
    session created for this handle" can be told from a later one that happens
    to reuse the same raw handle. */
module Sessions {
  import opened WaitEngine
  import opened Handles
  import T = WorkerTables

  datatype Ref = SessionRef(worker: nat, raw: VLSH) | ListenerRef(id: nat)

  datatype Home = Home(worker: nat, raw: VLSH)

  datatype Birth = Birth(worker: nat, raw: VLSH, sess: nat)

  /** A foreign call on the session behind a public handle or a listener shard,
      with the identity of the session it actually reached.  ByQuery is the address
      or option call of somebody who found the listener earlier; its closure uses
      the raw handle of the shard without looking again. */
  datatype Touch =
    | ByHandle(handle: VLSH, worker: nat, sess: int)
    | ByShard(shard: nat, worker: nat, sess: int)
    | ByQuery(shard: nat, worker: nat, sess: int)

  datatype Data = Data(
    tables: seq<T.Tables>,
    open: seq<map<VLSH, nat>>,   // per worker: raw handle -> session identity
    owners: map<VLSH, Ref>,
    allocs: nat,                 // increments of the handle counter
    nextSess: nat,
    home: map<nat, Home>,        // where each session was opened
    born: map<VLSH, Birth>,      // the session each handle was created for
    shards: map<nat, Home>,      // listener shards not yet closed
    touched: set<Touch>,
    closes: multiset<int>,       // sessions rawClose was called on
    stuck: set<int>)             // those of them for which it failed

  /** What a submitted closure does on its worker; handles come with the raw
      handle that the submitter found in the owner map. */
  datatype Kind =
    | Create
    | Use(handle: VLSH, raw: VLSH)
    | AcceptFrom(handle: VLSH, raw: VLSH)
    | Close(handle: VLSH, raw: VLSH)
    | AddWait(handle: VLSH, raw: VLSH, w: Waiter)
    | CancelWait(handle: VLSH, raw: VLSH, w: Waiter)
    | WakeHandle(handle: VLSH, raw: VLSH)
    | Listen
    | ShardAccept(shard: nat, raw: VLSH)
    | ShardAdd(shard: nat, raw: VLSH, w: Waiter)
    | ShardCancel(shard: nat, raw: VLSH, w: Waiter)
    | ShardClose(shard: nat, raw: VLSH)
    | ShardAbandon(shard: nat, raw: VLSH)
    | ShardQuery(shard: nat, raw: VLSH)

  /** Outcomes of the foreign calls one closure makes: the main call, the raw
      handle it yields, ownership of the addressed and of the new session, the
      epoll add or mod, and rawClose. */
  datatype Env = Env(ok: bool, raw: VLSH, owned: bool, newOwned: bool, ctlOk: bool, closeOk: bool)

  datatype Reply =
    | Done
    | Flag(value: bool)
    | Handle(handle: VLSH)
    | Shard(shard: nat, raw: VLSH)
    | ErrClosed
    | ErrOther

  function Fresh(workers: nat): Data {
    Data(seq(workers, _ => T.FRESH), seq(workers, _ => map[]), map[], 0, 0, map[], map[], map[], {}, multiset{}, {})
  }

  predicate Sized(d: Data, i: nat) {
    i < |d.tables| == |d.open|
  }

  // ---------------------------------------------------------------- steps

  function SessAt(d: Data, i: nat, raw: VLSH): int
    requires Sized(d, i)
  {
    if raw in d.open[i] then d.open[i][raw] else -1
  }

  function SetTables(d: Data, i: nat, t: T.Tables): Data
    requires Sized(d, i)
  {
    d.(tables := d.tables[i := t])
  }

  function Open(d: Data, i: nat, raw: VLSH): Data
    requires Sized(d, i)
  {
    var mine: map<VLSH, nat> := d.open[i][raw := d.nextSess];
    d.(open := d.open[i := mine],
       home := d.home[d.nextSess := Home(i, raw)],
       nextSess := d.nextSess + 1)
  }

  function CloseRaw(d: Data, i: nat, raw: VLSH, ok: bool): Data
    requires Sized(d, i)
  {
    d.(closes := d.closes + multiset{SessAt(d, i, raw)},
       stuck := if ok then d.stuck else d.stuck + {SessAt(d, i, raw)},
       open := if ok then d.open[i := d.open[i] - {raw}] else d.open)
  }

  function Unregister(d: Data, i: nat, key: VLSH): Data
    requires Sized(d, i)
  {
    SetTables(d, i, d.tables[i].(sessions := d.tables[i].sessions - {key})).(owners := d.owners - {key})
  }

  function Register(d: Data, i: nat, raw: VLSH, owned: bool): (Data, Reply)
    requires Sized(d, i)
  {
    if !owned then (CloseRaw(d, i, raw, true), ErrOther) else
      var id := Id(d.allocs + 1);
      var c := d.(allocs := d.allocs + 1);
      if !Usable(id) then (CloseRaw(c, i, raw, true), ErrOther) else
        var t := d.tables[i];
        (SetTables(c, i, t.(sessions := t.sessions[id := raw])).(
           owners := d.owners[id := SessionRef(i, raw)],
           born := d.born[id := Birth(i, raw, if raw in d.open[i] then d.open[i][raw] else 0)]),
         Handle(id))
  }

  function TouchHandle(d: Data, i: nat, handle: VLSH, raw: VLSH): Data
    requires Sized(d, i)
  {
    d.(touched := d.touched + {ByHandle(handle, i, SessAt(d, i, raw))})
  }

  /** One closure, run by worker `i`. */
  function Exec(d: Data, i: nat, kind: Kind, env: Env): (Data, Reply)
    requires Sized(d, i)
  {
    match kind
    case Create =>
      if !env.ok then (d, ErrOther) else Register(Open(d, i, env.raw), i, env.raw, env.newOwned)
    case Use(h, raw) =>
      var r := T.Resolve(d.tables[i], h, raw, env.owned);
      if r.Closed? then (d, ErrClosed) else if r.Foreign? then (d, ErrOther) else
        (TouchHandle(d, i, h, raw), if env.ok then Done else ErrOther)
    case AcceptFrom(h, raw) =>
      var r := T.Resolve(d.tables[i], h, raw, env.owned);
      if r.Closed? then (d, ErrClosed) else if r.Foreign? then (d, ErrOther) else
        var u := TouchHandle(d, i, h, raw);
        if !env.ok then (u, ErrOther) else Register(Open(u, i, env.raw), i, env.raw, env.newOwned)
    case Close(h, raw) =>
      var r := T.Resolve(d.tables[i], h, raw, env.owned);
      if r.Closed? then (d, ErrClosed) else if r.Foreign? then (d, ErrOther) else
        var u := SetTables(d, i, T.RemoveWaiters(d.tables[i], h, raw));
        (Unregister(CloseRaw(TouchHandle(u, i, h, raw), i, raw, env.closeOk), i, h),
         if env.closeOk then Done else ErrOther)
    case AddWait(h, raw, w) =>
      var (t, ok) := T.AddWaiter(d.tables[i], h, raw, w, env.owned, env.ctlOk);
      (SetTables(d, i, t),
       if ok then Done else if T.Resolve(d.tables[i], h, raw, env.owned).Closed? then ErrClosed else ErrOther)
    case CancelWait(h, raw, w) =>
      var (t, won) := T.CancelWaiter(d.tables[i], h, raw, w, env.ctlOk);
      (SetTables(d, i, t), Flag(won))
    case WakeHandle(h, raw) =>
      (SetTables(d, i, T.RemoveWaiters(d.tables[i], h, raw)), Done)
    case Listen =>
      if !env.ok then (d, ErrOther) else
        var u := Open(d, i, env.raw);
        if !env.newOwned then (CloseRaw(u, i, env.raw, true), ErrOther) else
          (u.(shards := u.shards[d.nextSess := Home(i, env.raw)]), Shard(d.nextSess, env.raw))
    case ShardAccept(s, raw) =>
      var u := d.(touched := d.touched + {ByShard(s, i, SessAt(d, i, raw))});
      if !env.ok then (u, ErrOther) else Register(Open(u, i, env.raw), i, env.raw, env.newOwned)
    case ShardAdd(s, raw, w) =>
      var (t, ok) := T.AddWaiterRaw(d.tables[i], raw, w, env.ctlOk);
      (SetTables(d, i, t), if ok then Done else ErrOther)
    case ShardCancel(s, raw, w) =>
      (SetTables(d, i, T.CancelWaiterRaw(d.tables[i], raw, w, env.ctlOk)), Done)
    case ShardClose(s, raw) =>
      var u := SetTables(d, i, T.RemoveWaitersRaw(d.tables[i], raw));
      (CloseRaw(u, i, raw, env.closeOk).(shards := d.shards - {s}), if env.closeOk then Done else ErrOther)
    case ShardAbandon(s, raw) =>
      (CloseRaw(d, i, raw, env.closeOk).(shards := d.shards - {s}), if env.closeOk then Done else ErrOther)
    case ShardQuery(s, raw) =>
      (d.(touched := d.touched + {ByQuery(s, i, SessAt(d, i, raw))}), if env.ok then Done else ErrOther)
  }

  /** The tail of newShardedListener and of closeShardedListener: the listener's
      own entry in the owner map, under a handle taken without any check. */
  function Publish(d: Data, id: nat): Data {
    d.(allocs := d.allocs + 1, owners := d.owners[ToHandle(Id(d.allocs + 1)) := ListenerRef(id)])
  }

  function Unpublish(d: Data, public: VLSH): Data {
    d.(owners := d.owners - {public})
  }

  /** One turn of the session loop of quiesce, after all waiters were woken. */
  function Retire(d: Data, i: nat, key: VLSH, closeOk: bool): Data
    requires Sized(d, i) && key in d.tables[i].sessions
  {
    var raw := d.tables[i].sessions[key];
    var s := SessAt(d, i, raw);
    Unregister(CloseRaw(d, i, raw, closeOk), i, key).(
      shards := if s >= 0 then d.shards - {s as nat} else d.shards)
  }

  // ---------------------------------------------------------------- invariant

  /** What a session-table entry of worker `i` means. */
  ghost predicate EntryOk(d: Data, i: nat, key: VLSH, raw: VLSH)
    requires Sized(d, i)
  {
    && raw in d.open[i] && raw >= 0
    && d.closes[d.open[i][raw]] == 0
    && (key >= 0 ==> key in d.born && d.born[key] == Birth(i, raw, d.open[i][raw])
                     && key in d.owners && d.owners[key] == SessionRef(i, raw))
    && (key < 0 ==> key == RawKey(raw) && d.open[i][raw] in d.shards)
  }

  ghost predicate WorkerOk(d: Data, i: nat)
    requires Sized(d, i)
  {
    && T.Valid(d.tables[i])
    && (forall r :: r in d.open[i] ==> d.open[i][r] in d.home && d.home[d.open[i][r]] == Home(i, r))
    && (forall k :: k in d.tables[i].sessions ==> EntryOk(d, i, k, d.tables[i].sessions[k]))
  }

  ghost predicate OwnersOk(d: Data)
    requires |d.tables| == |d.open|
  {
    forall k :: k in d.owners ==> k <= d.allocs && OwnerOk(d, k, d.owners[k])
  }

  ghost predicate OwnerOk(d: Data, key: VLSH, ref: Ref) {
    match ref
    case SessionRef(i, raw) => key > 0 && i < |d.tables| && key in d.tables[i].sessions && d.tables[i].sessions[key] == raw
    case ListenerRef(_) => key !in d.born
  }

  /** A handle stays tied to one session; once it leaves the owner map that
      session has been closed exactly once. */
  ghost predicate BornOk(d: Data) {
    && (forall k :: k in d.born ==>
          && 1 <= k <= d.allocs && k <= MAX_HANDLE
          && d.born[k].sess in d.home && d.home[d.born[k].sess] == Home(d.born[k].worker, d.born[k].raw)
          && d.born[k].sess !in d.shards
          && d.born[k].worker < |d.tables|
          && ((k in d.owners && d.owners[k].SessionRef?) || d.closes[d.born[k].sess] == 1))
    && (forall j, k :: j in d.born && k in d.born && d.born[j].sess == d.born[k].sess ==> j == k)
  }

  ghost predicate ShardsOk(d: Data)
    requires |d.tables| == |d.open|
  {
    forall s :: s in d.shards ==>
      var h := d.shards[s];
      && s in d.home && d.home[s] == h && h.worker < |d.open| && h.raw >= 0
      && h.raw in d.open[h.worker] && d.open[h.worker][h.raw] == s && d.closes[s] == 0
  }

  ghost predicate HistoryOk(d: Data) {
    && (forall s :: d.closes[s] <= 1)
    && (forall s :: s in d.closes ==> s >= 0 && s in d.home)
    && (forall s :: s in d.home ==> s < d.nextSess)
    && (forall x :: x in d.touched ==> TouchOk(d, x))
  }

  /** The session reached is the one created for the handle, on its worker. */
  ghost predicate TouchOk(d: Data, x: Touch) {
    match x
    case ByHandle(h, i, s) => h in d.born && d.born[h].worker == i && d.born[h].sess == s
    case ByShard(l, i, s) => s == l && l in d.home && d.home[l].worker == i
    case ByQuery(l, i, _) => l in d.home && d.home[l].worker == i
  }

  ghost predicate Inv(d: Data) {
    var n := |d.tables|;
    && |d.open| == n
    && (forall i :: 0 <= i < n ==> WorkerOk(d, i))
    && OwnersOk(d) && BornOk(d) && ShardsOk(d) && HistoryOk(d)
  }

  /** The submitter found the handle in the owner map at some earlier moment. */
  ghost predicate Aimed(d: Data, i: nat, handle: VLSH, raw: VLSH) {
    handle in d.born && d.born[handle].worker == i && d.born[handle].raw == raw
  }

  ghost predicate OnShard(d: Data, i: nat, shard: nat, raw: VLSH) {
    shard in d.shards && d.shards[shard] == Home(i, raw)
  }

  ghost predicate WellIssued(d: Data, i: nat, kind: Kind)
    requires Sized(d, i)
  {
    match kind
    case Create => true
    case Listen => true
    case Use(h, raw) => Aimed(d, i, h, raw)
    case AcceptFrom(h, raw) => Aimed(d, i, h, raw)
    case Close(h, raw) => Aimed(d, i, h, raw)
    case WakeHandle(h, raw) => Aimed(d, i, h, raw)
    case AddWait(h, raw, w) => Aimed(d, i, h, raw) && w !in d.tables[i].engine.joined
    case CancelWait(h, raw, w) =>
      Aimed(d, i, h, raw) && w in d.tables[i].engine.joined && d.tables[i].engine.joined[w] == h
    case ShardAdd(s, raw, w) => OnShard(d, i, s, raw) && w !in d.tables[i].engine.joined
    case ShardAccept(s, raw) => OnShard(d, i, s, raw)
    case ShardCancel(s, raw, _) => OnShard(d, i, s, raw)
    case ShardClose(s, raw) => OnShard(d, i, s, raw)
    case ShardAbandon(s, raw) => OnShard(d, i, s, raw) && RawKey(raw) !in d.tables[i].sessions
    case ShardQuery(s, raw) => s in d.home && d.home[s] == Home(i, raw)
  }

  /** VLS never hands out a raw handle that is still open on the worker. */
  ghost predicate EnvOk(d: Data, i: nat, env: Env)
    requires Sized(d, i)
  {
    env.ok ==> env.raw >= 0 && env.raw !in d.open[i]
  }

  lemma FreshInv(workers: nat)
    ensures Inv(Fresh(workers))
  {
  }

  /** What worker `j` needs of the shared maps in order to stay well-formed. */
  ghost predicate Shared(d: Data, u: Data, j: nat)
    requires Sized(d, j)
  {
    && (forall s :: s in d.home ==> s in u.home && u.home[s] == d.home[s])
    && (forall k :: k in d.born ==> k in u.born && u.born[k] == d.born[k])
    && (forall k :: k >= 0 && k in d.tables[j].sessions && k in d.owners ==> k in u.owners && u.owners[k] == d.owners[k])
    && (forall r :: r in d.open[j] ==> u.closes[d.open[j][r]] == d.closes[d.open[j][r]])
    && (forall s :: s in d.shards ==> s in u.shards)
  }

  lemma WorkerFrame(d: Data, u: Data, j: nat)
    requires Sized(d, j) && Sized(u, j) && WorkerOk(d, j)
    requires u.tables[j].sessions == d.tables[j].sessions && T.Valid(u.tables[j])
    requires u.open[j] == d.open[j] && Shared(d, u, j)
    ensures WorkerOk(u, j)
  {
    forall k | k in u.tables[j].sessions ensures EntryOk(u, j, k, u.tables[j].sessions[k]) {
      assert EntryOk(d, j, k, d.tables[j].sessions[k]);
    }
  }

  lemma SetTablesWorkers(d: Data, i: nat, t: T.Tables)
    requires Inv(d) && Sized(d, i) && T.Valid(t)
    requires forall k :: k in t.sessions ==> EntryOk(d, i, k, t.sessions[k])
    ensures forall j :: 0 <= j < |d.tables| ==> WorkerOk(SetTables(d, i, t), j)
  {
    var u := SetTables(d, i, t);
    forall j | 0 <= j < |u.tables| ensures WorkerOk(u, j) {
      assert WorkerOk(d, j);
      if j != i {
        WorkerFrame(d, u, j);
      } else {
        forall k | k in t.sessions ensures EntryOk(u, i, k, t.sessions[k]) {
          assert EntryOk(d, i, k, t.sessions[k]);
        }
      }
    }
  }

  /** New tables for worker `i` are fine if every entry still means something
      and no entry of a public handle was dropped. */
  lemma SetTablesKeeps(d: Data, i: nat, t: T.Tables)
    requires Inv(d) && Sized(d, i) && T.Valid(t)
    requires forall k :: k in t.sessions ==> EntryOk(d, i, k, t.sessions[k])
    requires forall k :: k >= 0 && k in d.tables[i].sessions ==> k in t.sessions && t.sessions[k] == d.tables[i].sessions[k]
    ensures Inv(SetTables(d, i, t))
  {
    SetTablesWorkers(d, i, t);
    SetTablesOwners(d, i, t);
    assert BornOk(SetTables(d, i, t));
  }

  lemma SetTablesOwners(d: Data, i: nat, t: T.Tables)
    requires Sized(d, i) && OwnersOk(d)
    requires forall k :: k >= 0 && k in d.tables[i].sessions ==> k in t.sessions && t.sessions[k] == d.tables[i].sessions[k]
    ensures OwnersOk(SetTables(d, i, t))
  {
    var u := SetTables(d, i, t);
    forall k | k in u.owners ensures k <= u.allocs && OwnerOk(u, k, u.owners[k]) {
      assert OwnerOk(d, k, d.owners[k]);
    }
  }

  lemma SetEngineKeeps(d: Data, i: nat, t: T.Tables)
    requires Inv(d) && Sized(d, i)
    requires T.Valid(t) && t.sessions == d.tables[i].sessions
    ensures Inv(SetTables(d, i, t))
  {
    assert WorkerOk(d, i);
    SetTablesKeeps(d, i, t);
  }

  lemma TouchKeeps(d: Data, x: Touch)
    requires Inv(d) && TouchOk(d, x)
    ensures Inv(d.(touched := d.touched + {x}))
  {
    var u := d.(touched := d.touched + {x});
    forall j | 0 <= j < |u.tables| ensures WorkerOk(u, j) {
      WorkerFrame(d, u, j);
    }
    assert HistoryOk(u);
  }

  /** A session that no handle and no shard stands for yet. */
  ghost predicate Loose(d: Data, i: nat, raw: VLSH)
    requires Sized(d, i)
  {
    var mine := d.open[i];
    && raw >= 0 && raw in mine
    && d.closes[mine[raw]] == 0
    && mine[raw] !in d.shards
    && (forall k :: k in d.born ==> d.born[k].sess != mine[raw])
  }

  lemma OpenWorkers(d: Data, i: nat, raw: VLSH)
    requires Inv(d) && Sized(d, i) && raw >= 0 && raw !in d.open[i]
    ensures forall j :: 0 <= j < |d.tables| ==> WorkerOk(Open(d, i, raw), j)
  {
    var u := Open(d, i, raw);
    forall j | 0 <= j < |u.tables| ensures WorkerOk(u, j) {
      assert WorkerOk(d, j);
      if j != i {
        WorkerFrame(d, u, j);
      } else {
        forall k | k in u.tables[j].sessions ensures EntryOk(u, j, k, u.tables[j].sessions[k]) {
          assert EntryOk(d, j, k, d.tables[j].sessions[k]);
        }
      }
    }
  }

  lemma OpenBorn(d: Data, i: nat, raw: VLSH)
    requires Sized(d, i) && raw !in d.open[i] && BornOk(d) && HistoryOk(d)
    ensures BornOk(Open(d, i, raw)) && HistoryOk(Open(d, i, raw))
  {
    assert d.nextSess !in d.home;
  }

  lemma OpenShards(d: Data, i: nat, raw: VLSH)
    requires Sized(d, i) && raw >= 0 && raw !in d.open[i]
    requires BornOk(d) && ShardsOk(d) && HistoryOk(d)
    ensures ShardsOk(Open(d, i, raw)) && Loose(Open(d, i, raw), i, raw)
  {
    assert d.nextSess !in d.home;
    assert Open(d, i, raw).open[i][raw] == d.nextSess;
  }

  lemma OpenKeeps(d: Data, i: nat, raw: VLSH)
    requires Inv(d) && Sized(d, i) && raw >= 0 && raw !in d.open[i]
    ensures Inv(Open(d, i, raw)) && Loose(Open(d, i, raw), i, raw)
  {
    var u := Open(d, i, raw);
    OpenWorkers(d, i, raw);
    assert OwnersOk(u) by {
      forall k | k in u.owners ensures k <= u.allocs && OwnerOk(u, k, u.owners[k]) {
        assert OwnerOk(d, k, d.owners[k]);
      }
    }
    OpenBorn(d, i, raw);
    OpenShards(d, i, raw);
  }

  lemma LooseUnlisted(d: Data, i: nat, raw: VLSH)
    requires Inv(d) && Sized(d, i) && Loose(d, i, raw)
    ensures forall k :: k in d.tables[i].sessions ==> d.tables[i].sessions[k] != raw
  {
    assert WorkerOk(d, i);
    forall k | k in d.tables[i].sessions ensures d.tables[i].sessions[k] != raw {
      assert EntryOk(d, i, k, d.tables[i].sessions[k]);
    }
  }

  lemma CloseLooseWorkers(d: Data, i: nat, raw: VLSH, ok: bool)
    requires Inv(d) && Sized(d, i) && Loose(d, i, raw)
    ensures forall j :: 0 <= j < |d.tables| ==> WorkerOk(CloseRaw(d, i, raw, ok), j)
  {
    LooseUnlisted(d, i, raw);
    var u := CloseRaw(d, i, raw, ok);
    assert WorkerOk(d, i);
    forall j | 0 <= j < |u.tables| ensures WorkerOk(u, j) {
      assert WorkerOk(d, j);
      if j != i {
        WorkerFrame(d, u, j);
      } else {
        forall k | k in u.tables[j].sessions ensures EntryOk(u, j, k, u.tables[j].sessions[k]) {
          assert EntryOk(d, j, k, d.tables[j].sessions[k]);
        }
      }
    }
  }

  lemma CloseLooseKeeps(d: Data, i: nat, raw: VLSH, ok: bool)
    requires Inv(d) && Sized(d, i) && Loose(d, i, raw)
    ensures Inv(CloseRaw(d, i, raw, ok))
  {
    CloseLooseWorkers(d, i, raw, ok);
    assert WorkerOk(d, i);
    CloseLooseRest(d, i, raw, ok);
  }

  lemma CloseLooseRest(d: Data, i: nat, raw: VLSH, ok: bool)
    requires Sized(d, i) && OwnersOk(d) && BornOk(d) && ShardsOk(d) && HistoryOk(d) && Loose(d, i, raw)
    requires d.open[i][raw] in d.home && d.home[d.open[i][raw]] == Home(i, raw)
    ensures var u := CloseRaw(d, i, raw, ok); OwnersOk(u) && BornOk(u) && ShardsOk(u) && HistoryOk(u)
  {
    var u := CloseRaw(d, i, raw, ok);
    CloseLooseOwners(d, i, raw, ok);
    CloseLooseShards(d, i, raw, ok);
    forall x | x in u.touched ensures TouchOk(u, x) {
      assert TouchOk(d, x);
    }
  }

  lemma CloseLooseOwners(d: Data, i: nat, raw: VLSH, ok: bool)
    requires Sized(d, i) && OwnersOk(d) && BornOk(d) && Loose(d, i, raw)
    ensures var u := CloseRaw(d, i, raw, ok); OwnersOk(u) && BornOk(u)
  {
    var u := CloseRaw(d, i, raw, ok);
    forall k | k in u.owners ensures k <= u.allocs && OwnerOk(u, k, u.owners[k]) {
      assert OwnerOk(d, k, d.owners[k]);
    }
  }

  lemma CloseLooseShards(d: Data, i: nat, raw: VLSH, ok: bool)
    requires Sized(d, i) && ShardsOk(d) && Loose(d, i, raw)
    requires d.open[i][raw] in d.home && d.home[d.open[i][raw]] == Home(i, raw)
    ensures ShardsOk(CloseRaw(d, i, raw, ok))
  {
  }

  lemma BumpKeeps(d: Data)
    requires Inv(d)
    ensures Inv(d.(allocs := d.allocs + 1))
  {
    var u := d.(allocs := d.allocs + 1);
    forall j | 0 <= j < |u.tables| ensures WorkerOk(u, j) {
      WorkerFrame(d, u, j);
    }
  }

  lemma NewHandleFresh(d: Data)
    requires Inv(d)
    ensures var id := d.allocs + 1;
            && id !in d.born && id !in d.owners
            && forall j :: 0 <= j < |d.tables| ==> id !in d.tables[j].sessions
  {
    var id := d.allocs + 1;
    forall j, k | 0 <= j < |d.tables| && k in d.tables[j].sessions ensures k != id {
      assert WorkerOk(d, j);
      assert EntryOk(d, j, k, d.tables[j].sessions[k]);
    }
  }

  lemma BindWorkers(d: Data, i: nat, raw: VLSH)
    requires Inv(d) && Sized(d, i) && Loose(d, i, raw)
    requires Usable(d.allocs + 1)
    ensures forall j :: 0 <= j < |d.tables| ==> WorkerOk(Register(d, i, raw, true).0, j)
  {
    var id := d.allocs + 1;
    assert Id(id) == id;
    var u := Register(d, i, raw, true).0;
    NewHandleFresh(d);
    LooseUnlisted(d, i, raw);
    assert WorkerOk(d, i);
    T.BindKeeps(d.tables[i], id, raw);
    forall j | 0 <= j < |u.tables| ensures WorkerOk(u, j) {
      if j != i {
        WorkerFrame(d, u, j);
      } else {
        forall k | k in u.tables[j].sessions ensures EntryOk(u, j, k, u.tables[j].sessions[k]) {
          if k != id {
            assert EntryOk(d, j, k, d.tables[j].sessions[k]);
          }
        }
      }
    }
  }

  lemma BindHistory(d: Data, i: nat, raw: VLSH)
    requires Inv(d) && Sized(d, i) && Loose(d, i, raw)
    requires Usable(d.allocs + 1)
    ensures var u := Register(d, i, raw, true).0; BornOk(u) && ShardsOk(u) && HistoryOk(u)
  {
    var id := d.allocs + 1;
    assert Id(id) == id;
    var u := Register(d, i, raw, true).0;
    NewHandleFresh(d);
    assert WorkerOk(d, i);
    assert u.born == d.born[id := Birth(i, raw, d.open[i][raw])];
    assert BornOk(u);
    assert HistoryOk(u);
  }

  lemma BindSessionKeeps(d: Data, i: nat, raw: VLSH)
    requires Inv(d) && Sized(d, i) && Loose(d, i, raw)
    requires Usable(d.allocs + 1)
    ensures Inv(Register(d, i, raw, true).0)
    ensures d.allocs + 1 !in d.born
  {
    var id := d.allocs + 1;
    assert Id(id) == id;
    var u := Register(d, i, raw, true).0;
    NewHandleFresh(d);
    BindWorkers(d, i, raw);
    assert OwnersOk(u) by {
      forall k | k in u.owners ensures k <= u.allocs && OwnerOk(u, k, u.owners[k]) {
        if k != id {
          assert OwnerOk(d, k, d.owners[k]);
        }
      }
    }
    BindHistory(d, i, raw);
  }

  lemma ExhaustedKeeps(d: Data, i: nat, raw: VLSH)
    requires Inv(d) && Sized(d, i) && Loose(d, i, raw)
    ensures Inv(CloseRaw(d.(allocs := d.allocs + 1), i, raw, true))
  {
    BumpKeeps(d);
    var c := d.(allocs := d.allocs + 1);
    assert Loose(c, i, raw);
    CloseLooseKeeps(c, i, raw, true);
  }

  lemma RegisterKeeps(d: Data, i: nat, raw: VLSH, owned: bool)
    requires Inv(d) && Sized(d, i) && Loose(d, i, raw)
    requires Register(d, i, raw, owned).0.allocs < WIDTH
    ensures Inv(Register(d, i, raw, owned).0)
  {
    assert owned ==> Id(d.allocs + 1) == d.allocs + 1;
    if !owned {
      CloseLooseKeeps(d, i, raw, true);
      assert Register(d, i, raw, owned).0 == CloseRaw(d, i, raw, true);
    } else if !Usable(d.allocs + 1) {
      ExhaustedKeeps(d, i, raw);
      assert Register(d, i, raw, owned).0 == CloseRaw(d.(allocs := d.allocs + 1), i, raw, true);
    } else {
      BindSessionKeeps(d, i, raw);
    }
  }

  // ---------------------------------------------------------------- closing

  /** rawClose of the session behind `raw` together with the table changes around
      it: `t` are the tables without entry `key`, `forget` says whether the owner
      map drops `key` too. */
  function Drop(d: Data, i: nat, t: T.Tables, key: VLSH, raw: VLSH, ok: bool, forget: bool): Data
    requires Sized(d, i) && raw in d.open[i]
  {
    SetTables(CloseRaw(d, i, raw, ok), i, t).(
      owners := if forget then d.owners - {key} else d.owners,
      shards := d.shards - {d.open[i][raw]})
  }

  /** The session behind `raw` is an entry of the table, or an unlisted shard. */
  ghost predicate Droppable(d: Data, i: nat, t: T.Tables, key: VLSH, raw: VLSH, forget: bool)
    requires Sized(d, i)
  {
    var now := d.tables[i].sessions;
    && T.Valid(t) && t.sessions == now - {key}
    && raw in d.open[i] && (key >= 0 ==> forget)
    && (key in now ==> now[key] == raw)
    && (key !in now ==> key == RawKey(raw) && key < 0 && d.open[i][raw] in d.shards)
  }

  lemma DroppableAlone(d: Data, i: nat, t: T.Tables, key: VLSH, raw: VLSH, forget: bool)
    requires Inv(d) && Sized(d, i) && Droppable(d, i, t, key, raw, forget)
    ensures Alone(d, i, t, key, raw)
  {
    assert WorkerOk(d, i);
    if key in d.tables[i].sessions {
      assert EntryOk(d, i, key, raw);
    }
    forall k | k in t.sessions ensures t.sessions[k] != raw {
      assert EntryOk(d, i, k, d.tables[i].sessions[k]);
    }
  }

  /** The session behind `raw` belongs to no entry of `t`, and to `key` alone. */
  ghost predicate Alone(d: Data, i: nat, t: T.Tables, key: VLSH, raw: VLSH)
    requires Sized(d, i) && raw in d.open[i]
  {
    var s := d.open[i][raw];
    && (forall k :: k in t.sessions ==> t.sessions[k] != raw)
    && d.closes[s] == 0 && s in d.home && d.home[s] == Home(i, raw)
    && (key >= 0 ==> key in d.born && d.born[key].sess == s)
    && (key < 0 ==> s in d.shards)
  }

  lemma DropWorker(d: Data, i: nat, t: T.Tables, key: VLSH, raw: VLSH, ok: bool, forget: bool, j: nat)
    requires Sized(d, i) && Droppable(d, i, t, key, raw, forget) && Alone(d, i, t, key, raw)
    requires j < |d.tables| && WorkerOk(d, i) && WorkerOk(d, j)
    ensures WorkerOk(Drop(d, i, t, key, raw, ok, forget), j)
  {
    var u := Drop(d, i, t, key, raw, ok, forget);
    forall k | k in u.tables[j].sessions ensures EntryOk(u, j, k, u.tables[j].sessions[k]) {
      assert EntryOk(d, j, k, d.tables[j].sessions[k]);
    }
  }

  lemma DropWorkers(d: Data, i: nat, t: T.Tables, key: VLSH, raw: VLSH, ok: bool, forget: bool)
    requires Inv(d) && Sized(d, i) && Droppable(d, i, t, key, raw, forget)
    ensures forall j :: 0 <= j < |d.tables| ==> WorkerOk(Drop(d, i, t, key, raw, ok, forget), j)
  {
    DroppableAlone(d, i, t, key, raw, forget);
    var u := Drop(d, i, t, key, raw, ok, forget);
    assert WorkerOk(d, i);
    forall j | 0 <= j < |u.tables| ensures WorkerOk(u, j) {
      DropWorker(d, i, t, key, raw, ok, forget, j);
    }
  }

  lemma DropBorn(d: Data, i: nat, t: T.Tables, key: VLSH, raw: VLSH, ok: bool, forget: bool)
    requires Inv(d) && Sized(d, i) && Droppable(d, i, t, key, raw, forget)
    ensures BornOk(Drop(d, i, t, key, raw, ok, forget))
  {
    DroppableAlone(d, i, t, key, raw, forget);
    assert WorkerOk(d, i);
  }

  lemma DropHistory(d: Data, i: nat, t: T.Tables, key: VLSH, raw: VLSH, ok: bool, forget: bool)
    requires Inv(d) && Sized(d, i) && Droppable(d, i, t, key, raw, forget)
    ensures var u := Drop(d, i, t, key, raw, ok, forget); ShardsOk(u) && HistoryOk(u)
  {
    DroppableAlone(d, i, t, key, raw, forget);
    DropRest(d, i, t, key, raw, ok, forget);
  }

  lemma DropRest(d: Data, i: nat, t: T.Tables, key: VLSH, raw: VLSH, ok: bool, forget: bool)
    requires Sized(d, i) && ShardsOk(d) && HistoryOk(d) && raw in d.open[i] && Alone(d, i, t, key, raw)
    ensures var u := Drop(d, i, t, key, raw, ok, forget); ShardsOk(u) && HistoryOk(u)
  {
    var u := Drop(d, i, t, key, raw, ok, forget);
    forall x | x in u.touched ensures TouchOk(u, x) {
      assert TouchOk(d, x);
    }
  }

  lemma DropKeeps(d: Data, i: nat, t: T.Tables, key: VLSH, raw: VLSH, ok: bool, forget: bool)
    requires Inv(d) && Sized(d, i) && Droppable(d, i, t, key, raw, forget)
    ensures Inv(Drop(d, i, t, key, raw, ok, forget))
  {
    DropWorkers(d, i, t, key, raw, ok, forget);
    DropBorn(d, i, t, key, raw, ok, forget);
    DropHistory(d, i, t, key, raw, ok, forget);
    var u := Drop(d, i, t, key, raw, ok, forget);
    assert OwnersOk(u) by {
      forall k | k in u.owners ensures k <= u.allocs && OwnerOk(u, k, u.owners[k]) {
        assert OwnerOk(d, k, d.owners[k]);
      }
    }
  }

  // ---------------------------------------------------------------- closures

  /** A raw handle found in the owner map resolves, if at all, to the session the
      public handle was created for; it fails to resolve with ErrClosed exactly
      when the handle has left the owner map. */
  lemma ResolveMeans(d: Data, i: nat, h: VLSH, raw: VLSH, owned: bool)
    requires Inv(d) && Sized(d, i) && Aimed(d, i, h, raw)
    ensures h > 0
    ensures T.Resolve(d.tables[i], h, raw, owned).Closed? <==> h !in d.owners
    ensures !T.Resolve(d.tables[i], h, raw, owned).Closed? ==>
              h in d.tables[i].sessions && d.tables[i].sessions[h] == raw && SessAt(d, i, raw) == d.born[h].sess
    ensures h in d.tables[i].sessions ==> d.tables[i].sessions[h] == raw
  {
    assert WorkerOk(d, i);
    if h in d.tables[i].sessions {
      assert EntryOk(d, i, h, d.tables[i].sessions[h]);
    }
    if h in d.owners {
      assert OwnerOk(d, h, d.owners[h]);
      if d.owners[h].SessionRef? {
        var j := d.owners[h].worker;
        assert WorkerOk(d, j) && EntryOk(d, j, h, d.owners[h].raw);
      }
    }
  }

  lemma CreateKeeps(d: Data, i: nat, env: Env)
    requires Inv(d) && Sized(d, i) && EnvOk(d, i, env) && env.ok
    requires Register(Open(d, i, env.raw), i, env.raw, env.newOwned).0.allocs < WIDTH
    ensures Inv(Register(Open(d, i, env.raw), i, env.raw, env.newOwned).0)
  {
    OpenKeeps(d, i, env.raw);
    RegisterKeeps(Open(d, i, env.raw), i, env.raw, env.newOwned);
  }

  lemma UseKeeps(d: Data, i: nat, kind: Kind, env: Env)
    requires Inv(d) && Sized(d, i) && WellIssued(d, i, kind) && EnvOk(d, i, env)
    requires Exec(d, i, kind, env).0.allocs < WIDTH && (kind.Use? || kind.AcceptFrom?)
    ensures Inv(Exec(d, i, kind, env).0)
  {
    ResolveMeans(d, i, kind.handle, kind.raw, env.owned);
    if T.Resolve(d.tables[i], kind.handle, kind.raw, env.owned).OwnedRaw? {
      TouchKeeps(d, ByHandle(kind.handle, i, SessAt(d, i, kind.raw)));
      if kind.AcceptFrom? && env.ok {
        CreateKeeps(TouchHandle(d, i, kind.handle, kind.raw), i, env);
      }
    }
  }

  lemma CloseIsDrop(d: Data, i: nat, h: VLSH, raw: VLSH, env: Env)
    requires Sized(d, i) && T.Resolve(d.tables[i], h, raw, env.owned).OwnedRaw?
    requires raw in d.open[i] && d.open[i][raw] !in d.shards
    ensures var t := T.RemoveWaiters(d.tables[i], h, raw);
            Exec(d, i, Close(h, raw), env).0 ==
            Drop(TouchHandle(d, i, h, raw), i, t.(sessions := t.sessions - {h}), h, raw, env.closeOk, true)
  {
    assert d.shards - {d.open[i][raw]} == d.shards;
  }

  lemma CloseOwnedKeeps(d: Data, i: nat, h: VLSH, raw: VLSH, env: Env)
    requires Inv(d) && Sized(d, i) && Aimed(d, i, h, raw)
    requires T.Resolve(d.tables[i], h, raw, env.owned).OwnedRaw?
    ensures Inv(Exec(d, i, Close(h, raw), env).0)
  {
    ResolveMeans(d, i, h, raw, env.owned);
    assert WorkerOk(d, i) && EntryOk(d, i, h, raw);
    var t := T.RemoveWaiters(d.tables[i], h, raw);
    T.RemoveWaitersKeeps(d.tables[i], h, raw);
    T.UnbindKeeps(t, h);
    TouchKeeps(d, ByHandle(h, i, SessAt(d, i, raw)));
    DropKeeps(TouchHandle(d, i, h, raw), i, t.(sessions := t.sessions - {h}), h, raw, env.closeOk, true);
    CloseIsDrop(d, i, h, raw, env);
  }

  lemma CloseKeeps(d: Data, i: nat, h: VLSH, raw: VLSH, env: Env)
    requires Inv(d) && Sized(d, i) && Aimed(d, i, h, raw)
    ensures Inv(Exec(d, i, Close(h, raw), env).0)
  {
    ResolveMeans(d, i, h, raw, env.owned);
    if T.Resolve(d.tables[i], h, raw, env.owned).OwnedRaw? {
      CloseOwnedKeeps(d, i, h, raw, env);
    }
  }

  lemma WaitKeeps(d: Data, i: nat, kind: Kind, env: Env)
    requires Inv(d) && Sized(d, i) && WellIssued(d, i, kind)
    requires kind.AddWait? || kind.CancelWait? || kind.WakeHandle?
    ensures Inv(Exec(d, i, kind, env).0)
  {
    assert WorkerOk(d, i);
    var t := d.tables[i];
    ResolveMeans(d, i, kind.handle, kind.raw, env.owned);
    match kind
    case AddWait(h, raw, w) =>
      T.AddWaiterKeeps(t, h, raw, w, env.owned, env.ctlOk);
      SetEngineKeeps(d, i, T.AddWaiter(t, h, raw, w, env.owned, env.ctlOk).0);
    case CancelWait(h, raw, w) =>
      T.CancelTellsWhoWoke(t, h, raw, w, env.ctlOk);
      SetEngineKeeps(d, i, T.CancelWaiter(t, h, raw, w, env.ctlOk).0);
    case WakeHandle(h, raw) =>
      T.RemoveWaitersKeeps(t, h, raw);
      SetEngineKeeps(d, i, T.RemoveWaiters(t, h, raw));
  }

  lemma AddShardKeeps(o: Data, i: nat, raw: VLSH)
    requires Inv(o) && Sized(o, i) && Loose(o, i, raw)
    ensures Inv(o.(shards := o.shards[o.open[i][raw] := Home(i, raw)]))
  {
    var u := o.(shards := o.shards[o.open[i][raw] := Home(i, raw)]);
    forall j | 0 <= j < |u.tables| ensures WorkerOk(u, j) {
      WorkerFrame(o, u, j);
    }
    assert WorkerOk(o, i);
    AddShardRest(o, i, raw, u);
  }

  lemma AddShardRest(o: Data, i: nat, raw: VLSH, u: Data)
    requires Sized(o, i) && OwnersOk(o) && BornOk(o) && ShardsOk(o) && HistoryOk(o) && Loose(o, i, raw)
    requires o.open[i][raw] in o.home && o.home[o.open[i][raw]] == Home(i, raw)
    requires u == o.(shards := o.shards[o.open[i][raw] := Home(i, raw)])
    ensures OwnersOk(u) && BornOk(u) && ShardsOk(u) && HistoryOk(u)
  {
    forall k | k in u.owners ensures k <= u.allocs && OwnerOk(u, k, u.owners[k]) {
      assert OwnerOk(o, k, o.owners[k]);
    }
    forall x | x in u.touched ensures TouchOk(u, x) {
      assert TouchOk(o, x);
    }
  }

  lemma ListenKeeps(d: Data, i: nat, env: Env)
    requires Inv(d) && Sized(d, i) && EnvOk(d, i, env)
    ensures Inv(Exec(d, i, Listen, env).0)
  {
    if env.ok {
      OpenKeeps(d, i, env.raw);
      var o := Open(d, i, env.raw);
      if !env.newOwned {
        CloseLooseKeeps(o, i, env.raw, true);
      } else {
        AddShardKeeps(o, i, env.raw);
        assert Exec(d, i, Listen, env).0 == o.(shards := o.shards[d.nextSess := Home(i, env.raw)]);
      }
    }
  }

  /** Only the complement key of a listening raw handle can map to it. */
  lemma ShardKeyAlone(d: Data, i: nat, s: nat, raw: VLSH)
    requires Inv(d) && Sized(d, i) && OnShard(d, i, s, raw)
    ensures raw >= 0 && raw in d.open[i] && d.open[i][raw] == s && d.closes[s] == 0
    ensures forall k :: k in d.tables[i].sessions ==> (k == RawKey(raw) <==> d.tables[i].sessions[k] == raw)
  {
    assert WorkerOk(d, i);
    forall k | k in d.tables[i].sessions ensures k == RawKey(raw) <==> d.tables[i].sessions[k] == raw {
      assert EntryOk(d, i, k, d.tables[i].sessions[k]);
    }
  }

  lemma ShardTablesKeep(d: Data, i: nat, s: nat, raw: VLSH, u: T.Tables)
    requires Inv(d) && Sized(d, i) && OnShard(d, i, s, raw) && T.Valid(u)
    requires u.sessions == d.tables[i].sessions[RawKey(raw) := raw]
             || u.sessions == d.tables[i].sessions || u.sessions == d.tables[i].sessions - {RawKey(raw)}
    ensures Inv(SetTables(d, i, u))
  {
    ShardKeyAlone(d, i, s, raw);
    assert WorkerOk(d, i);
    forall k | k in u.sessions ensures EntryOk(d, i, k, u.sessions[k]) {
      if k != RawKey(raw) {
        assert EntryOk(d, i, k, d.tables[i].sessions[k]);
      }
    }
    SetTablesKeeps(d, i, u);
  }

  lemma ShardAddKeeps(d: Data, i: nat, s: nat, raw: VLSH, w: Waiter, env: Env)
    requires Inv(d) && Sized(d, i) && OnShard(d, i, s, raw) && w !in d.tables[i].engine.joined
    ensures Inv(Exec(d, i, ShardAdd(s, raw, w), env).0)
  {
    ShardKeyAlone(d, i, s, raw);
    assert WorkerOk(d, i);
    T.AddWaiterRawKeeps(d.tables[i], raw, w, env.ctlOk);
    ShardTablesKeep(d, i, s, raw, T.AddWaiterRaw(d.tables[i], raw, w, env.ctlOk).0);
  }

  lemma ShardCancelKeeps(d: Data, i: nat, s: nat, raw: VLSH, w: Waiter, env: Env)
    requires Inv(d) && Sized(d, i) && OnShard(d, i, s, raw)
    ensures Inv(Exec(d, i, ShardCancel(s, raw, w), env).0)
  {
    ShardKeyAlone(d, i, s, raw);
    assert WorkerOk(d, i);
    T.CancelWaiterRawKeeps(d.tables[i], raw, w, env.ctlOk);
    var u := T.CancelWaiterRaw(d.tables[i], raw, w, env.ctlOk);
    ShardTablesKeep(d, i, s, raw, u);
    assert Exec(d, i, ShardCancel(s, raw, w), env).0 == SetTables(d, i, u);
  }

  lemma ShardAcceptKeeps(d: Data, i: nat, s: nat, raw: VLSH, env: Env)
    requires Inv(d) && Sized(d, i) && OnShard(d, i, s, raw) && EnvOk(d, i, env)
    requires Exec(d, i, ShardAccept(s, raw), env).0.allocs < WIDTH
    ensures Inv(Exec(d, i, ShardAccept(s, raw), env).0)
  {
    ShardKeyAlone(d, i, s, raw);
    var x := ByShard(s, i, SessAt(d, i, raw));
    TouchKeeps(d, x);
    if env.ok {
      CreateKeeps(d.(touched := d.touched + {x}), i, env);
    }
  }

  lemma ShardCloseKeeps(d: Data, i: nat, kind: Kind, env: Env)
    requires Inv(d) && Sized(d, i) && WellIssued(d, i, kind)
    requires kind.ShardClose? || kind.ShardAbandon?
    ensures Inv(Exec(d, i, kind, env).0)
  {
    var raw := kind.raw;
    var gone := if kind.ShardClose? then T.RemoveWaitersRaw(d.tables[i], raw) else d.tables[i];
    ShardDroppable(d, i, kind, gone);
    ShardCloseIs(d, i, kind, env, gone);
    DropKeeps(d, i, gone, RawKey(raw), raw, env.closeOk, false);
  }

  lemma ShardCloseIs(d: Data, i: nat, kind: Kind, env: Env, gone: T.Tables)
    requires Sized(d, i) && (kind.ShardClose? || kind.ShardAbandon?)
    requires gone == if kind.ShardClose? then T.RemoveWaitersRaw(d.tables[i], kind.raw) else d.tables[i]
    requires kind.raw in d.open[i] && d.open[i][kind.raw] == kind.shard
    ensures Exec(d, i, kind, env).0 == Drop(d, i, gone, RawKey(kind.raw), kind.raw, env.closeOk, false)
  {
    if kind.ShardAbandon? {
      assert d.tables[i := d.tables[i]] == d.tables;
    }
  }

  lemma ShardDroppable(d: Data, i: nat, kind: Kind, gone: T.Tables)
    requires Inv(d) && Sized(d, i) && WellIssued(d, i, kind) && (kind.ShardClose? || kind.ShardAbandon?)
    requires gone == if kind.ShardClose? then T.RemoveWaitersRaw(d.tables[i], kind.raw) else d.tables[i]
    ensures kind.raw in d.open[i] && d.open[i][kind.raw] == kind.shard
    ensures Droppable(d, i, gone, RawKey(kind.raw), kind.raw, false)
  {
    var t := d.tables[i];
    ShardKeyAlone(d, i, kind.shard, kind.raw);
    assert WorkerOk(d, i);
    if kind.ShardClose? {
      T.RemoveWaitersRawKeeps(t, kind.raw);
    } else {
      assert t.sessions - {RawKey(kind.raw)} == t.sessions;
    }
  }

  /** Every closure, run with any outcome of its foreign calls, keeps the owner
      map, the session tables and the VLS library in agreement. */
  lemma ExecKeeps(d: Data, i: nat, kind: Kind, env: Env)
    requires Inv(d) && Sized(d, i) && WellIssued(d, i, kind) && EnvOk(d, i, env)
    requires Exec(d, i, kind, env).0.allocs < WIDTH
    ensures Inv(Exec(d, i, kind, env).0)
  {
    match kind
    case Create => if env.ok { CreateKeeps(d, i, env); }
    case Use(_, _) => UseKeeps(d, i, kind, env);
    case AcceptFrom(_, _) => UseKeeps(d, i, kind, env);
    case Close(h, raw) => CloseKeeps(d, i, h, raw, env);
    case AddWait(_, _, _) => WaitKeeps(d, i, kind, env);
    case CancelWait(_, _, _) => WaitKeeps(d, i, kind, env);
    case WakeHandle(_, _) => WaitKeeps(d, i, kind, env);
    case Listen => ListenKeeps(d, i, env);
    case ShardAccept(s, raw) => ShardAcceptKeeps(d, i, s, raw, env);
    case ShardAdd(s, raw, w) => ShardAddKeeps(d, i, s, raw, w, env);
    case ShardCancel(s, raw, w) => ShardCancelKeeps(d, i, s, raw, w, env);
    case ShardClose(_, _) => ShardCloseKeeps(d, i, kind, env);
    case ShardAbandon(_, _) => ShardCloseKeeps(d, i, kind, env);
    case ShardQuery(s, raw) => TouchKeeps(d, ByQuery(s, i, SessAt(d, i, raw)));
  }

  /** The session loop of quiesce. */
  lemma RetireKeeps(d: Data, i: nat, key: VLSH, closeOk: bool)
    requires Inv(d) && Sized(d, i) && key in d.tables[i].sessions
    requires d.tables[i].engine.sets == map[]
    ensures Inv(Retire(d, i, key, closeOk))
  {
    assert WorkerOk(d, i);
    var t := d.tables[i];
    var raw := t.sessions[key];
    assert EntryOk(d, i, key, raw);
    T.UnbindKeeps(t, key);
    var gone := t.(sessions := t.sessions - {key});
    DropKeeps(d, i, gone, key, raw, closeOk, true);
    assert Retire(d, i, key, closeOk) == Drop(d, i, gone, key, raw, closeOk, true);
  }

  lemma PublishWorkers(d: Data, id: nat)
    requires Inv(d) && d.allocs + 1 < WIDTH
    ensures forall j :: 0 <= j < |d.tables| ==> WorkerOk(Publish(d, id), j)
  {
    assert Id(d.allocs + 1) == d.allocs + 1;
    NewHandleFresh(d);
    forall j | 0 <= j < |d.tables| ensures WorkerOk(Publish(d, id), j) {
      WorkerFrame(d, Publish(d, id), j);
    }
  }

  lemma PublishKeeps(d: Data, id: nat)
    requires Inv(d) && d.allocs + 1 < WIDTH
    ensures Inv(Publish(d, id))
  {
    PublishWorkers(d, id);
    PublishOwners(d, id);
    PublishBorn(d, id);
    OwnersFrame(d, Publish(d, id));
  }

  lemma PublishBorn(d: Data, id: nat)
    requires BornOk(d) && d.allocs + 1 < WIDTH
    ensures BornOk(Publish(d, id))
  {
    assert Id(d.allocs + 1) == d.allocs + 1;
    assert ToHandle(d.allocs + 1) !in d.born;
  }

  lemma PublishOwners(d: Data, id: nat)
    requires |d.tables| == |d.open| && OwnersOk(d) && BornOk(d) && d.allocs + 1 < WIDTH
    ensures OwnersOk(Publish(d, id))
  {
    var u := Publish(d, id);
    assert Id(d.allocs + 1) == d.allocs + 1;
    forall k | k in u.owners ensures k <= u.allocs && OwnerOk(u, k, u.owners[k]) {
      if k != ToHandle(d.allocs + 1) {
        assert OwnerOk(d, k, d.owners[k]);
      }
    }
  }

  lemma UnpublishWorkers(d: Data, public: VLSH)
    requires Inv(d) && (public in d.owners ==> d.owners[public].ListenerRef?)
    ensures forall j :: 0 <= j < |d.tables| ==> WorkerOk(Unpublish(d, public), j)
  {
    var u := Unpublish(d, public);
    forall j | 0 <= j < |u.tables| ensures WorkerOk(u, j) {
      assert WorkerOk(d, j);
      forall k | k in d.tables[j].sessions ensures EntryOk(u, j, k, d.tables[j].sessions[k]) {
        assert EntryOk(d, j, k, d.tables[j].sessions[k]);
      }
    }
  }

  lemma UnpublishKeeps(d: Data, public: VLSH)
    requires Inv(d) && (public in d.owners ==> d.owners[public].ListenerRef?)
    ensures Inv(Unpublish(d, public))
  {
    UnpublishWorkers(d, public);
    UnpublishOwners(d, public);
    UnpublishBorn(d, public);
    OwnersFrame(d, Unpublish(d, public));
  }

  lemma UnpublishOwners(d: Data, public: VLSH)
    requires |d.tables| == |d.open| && OwnersOk(d)
    ensures OwnersOk(Unpublish(d, public))
  {
    var u := Unpublish(d, public);
    forall k | k in u.owners ensures k <= u.allocs && OwnerOk(u, k, u.owners[k]) {
      assert OwnerOk(d, k, d.owners[k]);
    }
  }

  lemma UnpublishBorn(d: Data, public: VLSH)
    requires BornOk(d) && (public in d.owners ==> d.owners[public].ListenerRef?)
    ensures BornOk(Unpublish(d, public))
  {
  }

  /** Shards and history do not depend on the owner map. */
  lemma OwnersFrame(d: Data, u: Data)
    requires |d.tables| == |d.open| && ShardsOk(d) && HistoryOk(d) && u == d.(allocs := u.allocs, owners := u.owners)
    ensures ShardsOk(u) && HistoryOk(u)
  {
    forall x | x in u.touched ensures TouchOk(u, x) {
      assert TouchOk(d, x);
    }
  }

  lemma ShardUnique(d: Data, i: nat, raw: VLSH, l: nat, m: nat)
    requires Inv(d) && OnShard(d, i, l, raw) && OnShard(d, i, m, raw)
    ensures l == m
  {
    assert d.open[i][raw] == l && d.open[i][raw] == m;
  }

  lemma UnopenedKeyless(d: Data, i: nat, raw: VLSH)
    requires Inv(d) && Sized(d, i) && raw !in d.open[i]
    ensures RawKey(raw) !in d.tables[i].sessions || raw < 0
  {
    assert WorkerOk(d, i);
    if RawKey(raw) in d.tables[i].sessions {
      assert EntryOk(d, i, RawKey(raw), d.tables[i].sessions[RawKey(raw)]);
    }
  }

  // ---------------------------------------------------------------- footprint of a closure

  /** Births and homes are permanent. */
  ghost predicate Later(d: Data, u: Data) {
    var n := |d.tables|;
    && |u.tables| == n && |u.open| == |d.open|
    && (forall s :: s in d.home ==> s in u.home && u.home[s] == d.home[s])
    && (forall k :: k in d.born ==> k in u.born && u.born[k] == d.born[k])
  }

  lemma CreateLater(d: Data, i: nat, env: Env)
    requires Sized(d, i) && d.allocs + 1 !in d.born && d.nextSess !in d.home
    requires Register(Open(d, i, env.raw), i, env.raw, env.newOwned).0.allocs < WIDTH
    ensures Later(d, Register(Open(d, i, env.raw), i, env.raw, env.newOwned).0)
  {
    assert env.newOwned ==> Id(d.allocs + 1) == d.allocs + 1;
  }

  lemma ExecLater(d: Data, i: nat, kind: Kind, env: Env)
    requires Inv(d) && Sized(d, i)
    requires Exec(d, i, kind, env).0.allocs < WIDTH
    ensures Later(d, Exec(d, i, kind, env).0)
  {
    assert d.allocs + 1 !in d.born && d.nextSess !in d.home;
    if !env.ok {
      ExecElseLater(d, i, kind, env);
    } else if kind.Create? {
      CreateLater(d, i, env);
    } else if kind.Listen? {
      ListenLater(d, i, env);
    } else if kind.AcceptFrom? {
      AcceptFromLater(d, i, kind.handle, kind.raw, env);
    } else if kind.ShardAccept? {
      ShardAcceptLater(d, i, kind.shard, kind.raw, env);
    } else {
      ExecElseLater(d, i, kind, env);
    }
  }

  lemma AcceptFromLater(d: Data, i: nat, h: VLSH, raw: VLSH, env: Env)
    requires Sized(d, i) && d.allocs + 1 !in d.born && d.nextSess !in d.home && env.ok
    requires Exec(d, i, AcceptFrom(h, raw), env).0.allocs < WIDTH
    ensures Later(d, Exec(d, i, AcceptFrom(h, raw), env).0)
  {
    if T.Resolve(d.tables[i], h, raw, env.owned).OwnedRaw? {
      CreateLater(TouchHandle(d, i, h, raw), i, env);
    }
  }

  lemma ShardAcceptLater(d: Data, i: nat, s: nat, raw: VLSH, env: Env)
    requires Sized(d, i) && d.allocs + 1 !in d.born && d.nextSess !in d.home && env.ok
    requires Exec(d, i, ShardAccept(s, raw), env).0.allocs < WIDTH
    ensures Later(d, Exec(d, i, ShardAccept(s, raw), env).0)
  {
    CreateLater(d.(touched := d.touched + {ByShard(s, i, SessAt(d, i, raw))}), i, env);
  }

  lemma ExecElseLater(d: Data, i: nat, kind: Kind, env: Env)
    requires Sized(d, i) && d.nextSess !in d.home
    requires !env.ok || (!kind.Create? && !kind.AcceptFrom? && !kind.ShardAccept?)
    ensures Later(d, Exec(d, i, kind, env).0)
  {
    if kind.Listen? {
      ListenLater(d, i, env);
    } else if OnShardKind(kind) {
      ShardKindsBear(d, i, kind, env);
    } else {
      SessionKindsBear(d, i, kind, env);
    }
  }

  predicate OnShardKind(kind: Kind) {
    kind.ShardAccept? || kind.ShardAdd? || kind.ShardCancel? || kind.ShardClose? || kind.ShardAbandon? || kind.ShardQuery?
  }

  /** Homes and births are as before. */
  ghost predicate BearsNothing(d: Data, u: Data) {
    |u.tables| == |d.tables| && |u.open| == |d.open| && u.home == d.home && u.born == d.born
  }

  lemma ShardKindsBear(d: Data, i: nat, kind: Kind, env: Env)
    requires Sized(d, i) && OnShardKind(kind) && (!env.ok || !kind.ShardAccept?)
    ensures BearsNothing(d, Exec(d, i, kind, env).0)
  {
    match kind {
      case ShardAccept(_, _) =>
      case ShardAdd(_, _, _) =>
      case ShardCancel(_, _, _) =>
      case ShardClose(_, _) =>
      case ShardAbandon(_, _) =>
      case ShardQuery(_, _) =>
    }
  }

  lemma CloseBears(d: Data, i: nat, h: VLSH, raw: VLSH, env: Env)
    requires Sized(d, i)
    ensures BearsNothing(d, Exec(d, i, Close(h, raw), env).0)
  {
  }

  lemma SessionKindsBear(d: Data, i: nat, kind: Kind, env: Env)
    requires Sized(d, i) && !OnShardKind(kind) && !kind.Listen? && (!env.ok || (!kind.Create? && !kind.AcceptFrom?))
    ensures BearsNothing(d, Exec(d, i, kind, env).0)
  {
    match kind {
      case Create =>
      case AcceptFrom(_, _) =>
      case Use(_, _) =>
      case Close(h, raw) => CloseBears(d, i, h, raw, env);
      case AddWait(_, _, _) =>
      case CancelWait(_, _, _) =>
      case WakeHandle(_, _) =>
    }
  }

  lemma ListenLater(d: Data, i: nat, env: Env)
    requires Sized(d, i) && d.nextSess !in d.home
    ensures Later(d, Exec(d, i, Listen, env).0)
  {
  }

  /** The waiter a closure hands to the engine, if its reply is Done. */
  function JoinedBy(kind: Kind): map<Waiter, VLSH> {
    match kind
    case AddWait(h, _, w) => map[w := h]
    case ShardAdd(_, raw, w) => map[w := RawKey(raw)]
    case _ => map[]
  }

  /** `u` differs from `d` only in worker `i`'s tables, whose engine gained `more`. */
  ghost predicate TablesStep(d: Data, u: Data, i: nat, more: map<Waiter, VLSH>)
    requires Sized(d, i)
  {
    var n := |d.tables|;
    && |u.tables| == n
    && (forall j :: 0 <= j < n && j != i ==> u.tables[j] == d.tables[j])
    && u.tables[i].engine.joined == d.tables[i].engine.joined + more
  }

  lemma JoinStep(d: Data, i: nat, t: T.Tables, more: map<Waiter, VLSH>)
    requires Sized(d, i) && t.engine.joined == d.tables[i].engine.joined + more
    ensures TablesStep(d, SetTables(d, i, t), i, more)
  {
  }

  lemma AddWaitTables(d: Data, i: nat, h: VLSH, raw: VLSH, w: Waiter, env: Env)
    requires Sized(d, i)
    ensures var (u, r) := Exec(d, i, AddWait(h, raw, w), env);
            TablesStep(d, u, i, if r.Done? then map[w := h] else map[])
  {
    var (t, ok) := T.AddWaiter(d.tables[i], h, raw, w, env.owned, env.ctlOk);
    T.AddJoins(d.tables[i], h, raw, w, env.owned, env.ctlOk);
    JoinStep(d, i, t, if ok then map[w := h] else map[]);
  }

  lemma ShardAddTables(d: Data, i: nat, s: nat, raw: VLSH, w: Waiter, env: Env)
    requires Sized(d, i)
    ensures var (u, r) := Exec(d, i, ShardAdd(s, raw, w), env);
            TablesStep(d, u, i, if r.Done? then map[w := RawKey(raw)] else map[])
  {
    var (t, ok) := T.AddWaiterRaw(d.tables[i], raw, w, env.ctlOk);
    T.AddRawJoins(d.tables[i], raw, w, env.ctlOk);
    JoinStep(d, i, t, if ok then map[w := RawKey(raw)] else map[]);
  }

  lemma RegisterTables(d: Data, i: nat, raw: VLSH, owned: bool)
    requires Sized(d, i)
    ensures TablesStep(d, Register(d, i, raw, owned).0, i, map[])
  {
  }

  lemma SetTablesStep(d: Data, i: nat, t: T.Tables)
    requires Sized(d, i) && t.engine.joined == d.tables[i].engine.joined
    ensures TablesStep(d, SetTables(d, i, t), i, map[])
  {
  }

  lemma CloseStep(d: Data, i: nat, h: VLSH, raw: VLSH, t: T.Tables, closeOk: bool)
    requires Sized(d, i) && t.engine.joined == d.tables[i].engine.joined
    ensures TablesStep(d, Unregister(CloseRaw(TouchHandle(SetTables(d, i, t), i, h, raw), i, raw, closeOk), i, h), i, map[])
  {
  }

  lemma ShardCloseStep(d: Data, i: nat, raw: VLSH, t: T.Tables, closeOk: bool, shards: map<nat, Home>)
    requires Sized(d, i) && t.engine.joined == d.tables[i].engine.joined
    ensures TablesStep(d, CloseRaw(SetTables(d, i, t), i, raw, closeOk).(shards := shards), i, map[])
  {
  }

  lemma WithdrawTables(d: Data, i: nat, kind: Kind, env: Env)
    requires Sized(d, i) && (kind.CancelWait? || kind.WakeHandle? || kind.ShardCancel?)
    ensures TablesStep(d, Exec(d, i, kind, env).0, i, map[])
  {
    var t := d.tables[i];
    match kind {
      case CancelWait(h, raw, w) =>
        T.CancelJoins(t, h, raw, w, env.ctlOk);
        SetTablesStep(d, i, T.CancelWaiter(t, h, raw, w, env.ctlOk).0);
      case WakeHandle(h, raw) =>
        T.RemoveJoins(t, h, raw);
        SetTablesStep(d, i, T.RemoveWaiters(t, h, raw));
      case ShardCancel(_, raw, w) =>
        T.CancelRawJoins(t, raw, w, env.ctlOk);
        SetTablesStep(d, i, T.CancelWaiterRaw(t, raw, w, env.ctlOk));
    }
  }

  lemma CloseTables(d: Data, i: nat, kind: Kind, env: Env)
    requires Sized(d, i) && (kind.Close? || kind.ShardClose?)
    ensures TablesStep(d, Exec(d, i, kind, env).0, i, map[])
  {
    var t := d.tables[i];
    match kind {
      case Close(h, raw) =>
        T.RemoveJoins(t, h, raw);
        CloseStep(d, i, h, raw, T.RemoveWaiters(t, h, raw), env.closeOk);
      case ShardClose(s, raw) =>
        T.RemoveRawJoins(t, raw);
        ShardCloseStep(d, i, raw, T.RemoveWaitersRaw(t, raw), env.closeOk, d.shards - {s});
    }
  }

  lemma MakeTables(d: Data, i: nat, kind: Kind, env: Env)
    requires Sized(d, i)
    requires kind.Create? || kind.AcceptFrom? || kind.ShardAccept?
    ensures TablesStep(d, Exec(d, i, kind, env).0, i, map[])
  {
    var u := if kind.AcceptFrom? then TouchHandle(d, i, kind.handle, kind.raw)
             else if kind.ShardAccept? then d.(touched := d.touched + {ByShard(kind.shard, i, SessAt(d, i, kind.raw))})
             else d;
    RegisterTables(Open(u, i, env.raw), i, env.raw, env.newOwned);
  }

  lemma PlainTables(d: Data, i: nat, kind: Kind, env: Env)
    requires Sized(d, i) && !kind.AddWait? && !kind.ShardAdd?
    ensures TablesStep(d, Exec(d, i, kind, env).0, i, map[])
  {
    if kind.Create? || kind.AcceptFrom? || kind.ShardAccept? {
      MakeTables(d, i, kind, env);
    } else if kind.Close? || kind.ShardClose? {
      CloseTables(d, i, kind, env);
    } else if kind.CancelWait? || kind.WakeHandle? || kind.ShardCancel? {
      WithdrawTables(d, i, kind, env);
    }
  }

  lemma ExecTables(d: Data, i: nat, kind: Kind, env: Env)
    requires Sized(d, i)
    ensures var (u, r) := Exec(d, i, kind, env);
            TablesStep(d, u, i, if r.Done? then JoinedBy(kind) else map[])
  {
    if kind.AddWait? {
      AddWaitTables(d, i, kind.handle, kind.raw, kind.w, env);
    } else if kind.ShardAdd? {
      ShardAddTables(d, i, kind.shard, kind.raw, kind.w, env);
    } else {
      PlainTables(d, i, kind, env);
      assert JoinedBy(kind) == map[];
    }
  }

  /** A complement key enters a session table only through its own shard. */
  lemma ExecKeys(d: Data, i: nat, kind: Kind, env: Env, k: VLSH)
    requires Sized(d, i) && k < 0 && k in Exec(d, i, kind, env).0.tables[i].sessions
    ensures k in d.tables[i].sessions || (kind.ShardAdd? && k == RawKey(kind.raw))
  {
    match kind {
      case Create => RegisterKeys(d, i, env, k);
      case AcceptFrom(h, raw) => RegisterKeys(TouchHandle(d, i, h, raw), i, env, k);
      case ShardAccept(s, raw) => RegisterKeys(d.(touched := d.touched + {ByShard(s, i, SessAt(d, i, raw))}), i, env, k);
      case Listen =>
      case Use(_, _) =>
      case Close(_, _) =>
      case AddWait(_, _, _) =>
      case CancelWait(_, _, _) =>
      case WakeHandle(_, _) =>
      case ShardAdd(_, _, _) =>
      case ShardCancel(_, _, _) =>
      case ShardClose(_, _) =>
      case _ =>
    }
  }

  lemma RegisterKeys(d: Data, i: nat, env: Env, k: VLSH)
    requires Sized(d, i) && k < 0
    ensures var u := Register(Open(d, i, env.raw), i, env.raw, env.newOwned).0;
            i < |u.tables| && (k in u.tables[i].sessions ==> k in d.tables[i].sessions)
  {
  }

  predicate Closes(kind: Kind, shard: nat) {
    (kind.ShardClose? || kind.ShardAbandon?) && kind.shard == shard
  }

  /** Shards disappear only through their own close and appear only as a reply. */
  lemma ExecShards(d: Data, i: nat, kind: Kind, env: Env)
    requires Sized(d, i)
    ensures var (u, r) := Exec(d, i, kind, env);
            && (forall l :: l in d.shards && !Closes(kind, l) && l != d.nextSess ==> l in u.shards && u.shards[l] == d.shards[l])
            && (forall l :: l in u.shards && !(r.Shard? && r.shard == l) ==> l in d.shards && u.shards[l] == d.shards[l])
            && (r.Shard? ==> r.shard == d.nextSess && r.shard in u.shards && kind.Listen? && env.ok
                             && r.raw == env.raw && u.shards[r.shard] == Home(i, r.raw) && u.home[r.shard] == Home(i, r.raw))
  {
  }

  /** Retiring one entry only touches worker `i` and, at most, its own shard. */
  lemma RetireFootprint(d: Data, i: nat, key: VLSH, closeOk: bool)
    requires Inv(d) && Sized(d, i) && key in d.tables[i].sessions
    ensures var u := Retire(d, i, key, closeOk);
            && Later(d, u) && u.born == d.born
            && (forall j :: 0 <= j < |d.tables| ==>
                  u.tables[j].engine == d.tables[j].engine && u.tables[j].sessions.Keys <= d.tables[j].sessions.Keys)
            && (forall l :: l in u.shards ==> l in d.shards && u.shards[l] == d.shards[l])
            && (forall l :: l in d.shards && l !in u.shards ==> l in d.home && d.home[l].worker == i)
  {
    assert WorkerOk(d, i) && EntryOk(d, i, key, d.tables[i].sessions[key]);
  }

  lemma ExecAllocs(d: Data, i: nat, kind: Kind, env: Env)
    requires Sized(d, i)
    ensures d.allocs <= Exec(d, i, kind, env).0.allocs <= d.allocs + 1
  {
  }

  /** A handle still in the owner map is listed by the worker it was born on. */
  lemma OwnedIsListed(d: Data, h: VLSH)
    requires Inv(d) && h in d.born
    ensures h in d.owners && d.owners[h].SessionRef? ==>
              d.born[h].worker < |d.tables| && h in d.tables[d.born[h].worker].sessions
  {
    if h in d.owners && d.owners[h].SessionRef? {
      var ref := d.owners[h];
      assert OwnerOk(d, h, ref);
      assert WorkerOk(d, ref.worker) && EntryOk(d, ref.worker, h, ref.raw);
    }
  }
}
