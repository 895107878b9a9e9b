/** The dispatcher and worker code of mode2.go and worker.go that updates the
    owner map, the handle counter and a worker's session table in place.  Each
    method is related to the transition of module Sessions it performs. */
module DispatcherClass {
  import opened WaitEngine
  import opened Collections
  import opened Handles
  import opened WorkerClass
  import T = WorkerTables
  import S = Sessions

  /** A queued closure, the outcomes of its foreign calls, and whether it finds the
      dispatcher stopping or the app not live when it is popped. */
  datatype Job = Job(kind: S.Kind, env: S.Env, refused: bool)

  class Dispatcher {
    var owners: map<VLSH, S.Ref>
    var allocs: nat          // increments of the 32-bit handle counter
    var rr: nat              // increments of the 32-bit round-robin counter
    var closed: multiset<VLSH>  // rawClose calls, of the worker at hand

    /** The part of `d` that this object and worker `i` hold. */
    ghost predicate Holds(d: S.Data, w: Worker, i: nat)
      reads this, w, w.table
    {
      S.Sized(d, i) && d.owners == owners && d.allocs == allocs && d.tables[i] == w.Tables()
    }

    constructor ()
      ensures owners == map[] && allocs == 0 && rr == 0 && closed == multiset{}
    {
      owners, allocs, rr, closed := map[], 0, 0, multiset{};
    }

    /** The session is refused, and its raw handle closed, if it belongs to another
        worker or the counter has left the range of handles. */
    method RegisterSession(w: Worker, i: nat, raw: VLSH, owned: bool, ghost d: S.Data) returns (handle: VLSH)
      requires Holds(d, w, i)
      modifies this, w
      ensures var (e, reply) := S.Register(d, i, raw, owned);
              Holds(e, w, i) && reply == (if handle == -1 then S.ErrOther else S.Handle(handle))
      ensures handle == (if owned then Issued(old(allocs) + 1) else -1)
      ensures closed == if handle == -1 then old(closed) + multiset{raw} else old(closed)
    {
      if !owned {
        closed := closed + multiset{raw};
        return -1;
      }
      allocs := allocs + 1;
      var id := allocs % WIDTH;
      if id == 0 || id > MAX_HANDLE {
        closed := closed + multiset{raw};
        return -1;
      }
      handle := ToHandle(id);
      w.sessions := w.sessions[handle := raw];
      owners := owners[handle := S.SessionRef(i, raw)];
    }

    method UnregisterSession(w: Worker, i: nat, public: VLSH, ghost d: S.Data)
      requires Holds(d, w, i)
      modifies this`owners, w
      ensures Holds(S.Unregister(d, i, public), w, i)
    {
      w.sessions := w.sessions - {public};
      owners := owners - {public};
    }

    method PickWorker(workers: nat) returns (i: nat)
      requires workers > 0
      modifies `rr
      ensures rr == old(rr) + 1 && i == Picked(old(rr), workers) < workers
    {
      rr := rr + 1;
      i := (rr - 1) % WIDTH % workers;
    }

    /** One turn of the session loop of quiesce; the outcome of the close is ignored. */
    method RetireSession(w: Worker, i: nat, public: VLSH, closeOk: bool, ghost e: S.Data)
      requires Holds(e, w, i) && public in w.sessions
      modifies this`owners, this`closed, w
      ensures Holds(S.Retire(e, i, public, closeOk), w, i)
      ensures w.sessions == old(w.sessions) - {public} && owners == old(owners) - {public}
      ensures closed == old(closed) + multiset{old(w.sessions[public])}
    {
      closed := closed + multiset{w.sessions[public]};
      UnregisterSession(w, i, public, S.CloseRaw(e, i, w.sessions[public], closeOk));
    }

    /** The session loop of quiesce: every session of the worker is closed once, with
        whatever outcome, and its handle leaves the owner map; nobody else's does.
        `fails` holds the handles whose raw close fails. */
    method CloseSessions(w: Worker, i: nat, fails: set<VLSH>, ghost d: S.Data) returns (ghost e: S.Data)
      requires Holds(d, w, i) && Injective(w.sessions)
      modifies this`owners, this`closed, w
      ensures Holds(e, w, i) && Retired(d, i, fails, e) && w.sessions == map[]
      ensures owners == old(owners) - old(w.sessions.Keys)
      ensures closed == old(closed) + multiset(Raws(old(w.sessions)))
    {
      e := d;
      ghost var at := Loop(d, fails, owners, closed + multiset(Raws(w.sessions)), w.sessions.Keys);
      RetiredNone(d, i, fails);
      while w.sessions != map[]
        invariant Holds(e, w, i) && Underway(at, i, e, owners, closed, w.sessions)
        decreases w.sessions.Keys
      {
        var public := SomeElement(w.sessions.Keys);
        OneTurn(at, i, e, owners, closed, w.sessions, public);
        RetireSession(w, i, public, public !in fails, e);
        e := RetireOne(e, i, public, fails);
      }
      assert Raws(w.sessions) == {};
    }

    /** The first half of quiesce: all waiters are woken, then all sessions closed. */
    method QuiesceSessions(w: Worker, i: nat, epOpen: bool, fails: set<VLSH>, ghost d: S.Data) returns (ghost e: S.Data)
      requires Holds(d, w, i) && w.Valid() && (!epOpen ==> w.table.waiters == map[])
      modifies this, w, w.table
      ensures Holds(e, w, i) && Retired(S.SetTables(d, i, T.WakeAllWaiters(d.tables[i])), i, fails, e)
      ensures w.sessions == map[] && w.table.View() == WakeAll(old(w.table.View()))
      ensures owners == old(owners) - old(w.sessions.Keys)
      ensures closed == old(closed) + multiset(Raws(old(w.sessions)))
    {
      w.WakeAllWaiters(epOpen);
      e := CloseSessions(w, i, fails, S.SetTables(d, i, T.WakeAllWaiters(d.tables[i])));
    }

    /** drainOps pops up to `limit` closures in queue order, runs or refuses each, and
        answers each exactly once; it reports whether the batch filled.  `states` are the
        data before the batch and after each closure. */
    method DrainOps(d: S.Data, i: nat, queue: seq<Job>, limit: nat)
      returns (e: S.Data, replies: seq<S.Reply>, rest: seq<Job>, full: bool, ghost states: seq<S.Data>)
      requires S.Sized(d, i)
      ensures |replies| == (if |queue| < limit then |queue| else limit) && rest == queue[|replies|..]
      ensures |states| == |replies| + 1 && states[0] == d && states[|replies|] == e
      ensures forall k :: 0 <= k < |replies| ==> Answers(states[k], i, queue[k], states[k + 1], replies[k])
      ensures full <==> |replies| == limit
    {
      e, replies, rest, states := d, [], queue, [d];
      for n := 0 to limit
        invariant |replies| == n <= |queue| && rest == queue[n..] && S.Sized(e, i)
        invariant |states| == n + 1 && states[0] == d && states[n] == e
        invariant forall k :: 0 <= k < n ==> Answers(states[k], i, queue[k], states[k + 1], replies[k])
      {
        if rest == [] {
          return e, replies, rest, false, states;
        }
        var job := rest[0];
        rest := rest[1..];
        if job.refused {
          replies := replies + [S.ErrClosed];
        } else {
          var (after, reply) := S.Exec(e, i, job.kind, job.env);
          ExecSized(e, i, job.kind, job.env);
          e, replies := after, replies + [reply];
        }
        states := states + [e];
        assert Answers(states[n], i, queue[n], states[n + 1], replies[n]);
      }
      full := true;
    }
  }

  /** A popped closure is refused without effect or run, and answered with its result. */
  ghost predicate Answers(before: S.Data, i: nat, job: Job, after: S.Data, reply: S.Reply) {
    && S.Sized(before, i)
    && (job.refused ==> after == before && reply == S.ErrClosed)
    && (!job.refused ==> (after, reply) == S.Exec(before, i, job.kind, job.env))
  }

  lemma ExecSized(d: S.Data, i: nat, kind: S.Kind, env: S.Env)
    requires S.Sized(d, i)
    ensures S.Sized(S.Exec(d, i, kind, env).0, i)
  {
  }

  /** Once the dispatcher is stopping, a whole batch is answered without effect. */
  lemma {:induction false} RefusedBatch(i: nat, jobs: seq<Job>, states: seq<S.Data>, replies: seq<S.Reply>, n: nat)
    requires n <= |replies| && |replies| <= |jobs| && |states| == |replies| + 1
    requires forall k :: 0 <= k < |replies| ==> Answers(states[k], i, jobs[k], states[k + 1], replies[k])
    requires forall k :: 0 <= k < |replies| ==> jobs[k].refused
    ensures states[n] == states[0] && (n < |replies| ==> replies[n] == S.ErrClosed)
  {
    if n > 0 {
      RefusedBatch(i, jobs, states, replies, n - 1);
      assert Answers(states[n - 1], i, jobs[n - 1], states[n - 1 + 1], replies[n - 1]);
    }
    if n < |replies| {
      assert Answers(states[n], i, jobs[n], states[n + 1], replies[n]);
    }
  }

  function Raws(sessions: map<VLSH, VLSH>): set<VLSH> {
    set k | k in sessions :: sessions[k]
  }

  /** What the session loop starts from, and the closes it ends with. */
  datatype Loop = Loop(start: S.Data, fails: set<VLSH>, owners: map<VLSH, S.Ref>, total: multiset<VLSH>, all: set<VLSH>)

  ghost predicate Underway(
    at: Loop, i: nat, e: S.Data, owners: map<VLSH, S.Ref>, closed: multiset<VLSH>, sessions: map<VLSH, VLSH>)
  {
    var keys := sessions.Keys;
    && keys <= at.all && Injective(sessions) && Retired(at.start, i, at.fails, e)
    && owners == at.owners - (at.all - keys)
    && closed + multiset(Raws(sessions)) == at.total
  }

  lemma OneTurn(
    at: Loop, i: nat, e: S.Data, owners: map<VLSH, S.Ref>, closed: multiset<VLSH>, sessions: map<VLSH, VLSH>, key: VLSH)
    requires Underway(at, i, e, owners, closed, sessions)
    requires S.Sized(e, i) && e.tables[i].sessions == sessions && key in sessions
    ensures Underway(at, i, RetireOne(e, i, key, at.fails), owners - {key}, closed + multiset{sessions[key]}, sessions - {key})
  {
    RetiredMore(at.start, i, at.fails, e, key, RetireOne(e, i, key, at.fails));
    RawsDrop(sessions, key);
    OneLess(at.owners, at.all, sessions.Keys, key);
    assert (sessions - {key}).Keys == sessions.Keys - {key};
  }

  lemma OneLess(owners: map<VLSH, S.Ref>, all: set<VLSH>, keys: set<VLSH>, key: VLSH)
    requires key in keys && keys <= all
    ensures owners - (all - (keys - {key})) == owners - (all - keys) - {key}
  {
  }

  lemma RetiredNone(d: S.Data, i: nat, fails: set<VLSH>)
    ensures Retired(d, i, fails, d)
  {
    assert RetireAll(d, i, [], fails) == d;
  }

  lemma RawsDrop(sessions: map<VLSH, VLSH>, key: VLSH)
    requires Injective(sessions) && key in sessions
    ensures Injective(sessions - {key})
    ensures multiset{sessions[key]} + multiset(Raws(sessions - {key})) == multiset(Raws(sessions))
  {
    var rest := sessions - {key};
    forall raw | raw in Raws(sessions) ensures raw == sessions[key] || raw in Raws(rest) {
      var k :| k in sessions && sessions[k] == raw;
      assert k != key ==> k in rest && rest[k] == raw;
    }
    assert sessions[key] !in Raws(rest);
    assert Raws(sessions) == {sessions[key]} + Raws(rest);
  }

  function RetireOne(d: S.Data, i: nat, key: VLSH, fails: set<VLSH>): S.Data
    requires S.Sized(d, i) && key in d.tables[i].sessions
  {
    S.Retire(d, i, key, key !in fails)
  }

  /** Sessions of worker `i` retired one after the other; a handle that is not listed
      is passed over. */
  ghost function RetireAll(d: S.Data, i: nat, keys: seq<VLSH>, fails: set<VLSH>): S.Data {
    if keys == [] then d
    else
      var m := RetireAll(d, i, keys[..|keys| - 1], fails);
      var key := keys[|keys| - 1];
      if S.Sized(m, i) && key in m.tables[i].sessions then RetireOne(m, i, key, fails) else m
  }

  ghost predicate Retired(d: S.Data, i: nat, fails: set<VLSH>, e: S.Data) {
    exists keys: seq<VLSH> :: RetireAll(d, i, keys, fails) == e
  }

  lemma RetiredMore(d: S.Data, i: nat, fails: set<VLSH>, e: S.Data, key: VLSH, after: S.Data)
    requires Retired(d, i, fails, e) && S.Sized(e, i) && key in e.tables[i].sessions && after == RetireOne(e, i, key, fails)
    ensures Retired(d, i, fails, after)
  {
    var keys :| RetireAll(d, i, keys, fails) == e;
    var longer := keys + [key];
    assert longer[..|longer| - 1] == keys && longer[|longer| - 1] == key;
    assert RetireAll(d, i, longer, fails) == after;
  }

  // ---------------------------------------------------------------- round robin

  /** The worker picked when the counter has been incremented `n` times before. */
  function Picked(n: nat, workers: nat): nat
    requires workers > 0
  {
    n % WIDTH % workers
  }

  /** As long as the counter does not wrap, any `workers` picks in a row take each
      worker once. */
  lemma RoundRobin(n: nat, j: nat, k: nat, workers: nat)
    requires 0 < workers && n / WIDTH == (n + workers - 1) / WIDTH && j < k < workers
    ensures Picked(n + j, workers) != Picked(n + k, workers)
  {
    var a, b := (n + j) % WIDTH, (n + k) % WIDTH;
    assert (n + j) / WIDTH == n / WIDTH && (n + k) / WIDTH == n / WIDTH;
    assert b - a == k - j;
    Apart(a, b, workers);
  }

  lemma Apart(a: nat, b: nat, n: nat)
    requires 0 < n && a < b < a + n
    ensures a % n != b % n
  {
    var m, r := a / n, a % n + (b - a);
    if r < n {
      Remainder(b, n, m, r);
    } else {
      Remainder(b, n, m + 1, r - n);
    }
  }

  lemma Remainder(b: nat, n: nat, m: nat, r: nat)
    requires r < n && b == m * n + r
    ensures b % n == r
  {
    var q := b / n - m;
    assert q * n == r - b % n;
    Scale(q, n);
  }

  lemma Scale(q: int, n: nat)
    ensures q >= 1 ==> q * n >= n
    ensures q <= -1 ==> q * n <= 0 - n
  {
  }
}
