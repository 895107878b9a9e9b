/** The accept fan-in of a sharded listener (shard_listener.go): one accept loop
    per worker feeding a bounded channel, any number of acceptors, one closing
    caller, workers that may quiesce at any time, and a shutdown that may begin at
    any time, from when on submit refuses.  Every raw close may fail.  Connections
    are named by identities that are never used twice. */
module FanIn {
  import Runs
  import opened Collections

  const SLOTS: nat := 4  // channel slots per shard

  datatype Item = Conn(handle: nat) | Failure

  /** One accept loop: between accepts; accept submitted; its reply waiting; at
      the send of an item; waiting for readiness; returned. */
  datatype Loop = Top | Submitted | Replied(conn: nat) | Offering(item: Item) | Parked | Returned

  /** closeShardedListener: before it, waiting for the loops, draining the
      channel, closing one drained connection, closing the shards, returned. */
  datatype Closer = Absent | Joining | Draining | Dropping(conn: nat) | ClosingShards | Finished

  /** `home` maps every accepted connection to its shard, `listed` holds those in
      their worker's session table, `closes` counts the raw closes and `stuck` holds
      those whose raw close failed: they have left the table and are still open in
      VLS.  `rejected` holds those that were accepted but could not be registered.
      `delivered`, `drained` and `lost` count what was handed to an acceptor,
      taken by the closer, or left behind by a submit that returned ErrClosed;
      `abandoned` records by shard what was dropped when stop arrived, and
      `refused` holds the drained connections whose close was not carried out.
      `down` says that the app is not live or the dispatcher is stopping. */
  datatype Sys = Sys(
    loops: seq<Loop>,
    acceptC: seq<Item>,
    stop: bool,
    closer: Closer,
    quiesced: set<nat>,
    home: map<nat, nat>,
    listed: set<nat>,
    closes: multiset<nat>,
    delivered: multiset<nat>,
    drained: multiset<nat>,
    lost: multiset<nat>,
    abandoned: map<nat, nat>,
    refused: set<nat>,
    down: bool,
    stuck: set<nat>,
    rejected: set<nat>)

  datatype Step =
    | Submit(i: nat)
    | Accept(i: nat, conn: nat)   // the submitted accept runs and registers a connection
    | Reject(i: nat, conn: nat, ok: bool)  // it finds one, and its registration is refused
    | Again(i: nat)               // it finds none
    | Refuse(i: nat)              // it fails
    | Receive(i: nat)             // the loop takes the reply
    | GiveUp(i: nat)              // submit returns ErrClosed: the worker has quiesced
    | Send(i: nat)
    | Wake(i: nat)
    | Stopped(i: nat)             // the loop sees stopCh
    | SeeQuiesced(i: nat)         // the loop sees its worker quiesced
    | Deliver                     // an acceptor receives from the channel
    | CloseConn(conn: nat, ok: bool)  // an acceptor closes what it was given
    | Quiesce(i: nat, fails: set<nat>)  // worker i closes every session it holds
    | Shutdown
    | BeginClose | Joined | Drain | Drained | EndClose
    | Drop(ok: bool)              // the closer closes the connection in its hands
    | DropRefused(owned: bool)    // its close is refused, or finds the session not owned

  function Boot(shards: nat): Sys {
    Sys(seq(shards, _ => Top), [], false, Absent, {}, map[], {},
        multiset{}, multiset{}, multiset{}, multiset{}, map[], {}, false, {}, {})
  }

  predicate Enabled(s: Sys, step: Step) {
    match step
    case Submit(i) => i < |s.loops| && s.loops[i].Top?
    case Accept(i, conn) => i < |s.loops| && s.loops[i].Submitted? && i !in s.quiesced && !s.down && conn !in s.home
    case Reject(i, conn, _) => i < |s.loops| && s.loops[i].Submitted? && i !in s.quiesced && !s.down && conn !in s.home
    case Again(i) => i < |s.loops| && s.loops[i].Submitted? && i !in s.quiesced && !s.down
    case Refuse(i) => i < |s.loops| && s.loops[i].Submitted?
    case Receive(i) => i < |s.loops| && s.loops[i].Replied?
    case GiveUp(i) => i < |s.loops| && (s.loops[i].Submitted? || s.loops[i].Replied?) && i in s.quiesced
    case Send(i) => i < |s.loops| && s.loops[i].Offering? && |s.acceptC| < SLOTS * |s.loops|
    case Wake(i) => i < |s.loops| && s.loops[i].Parked?
    case Stopped(i) => i < |s.loops| && s.stop && (s.loops[i].Top? || s.loops[i].Offering? || s.loops[i].Parked?)
    case SeeQuiesced(i) => i < |s.loops| && i in s.quiesced && (s.loops[i].Top? || s.loops[i].Parked?)
    case Deliver => s.acceptC != []
    case CloseConn(conn, _) => conn in s.delivered && !s.down
    case Quiesce(i, _) => i < |s.loops| && i !in s.quiesced
    case Shutdown => true
    case BeginClose => s.closer.Absent?
    case Joined => s.closer.Joining? && forall i :: 0 <= i < |s.loops| ==> s.loops[i].Returned?
    case Drain => s.closer.Draining? && s.acceptC != []
    case Drop(_) => s.closer.Dropping? && !s.down
    case DropRefused(owned) => s.closer.Dropping? && (s.down || !owned)
    case Drained => s.closer.Draining? && s.acceptC == []
    case EndClose => s.closer.ClosingShards?
  }

  function Conns(item: Item): multiset<nat> {
    if item.Conn? then multiset{item.handle} else multiset{}
  }

  /** Closing a listed session takes it off the table whatever the raw close answers. */
  function Close(s: Sys, conn: nat, ok: bool): Sys {
    if conn in s.listed
    then s.(listed := s.listed - {conn}, closes := s.closes + multiset{conn}, stuck := if ok then s.stuck else s.stuck + {conn})
    else s
  }

  /** The sessions VLS still holds: listed with their worker, or closed in vain. */
  function Open(s: Sys): set<nat> {
    s.listed + s.stuck
  }

  function Of(s: Sys, i: nat): set<nat> {
    set c | c in s.listed && c in s.home && s.home[c] == i
  }

  function Do(s: Sys, step: Step): Sys
    requires Enabled(s, step)
  {
    match step
    case Submit(i) => s.(loops := s.loops[i := Submitted])
    case Accept(i, conn) => s.(loops := s.loops[i := Replied(conn)], home := s.home[conn := i], listed := s.listed + {conn})
    case Reject(i, conn, ok) =>
      s.(loops := s.loops[i := Offering(Failure)], home := s.home[conn := i], rejected := s.rejected + {conn},
         closes := s.closes + multiset{conn}, stuck := if ok then s.stuck else s.stuck + {conn})
    case Again(i) => s.(loops := s.loops[i := Parked])
    case Refuse(i) => s.(loops := s.loops[i := Offering(Failure)])
    case Receive(i) => s.(loops := s.loops[i := Offering(Conn(s.loops[i].conn))])
    case GiveUp(i) =>
      s.(loops := s.loops[i := Offering(Failure)],
         lost := s.lost + (if s.loops[i].Replied? then multiset{s.loops[i].conn} else multiset{}))
    case Send(i) =>
      var item := s.loops[i].item;
      s.(loops := s.loops[i := if item.Conn? then Top else Returned], acceptC := s.acceptC + [item])
    case Wake(i) => s.(loops := s.loops[i := Top])
    case Stopped(i) =>
      s.(loops := s.loops[i := Returned],
         abandoned := if s.loops[i].Offering? && s.loops[i].item.Conn?
                      then s.abandoned[i := s.loops[i].item.handle] else s.abandoned)
    case SeeQuiesced(i) => s.(loops := s.loops[i := Returned])
    case Deliver => s.(acceptC := s.acceptC[1..], delivered := s.delivered + Conns(s.acceptC[0]))
    case CloseConn(conn, ok) => Close(s, conn, ok)
    case Quiesce(i, fails) =>
      s.(quiesced := s.quiesced + {i}, listed := s.listed - Of(s, i), closes := s.closes + multiset(Of(s, i)),
         stuck := s.stuck + Of(s, i) * fails)
    case Shutdown => s.(down := true)
    case BeginClose => s.(stop := true, closer := Joining)
    case Joined => s.(closer := Draining)
    case Drain =>
      s.(acceptC := s.acceptC[1..], drained := s.drained + Conns(s.acceptC[0]),
         closer := if s.acceptC[0].Conn? then Dropping(s.acceptC[0].handle) else Draining)
    case Drop(ok) => Close(s, s.closer.conn, ok).(closer := Draining)
    case DropRefused(_) => s.(refused := s.refused + {s.closer.conn}, closer := Draining)
    case Drained => s.(closer := ClosingShards)
    case EndClose => s.(closer := Finished)
  }

  // ---------------------------------------------------------------- conservation

  function ItemIs(item: Item, c: nat): nat {
    if item == Conn(c) then 1 else 0
  }

  function Holds(loop: Loop, c: nat): nat {
    if loop == Replied(c) || loop == Offering(Conn(c)) then 1 else 0
  }

  function InFlight(loops: seq<Loop>, c: nat): nat {
    if loops == [] then 0 else Holds(loops[0], c) + InFlight(loops[1..], c)
  }

  function Queued(queue: seq<Item>, c: nat): nat {
    if queue == [] then 0 else ItemIs(queue[0], c) + Queued(queue[1..], c)
  }

  function Dropped(abandoned: map<nat, nat>, c: nat): nat {
    if c in abandoned.Values then 1 else 0
  }

  function Rejected(rejected: set<nat>, c: nat): nat {
    if c in rejected then 1 else 0
  }

  /** The places in which connection `c` is, counted with repetition. */
  function Places(s: Sys, c: nat): nat {
    InFlight(s.loops, c) + Queued(s.acceptC, c) + s.delivered[c] + s.drained[c] + s.lost[c] + Dropped(s.abandoned, c)
    + Rejected(s.rejected, c)
  }

  /** An accepted connection is in exactly one place, once; others are nowhere. */
  ghost predicate Conserved(s: Sys) {
    forall c :: Places(s, c) == if c in s.home then 1 else 0
  }

  /** A session is listed until its single close; a failed close leaves it stuck. */
  ghost predicate ClosedOnce(home: map<nat, nat>, listed: set<nat>, closes: multiset<nat>, quiesced: set<nat>) {
    && listed <= home.Keys
    && (forall c :: c in home ==> closes[c] == if c in listed then 0 else 1)
    && (forall c :: c in closes ==> c in home)
    && (forall c :: c in listed ==> home[c] !in quiesced)
  }

  ghost predicate StuckOk(s: Sys) {
    forall c :: c in s.stuck ==> c in s.home && c !in s.listed
  }

  /** A loop holds only connections its own worker accepted. */
  ghost predicate AtHome(home: map<nat, nat>, loops: seq<Loop>) {
    forall i :: 0 <= i < |loops| ==> HoldsOwn(home, loops[i], i)
  }

  predicate HoldsOwn(home: map<nat, nat>, loop: Loop, i: nat) {
    && (loop.Replied? ==> loop.conn in home && home[loop.conn] == i)
    && (loop.Offering? && loop.item.Conn? ==> loop.item.handle in home && home[loop.item.handle] == i)
  }

  /** The closer is done with a connection and its close was carried out. */
  predicate Discarded(s: Sys, c: nat) {
    c in s.drained && s.closer != Dropping(c) && c !in s.refused
  }

  /** Only its worker's quiesce, its acceptor, the closer or a refused registration
      closes a session. */
  ghost predicate ClosedBy(s: Sys) {
    forall c :: c in s.home && c !in s.listed ==>
      s.home[c] in s.quiesced || c in s.delivered || Discarded(s, c) || c in s.rejected
  }

  ghost predicate RejectedOk(s: Sys) {
    forall c :: c in s.rejected ==> c in s.home && c !in s.listed
  }

  ghost predicate LostOk(home: map<nat, nat>, lost: multiset<nat>, quiesced: set<nat>) {
    forall c :: c in lost ==> c in home && home[c] in quiesced
  }

  /** Whatever the closer drained it has closed, but for the one in its hands and
      those whose close was refused. */
  ghost predicate DrainedOk(drained: multiset<nat>, closer: Closer, listed: set<nat>, refused: set<nat>) {
    && (forall c :: c in drained && closer != Dropping(c) && c !in refused ==> c !in listed)
    && (closer.Dropping? ==> closer.conn in drained)
    && (forall c :: c in refused ==> c in drained && closer != Dropping(c))
  }

  ghost predicate AbandonedOk(abandoned: map<nat, nat>, loops: seq<Loop>, stop: bool) {
    forall i :: i in abandoned ==> i < |loops| && loops[i].Returned? && stop
  }

  ghost predicate Phases(loops: seq<Loop>, acceptC: seq<Item>, closer: Closer, stop: bool) {
    && |acceptC| <= SLOTS * |loops|
    && (closer.Absent? <==> !stop)
    && (!closer.Absent? && !closer.Joining? ==> forall i :: 0 <= i < |loops| ==> loops[i].Returned?)
    && (closer.ClosingShards? || closer.Finished? ==> acceptC == [])
  }

  ghost predicate SysInv(s: Sys) {
    var home := s.home;
    && Conserved(s)
    && ClosedOnce(home, s.listed, s.closes, s.quiesced)
    && AtHome(home, s.loops)
    && ClosedBy(s)
    && StuckOk(s)
    && RejectedOk(s)
    && LostOk(home, s.lost, s.quiesced)
    && DrainedOk(s.drained, s.closer, s.listed, s.refused)
    && AbandonedOk(s.abandoned, s.loops, s.stop)
    && Phases(s.loops, s.acceptC, s.closer, s.stop)
  }

  // ---------------------------------------------------------------- steps keep it

  lemma {:induction false} LoopMoves(loops: seq<Loop>, i: nat, loop: Loop, c: nat)
    requires i < |loops|
    ensures InFlight(loops[i := loop], c) + Holds(loops[i], c) == InFlight(loops, c) + Holds(loop, c)
  {
    if i == 0 {
      assert loops[i := loop][1..] == loops[1..];
    } else {
      LoopMoves(loops[1..], i - 1, loop, c);
      assert loops[i := loop][1..] == loops[1..][i - 1 := loop];
    }
  }

  lemma {:induction false} QueueGrows(queue: seq<Item>, item: Item, c: nat)
    ensures Queued(queue + [item], c) == Queued(queue, c) + ItemIs(item, c)
  {
    if queue == [] {
      assert queue + [item] == [item];
    } else {
      QueueGrows(queue[1..], item, c);
      assert (queue + [item])[1..] == queue[1..] + [item];
    }
  }

  lemma {:induction false} NobodyHolds(loops: seq<Loop>, c: nat)
    requires forall i :: 0 <= i < |loops| ==> loops[i].Returned?
    ensures InFlight(loops, c) == 0
  {
    if loops != [] {
      NobodyHolds(loops[1..], c);
    }
  }

  predicate OfLoop(step: Step) {
    step.Submit? || step.Again? || step.Refuse? || step.Receive? || step.Wake? || step.SeeQuiesced?
    || step.Accept? || step.Reject? || step.Send? || step.GiveUp? || step.Stopped?
  }

  /** What connection `c` loses in one place it gains in another. */
  lemma LoopStepConserves(s: Sys, step: Step, c: nat)
    requires Conserved(s) && Enabled(s, step) && OfLoop(step) && !step.Stopped? && !step.Send?
    ensures Places(Do(s, step), c) == if c in Do(s, step).home then 1 else 0
  {
    LoopMoves(s.loops, step.i, Do(s, step).loops[step.i], c);
    assert Places(s, c) == if c in s.home then 1 else 0;
    if step.Accept? || step.Reject? {
      AcceptConserves(s, step, c);
    } else {
      TurnConserves(s, step, Do(s, step), c);
    }
  }

  lemma AcceptConserves(s: Sys, step: Step, c: nat)
    requires Enabled(s, step) && (step.Accept? || step.Reject?) && Places(s, c) == if c in s.home then 1 else 0
    ensures Places(Do(s, step), c) == if c in Do(s, step).home then 1 else 0
  {
    LoopMoves(s.loops, step.i, Do(s, step).loops[step.i], c);
  }

  /** A turn of an accept loop moves a connection on or gives it up. */
  lemma TurnConserves(s: Sys, step: Step, t: Sys, c: nat)
    requires Enabled(s, step) && OfLoop(step) && !step.Stopped? && !step.Send? && !step.Accept? && !step.Reject?
    requires t == Do(s, step) && InFlight(t.loops, c) + Holds(s.loops[step.i], c) == InFlight(s.loops, c) + Holds(t.loops[step.i], c)
    ensures Places(t, c) == Places(s, c) && t.home == s.home
  {
    match step {
      case Submit(_) =>
      case Again(_) =>
      case Refuse(_) =>
      case Receive(_) =>
      case GiveUp(_) =>
      case Wake(_) =>
      case SeeQuiesced(_) =>
    }
  }

  lemma SendConserves(s: Sys, i: nat, c: nat)
    requires Conserved(s) && Enabled(s, Send(i))
    ensures Places(Do(s, Send(i)), c) == if c in s.home then 1 else 0
  {
    LoopMoves(s.loops, i, Do(s, Send(i)).loops[i], c);
    QueueGrows(s.acceptC, s.loops[i].item, c);
    assert Places(s, c) == if c in s.home then 1 else 0;
  }

  lemma ValuesGrow(m: map<nat, nat>, i: nat, c: nat)
    requires i !in m
    ensures m[i := c].Values == m.Values + {c}
  {
    forall d | d in m.Values ensures d in m[i := c].Values {
      var j :| j in m && m[j] == d;
      assert m[i := c][j] == d;
    }
    assert m[i := c][i] == c;
  }

  lemma AbandonConserves(s: Sys, i: nat, c: nat)
    requires Conserved(s) && AbandonedOk(s.abandoned, s.loops, s.stop) && Enabled(s, Stopped(i))
    ensures Places(Do(s, Stopped(i)), c) == if c in s.home then 1 else 0
  {
    LoopMoves(s.loops, i, Returned, c);
    assert Places(s, c) == if c in s.home then 1 else 0;
    if s.loops[i].Offering? && s.loops[i].item.Conn? {
      ValuesGrow(s.abandoned, i, s.loops[i].item.handle);
    }
  }

  lemma StepConserves(s: Sys, step: Step, c: nat)
    requires SysInv(s) && Enabled(s, step)
    ensures Places(Do(s, step), c) == if c in Do(s, step).home then 1 else 0
  {
    if step.Stopped? {
      AbandonConserves(s, step.i, c);
    } else if step.Send? {
      SendConserves(s, step.i, c);
    } else if OfLoop(step) {
      LoopStepConserves(s, step, c);
    } else {
      OtherStepConserves(s, step, c);
    }
  }

  lemma OtherStepConserves(s: Sys, step: Step, c: nat)
    requires Conserved(s) && Enabled(s, step) && !OfLoop(step)
    ensures Places(Do(s, step), c) == if c in s.home then 1 else 0
  {
    assert Places(s, c) == if c in s.home then 1 else 0;
    if step.Deliver? || step.Drain? {
      PopConserves(s, step, Do(s, step), c);
    } else {
      RestConserves(s, step, Do(s, step), c);
    }
  }

  lemma PopConserves(s: Sys, step: Step, t: Sys, c: nat)
    requires Enabled(s, step) && (step.Deliver? || step.Drain?) && t == Do(s, step)
    ensures Places(t, c) == Places(s, c)
  {
  }

  lemma RestConserves(s: Sys, step: Step, t: Sys, c: nat)
    requires Enabled(s, step) && !OfLoop(step) && !step.Deliver? && !step.Drain? && t == Do(s, step)
    ensures Places(t, c) == Places(s, c)
  {
  }

  /** Only accepted connections are anywhere. */
  lemma OnlyAccepted(s: Sys, c: nat)
    requires Conserved(s) && c !in s.home
    ensures c !in s.drained && c !in s.lost && c !in s.delivered && c !in s.abandoned.Values && c !in s.rejected
    ensures Queued(s.acceptC, c) == 0 && InFlight(s.loops, c) == 0
  {
    assert Places(s, c) == 0;
  }

  lemma LoopClosesOnce(s: Sys, step: Step)
    requires ClosedOnce(s.home, s.listed, s.closes, s.quiesced) && Enabled(s, step) && OfLoop(step)
    ensures var t := Do(s, step); ClosedOnce(t.home, t.listed, t.closes, t.quiesced)
  {
  }

  lemma CloseClosesOnce(s: Sys, c: nat, ok: bool)
    requires ClosedOnce(s.home, s.listed, s.closes, s.quiesced)
    ensures var t := Close(s, c, ok); ClosedOnce(t.home, t.listed, t.closes, t.quiesced)
  {
  }

  lemma StepClosesOnce(s: Sys, step: Step)
    requires ClosedOnce(s.home, s.listed, s.closes, s.quiesced) && Enabled(s, step)
    ensures var t := Do(s, step); ClosedOnce(t.home, t.listed, t.closes, t.quiesced)
  {
    if OfLoop(step) {
      LoopClosesOnce(s, step);
    } else if step.CloseConn? {
      CloseClosesOnce(s, step.conn, step.ok);
    } else if step.Drop? {
      CloseClosesOnce(s, s.closer.conn, step.ok);
    }
  }

  lemma MoveAtHome(home: map<nat, nat>, loops: seq<Loop>, i: nat, loop: Loop)
    requires AtHome(home, loops) && i < |loops| && HoldsOwn(home, loop, i)
    ensures AtHome(home, loops[i := loop])
  {
  }

  lemma AcceptAtHome(home: map<nat, nat>, loops: seq<Loop>, conn: nat, i: nat)
    requires AtHome(home, loops) && conn !in home
    ensures AtHome(home[conn := i], loops)
  {
    forall k | 0 <= k < |loops| ensures HoldsOwn(home[conn := i], loops[k], k) {
      assert HoldsOwn(home, loops[k], k);
    }
  }

  lemma StepStaysHome(s: Sys, step: Step)
    requires AtHome(s.home, s.loops) && Enabled(s, step)
    ensures AtHome(Do(s, step).home, Do(s, step).loops)
  {
    var t := Do(s, step);
    if step.Accept? || step.Reject? {
      AcceptAtHome(s.home, s.loops, step.conn, step.i);
      MoveAtHome(t.home, s.loops, step.i, t.loops[step.i]);
    } else if OfLoop(step) {
      assert HoldsOwn(s.home, s.loops[step.i], step.i);
      MoveAtHome(s.home, s.loops, step.i, t.loops[step.i]);
    }
  }

  lemma StepLoses(s: Sys, step: Step)
    requires LostOk(s.home, s.lost, s.quiesced) && AtHome(s.home, s.loops) && Enabled(s, step)
    ensures LostOk(Do(s, step).home, Do(s, step).lost, Do(s, step).quiesced)
  {
    if step.GiveUp? {
      GiveUpLoses(s, step.i, Do(s, step));
    } else {
      OthersLose(s, step, Do(s, step));
    }
  }

  lemma GiveUpLoses(s: Sys, i: nat, t: Sys)
    requires LostOk(s.home, s.lost, s.quiesced) && AtHome(s.home, s.loops) && Enabled(s, GiveUp(i)) && t == Do(s, GiveUp(i))
    ensures LostOk(t.home, t.lost, t.quiesced)
  {
    assert HoldsOwn(s.home, s.loops[i], i);
  }

  /** No other step loses a connection. */
  lemma OthersLose(s: Sys, step: Step, t: Sys)
    requires LostOk(s.home, s.lost, s.quiesced) && Enabled(s, step) && !step.GiveUp? && t == Do(s, step)
    ensures LostOk(t.home, t.lost, t.quiesced)
  {
  }

  lemma StepClosedBy(s: Sys, step: Step)
    requires ClosedBy(s) && DrainedOk(s.drained, s.closer, s.listed, s.refused) && s.listed <= s.home.Keys
    requires Conserved(s) && Enabled(s, step)
    ensures ClosedBy(Do(s, step))
  {
    if step.Drain? {
      DrainClosedBy(s, Do(s, step));
    } else if OfLoop(step) {
      LoopClosedBy(s, step, Do(s, step));
    } else if step.CloseConn? || step.Drop? {
      CloseClosedBy(s, step, Do(s, step));
    } else {
      RestClosedBy(s, step, Do(s, step));
    }
  }

  lemma DrainClosedBy(s: Sys, t: Sys)
    requires ClosedBy(s) && Conserved(s) && Enabled(s, Drain) && t == Do(s, Drain)
    ensures ClosedBy(t)
  {
    assert forall c :: c in s.drained ==> c in t.drained;
    if s.acceptC[0].Conn? {
      HeadIsNew(s, s.acceptC[0].handle);
    }
  }

  lemma LoopClosedBy(s: Sys, step: Step, t: Sys)
    requires ClosedBy(s) && Enabled(s, step) && OfLoop(step) && s.listed <= s.home.Keys && t == Do(s, step)
    ensures ClosedBy(t)
  {
    match step {
      case Accept(_, _) =>
      case Reject(_, _, _) =>
      case _ =>
    }
  }

  lemma CloseClosedBy(s: Sys, step: Step, t: Sys)
    requires ClosedBy(s) && DrainedOk(s.drained, s.closer, s.listed, s.refused) && Enabled(s, step)
    requires (step.CloseConn? || step.Drop?) && t == Do(s, step)
    ensures ClosedBy(t)
  {
  }

  lemma RestClosedBy(s: Sys, step: Step, t: Sys)
    requires ClosedBy(s) && DrainedOk(s.drained, s.closer, s.listed, s.refused) && Enabled(s, step)
    requires !step.Drain? && !step.CloseConn? && !step.Drop? && !OfLoop(step) && t == Do(s, step)
    ensures ClosedBy(t)
  {
    assert forall c :: c in s.delivered ==> c in t.delivered;
    match step {
      case Quiesce(_, _) =>
      case DropRefused(_) =>
      case _ =>
    }
  }

  lemma StepSticks(s: Sys, step: Step)
    requires StuckOk(s) && s.listed <= s.home.Keys && Enabled(s, step)
    ensures StuckOk(Do(s, step))
  {
  }

  lemma StepRejects(s: Sys, step: Step)
    requires RejectedOk(s) && s.listed <= s.home.Keys && Enabled(s, step)
    ensures RejectedOk(Do(s, step))
  {
  }

  /** The connection at the head of the channel is nowhere else. */
  lemma HeadIsNew(s: Sys, c: nat)
    requires Conserved(s) && s.acceptC != [] && s.acceptC[0] == Conn(c)
    ensures c !in s.drained && c !in s.delivered && c !in s.lost && c in s.home
  {
    assert Places(s, c) <= 1;
  }

  lemma StepDrains(s: Sys, step: Step)
    requires Conserved(s) && DrainedOk(s.drained, s.closer, s.listed, s.refused) && Enabled(s, step)
    ensures var t := Do(s, step); DrainedOk(t.drained, t.closer, t.listed, t.refused)
  {
    if step.Drain? {
      DrainDrains(s, Do(s, step));
    } else if OfLoop(step) {
      if step.Accept? || step.Reject? {
        OnlyAccepted(s, step.conn);
      }
      LoopDrains(s, step, Do(s, step));
    } else {
      CloseDrains(s, step, Do(s, step));
    }
  }

  lemma DrainDrains(s: Sys, t: Sys)
    requires Conserved(s) && DrainedOk(s.drained, s.closer, s.listed, s.refused) && Enabled(s, Drain) && t == Do(s, Drain)
    ensures DrainedOk(t.drained, t.closer, t.listed, t.refused)
  {
    if s.acceptC[0].Conn? {
      HeadIsNew(s, s.acceptC[0].handle);
    }
  }

  lemma LoopDrains(s: Sys, step: Step, t: Sys)
    requires DrainedOk(s.drained, s.closer, s.listed, s.refused) && Enabled(s, step) && OfLoop(step) && t == Do(s, step)
    requires step.Accept? ==> step.conn !in s.drained
    ensures DrainedOk(t.drained, t.closer, t.listed, t.refused)
  {
    match step {
      case Accept(_, _) =>
      case _ =>
    }
  }

  lemma CloseDrains(s: Sys, step: Step, t: Sys)
    requires DrainedOk(s.drained, s.closer, s.listed, s.refused) && Enabled(s, step)
    requires !step.Drain? && !OfLoop(step) && t == Do(s, step)
    ensures DrainedOk(t.drained, t.closer, t.listed, t.refused)
  {
    match step {
      case CloseConn(_, _) =>
      case Quiesce(_, _) =>
      case Drop(_) =>
      case DropRefused(_) =>
      case _ =>
    }
  }

  lemma StepAbandons(s: Sys, step: Step)
    requires AbandonedOk(s.abandoned, s.loops, s.stop) && Enabled(s, step)
    ensures var t := Do(s, step); AbandonedOk(t.abandoned, t.loops, t.stop)
  {
  }

  lemma LoopPhases(s: Sys, step: Step)
    requires Phases(s.loops, s.acceptC, s.closer, s.stop) && Enabled(s, step) && OfLoop(step)
    ensures var t := Do(s, step); Phases(t.loops, t.acceptC, t.closer, t.stop)
  {
  }

  lemma StepPhases(s: Sys, step: Step)
    requires Phases(s.loops, s.acceptC, s.closer, s.stop) && Enabled(s, step)
    ensures var t := Do(s, step); Phases(t.loops, t.acceptC, t.closer, t.stop)
  {
    if OfLoop(step) {
      LoopPhases(s, step);
    }
  }

  lemma StepKeeps(s: Sys, step: Step)
    requires SysInv(s) && Enabled(s, step)
    ensures SysInv(Do(s, step))
  {
    forall c: nat ensures Places(Do(s, step), c) == if c in Do(s, step).home then 1 else 0 {
      StepConserves(s, step, c);
    }
    StepClosesOnce(s, step);
    StepStaysHome(s, step);
    StepLoses(s, step);
    StepClosedBy(s, step);
    StepSticks(s, step);
    StepRejects(s, step);
    StepDrains(s, step);
    StepAbandons(s, step);
    StepPhases(s, step);
  }

  ghost predicate Next(s: Sys, t: Sys) {
    exists step :: Enabled(s, step) && t == Do(s, step)
  }

  ghost predicate Boots(s: Sys) {
    s == Boot(|s.loops|)
  }

  ghost predicate IsRun(run: seq<Sys>) {
    Runs.IsRun(Boots, Next, run)
  }

  lemma {:induction false} BootConserves(shards: nat, c: nat)
    ensures InFlight(seq(shards, _ => Top), c) == 0
  {
    if shards > 0 {
      BootConserves(shards - 1, c);
      assert seq(shards, _ => Top)[1..] == seq(shards - 1, _ => Top);
    }
  }

  lemma BootKeeps(shards: nat)
    ensures SysInv(Boot(shards))
  {
    forall c: nat ensures Places(Boot(shards), c) == 0 {
      BootConserves(shards, c);
    }
  }

  lemma NextKeeps(s: Sys, t: Sys)
    requires SysInv(s) && Next(s, t)
    ensures SysInv(t)
  {
    var step :| Enabled(s, step) && t == Do(s, step);
    StepKeeps(s, step);
  }

  /** Every state of every run, for any number of shards, satisfies the invariant. */
  lemma RunsAreSound(run: seq<Sys>)
    requires IsRun(run)
    ensures forall p :: 0 <= p < |run| ==> SysInv(run[p])
  {
    forall s | Boots(s) ensures SysInv(s) {
      BootKeeps(|s.loops|);
    }
    forall s, t | SysInv(s) && Next(s, t) ensures SysInv(t) {
      NextKeeps(s, t);
    }
    Runs.Sound(Boots, Next, SysInv, run);
  }

  // ---------------------------------------------------------------- laws

  /** No connection is delivered or closed twice, and whoever has it excludes
      everybody else. */
  lemma DeliveredOnce(s: Sys, c: nat)
    requires SysInv(s)
    ensures s.closes[c] <= 1
    ensures s.delivered[c] <= 1
    ensures s.delivered[c] == 1 ==>
              s.drained[c] == 0 && c !in s.abandoned.Values && Queued(s.acceptC, c) == 0 && InFlight(s.loops, c) == 0
    ensures s.delivered[c] == 1 && c !in s.listed ==> s.closes[c] == 1
  {
    assert Places(s, c) == if c in s.home then 1 else 0;
  }

  /** Left behind by the loops at stop, or by the closer when its close was refused. */
  predicate LeftBehind(s: Sys, c: nat) {
    c in s.abandoned.Values || c in s.refused
  }

  /** Once the listener is closed, an accepted connection was delivered, or drained
      by the closer, or lost to its worker's quiesce, or abandoned, or rejected.  All
      but the delivered and those left behind have been closed; what is left behind
      is listed exactly until its worker quiesces; and VLS holds exactly what is
      listed and what was closed in vain. */
  lemma AfterClose(s: Sys, c: nat)
    requires SysInv(s) && s.closer.Finished? && c in s.home
    ensures s.delivered[c] + s.drained[c] + s.lost[c] + Dropped(s.abandoned, c) + Rejected(s.rejected, c) == 1
    ensures (s.drained[c] == 1 && c !in s.refused) || s.lost[c] == 1 || c in s.rejected ==> s.closes[c] == 1
    ensures c in s.refused ==> s.drained[c] == 1
    ensures LeftBehind(s, c) ==> (c in s.listed <==> s.home[c] !in s.quiesced)
    ensures c in Open(s) <==> s.closes[c] == 0 || c in s.stuck
  {
    assert Places(s, c) == 1;
    NobodyHolds(s.loops, c);
  }

  /** An undelivered session that a closed listener leaves open: left behind on a
      worker that has not quiesced, or closed in vain. */
  predicate Leaked(s: Sys, c: nat) {
    c in s.home && c !in s.delivered && ((LeftBehind(s, c) && s.home[c] !in s.quiesced) || c in s.stuck)
  }

  /** A closed listener leaves exactly those sessions open. */
  lemma CloseLeaksIff(s: Sys, c: nat)
    requires SysInv(s) && s.closer.Finished?
    ensures c in Open(s) && c !in s.delivered <==> Leaked(s, c)
  {
    if c in s.home {
      AfterClose(s, c);
    }
  }

  /** So it leaves none open exactly when the worker of everything abandoned or
      refused has quiesced and every raw close of an undelivered one succeeded. */
  lemma CloseLeaksNothingIff(s: Sys)
    requires SysInv(s) && s.closer.Finished?
    ensures (forall c :: c in Open(s) ==> c in s.delivered) <==>
            && (forall c :: LeftBehind(s, c) ==> c in s.home && s.home[c] in s.quiesced)
            && (forall c :: c in s.stuck ==> c in s.delivered)
  {
    forall c: nat ensures c in Open(s) && c !in s.delivered <==> Leaked(s, c) {
      CloseLeaksIff(s, c);
    }
    forall c: nat | LeftBehind(s, c) ensures c in s.home && c !in s.delivered {
      if c !in s.home {
        OnlyAccepted(s, c);
      }
      AfterClose(s, c);
    }
  }

  /** Each shard abandons at most one connection. */
  lemma AtMostOnePerShard(s: Sys)
    requires SysInv(s)
    ensures |s.abandoned| <= |s.loops|
  {
    var shards := Below(|s.loops|);
    assert s.abandoned.Keys <= shards;
    Fewer(s.abandoned.Keys, shards);
    assert |s.abandoned| == |s.abandoned.Keys|;
  }

  function Below(n: nat): (all: set<nat>)
    ensures |all| == n && forall i: nat :: i in all <==> i < n
  {
    if n == 0 then {} else Below(n - 1) + {n - 1}
  }

  /** While the closer waits for the loops, none of them is blocked: a full
      channel, a parked waiter or a quiesced worker never holds it up. */
  lemma LoopCanMove(s: Sys, i: nat) returns (step: Step)
    requires SysInv(s) && s.closer.Joining? && i < |s.loops| && !s.loops[i].Returned?
    ensures Enabled(s, step) && OfLoop(step) && step.i == i
  {
    match s.loops[i] {
      case Submitted => step := Refuse(i);
      case Replied(_) => step := Receive(i);
      case _ => step := Stopped(i);
    }
  }

  /** The channel is first in, first out: an item is queued behind the others by the loop
      that offers it, and the one at the head is delivered to an acceptor or drained. */
  lemma ArrivalsInOrder(s: Sys, step: Step)
    requires Enabled(s, step)
    ensures var t := Do(s, step);
            && t.acceptC == (if step.Send? then s.acceptC + [s.loops[step.i].item]
                             else if step.Deliver? || step.Drain? then s.acceptC[1..] else s.acceptC)
            && t.delivered == (if step.Deliver? && s.acceptC[0].Conn? then s.delivered + multiset{s.acceptC[0].handle} else s.delivered)
            && t.drained == (if step.Drain? && s.acceptC[0].Conn? then s.drained + multiset{s.acceptC[0].handle} else s.drained)
            && (step.Drain? && s.acceptC[0].Conn? ==> t.closer == Dropping(s.acceptC[0].handle))
  {
    match step {
      case Send(_) =>
      case Deliver =>
      case Drain =>
      case CloseConn(_, _) =>
      case Drop(_) =>
      case _ =>
    }
  }

  /** An accept loop that has not returned can always go on, but for a full channel, which
      an acceptor can then empty by one: it submits, takes its answer, waits and wakes, and
      hands its connection or error over. */
  lemma LoopNeverStuck(s: Sys, i: nat) returns (step: Step)
    requires i < |s.loops| && !s.loops[i].Returned?
    ensures Enabled(s, step) && ((OfLoop(step) && step.i == i) || (step.Deliver? && s.loops[i].Offering?))
    ensures s.loops[i].Replied? ==> Do(s, step).loops[i] == Offering(Conn(s.loops[i].conn))
    ensures s.loops[i].Offering? && |s.acceptC| < 4 * |s.loops| ==> step == Send(i)
  {
    match s.loops[i] {
      case Top => step := Submit(i);
      case Submitted => step := Refuse(i);
      case Replied(_) => step := Receive(i);
      case Offering(_) => step := if |s.acceptC| < 4 * |s.loops| then Send(i) else Deliver;
      case Parked => step := Wake(i);
    }
  }

  /** While neither the worker has quiesced nor shutdown begun, a submitted accept may
      find a new connection or nothing; the application may close what it was given. */
  lemma AcceptOpen(s: Sys, i: nat, c: nat, ok: bool)
    requires i < |s.loops| && s.loops[i].Submitted? && i !in s.quiesced && !s.down
    ensures Enabled(s, Again(i)) && (c !in s.home ==> Enabled(s, Accept(i, c)) && Enabled(s, Reject(i, c, ok)))
    ensures c !in s.home ==> Do(s, Accept(i, c)).loops[i] == Replied(c) && c in Do(s, Accept(i, c)).listed
    ensures c in s.delivered ==> Enabled(s, CloseConn(c, ok)) && c !in Do(s, CloseConn(c, ok)).listed
  {
  }

  predicate OfCloser(step: Step) {
    step.Joined? || step.Drain? || step.Drop? || step.DropRefused? || step.Drained? || step.EndClose?
  }

  /** Close is never stuck: until it has finished, the closer can move or a loop
      that it waits for can. */
  lemma CloseNeverStuck(s: Sys) returns (step: Step)
    requires SysInv(s) && s.stop && !s.closer.Finished?
    ensures Enabled(s, step) && (OfCloser(step) || (OfLoop(step) && s.closer.Joining?))
  {
    match s.closer {
      case Joining =>
        if i :| 0 <= i < |s.loops| && !s.loops[i].Returned? {
          step := LoopCanMove(s, i);
        } else {
          step := Joined;
        }
      case Draining => step := if s.acceptC == [] then Drained else Drain;
      case Dropping(_) => step := if s.down then DropRefused(true) else Drop(true);
      case ClosingShards => step := EndClose;
    }
  }

  ghost predicate Reachable(s: Sys) {
    Runs.Reachable(Boots, Next, s)
  }

  lemma Play(s: Sys, step: Step) returns (t: Sys)
    requires Reachable(s) && Enabled(s, step)
    ensures Reachable(t) && t == Do(s, step)
  {
    t := Do(s, step);
    assert Next(s, t);
    Runs.Extend(Boots, Next, s, t);
  }

  lemma OfferedAtStop(c: nat)
    ensures Reachable(Boot(1).(loops := [Offering(Conn(c))], home := map[c := 0], listed := {c}, stop := true, closer := Joining))
  {
    Accepted(c);
    var s := Play(Boot(1).(loops := [Replied(c)], home := map[c := 0], listed := {c}), Receive(0));
    s := Play(s, BeginClose);
    assert s == Boot(1).(loops := [Offering(Conn(c))], home := map[c := 0], listed := {c}, stop := true, closer := Joining);
  }

  /** A closed listener can leave a session behind: accepted, never delivered,
      still in its worker's table. */
  lemma AbandonedAtStop(c: nat) returns (s: Sys)
    ensures Reachable(s) && s.closer.Finished? && c in s.listed && c !in s.delivered && s.quiesced == {}
  {
    OfferedAtStop(c);
    s := Boot(1).(loops := [Offering(Conn(c))], home := map[c := 0], listed := {c}, stop := true, closer := Joining);
    s := Play(s, Stopped(0));
    assert s.loops == [Returned];
    s := Play(s, Joined);
    s := Play(s, Drained);
    s := Play(s, EndClose);
  }

  /** The close of a drained connection can be refused too: once shutdown has begun
      its session stays in its worker's table although the listener is closed. */
  lemma RefusedAtShutdown(c: nat) returns (s: Sys)
    ensures Reachable(s) && s.closer.Finished? && s.abandoned == map[]
    ensures c in s.listed && c !in s.delivered && s.closes[c] == 0 && s.quiesced == {}
  {
    DroppingReached(c);
    s := Play(DroppingAt(c), DropRefused(true));
    s := Play(s, Drained);
    s := Play(s, EndClose);
  }

  function QueuedAt(c: nat): Sys {
    Boot(1).(acceptC := [Conn(c)], home := map[c := 0], listed := {c}, down := true, stop := true, closer := Joining)
  }

  function DroppingAt(c: nat): Sys {
    QueuedAt(c).(loops := [Returned], acceptC := [], drained := multiset{c}, closer := Dropping(c))
  }

  lemma Accepted(c: nat)
    ensures Reachable(Boot(1).(loops := [Replied(c)], home := map[c := 0], listed := {c}))
  {
    Runs.Begin(Boots, Next, Boot(1));
    var s := Play(Boot(1), Submit(0));
    s := Play(s, Accept(0, c));
    assert s == Boot(1).(loops := [Replied(c)], home := map[c := 0], listed := {c});
  }

  lemma QueuedAtStop(c: nat)
    ensures Reachable(QueuedAt(c))
  {
    SentReached(c);
    var s := Play(SentAt(c), Shutdown);
    s := Play(s, BeginClose);
    assert s == QueuedAt(c);
  }

  lemma DroppingReached(c: nat)
    ensures Reachable(DroppingAt(c))
  {
    QueuedAtStop(c);
    var s := Play(QueuedAt(c), Stopped(0));
    assert s.loops == [Returned];
    s := Play(s, Joined);
    s := Play(s, Drain);
    assert s.acceptC == [] && s.drained == multiset{c};
    assert s == DroppingAt(c);
  }

  /** Nor does the closer's own close always succeed: its session is then gone from
      the table and the owner map, and still open. */
  lemma ClosedInVain(c: nat) returns (s: Sys)
    ensures Reachable(s) && s.closer.Finished? && s.abandoned == map[] && s.refused == {} && !s.down && s.quiesced == {}
    ensures c in Open(s) && c !in s.listed && c !in s.delivered && s.closes[c] == 1
  {
    HeldReached(c);
    s := Play(HeldAt(c), Drop(false));
    s := Play(s, Drained);
    s := Play(s, EndClose);
  }

  function HeldAt(c: nat): Sys {
    Boot(1).(loops := [Returned], home := map[c := 0], listed := {c}, stop := true, drained := multiset{c}, closer := Dropping(c))
  }

  lemma HeldReached(c: nat)
    ensures Reachable(HeldAt(c))
  {
    SentReached(c);
    var s := Play(SentAt(c), BeginClose);
    s := Play(s, Stopped(0));
    assert s.loops == [Returned];
    s := Play(s, Joined);
    s := Play(s, Drain);
    assert s.acceptC == [] && s.drained == multiset{c};
    assert s == HeldAt(c);
  }

  function SentAt(c: nat): Sys {
    Boot(1).(acceptC := [Conn(c)], home := map[c := 0], listed := {c})
  }

  lemma SentReached(c: nat)
    ensures Reachable(SentAt(c))
  {
    Accepted(c);
    var s := Play(Boot(1).(loops := [Replied(c)], home := map[c := 0], listed := {c}), Receive(0));
    s := Play(s, Send(0));
    assert s.loops == [Top] && s.acceptC == [Conn(c)];
    assert s == SentAt(c);
  }

  /** What the closer meets when it closes a drained connection: the worker finds the
      session not owned, or its raw close fails. */
  datatype Trouble = Trouble(disowned: set<nat>, fails: set<nat>)

  /** The drain loop of closeShardedListener, run with nobody else stepping: every
      queued connection ends drained, none is delivered.  Each is refused when the
      shutdown has begun or its session is not owned, and otherwise off the table,
      and then open exactly if its raw close failed. */
  method DrainAccepted(s: Sys, bad: Trouble) returns (t: Sys)
    requires SysInv(s) && s.closer.Draining?
    ensures SysInv(t) && t.closer.ClosingShards? && t.acceptC == []
    ensures Emptied(s, bad, t) && t.delivered == s.delivered && t.home == s.home
  {
    t := s;
    while t.acceptC != []
      invariant SysInv(t) && t.closer.Draining? && t.down == s.down
      invariant t.delivered == s.delivered && t.home == s.home
      invariant Progress(s, bad, t)
      decreases |t.acceptC|
    {
      ghost var u := t;
      t := DrainOne(t, bad);
      ProgressMore(s, bad, u, t);
    }
    QueuedOnce(s);
    ProgressEnds(s, bad, t);
    StepKeeps(t, Drained);
    t := Do(t, Drained);
  }

  /** The drain loop's outcome for each connection. */
  ghost predicate Emptied(s: Sys, bad: Trouble, t: Sys) {
    && (forall c :: Queued(s.acceptC, c) == 1 ==> t.drained[c] == 1)
    && (forall c :: Queued(s.acceptC, c) == 0 ==> t.drained[c] == s.drained[c])
    && (forall c :: Queued(s.acceptC, c) == 1 ==> (c in t.refused <==> s.down || c in bad.disowned))
    && (forall c :: c in t.listed <==> c in s.listed && (Queued(s.acceptC, c) == 1 ==> c in t.refused))
    && (forall c :: c in t.stuck <==>
          c in s.stuck || (Queued(s.acceptC, c) == 1 && c !in t.refused && c in s.listed && c in bad.fails))
  }

  lemma ProgressEnds(s: Sys, bad: Trouble, t: Sys)
    requires Progress(s, bad, t) && t.acceptC == [] && forall c :: Queued(s.acceptC, c) <= 1
    requires forall c :: Queued(s.acceptC, c) == 1 ==> s.drained[c] == 0 && c !in s.refused
    ensures Emptied(s, bad, t)
  {
    assert forall c :: Queued(t.acceptC, c) == 0;
    assert forall c :: Gone(s, t, c) <==> Queued(s.acceptC, c) == 1;
  }

  /** A queued connection is queued once and has met nothing yet. */
  lemma QueuedOnce(s: Sys)
    requires Conserved(s) && DrainedOk(s.drained, s.closer, s.listed, s.refused)
    ensures forall c :: Queued(s.acceptC, c) <= 1
    ensures forall c :: Queued(s.acceptC, c) == 1 ==> s.drained[c] == 0 && c !in s.refused
  {
    forall c: nat ensures Queued(s.acceptC, c) <= 1 && (Queued(s.acceptC, c) == 1 ==> s.drained[c] == 0 && c !in s.refused) {
      assert Places(s, c) == if c in s.home then 1 else 0;
    }
  }

  /** What the drain loop has done between `s` and `t`. */
  ghost predicate Progress(s: Sys, bad: Trouble, t: Sys) {
    var down := s.down;
    && (forall c :: t.drained[c] + Queued(t.acceptC, c) == s.drained[c] + Queued(s.acceptC, c))
    && (forall c :: Queued(t.acceptC, c) <= Queued(s.acceptC, c))
    && (forall c :: c in t.refused <==> c in s.refused || (Gone(s, t, c) && (down || c in bad.disowned)))
    && (forall c :: c in t.listed <==> c in s.listed && !(Gone(s, t, c) && !down && c !in bad.disowned))
    && (forall c :: c in t.stuck <==>
          c in s.stuck || (Gone(s, t, c) && !down && c !in bad.disowned && c in s.listed && c in bad.fails))
  }

  predicate Gone(s: Sys, t: Sys, c: nat) {
    Queued(s.acceptC, c) > Queued(t.acceptC, c)
  }

  lemma ProgressMore(s: Sys, bad: Trouble, u: Sys, t: Sys)
    requires Progress(s, bad, u) && u.acceptC != [] && u.down == s.down && Served(u, bad, t)
    ensures Progress(s, bad, t)
  {
    forall c: nat ensures Queued(u.acceptC, c) == ItemIs(u.acceptC[0], c) + Queued(t.acceptC, c) {
    }
  }

  /** One turn of the drain loop. */
  ghost predicate Served(s: Sys, bad: Trouble, t: Sys)
    requires s.acceptC != []
  {
    var item := s.acceptC[0];
    && t.acceptC == s.acceptC[1..]
    && (forall c :: t.drained[c] == s.drained[c] + ItemIs(item, c))
    && (forall c :: c in t.refused <==> c in s.refused || (ItemIs(item, c) == 1 && (s.down || c in bad.disowned)))
    && (forall c :: c in t.listed <==> c in s.listed && !(ItemIs(item, c) == 1 && !s.down && c !in bad.disowned))
    && (forall c :: c in t.stuck <==>
          c in s.stuck || (ItemIs(item, c) == 1 && !s.down && c !in bad.disowned && c in s.listed && c in bad.fails))
  }

  method DrainOne(s: Sys, bad: Trouble) returns (t: Sys)
    requires SysInv(s) && s.closer.Draining? && s.acceptC != []
    ensures SysInv(t) && t.closer.Draining? && t.down == s.down
    ensures t.delivered == s.delivered && t.home == s.home
    ensures Served(s, bad, t)
  {
    StepKeeps(s, Drain);
    DrainTakes(s);
    t := Do(s, Drain);
    if t.closer.Dropping? {
      var c := t.closer.conn;
      var step := if t.down || c in bad.disowned then DropRefused(c !in bad.disowned) else Drop(c !in bad.fails);
      StepKeeps(t, step);
      DropDisposes(t, step);
      TurnServes(s, bad, t, step, Do(t, step));
      t := Do(t, step);
    }
  }

  /** `t` is `s` with the head of the channel in the closer's hands. */
  ghost predicate Drawn(s: Sys, t: Sys)
    requires s.acceptC != []
  {
    var item := s.acceptC[0];
    && t.acceptC == s.acceptC[1..] && t.delivered == s.delivered && t.home == s.home
    && t.refused == s.refused && t.down == s.down && t.stuck == s.stuck && t.listed == s.listed
    && t.closer == (if item.Conn? then Dropping(item.handle) else Draining)
    && forall c :: t.drained[c] == s.drained[c] + ItemIs(item, c)
  }

  /** `t` is `s` after the closer closed the connection in its hands, or was refused. */
  ghost predicate Disposed(s: Sys, step: Step, t: Sys)
    requires s.closer.Dropping?
  {
    var c := s.closer.conn;
    && t.acceptC == s.acceptC && t.delivered == s.delivered && t.home == s.home && t.down == s.down
    && t.closer.Draining? && t.drained == s.drained
    && t.refused == (if step.Drop? then s.refused else s.refused + {c})
    && t.listed == (if step.Drop? then s.listed - {c} else s.listed)
    && t.stuck == (if step == Drop(false) && c in s.listed then s.stuck + {c} else s.stuck)
  }

  lemma DrainTakes(s: Sys)
    requires Enabled(s, Drain)
    ensures Drawn(s, Do(s, Drain))
  {
  }

  lemma DropDisposes(s: Sys, step: Step)
    requires Enabled(s, step) && (step.Drop? || step.DropRefused?)
    ensures Disposed(s, step, Do(s, step))
  {
  }

  lemma TurnServes(s: Sys, bad: Trouble, u: Sys, step: Step, t: Sys)
    requires s.acceptC != [] && Drawn(s, u) && u.closer.Dropping? && Disposed(u, step, t)
    requires step.DropRefused? <==> u.down || u.closer.conn in bad.disowned
    requires !step.DropRefused? ==> step == Drop(u.closer.conn !in bad.fails)
    ensures Served(s, bad, t)
  {
  }

  // ---------------------------------------------------------------- creation

  /** What one worker answers to the request for its shard; a handle it created
      but does not own it closes itself. */
  datatype Answer = Created(raw: nat) | Disowned(raw: nat) | Refused

  function Raw(a: Answer): nat
    requires a.Created? || a.Disowned?
  {
    a.raw
  }

  /** newShardedListener: all shards, or none is kept.  On the first refusal every
      raw listener created so far is submitted for closing, once, in order; `heard`
      says which of those submissions submit accepts, and the others are left. */
  method CreateShards(answers: seq<Answer>, heard: seq<bool>) returns (ok: bool, shards: seq<nat>, closed: seq<nat>, left: seq<nat>)
    requires |heard| == |answers|
    ensures ok <==> forall i :: 0 <= i < |answers| ==> answers[i].Created?
    ensures ok ==> closed == left == [] && |shards| == |answers|
    ensures ok ==> forall i :: 0 <= i < |answers| ==> shards[i] == Raw(answers[i])
    ensures !ok ==> exists k :: 0 <= k < |answers| && FirstRefusal(answers, k) && Undone(answers, k, heard[..k], closed, left)
  {
    shards, closed, left := [], [], [];
    for n := 0 to |answers|
      invariant closed == left == [] && |shards| == n
      invariant forall i :: 0 <= i < n ==> answers[i].Created? && shards[i] == Raw(answers[i])
    {
      if !answers[n].Created? {
        assert shards == Made(answers, n);
        if answers[n].Disowned? {
          closed := [answers[n].raw];
        }
        ghost var first := closed;
        for i := 0 to |shards|
          invariant closed == first + Picked(shards[..i], heard[..i], true)
          invariant left == Picked(shards[..i], heard[..i], false)
        {
          assert shards[..i + 1][..i] == shards[..i] && heard[..i + 1][..i] == heard[..i];
          if heard[i] {
            closed := closed + [shards[i]];
          } else {
            left := left + [shards[i]];
          }
        }
        assert shards[..|shards|] == shards;
        assert FirstRefusal(answers, n) && Undone(answers, n, heard[..n], closed, left);
        return false, shards, closed, left;
      }
      shards := shards + [answers[n].raw];
    }
    ok := true;
  }

  /** The cleanup after a refusal by worker `k`. */
  predicate Undone(answers: seq<Answer>, k: nat, heard: seq<bool>, closed: seq<nat>, left: seq<nat>)
    requires k < |answers| && FirstRefusal(answers, k) && |heard| == k
  {
    && closed == (if answers[k].Disowned? then [answers[k].raw] else []) + Picked(Made(answers, k), heard, true)
    && left == Picked(Made(answers, k), heard, false)
  }

  /** The raw handles whose submission has the given outcome, in order. */
  function Picked(raws: seq<nat>, heard: seq<bool>, outcome: bool): seq<nat>
    requires |heard| == |raws|
  {
    if raws == [] then []
    else
      var n := |raws| - 1;
      Picked(raws[..n], heard[..n], outcome) + (if heard[n] == outcome then [raws[n]] else [])
  }

  /** Nothing created is forgotten: it is closed or left, once. */
  lemma {:induction false} ClosedOrLeft(raws: seq<nat>, heard: seq<bool>)
    requires |heard| == |raws|
    ensures multiset(Picked(raws, heard, true)) + multiset(Picked(raws, heard, false)) == multiset(raws)
  {
    if raws != [] {
      var n := |raws| - 1;
      ClosedOrLeft(raws[..n], heard[..n]);
      assert raws == raws[..n] + [raws[n]];
    }
  }

  predicate FirstRefusal(answers: seq<Answer>, k: nat)
    requires k < |answers|
  {
    !answers[k].Created? && forall i :: 0 <= i < k ==> answers[i].Created?
  }

  /** The raw handles of the shards made before the first refusal. */
  function Made(answers: seq<Answer>, k: nat): seq<nat>
    requires k < |answers| && FirstRefusal(answers, k)
  {
    seq(k, i requires 0 <= i < k => Raw(answers[i]))
  }
}
