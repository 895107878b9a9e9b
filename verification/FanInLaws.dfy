/** The life of one accept loop (acceptLoop in shard_listener.go), round by round, and
    what a quiescing worker does to the connections of its shard. */
module FanInLaws {
  import opened FanIn

  predicate LoopAt(s: Sys, i: nat, loop: Loop) {
    i < |s.loops| && s.loops[i] == loop
  }

  predicate HasRoom(s: Sys) {
    |s.acceptC| < 4 * |s.loops|
  }

  /** A loop that has something to offer queues it behind the rest; after a connection it
      goes back to accepting, after an error it returns. */
  lemma OfferIsQueued(s: Sys, i: nat)
    requires i < |s.loops| && s.loops[i].Offering? && HasRoom(s)
    ensures Enabled(s, Send(i)) && Do(s, Send(i)).acceptC == s.acceptC + [s.loops[i].item]
    ensures LoopAt(Do(s, Send(i)), i, if s.loops[i].item.Conn? then Top else Returned)
  {
  }

  /** The states of a round in which the worker accepts connection `c`. */
  ghost predicate Accepts(s: Sys, i: nat, c: nat) {
    && Enabled(s, Submit(i))
    && var a := Do(s, Submit(i));
       && Enabled(a, Accept(i, c))
       && var b := Do(a, Accept(i, c));
          && c in b.listed && c in b.home && b.home[c] == i && Enabled(b, Receive(i))
          && LoopAt(Do(b, Receive(i)), i, Offering(Conn(c)))
  }

  lemma AcceptRound(s: Sys, i: nat, c: nat)
    requires LoopAt(s, i, Top) && i !in s.quiesced && !s.down && c !in s.home
    ensures Accepts(s, i, c)
  {
  }

  /** An accept that fails, or whose connection cannot be registered, ends in an error to
      offer; in the latter case the connection has been closed. */
  ghost predicate Fails(s: Sys, i: nat, c: nat, ok: bool) {
    && Enabled(s, Submit(i))
    && var a := Do(s, Submit(i));
       && Enabled(a, Refuse(i)) && LoopAt(Do(a, Refuse(i)), i, Offering(Failure))
       && Enabled(a, Reject(i, c, ok))
       && var b := Do(a, Reject(i, c, ok));
          && LoopAt(b, i, Offering(Failure)) && c !in b.listed && b.closes == s.closes + multiset{c}
          && (c in b.stuck <==> c in s.stuck || !ok)
  }

  lemma FailedRound(s: Sys, i: nat, c: nat, ok: bool)
    requires LoopAt(s, i, Top) && i !in s.quiesced && !s.down && c !in s.home && c !in s.listed
    ensures Fails(s, i, c, ok)
  {
  }

  /** An accept that finds nothing makes the loop wait, and then try again. */
  ghost predicate Idles(s: Sys, i: nat) {
    && Enabled(s, Submit(i))
    && var a := Do(s, Submit(i));
       && Enabled(a, Again(i))
       && var b := Do(a, Again(i));
          LoopAt(b, i, Parked) && Enabled(b, Wake(i)) && LoopAt(Do(b, Wake(i)), i, Top)
  }

  lemma IdleRound(s: Sys, i: nat)
    requires LoopAt(s, i, Top) && i !in s.quiesced && !s.down
    ensures Idles(s, i)
  {
  }

  /** Once the listener is closing, or the worker has quiesced, the loop returns from
      wherever it watches for that; a submission that the worker's quiescence overtakes
      ends in an error, and the connection of a reply nobody took is lost to the worker. */
  lemma LoopReturns(s: Sys, i: nat)
    requires i < |s.loops|
    ensures s.stop && (s.loops[i].Top? || s.loops[i].Offering? || s.loops[i].Parked?) ==>
              Enabled(s, Stopped(i)) && LoopAt(Do(s, Stopped(i)), i, Returned)
    ensures i in s.quiesced && (s.loops[i].Top? || s.loops[i].Parked?) ==>
              Enabled(s, SeeQuiesced(i)) && LoopAt(Do(s, SeeQuiesced(i)), i, Returned)
    ensures i in s.quiesced && (s.loops[i].Submitted? || s.loops[i].Replied?) ==>
              && Enabled(s, GiveUp(i)) && LoopAt(Do(s, GiveUp(i)), i, Offering(Failure))
              && Do(s, GiveUp(i)).lost == s.lost + (if s.loops[i].Replied? then multiset{s.loops[i].conn} else multiset{})
  {
  }

  /** Any worker may quiesce at any time, once: the listed connections of its shard are
      closed once each and leave the table; those whose close fails stay open. */
  lemma QuiesceCloses(s: Sys, i: nat, fails: set<nat>, c: nat)
    requires i < |s.loops| && i !in s.quiesced
    ensures Enabled(s, Quiesce(i, fails))
    ensures var t := Do(s, Quiesce(i, fails));
            var mine := c in s.listed && c in s.home && s.home[c] == i;
            && t.quiesced == s.quiesced + {i}
            && (c in t.listed <==> c in s.listed && !mine)
            && t.closes[c] == s.closes[c] + (if mine then 1 else 0)
            && (c in t.stuck <==> c in s.stuck || (mine && c in fails))
  {
  }

  /** Shutdown and Close may begin at any time; Close does so once. */
  lemma ClosingMayBegin(s: Sys)
    ensures Enabled(s, Shutdown) && Do(s, Shutdown).down
    ensures Enabled(s, BeginClose) <==> s.closer.Absent?
    ensures Enabled(s, BeginClose) ==> Do(s, BeginClose).stop && Do(s, BeginClose).closer == Joining
  {
  }

  /** An application's close takes its connection off the table whatever the raw close
      answers; only if that fails does it stay open. */
  lemma ConnCloses(s: Sys, c: nat, ok: bool)
    requires c in s.delivered && !s.down
    ensures Enabled(s, CloseConn(c, ok))
    ensures var t := Do(s, CloseConn(c, ok));
            && c !in t.listed && t.closes[c] == s.closes[c] + (if c in s.listed then 1 else 0)
            && (c in t.stuck <==> c in s.stuck || (c in s.listed && !ok))
            && (forall d :: d != c ==> (d in t.listed <==> d in s.listed) && t.closes[d] == s.closes[d])
  {
  }

  /** The closer, connection by connection. */
  lemma CloserGoesOn(s: Sys, ok: bool)
    requires s.closer.Dropping?
    ensures Enabled(s, DropRefused(false)) && Do(s, DropRefused(false)).closer == Draining
    ensures Do(s, DropRefused(false)).refused == s.refused + {s.closer.conn} && Do(s, DropRefused(false)).listed == s.listed
    ensures !s.down ==> Enabled(s, Drop(ok)) && Do(s, Drop(ok)).closer == Draining && s.closer.conn !in Do(s, Drop(ok)).listed
  {
  }
}
