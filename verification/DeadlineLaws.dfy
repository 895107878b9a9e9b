/** What a deadline and the calls around it do for a reader: the deadline asked for is
    the one in force, and every wakeup leads to the answer that belongs to it. */
module DeadlineLaws {
  import opened Deadline
  import opened DeadlineSystem
  import opened Options

  /** Channel `c` has been closed. */
  predicate Shut(d: State, c: nat) {
    d.closes[c] > 0
  }

  /** Setting a deadline closes the channel of the previous one and makes a new channel:
      closed if the deadline has passed, otherwise open, with a timer for that time. */
  lemma SetMeans(d: State, t: Option<nat>, now: nat)
    requires ClosesOk(d) && (forall c :: c in d.armed ==> d.timer == Some(c))
    ensures var n := Set(d, t, now);
            && n.when == t && n.ch == d.ch + 1 && Shut(n, d.ch)
            && (Shut(n, n.ch) <==> t.Some? && t.value <= now) && n.closed == Shut(n, n.ch)
            && (forall c :: c != d.ch && c != n.ch ==> n.closes[c] == d.closes[c])
            && n.armed == (if t.Some? && t.value > now then map[n.ch := t.value] else map[])
            && n.timer == (if t.Some? && t.value > now then Some(n.ch) else None)
  {
    assert Disarm(d).armed == map[];
    assert d.closes[d.ch + 1] == 0;
  }

  /** An interrupt closes the current channel and its timer, and nothing else. */
  lemma InterruptMeans(d: State)
    requires ClosesOk(d) && (forall c :: c in d.armed ==> d.timer == Some(c))
    ensures var n := Interrupt(d);
            && n.when == d.when && n.ch == d.ch && Shut(n, d.ch) && n.closed && n.armed == map[] && n.timer == None
            && forall c :: c != d.ch ==> n.closes[c] == d.closes[c]
  {
    assert Disarm(d).armed == map[];
  }

  /** A timer callback closes its channel if that is current, and otherwise nothing. */
  lemma CallbackMeans(d: State, of: nat)
    requires ClosesOk(d) && of <= d.ch
    ensures var n := Callback(d, of);
            && n.when == d.when && n.ch == d.ch && Shut(n, of)
            && (of != d.ch ==> n == d)
            && forall c :: c != of ==> n.closes[c] == d.closes[c]
  {
  }

  /** The deadline in force is the last one set. */
  lemma LastSetHolds(s: Sys, step: Step)
    requires Enabled(s, step)
    ensures Do(s, step).d.when == if step.ActSet? then step.t else s.d.when
  {
    match step {
      case RunCallback(_) =>
      case ActSet(_, _) =>
      case InterruptRead =>
      case InterruptConn =>
      case _ =>
    }
  }

  /** A reader whose channel has been closed gets away from it at once, and its next
      checks answer: end of file after CloseRead, closed after Close or shutdown, timeout
      past the deadline, in this order; otherwise it waits on the current channel. */
  lemma CancelledReaderAnswers(s: Sys, r: nat)
    requires r in s.readers && Waits(s.readers[r].pc) && s.readers[r].pc.ch in s.d.closes
    ensures Enabled(s, Cancelled(r)) && CheckedAnswers(Do(s, Cancelled(r)), r)
    ensures var t := Do(s, Cancelled(r)); t.d == s.d && t.clock == s.clock && t.closeRead == s.closeRead && t.closeConn == s.closeConn
  {
    ChecksAnswer(Do(s, Cancelled(r)), r);
  }

  /** What the checks of a reader lead to when nothing else happens meanwhile. */
  ghost predicate CheckedAnswers(s: Sys, r: nat) {
    && Enabled(s, CheckShut(r))
    && var a := Do(s, CheckShut(r));
       if !s.closeRead.Unused? then At(a, r, Left(Eof)) else
       && Enabled(a, CheckClosed(r))
       && var b := Do(a, CheckClosed(r));
          if !s.closeConn.Unused? || s.down then At(b, r, Left(Closed)) else
          && Enabled(b, CheckDeadline(r))
          && var c := Do(b, CheckDeadline(r));
             if s.d.when.Some? && s.d.when.value <= s.clock then At(c, r, Left(Timeout)) else
             && Enabled(c, TakeChannel(r)) && At(Do(c, TakeChannel(r)), r, Reading(s.d.ch))
  }

  lemma ChecksAnswer(s: Sys, r: nat)
    requires At(s, r, AtShut)
    ensures CheckedAnswers(s, r)
  {
  }

  /** A new call goes through the same checks. */
  lemma CallAnswers(s: Sys, r: nat)
    requires r !in s.readers
    ensures Enabled(s, Call(r)) && CheckedAnswers(Do(s, Call(r)), r)
  {
    ChecksAnswer(Do(s, Call(r)), r);
  }

  /** A read that comes through answers for the session: closed, end of file or data. */
  lemma ReadAnswers(s: Sys, r: nat, eof: bool)
    requires r in s.readers && s.readers[r].pc.Reading?
    ensures Enabled(s, Finish(r, eof))
    ensures At(Do(s, Finish(r, eof)), r, Left(if s.sessionClosed then Closed else if eof then Eof else Data))
  {
  }

  /** No reader is held up: whoever has not returned can take its next check, read, or
      leave a channel that has been closed or is ready. */
  lemma ReaderNeverStuck(s: Sys, r: nat) returns (step: Step)
    requires r in s.readers && !s.readers[r].pc.Left?
    ensures Enabled(s, step) && OfReader(step) && step.r == r
    ensures Waits(s.readers[r].pc) && s.readers[r].pc.ch in s.d.closes ==> step == Cancelled(r)
  {
    match s.readers[r].pc {
      case AtShut => step := CheckShut(r);
      case AtClosed => step := CheckClosed(r);
      case AtDeadline => step := CheckDeadline(r);
      case AtChannel => step := TakeChannel(r);
      case Reading(ch) => step := if ch in s.d.closes then Cancelled(r) else Finish(r, false);
      case Parked(ch) => step := if ch in s.d.closes then Cancelled(r) else Wake(r);
    }
  }

  /** CloseRead, Close and shutdown can always be begun and carried through. */
  lemma ClosersNeverStuck(s: Sys)
    ensures s.closeRead.Unused? ==> Enabled(s, FlagRead)
    ensures s.closeRead.Flagged? ==> Enabled(s, InterruptRead) && Do(s, InterruptRead).closeRead.Done?
    ensures s.closeConn.Unused? ==> Enabled(s, FlagConn)
    ensures s.closeConn.Flagged? ==> Enabled(s, InterruptConn) && Do(s, InterruptConn).closeConn.Done?
    ensures s.closeConn.Done? ==> Enabled(s, CloseSession)
    ensures Enabled(s, GoDown) && Do(s, GoDown).down
  {
  }

  /** A read that would block registers on the channel it took, and reads again once the
      session is ready; a registration that is refused sends it back to its checks. */
  lemma ReadWaits(s: Sys, r: nat)
    requires r in s.readers && Waits(s.readers[r].pc)
    ensures var pc := s.readers[r].pc;
            && (pc.Reading? && !s.sessionClosed ==> Enabled(s, Again(r)) && At(Do(s, Again(r)), r, Parked(pc.ch)))
            && (pc.Reading? && pc.ch !in s.d.closes ==> Enabled(s, Refused(r)) && At(Do(s, Refused(r)), r, AtShut))
            && (pc.Parked? ==> Enabled(s, Wake(r)) && At(Do(s, Wake(r)), r, Reading(pc.ch)))
  {
  }

  /** A deadline may be set until Close or shutdown has begun, also after CloseRead; whoever
      has begun may carry it through at any later time. */
  lemma SetMayBegin(s: Sys, k: nat, t: Option<nat>)
    ensures k !in s.setters ==> (Enabled(s, BeginSet(k)) <==> s.closeConn.Unused? && !s.down)
    ensures Enabled(s, BeginSet(k)) ==> k in Do(s, BeginSet(k)).setters && Do(s, BeginSet(k)).d == s.d
    ensures k in s.setters ==> Enabled(s, ActSet(k, t)) && Do(s, ActSet(k, t)).d == Set(s.d, t, s.clock)
  {
  }

  /** Time goes on, a timer fires once its time has come, and its callback may run. */
  lemma TimeGoesOn(s: Sys, c: nat)
    ensures Enabled(s, Tick) && Do(s, Tick).clock == s.clock + 1
    ensures c in s.d.armed ==> (Enabled(s, Fire(c)) <==> s.d.armed[c] <= s.clock)
    ensures Enabled(s, Fire(c)) ==> c in Do(s, Fire(c)).callbacks && c !in Do(s, Fire(c)).d.armed
    ensures c in s.callbacks ==> Enabled(s, RunCallback(c)) && Do(s, RunCallback(c)).d == Callback(s.d, c)
  {
  }

  /** Close goes on to the session once it has interrupted; from then on a read answers
      closed. */
  lemma CloseReaches(s: Sys, r: nat, eof: bool)
    requires s.closeConn.Done?
    ensures Enabled(s, CloseSession) && Do(s, CloseSession).sessionClosed
    ensures r in s.readers && s.readers[r].pc.Reading? ==>
              Enabled(Do(s, CloseSession), Finish(r, eof)) && At(Do(Do(s, CloseSession), Finish(r, eof)), r, Left(Closed))
  {
  }
}
