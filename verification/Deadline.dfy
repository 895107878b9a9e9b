/** Resettable deadlines (deadlineState in conn.go).  Channels are numbered in
    the order they are made; the current one is the last. */
module Deadline {
  import opened Options

  /** `closed` and `timer` are the source's fields; `armed` maps the channels
      whose runtime timer has not fired to its due time; `closes` counts every
      close of a channel. */
  datatype State = State(
    when: Option<nat>, ch: nat, closed: bool, timer: Option<nat>, armed: map<nat, nat>, closes: multiset<nat>)

  const NEW := State(None, 0, false, None, map[], multiset{})

  function CloseCurrent(d: State): State {
    if d.closed then d else d.(closes := d.closes + multiset{d.ch}, closed := true)
  }

  function Disarm(d: State): State {
    d.(timer := None, armed := if d.timer.Some? then d.armed - {d.timer.value} else d.armed)
  }

  function Replace(d: State, t: Option<nat>): State {
    d.(when := t, ch := d.ch + 1, closed := false)
  }

  function Set(d: State, t: Option<nat>, now: nat): State {
    var n := Replace(CloseCurrent(Disarm(d)), t);
    if t.None? then n
    else if t.value <= now then CloseCurrent(n)
    else n.(timer := Some(n.ch), armed := n.armed[n.ch := t.value])
  }

  function Interrupt(d: State): State {
    CloseCurrent(Disarm(d))
  }

  /** The timer callback for channel `ch`, possibly long after Stop missed it. */
  function Callback(d: State, ch: nat): State {
    if d.ch == ch then CloseCurrent(d).(timer := None) else d
  }

  predicate Expired(d: State, now: nat) {
    d.when.Some? && d.when.value <= now
  }

  /** Every channel but an open current one has been closed exactly once. */
  ghost predicate ClosesOk(d: State) {
    forall c: nat :: d.closes[c] == if c < d.ch || (c == d.ch && d.closed) then 1 else 0
  }

  lemma ReplaceKeeps(d: State, t: Option<nat>)
    requires ClosesOk(d) && d.closed
    ensures ClosesOk(Replace(d, t))
  {
  }

  class DeadlineState {
    var when: Option<nat>
    var ch: nat
    var closed: bool
    var timer: Option<nat>
    var armed: map<nat, nat>
    var closes: multiset<nat>

    ghost function View(): State
      reads this
    {
      State(when, ch, closed, timer, armed, closes)
    }

    ghost predicate Valid()
      reads this
    {
      ClosesOk(View())
    }

    constructor ()
      ensures Valid() && View() == NEW
    {
      when, ch, closed, timer, armed, closes := None, 0, false, None, map[], multiset{};
    }

    /** Closing a closed channel panics; validity and the flag rule that out. */
    method CloseCurrentLocked()
      requires Valid()
      modifies `closed, `closes
      ensures Valid() && View() == CloseCurrent(old(View()))
    {
      if !closed {
        assert closes[ch] == 0;
        closes := closes + multiset{ch};
        closed := true;
      }
    }

    method SetDeadline(t: Option<nat>, now: nat)
      requires Valid()
      modifies this
      ensures Valid() && View() == Set(old(View()), t, now)
    {
      if timer.Some? {
        armed := armed - {timer.value};
        timer := None;
      }
      CloseCurrentLocked();
      ReplaceKeeps(View(), t);
      when := t;
      ch := ch + 1;
      closed := false;
      assert View() == Replace(CloseCurrent(Disarm(old(View()))), t);
      if t.None? {
        return;
      }
      if t.value <= now {
        CloseCurrentLocked();
      } else {
        timer, armed := Some(ch), armed[ch := t.value];
      }
    }

    method OnTimer(of: nat)
      requires Valid()
      modifies this
      ensures Valid() && View() == Callback(old(View()), of)
    {
      if ch == of {
        CloseCurrentLocked();
        timer := None;
      }
    }

    method InterruptWaiters()
      requires Valid()
      modifies this
      ensures Valid() && View() == Interrupt(old(View()))
    {
      if timer.Some? {
        armed := armed - {timer.value};
        timer := None;
      }
      CloseCurrentLocked();
    }
  }
}

/** One direction of a connection: any number of readers, deadline setters, timer
    callbacks, CloseRead, Close and shutdown around one deadline.  Each section
    under the deadline's mutex, each flag load or store and each foreign read is
    a step; the clock may advance between any two. */
module DeadlineSystem {
  import opened Deadline
  import opened Options
  import Runs

  /** Why a channel was closed: its deadline, CloseRead, Close, or a new Set. */
  datatype Cause = Due | Shut | Gone | Replaced

  /** The retry loop of Read: before the half-close check, before the closed
      check, before the deadline check, before waitChannel, in a read, parked. */
  datatype Pc = AtShut | AtClosed | AtDeadline | AtChannel | Reading(ch: nat) | Parked(ch: nat) | Left(r: Result)

  datatype Result = Eof | Closed | Timeout | Data

  /** A wait that did not lead to a read: on which channel, after how many deadline
      calls it was taken, and whether its registration was refused while the channel
      was open.  Otherwise the close of the channel cancelled it. */
  datatype Round = Round(ch: nat, sets: nat, refused: bool)

  /** `last` is the channel whose close cancelled the latest wait, `first` the
      current channel when the call began; `retries` counts the cancelled waits and
      `refusals` the refused ones; `since` is the number of deadline calls when the
      reader took its channel, `round` the latest wait that led to no read. */
  datatype Reader = Reader(pc: Pc, last: Option<nat>, retries: nat, first: nat, refusals: nat, since: nat, round: Option<Round>)

  /** A once-guarded closer: not called, flag stored, interrupt done. */
  datatype Closer = Unused | Flagged | Done

  /** `cut` is the channel that was current when CloseRead interrupted, and `sets`
      counts the deadline calls. */
  datatype Sys = Sys(
    d: State,
    causes: map<nat, Cause>,
    callbacks: set<nat>,
    clock: nat,
    closeRead: Closer,
    closeConn: Closer,
    sessionClosed: bool,
    down: bool,
    setters: set<nat>,
    cut: nat,
    sets: nat,
    readers: map<nat, Reader>)

  datatype Step =
    | Tick
    | Fire(ch: nat) | RunCallback(ch: nat)
    | BeginSet(k: nat) | ActSet(k: nat, t: Option<nat>)
    | FlagRead | InterruptRead
    | FlagConn | InterruptConn | CloseSession
    | GoDown
    | Call(r: nat)
    | CheckShut(r: nat) | CheckClosed(r: nat) | CheckDeadline(r: nat) | TakeChannel(r: nat)
    | Again(r: nat) | Finish(r: nat, eof: bool) | Wake(r: nat) | Cancelled(r: nat) | Refused(r: nat)

  const BOOT := Sys(NEW, map[], {}, 0, Unused, Unused, false, false, {}, 0, 0, map[])

  predicate At(s: Sys, r: nat, pc: Pc) {
    r in s.readers && s.readers[r].pc == pc
  }

  /** A reader with a channel in hand: in a read that may want to wait, or waiting. */
  predicate Waits(pc: Pc) {
    pc.Reading? || pc.Parked?
  }

  predicate Enabled(s: Sys, step: Step) {
    match step
    case Tick => true
    case Fire(ch) => ch in s.d.armed && s.d.armed[ch] <= s.clock
    case RunCallback(ch) => ch in s.callbacks
    case BeginSet(k) => k !in s.setters && s.closeConn.Unused? && !s.down
    case ActSet(k, _) => k in s.setters
    case FlagRead => s.closeRead.Unused?  // its check of the closed flag may be long past
    case InterruptRead => s.closeRead.Flagged?
    case FlagConn => s.closeConn.Unused?
    case InterruptConn => s.closeConn.Flagged?
    case CloseSession => s.closeConn.Done?
    case GoDown => true
    case Call(r) => r !in s.readers
    case CheckShut(r) => At(s, r, AtShut)
    case CheckClosed(r) => At(s, r, AtClosed)
    case CheckDeadline(r) => At(s, r, AtDeadline)
    case TakeChannel(r) => At(s, r, AtChannel)
    case Again(r) => r in s.readers && s.readers[r].pc.Reading? && !s.sessionClosed
    case Finish(r, _) => r in s.readers && s.readers[r].pc.Reading?
    case Wake(r) => r in s.readers && s.readers[r].pc.Parked?
    case Cancelled(r) => r in s.readers && Waits(s.readers[r].pc) && s.readers[r].pc.ch in s.d.closes
    case Refused(r) => r in s.readers && s.readers[r].pc.Reading? && s.readers[r].pc.ch !in s.d.closes
  }

  /** A cause is recorded for the current channel if this is what closes it. */
  function Blame(d: State, causes: map<nat, Cause>, why: Cause): map<nat, Cause> {
    if d.closed then causes else causes[d.ch := why]
  }

  function SetCauses(d: State, causes: map<nat, Cause>, t: Option<nat>, now: nat): map<nat, Cause> {
    var blamed := Blame(d, causes, Replaced);
    if t.Some? && t.value <= now then blamed[d.ch + 1 := Due] else blamed
  }

  function Flag(c: Closer): bool {
    !c.Unused?
  }

  function Moved(s: Sys, r: nat, pc: Pc): Sys
    requires r in s.readers
  {
    s.(readers := s.readers[r := s.readers[r].(pc := pc)])
  }

  function Do(s: Sys, step: Step): Sys
    requires Enabled(s, step)
  {
    match step
    case Tick => s.(clock := s.clock + 1)
    case Fire(ch) => s.(d := s.d.(armed := s.d.armed - {ch}), callbacks := s.callbacks + {ch})
    case RunCallback(ch) =>
      s.(d := Callback(s.d, ch), callbacks := s.callbacks - {ch},
         causes := if s.d.ch == ch then Blame(s.d, s.causes, Due) else s.causes)
    case BeginSet(k) => s.(setters := s.setters + {k})
    case ActSet(k, t) =>
      s.(d := Set(s.d, t, s.clock), causes := SetCauses(s.d, s.causes, t, s.clock), setters := s.setters - {k}, sets := s.sets + 1)
    case FlagRead => s.(closeRead := Flagged)
    case InterruptRead =>
      s.(d := Interrupt(s.d), causes := Blame(s.d, s.causes, Shut), closeRead := Done, cut := s.d.ch)
    case FlagConn => s.(closeConn := Flagged)
    case InterruptConn => s.(d := Interrupt(s.d), causes := Blame(s.d, s.causes, Gone), closeConn := Done)
    case CloseSession => s.(sessionClosed := true)
    case GoDown => s.(down := true)
    case Call(r) => s.(readers := s.readers[r := Reader(AtShut, None, 0, s.d.ch, 0, s.sets, None)])
    case CheckShut(r) => Moved(s, r, if Flag(s.closeRead) then Left(Eof) else AtClosed)
    case CheckClosed(r) => Moved(s, r, if Flag(s.closeConn) || s.down then Left(Closed) else AtDeadline)
    case CheckDeadline(r) => Moved(s, r, if Expired(s.d, s.clock) then Left(Timeout) else AtChannel)
    case TakeChannel(r) => s.(readers := s.readers[r := s.readers[r].(pc := Reading(s.d.ch), since := s.sets)])
    case Again(r) => Moved(s, r, Parked(s.readers[r].pc.ch))
    case Finish(r, eof) => Moved(s, r, Left(if s.sessionClosed then Closed else if eof then Eof else Data))
    case Wake(r) => Moved(s, r, Reading(s.readers[r].pc.ch))
    case Cancelled(r) =>
      var x := s.readers[r];
      s.(readers := s.readers[r := x.(pc := AtShut, last := Some(x.pc.ch), retries := x.retries + 1,
                                      round := Some(Round(x.pc.ch, x.since, false)))])
    case Refused(r) =>
      var x := s.readers[r];
      s.(readers := s.readers[r := x.(pc := AtShut, refusals := x.refusals + 1, round := Some(Round(x.pc.ch, x.since, true)))])
  }

  // ---------------------------------------------------------------- invariants

  /** A timer runs only for the current, open channel and its deadline. */
  ghost predicate TimerOk(d: State, callbacks: set<nat>) {
    && (forall c :: c in d.armed ==> c == d.ch && d.timer == Some(c) && d.when == Some(d.armed[c]) && !d.closed && c !in callbacks)
    && (d.timer.Some? ==> d.timer.value == d.ch)
  }

  /** An open channel with a deadline has a timer or a callback on its way; one
      without has neither. */
  ghost predicate Pending(d: State, callbacks: set<nat>) {
    !d.closed ==> (d.when.Some? <==> d.ch in d.armed || d.ch in callbacks)
  }

  ghost predicate CallbacksOk(d: State, callbacks: set<nat>, clock: nat) {
    forall c :: c in callbacks ==> c <= d.ch && (c == d.ch ==> Expired(d, clock))
  }

  ghost predicate CausesOk(d: State, causes: map<nat, Cause>, clock: nat) {
    && (forall c :: c in causes <==> c in d.closes)
    && (d.closed ==> d.ch in causes && causes[d.ch] != Replaced)
    && (d.closed && causes[d.ch].Due? ==> Expired(d, clock))
  }

  /** CloseRead and Close store their flag before they interrupt. */
  ghost predicate FlagsFirst(causes: map<nat, Cause>, closeRead: Closer, closeConn: Closer) {
    && (forall c :: c in causes && causes[c].Shut? ==> Flag(closeRead))
    && (forall c :: c in causes && causes[c].Gone? ==> Flag(closeConn))
  }

  /** Unless a Set followed, the channel CloseRead interrupted stays closed. */
  ghost predicate CutOk(d: State, closeRead: Closer, cut: nat) {
    closeRead.Done? ==> cut <= d.ch && (cut == d.ch ==> d.closed)
  }

  ghost predicate ReaderOk(d: State, causes: map<nat, Cause>, r: Reader) {
    && r.first <= d.ch
    && (r.last.None? ==> r.retries == 0)
    && (r.last.Some? ==> r.first <= r.last.value <= d.ch && r.last.value in causes && r.retries <= r.last.value - r.first + 1)
    && (r.pc.AtClosed? && r.last.Some? ==> !causes[r.last.value].Shut?)
    && (r.pc.AtDeadline? && r.last.Some? ==> !causes[r.last.value].Shut? && !causes[r.last.value].Gone?)
    && (r.pc.AtChannel? && r.last.Some? ==> r.last.value < d.ch)
    && (Waits(r.pc) ==> r.first <= r.pc.ch == r.since <= d.ch && (r.last.Some? ==> r.last.value < r.pc.ch))
    && (r.round.Some? ==> r.round.value.ch == r.round.value.sets && (!r.round.value.refused ==> r.last == Some(r.round.value.ch)))
  }

  ghost predicate ReadersOk(d: State, causes: map<nat, Cause>, readers: map<nat, Reader>) {
    forall r :: r in readers ==> ReaderOk(d, causes, readers[r])
  }

  ghost predicate TimesOk(d: State, callbacks: set<nat>, clock: nat) {
    var now := clock;
    ClosesOk(d) && TimerOk(d, callbacks) && Pending(d, callbacks) && CallbacksOk(d, callbacks, now)
  }

  ghost predicate SysInv(s: Sys) {
    var d := s.d;
    && TimesOk(d, s.callbacks, s.clock)
    && CausesOk(d, s.causes, s.clock)
    && FlagsFirst(s.causes, s.closeRead, s.closeConn)
    && CutOk(d, s.closeRead, s.cut)
    && s.sets == d.ch
    && ReadersOk(d, s.causes, s.readers)
  }

  predicate OfReader(step: Step) {
    step.Call? || step.CheckShut? || step.CheckClosed? || step.CheckDeadline? || step.TakeChannel?
    || step.Again? || step.Finish? || step.Wake? || step.Cancelled? || step.Refused?
  }

  lemma SetTimes(d: State, callbacks: set<nat>, clock: nat, t: Option<nat>)
    requires TimesOk(d, callbacks, clock)
    ensures TimesOk(Set(d, t, clock), callbacks, clock)
  {
    var e := Set(d, t, clock);
    assert d.ch + 1 !in callbacks && d.closes[d.ch + 1] == 0;
    assert ClosesOk(e);
    assert TimerOk(e, callbacks);
  }

  lemma InterruptTimes(d: State, callbacks: set<nat>, clock: nat)
    requires TimesOk(d, callbacks, clock)
    ensures TimesOk(Interrupt(d), callbacks, clock)
  {
    assert ClosesOk(Interrupt(d));
  }

  lemma CallbackTimes(d: State, callbacks: set<nat>, clock: nat, ch: nat)
    requires TimesOk(d, callbacks, clock) && ch in callbacks
    ensures TimesOk(Callback(d, ch), callbacks - {ch}, clock)
  {
    assert ClosesOk(Callback(d, ch));
  }

  lemma FireTimes(d: State, callbacks: set<nat>, clock: nat, ch: nat)
    requires TimesOk(d, callbacks, clock) && ch in d.armed && d.armed[ch] <= clock
    ensures TimesOk(d.(armed := d.armed - {ch}), callbacks + {ch}, clock)
  {
    assert ClosesOk(d.(armed := d.armed - {ch}));
  }

  lemma StepTimes(s: Sys, step: Step)
    requires TimesOk(s.d, s.callbacks, s.clock) && Enabled(s, step)
    ensures var t := Do(s, step); TimesOk(t.d, t.callbacks, t.clock)
  {
    if step.ActSet? {
      SetTimes(s.d, s.callbacks, s.clock, step.t);
    } else if step.InterruptRead? || step.InterruptConn? {
      InterruptTimes(s.d, s.callbacks, s.clock);
    } else if step.RunCallback? {
      CallbackTimes(s.d, s.callbacks, s.clock, step.ch);
    } else if step.Fire? {
      FireTimes(s.d, s.callbacks, s.clock, step.ch);
    }
  }

  lemma SetCauseOk(d: State, causes: map<nat, Cause>, clock: nat, t: Option<nat>)
    requires CausesOk(d, causes, clock) && ClosesOk(d)
    ensures CausesOk(Set(d, t, clock), SetCauses(d, causes, t, clock), clock)
  {
  }

  lemma BlameOk(d: State, causes: map<nat, Cause>, clock: nat, why: Cause)
    requires CausesOk(d, causes, clock)
    requires !why.Replaced? && (why.Due? ==> Expired(d, clock))
    ensures CausesOk(CloseCurrent(d), Blame(d, causes, why), clock)
  {
  }

  lemma CauseFrame(d: State, e: State, causes: map<nat, Cause>, clock: nat)
    requires CausesOk(d, causes, clock) && e == d.(timer := e.timer, armed := e.armed)
    ensures CausesOk(e, causes, clock)
  {
  }

  lemma StepBlames(s: Sys, step: Step)
    requires SysInv(s) && Enabled(s, step)
    ensures var t := Do(s, step); CausesOk(t.d, t.causes, t.clock)
  {
    var t := Do(s, step);
    if step.ActSet? {
      SetCauseOk(s.d, s.causes, s.clock, step.t);
    } else if step.InterruptRead? || step.InterruptConn? {
      CauseFrame(s.d, Disarm(s.d), s.causes, s.clock);
      BlameOk(Disarm(s.d), s.causes, s.clock, if step.InterruptRead? then Shut else Gone);
    } else if step.RunCallback? {
      if step.ch == s.d.ch {
        BlameOk(s.d, s.causes, s.clock, Due);
        CauseFrame(CloseCurrent(s.d), t.d, t.causes, s.clock);
      }
    } else if step.Fire? {
      CauseFrame(s.d, t.d, s.causes, s.clock);
    }
  }

  lemma StepFlags(s: Sys, step: Step)
    requires FlagsFirst(s.causes, s.closeRead, s.closeConn) && Enabled(s, step)
    ensures var t := Do(s, step); FlagsFirst(t.causes, t.closeRead, t.closeConn)
  {
    match step {
      case RunCallback(_) =>
      case ActSet(_, _) =>
      case FlagRead =>
      case InterruptRead =>
      case FlagConn =>
      case InterruptConn =>
      case _ =>
    }
  }

  lemma StepCuts(s: Sys, step: Step)
    requires CutOk(s.d, s.closeRead, s.cut) && Enabled(s, step)
    ensures var t := Do(s, step); CutOk(t.d, t.closeRead, t.cut)
  {
  }

  lemma StepSets(s: Sys, step: Step)
    requires s.sets == s.d.ch && Enabled(s, step)
    ensures Do(s, step).sets == Do(s, step).d.ch
  {
  }

  /** Channels only get newer and causes are never revised. */
  ghost predicate Later(s: Sys, t: Sys) {
    && s.d.ch <= t.d.ch
    && (forall c :: c in s.causes ==> c in t.causes && t.causes[c] == s.causes[c])
  }

  lemma StepLater(s: Sys, step: Step)
    requires SysInv(s) && Enabled(s, step)
    ensures Later(s, Do(s, step))
  {
  }

  lemma ReadersLater(s: Sys, t: Sys)
    requires ReadersOk(s.d, s.causes, s.readers) && Later(s, t)
    ensures ReadersOk(t.d, t.causes, s.readers)
  {
  }

  lemma ReaderPut(s: Sys, r: nat, reader: Reader)
    requires ReadersOk(s.d, s.causes, s.readers) && ReaderOk(s.d, s.causes, reader)
    ensures ReadersOk(s.d, s.causes, s.readers[r := reader])
  {
  }

  lemma ReaderMoves(s: Sys, step: Step)
    requires SysInv(s) && Enabled(s, step) && OfReader(step)
    ensures step.r in Do(s, step).readers && ReaderOk(s.d, s.causes, Do(s, step).readers[step.r])
  {
    assert step.Call? || ReaderOk(s.d, s.causes, s.readers[step.r]);
    if step.CheckShut? || step.CheckClosed? || step.CheckDeadline? {
      ReaderChecks(s, step, s.readers[step.r]);
    } else if step.Cancelled? || step.Refused? {
      ReaderRetries(s, step, s.readers[step.r]);
    } else {
      ReaderReads(s, step);
    }
  }

  lemma ReaderChecks(s: Sys, step: Step, x: Reader)
    requires FlagsFirst(s.causes, s.closeRead, s.closeConn) && CausesOk(s.d, s.causes, s.clock) && ClosesOk(s.d)
    requires Enabled(s, step)
    requires step.CheckShut? || step.CheckClosed? || step.CheckDeadline?
    requires x == s.readers[step.r] && ReaderOk(s.d, s.causes, x)
    ensures step.r in Do(s, step).readers && ReaderOk(s.d, s.causes, Do(s, step).readers[step.r])
  {
    match step {
      case CheckShut(_) =>
      case CheckClosed(_) =>
      case CheckDeadline(_) =>
    }
  }

  lemma ReaderRetries(s: Sys, step: Step, x: Reader)
    requires CausesOk(s.d, s.causes, s.clock) && Enabled(s, step) && (step.Cancelled? || step.Refused?)
    requires x == s.readers[step.r] && ReaderOk(s.d, s.causes, x)
    ensures step.r in Do(s, step).readers && ReaderOk(s.d, s.causes, Do(s, step).readers[step.r])
  {
    match step {
      case Cancelled(_) =>
      case Refused(_) =>
    }
  }

  lemma ReaderReads(s: Sys, step: Step)
    requires s.sets == s.d.ch && Enabled(s, step) && OfReader(step) && (step.Call? || ReaderOk(s.d, s.causes, s.readers[step.r]))
    requires !step.CheckShut? && !step.CheckClosed? && !step.CheckDeadline? && !step.Cancelled? && !step.Refused?
    ensures step.r in Do(s, step).readers && ReaderOk(s.d, s.causes, Do(s, step).readers[step.r])
  {
    match step {
      case Call(_) =>
      case TakeChannel(_) =>
      case Again(_) =>
      case Finish(_, _) =>
      case Wake(_) =>
    }
  }

  lemma ReaderOnly(s: Sys, step: Step, t: Sys)
    requires Enabled(s, step) && OfReader(step) && t == Do(s, step) && step.r in t.readers
    ensures t.d == s.d && t.causes == s.causes && t.readers == s.readers[step.r := t.readers[step.r]]
  {
  }

  lemma StepReads(s: Sys, step: Step)
    requires SysInv(s) && Enabled(s, step)
    ensures var t := Do(s, step); ReadersOk(t.d, t.causes, t.readers)
  {
    var t := Do(s, step);
    if OfReader(step) {
      ReaderMoves(s, step);
      ReaderPut(s, step.r, t.readers[step.r]);
      ReaderOnly(s, step, t);
    } else {
      StepLater(s, step);
      ReadersLater(s, t);
    }
  }

  lemma StepKeeps(s: Sys, step: Step)
    requires SysInv(s) && Enabled(s, step)
    ensures SysInv(Do(s, step))
  {
    StepTimes(s, step);
    StepBlames(s, step);
    StepFlags(s, step);
    StepCuts(s, step);
    StepSets(s, step);
    StepReads(s, step);
  }

  ghost predicate Next(s: Sys, t: Sys) {
    exists step :: Enabled(s, step) && t == Do(s, step)
  }

  ghost predicate Boots(s: Sys) {
    s == BOOT
  }

  ghost predicate IsRun(run: seq<Sys>) {
    Runs.IsRun(Boots, Next, run)
  }

  lemma NextKeeps(s: Sys, t: Sys)
    requires SysInv(s) && Next(s, t)
    ensures SysInv(t)
  {
    var step :| Enabled(s, step) && t == Do(s, step);
    StepKeeps(s, step);
  }

  lemma BootKeeps()
    ensures SysInv(BOOT)
  {
    assert ClosesOk(NEW);
  }

  /** Every state of every run satisfies the invariant. */
  lemma RunsAreSound(run: seq<Sys>)
    requires IsRun(run)
    ensures forall p :: 0 <= p < |run| ==> SysInv(run[p])
  {
    BootKeeps();
    forall s, t | SysInv(s) && Next(s, t) ensures SysInv(t) {
      NextKeeps(s, t);
    }
    Runs.Sound(Boots, Next, SysInv, run);
  }

  // ---------------------------------------------------------------- laws

  /** No channel is closed twice, whatever stale callbacks run. */
  lemma ClosedOnce(s: Sys, c: nat)
    requires SysInv(s)
    ensures s.d.closes[c] <= 1
    ensures s.d.closes[s.d.ch] == 1 <==> s.d.closed
    ensures c in s.callbacks && c != s.d.ch ==> Do(s, RunCallback(c)).d == s.d
  {
  }

  /** A closed current channel has a reason a reader will see: the deadline has
      passed, or the flag of the interrupting call was stored before. */
  lemma ClosedForAReason(s: Sys)
    requires SysInv(s) && s.d.closed
    ensures Expired(s.d, s.clock) || Flag(s.closeRead) || Flag(s.closeConn)
  {
    assert s.d.ch in s.causes;
  }

  /** An open channel with a deadline has a timer or a callback on its way, which
      can run once the deadline has passed, and which closes the channel. */
  lemma DeadlineIsPending(s: Sys)
    requires SysInv(s) && !s.d.closed
    ensures s.d.when.Some? <==> s.d.ch in s.d.armed || s.d.ch in s.callbacks
    ensures s.d.ch in s.d.armed ==> s.d.when == Some(s.d.armed[s.d.ch])
    ensures Expired(s.d, s.clock) ==> Enabled(s, Fire(s.d.ch)) || Enabled(s, RunCallback(s.d.ch))
    ensures s.d.ch in s.callbacks ==> Expired(s.d, s.clock) && Do(s, RunCallback(s.d.ch)).d.closed
  {
  }

  /** Every cancelled wait used up a channel of its own, so the close of a channel
      makes a call retry at most once more than the deadline was set during it. */
  lemma RetriesBounded(s: Sys, r: nat)
    requires SysInv(s) && r in s.readers
    ensures s.readers[r].retries <= s.d.ch - s.readers[r].first + 1
    ensures s.readers[r].pc.Parked? && s.readers[r].last.Some? ==> s.readers[r].pc.ch > s.readers[r].last.value
  {
    assert ReaderOk(s.d, s.causes, s.readers[r]);
  }

  /** A reader waits on the channel of its previous wait again exactly if that wait's
      registration was refused and the deadline has not been set since. */
  lemma SameChannelIff(s: Sys, r: nat)
    requires SysInv(s) && Enabled(s, TakeChannel(r)) && s.readers[r].round.Some?
    ensures var before := s.readers[r].round.value;
            At(Do(s, TakeChannel(r)), r, Reading(before.ch)) <==> before.refused && s.sets == before.sets
  {
    assert ReaderOk(s.d, s.causes, s.readers[r]);
  }

  /** A cancelled reader that still finds its channel current returns at the next
      three checks: end of file, closed or timeout, but no fourth wait. */
  lemma SameChannelEndsRead(s: Sys, r: nat)
    requires SysInv(s) && r in s.readers && s.readers[r].last == Some(s.d.ch)
    ensures !s.readers[r].pc.AtChannel? && !s.readers[r].pc.Reading? && !s.readers[r].pc.Parked?
    ensures s.readers[r].pc.AtDeadline? ==> Expired(s.d, s.clock)
  {
    assert ReaderOk(s.d, s.causes, s.readers[r]);
    assert s.d.ch in s.causes;
  }

  /** A reader parked after CloseRead has interrupted is on an open channel exactly if
      a deadline was set after the interrupt and the reader is on its channel, which
      is still open. */
  lemma ParkedAfterCloseRead(s: Sys, r: nat)
    requires SysInv(s) && s.closeRead.Done? && r in s.readers && s.readers[r].pc.Parked?
    ensures s.readers[r].pc.ch !in s.d.closes <==> s.cut < s.readers[r].pc.ch == s.d.ch && !s.d.closed
  {
    assert ReaderOk(s.d, s.causes, s.readers[r]);
    assert s.d.closes[s.readers[r].pc.ch] == if s.readers[r].pc.ch < s.d.ch || s.d.closed then 1 else 0;
  }

  predicate Stranded(s: Sys, r: nat) {
    r in s.readers && s.readers[r].pc.Parked? && s.readers[r].pc.ch !in s.d.closes
  }

  /** The reader has passed its half-close check, and what it has not yet checked or
      taken would still let it park on the current channel. */
  predicate HasPath(s: Sys, pc: Pc) {
    match pc
    case AtClosed => !Flag(s.closeConn) && !s.down && !Expired(s.d, s.clock) && !s.sessionClosed
    case AtDeadline => !Expired(s.d, s.clock) && !s.sessionClosed
    case AtChannel => !s.sessionClosed
    case Reading(ch) => ch == s.d.ch && !s.sessionClosed
    case Parked(ch) => ch == s.d.ch
    case _ => false
  }

  /** The current channel is open, hence set after the interrupt, and some reader
      has a path to it. */
  ghost predicate CanStrand(s: Sys) {
    !s.d.closed && exists r :: r in s.readers && HasPath(s, s.readers[r].pc)
  }

  /** A step that sets no deadline. */
  ghost predicate NextUnset(s: Sys, t: Sys) {
    exists step :: Enabled(s, step) && !step.ActSet? && t == Do(s, step)
  }

  ghost predicate AfterCloseRead(s: Sys) {
    SysInv(s) && s.closeRead.Done?
  }

  lemma UnsetKeeps(s: Sys, t: Sys)
    requires AfterCloseRead(s) && NextUnset(s, t)
    ensures AfterCloseRead(t)
  {
    var step :| Enabled(s, step) && !step.ActSet? && t == Do(s, step);
    StepKeeps(s, step);
    StaysDone(s, step);
  }

  lemma StaysDone(s: Sys, step: Step)
    requires Enabled(s, step) && s.closeRead.Done?
    ensures Do(s, step).closeRead.Done?
  {
    match step {
      case FlagRead =>
      case InterruptRead =>
      case _ =>
    }
  }

  /** Without a new deadline nothing reopens: flags, clock and closes only grow. */
  lemma UnsetOnlyCloses(s: Sys, step: Step)
    requires s.closeRead.Done? && Enabled(s, step) && !step.ActSet?
    ensures var t := Do(s, step);
            && t.d.ch == s.d.ch && t.d.when == s.d.when && s.clock <= t.clock
            && (s.d.closed ==> t.d.closed) && (s.down ==> t.down) && (s.sessionClosed ==> t.sessionClosed)
            && (Flag(s.closeConn) ==> Flag(t.closeConn))
  {
  }

  /** A reader on a path was on one before. */
  lemma PathBack(s: Sys, step: Step, r: nat)
    requires s.closeRead.Done? && Enabled(s, step) && !step.ActSet?
    requires r in Do(s, step).readers && HasPath(Do(s, step), Do(s, step).readers[r].pc)
    ensures r in s.readers && HasPath(s, s.readers[r].pc)
  {
    UnsetOnlyCloses(s, step);
    if OfReader(step) && step.r == r {
      ReaderBack(s, step);
    } else {
      assert Do(s, step).readers[r] == s.readers[r];
    }
  }

  lemma ReaderBack(s: Sys, step: Step)
    requires s.closeRead.Done? && Enabled(s, step) && OfReader(step)
    requires step.r in Do(s, step).readers && HasPath(Do(s, step), Do(s, step).readers[step.r].pc)
    ensures step.r in s.readers && HasPath(s, s.readers[step.r].pc)
  {
  }

  lemma StrandBack(s: Sys, t: Sys)
    requires AfterCloseRead(s) && NextUnset(s, t) && CanStrand(t)
    ensures CanStrand(s)
  {
    var step :| Enabled(s, step) && !step.ActSet? && t == Do(s, step);
    var r :| r in t.readers && HasPath(t, t.readers[r].pc);
    UnsetOnlyCloses(s, step);
    PathBack(s, step, r);
  }

  /** The next step of a reader on its path. */
  function Onward(s: Sys, r: nat): Step
    requires r in s.readers
  {
    match s.readers[r].pc
    case AtClosed => CheckClosed(r)
    case AtDeadline => CheckDeadline(r)
    case AtChannel => TakeChannel(r)
    case _ => Again(r)
  }

  function Distance(pc: Pc): nat {
    match pc
    case AtClosed => 4
    case AtDeadline => 3
    case AtChannel => 2
    case Reading(_) => 1
    case _ => 0
  }

  lemma OnePace(s: Sys, r: nat)
    requires !s.d.closed && r in s.readers && HasPath(s, s.readers[r].pc) && Distance(s.readers[r].pc) > 0
    ensures Enabled(s, Onward(s, r)) && NextUnset(s, Do(s, Onward(s, r)))
    ensures var t := Do(s, Onward(s, r));
            && !t.d.closed && r in t.readers && HasPath(t, t.readers[r].pc)
            && Distance(t.readers[r].pc) < Distance(s.readers[r].pc)
  {
  }

  /** A reader on a path can go all the way. */
  lemma Walk(s: Sys, run: seq<Sys>, r: nat) returns (longer: seq<Sys>)
    requires Runs.From(NextUnset, run, s) && AfterCloseRead(run[|run| - 1])
    requires var t := run[|run| - 1]; !t.d.closed && r in t.readers && HasPath(t, t.readers[r].pc)
    ensures Runs.From(NextUnset, longer, s) && Stranded(longer[|longer| - 1], r)
    decreases Distance(run[|run| - 1].readers[r].pc)
  {
    var t := run[|run| - 1];
    if Distance(t.readers[r].pc) == 0 {
      ParkedAfterCloseRead(t, r);
      assert t.cut < t.d.ch by {
        OpenIsNew(t);
      }
      longer := run;
    } else {
      OnePace(t, r);
      var u := Do(t, Onward(t, r));
      UnsetKeeps(t, u);
      Runs.Longer(NextUnset, run, s, u);
      longer := Walk(s, run + [u], r);
    }
  }

  lemma OpenIsNew(s: Sys)
    requires AfterCloseRead(s) && !s.d.closed
    ensures s.cut < s.d.ch
  {
  }

  lemma StrandedCan(s: Sys, r: nat)
    requires AfterCloseRead(s) && Stranded(s, r)
    ensures CanStrand(s)
  {
    ParkedAfterCloseRead(s, r);
    assert HasPath(s, s.readers[r].pc);
  }

  ghost predicate SomeStranded(s: Sys) {
    exists r :: Stranded(s, r)
  }

  ghost predicate StrandsSome(run: seq<Sys>)
    requires |run| > 0
  {
    SomeStranded(run[|run| - 1])
  }

  /** When CloseRead misses a reader: once its interrupt is done, some continuation
      without a new deadline leaves a reader parked on an open channel exactly if a
      deadline was set since the interrupt, its channel is open, and some reader past
      its half-close check has a path to it. */
  lemma CloseReadMissesIff(s: Sys)
    requires AfterCloseRead(s)
    ensures (exists run: seq<Sys> :: Runs.From(NextUnset, run, s) && StrandsSome(run)) <==> CanStrand(s)
    ensures CanStrand(s) ==> s.cut < s.d.ch
  {
    if CanStrand(s) {
      OpenIsNew(s);
      var r :| r in s.readers && HasPath(s, s.readers[r].pc);
      Runs.Stay(NextUnset, s);
      var run := Walk(s, [s], r);
      assert SomeStranded(run[|run| - 1]);
      assert StrandsSome(run);
    }
    if run: seq<Sys> :| Runs.From(NextUnset, run, s) && StrandsSome(run) {
      MissedBack(s, run);
    }
  }

  lemma MissedBack(s: Sys, run: seq<Sys>)
    requires AfterCloseRead(s) && Runs.From(NextUnset, run, s) && StrandsSome(run)
    ensures CanStrand(s)
  {
    forall u, v | AfterCloseRead(u) && NextUnset(u, v) ensures AfterCloseRead(v) && (CanStrand(v) ==> CanStrand(u)) {
      UnsetKeeps(u, v);
      if CanStrand(v) {
        StrandBack(u, v);
      }
    }
    Runs.Forwards(NextUnset, AfterCloseRead, run, s);
    var r :| Stranded(run[|run| - 1], r);
    StrandedCan(run[|run| - 1], r);
    Runs.Backwards(NextUnset, AfterCloseRead, CanStrand, run, s);
  }

  ghost predicate Reachable(s: Sys) {
    Runs.Reachable(Boots, Next, s)
  }

  lemma Play(s: Sys, step: Step) returns (t: Sys)
    requires Reachable(s) && Enabled(s, step)
    ensures Reachable(t) && t == Do(s, step)
  {
    t := Do(s, step);
    assert Next(s, t);
    Runs.Extend(Boots, Next, s, t);
  }

  function Fresh(pc: Pc): Reader {
    Reader(pc, None, 0, 0, 0, 0, None)
  }

  lemma ChecksBegun(r: nat)
    ensures Reachable(BOOT.(readers := map[r := Fresh(AtDeadline)]))
  {
    Runs.Begin(Boots, Next, BOOT);
    var s := Play(BOOT, Call(r));
    s := Play(s, CheckShut(r));
    s := Play(s, CheckClosed(r));
    assert s == BOOT.(readers := map[r := Fresh(AtDeadline)]);
  }

  lemma ChecksPassed(r: nat, k: nat)
    ensures Reachable(BOOT.(setters := {k}, readers := map[r := Fresh(AtChannel)]))
  {
    ChecksBegun(r);
    var s := Play(BOOT.(readers := map[r := Fresh(AtDeadline)]), CheckDeadline(r));
    s := Play(s, BeginSet(k));
    assert s == BOOT.(setters := {k}, readers := map[r := Fresh(AtChannel)]);
  }

  /** CloseRead does not always unpark a reader: one that passed its checks before
      the flag was stored, and takes its channel after a racing SetReadDeadline
      has replaced the interrupted one, parks with nothing pending to wake it. */
  lemma CloseReadMissesReader(r: nat) returns (s: Sys)
    ensures Reachable(s) && s.closeRead.Done? && At(s, r, Parked(s.d.ch)) && !s.d.closed
    ensures s.d.when.None? && s.d.armed == map[] && s.callbacks == {} && s.setters == {}
  {
    ChecksPassed(r, 0);
    s := Play(BOOT.(setters := {0}, readers := map[r := Fresh(AtChannel)]), FlagRead);
    s := Play(s, InterruptRead);
    s := Play(s, ActSet(0, None));
    assert s.d == State(None, 1, false, None, map[], multiset{0});
    assert s.readers == map[r := Fresh(AtChannel)];
    s := Play(s, TakeChannel(r));
    s := Play(s, Again(r));
  }

  /** A reader refused `n` times on the first channel. */
  function Spun(r: nat, n: nat): Sys {
    BOOT.(readers := map[r := Reader(AtShut, None, 0, 0, n, 0, if n == 0 then None else Some(Round(0, 0, true)))])
  }

  function SpunAt(r: nat, n: nat, pc: Pc): Sys {
    BOOT.(readers := map[r := Spun(r, n).readers[r].(pc := pc)])
  }

  lemma ChecksAgain(r: nat, n: nat)
    requires Reachable(Spun(r, n))
    ensures Reachable(SpunAt(r, n, AtDeadline))
  {
    var s := Play(Spun(r, n), CheckShut(r));
    s := Play(s, CheckClosed(r));
    assert s == SpunAt(r, n, AtDeadline);
  }

  lemma OneMoreRefusal(r: nat, n: nat)
    requires Reachable(Spun(r, n))
    ensures Reachable(Spun(r, n + 1))
  {
    ChecksAgain(r, n);
    var s := Play(SpunAt(r, n, AtDeadline), CheckDeadline(r));
    s := Play(s, TakeChannel(r));
    assert s == SpunAt(r, n, Reading(0));
    s := Play(s, Refused(r));
    assert s == Spun(r, n + 1);
  }

  /** Refused registrations are not bounded: as often as the worker refuses, a Read
      comes back to the same open channel. */
  lemma {:induction false} RefusalsUnbounded(r: nat, n: nat)
    ensures Reachable(Spun(r, n)) && !Spun(r, n).d.closed && Spun(r, n).readers[r].refusals == n
  {
    if n == 0 {
      Runs.Begin(Boots, Next, BOOT);
      var s := Play(BOOT, Call(r));
      assert s == Spun(r, 0);
    } else {
      RefusalsUnbounded(r, n - 1);
      OneMoreRefusal(r, n - 1);
    }
  }
}
