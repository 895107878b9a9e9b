/** All goroutines of one connection race (dialHappyEyeballs in dialer.go). */
module RaceSystem {
  import opened Race
  import Runs

  /** `running` attempts have not sent their result; `results` is the channel;
      `received` were taken by the loop and `late` by the closing goroutine, which
      still expects `expected` more; `succeeded` made a connection, and `closes`
      counts its closes. */
  datatype Sys = Sys(
    loop: Loop,
    running: set<nat>,
    results: seq<Result>,
    received: set<nat>,
    late: set<nat>,
    expected: int,
    succeeded: set<nat>,
    closes: multiset<nat>,
    selects: nat)

  datatype Step = Send(i: nat, ok: bool) | Receive | Timer | Cancel | Clean

  function Boot(n: nat): Sys {
    Sys(Begin(n), {0}, [], {}, {}, 0, {}, multiset{}, 0)
  }

  /** The result channel holds n entries. */
  predicate Enabled(s: Sys, step: Step) {
    match step
    case Send(i, _) => i in s.running && |s.results| < s.loop.n
    case Receive => s.loop.verdict.Selecting? && s.results != []
    case Timer => s.loop.verdict.Selecting? && s.loop.timerArmed
    case Cancel => s.loop.verdict.Selecting?
    case Clean => s.expected > 0 && s.results != []
  }

  /** One select: the loop moves, may start its next attempt, or hands whatever
      is outstanding to the closing goroutine. */
  function Selected(s: Sys, l: Loop): Sys {
    s.(loop := l, selects := s.selects + 1,
       running := if l.nextIdx > s.loop.nextIdx then s.running + {s.loop.nextIdx} else s.running,
       expected := if l.verdict.Won? || l.verdict.Cancelled? then l.outstanding else s.expected)
  }

  function Do(s: Sys, step: Step): Sys
    requires Enabled(s, step)
  {
    match step
    case Send(i, ok) =>
      s.(running := s.running - {i}, results := s.results + [Result(i, ok)],
         succeeded := if ok then s.succeeded + {i} else s.succeeded)
    case Receive =>
      var r := s.results[0];
      Selected(s.(results := s.results[1..], received := s.received + {r.attempt}), OnResult(s.loop, r))
    case Timer => Selected(s, OnTimer(s.loop))
    case Cancel => Selected(s, OnCancel(s.loop))
    case Clean =>
      var r := s.results[0];
      s.(results := s.results[1..], late := s.late + {r.attempt}, expected := s.expected - 1,
         closes := if r.ok then s.closes + multiset{r.attempt} else s.closes)
  }

  // ---------------------------------------------------------------- invariants

  function InChannel(results: seq<Result>, i: nat): nat {
    if results == [] then 0 else (if results[0].attempt == i then 1 else 0) + InChannel(results[1..], i)
  }

  function Has(a: set<nat>, i: nat): nat {
    if i in a then 1 else 0
  }

  function Places(s: Sys, i: nat): nat {
    Has(s.running, i) + InChannel(s.results, i) + Has(s.received, i) + Has(s.late, i)
  }

  /** Exactly the attempts numbered below nextIdx were started, and each is in
      exactly one place, once. */
  ghost predicate Placed(s: Sys) {
    forall i: nat :: Places(s, i) == if i < s.loop.nextIdx then 1 else 0
  }

  /** outstanding = started - received, by whoever receives. */
  ghost predicate Counted(s: Sys) {
    && |s.running| + |s.results| == (if s.loop.verdict.Selecting? then s.loop.outstanding else s.expected)
    && |s.running| + |s.results| + |s.received| + |s.late| == s.loop.nextIdx
    && (s.loop.verdict.Selecting? ==> s.loop.outstanding > 0)
    && 1 <= s.loop.nextIdx <= s.loop.n
    && s.expected >= 0
    && (s.loop.verdict.Selecting? || s.loop.verdict.AllFailed? ==> s.late == {} && s.expected == 0)
  }

  ghost predicate Truthful(s: Sys) {
    && (forall k :: 0 <= k < |s.results| ==> (s.results[k].ok <==> s.results[k].attempt in s.succeeded))
    && (forall i :: i in s.succeeded ==> i < s.loop.nextIdx && i !in s.running)
    && (forall i :: i in s.received && i in s.succeeded ==> s.loop.verdict == Won(i))
    && (s.loop.verdict.Won? ==> s.loop.verdict.winner in s.received && s.loop.verdict.winner in s.succeeded)
    && (forall i :: s.closes[i] == if i in s.late && i in s.succeeded then 1 else 0)
  }

  ghost predicate Bounded(s: Sys) {
    && s.selects <= 2 * s.loop.n
    && (s.loop.verdict.Selecting? ==> s.selects + Measure(s.loop) <= 2 * s.loop.n)
    && (s.loop.verdict.Selecting? && s.loop.nextIdx < s.loop.n ==> s.loop.timerArmed)
    && !s.loop.verdict.FellThrough?
    && (s.loop.verdict.AllFailed? ==> s.loop.nextIdx == s.loop.n)
  }

  ghost predicate SysInv(s: Sys) {
    var n := s.loop.n;
    n > 0 && Placed(s) && Counted(s) && Truthful(s) && Bounded(s)
  }

  lemma {:induction false} ChannelGrows(results: seq<Result>, r: Result, i: nat)
    ensures InChannel(results + [r], i) == InChannel(results, i) + (if r.attempt == i then 1 else 0)
  {
    if results == [] {
      assert results + [r] == [r];
    } else {
      ChannelGrows(results[1..], r, i);
      assert (results + [r])[1..] == results[1..] + [r];
    }
  }

  lemma {:induction false} HeldInChannel(results: seq<Result>, k: nat)
    requires k < |results|
    ensures InChannel(results, results[k].attempt) > 0
  {
    if k > 0 {
      HeldInChannel(results[1..], k - 1);
    }
  }

  lemma StepPlaces(s: Sys, step: Step, i: nat)
    requires Placed(s) && Enabled(s, step)
    ensures Places(Do(s, step), i) == if i < Do(s, step).loop.nextIdx then 1 else 0
  {
    assert Places(s, i) == if i < s.loop.nextIdx then 1 else 0;
    if step.Send? {
      ChannelGrows(s.results, Result(step.i, step.ok), i);
    }
  }

  /** The result at the head of the channel was taken by nobody before. */
  lemma HeadIsNew(s: Sys)
    requires SysInv(s) && s.results != []
    ensures var i := s.results[0].attempt; i !in s.received && i !in s.late && i !in s.running && i < s.loop.nextIdx
  {
    assert Places(s, s.results[0].attempt) <= 1;
  }

  lemma NextIsNew(s: Sys)
    requires Placed(s)
    ensures s.loop.nextIdx !in s.running
  {
    assert Places(s, s.loop.nextIdx) == 0;
  }

  lemma StepCounts(s: Sys, step: Step)
    requires SysInv(s) && Enabled(s, step)
    ensures Counted(Do(s, step))
  {
    if step.Receive? || step.Clean? {
      HeadIsNew(s);
    }
    NextIsNew(s);
    Sizes(s, step);
    if step.Send? || step.Clean? {
      QueueCounts(s, step, Do(s, step));
    } else if step.Receive? {
      ResultTurns(s.loop, s.results[0]);
      TurnCounts(s, 1, Do(s, step));
    } else {
      OtherTurns(s.loop);
      TurnCounts(s, 0, Do(s, step));
    }
  }

  /** The loop has received `d` results and started what it counts. */
  predicate Turned(l: Loop, m: Loop, d: nat) {
    && m.n == l.n && l.nextIdx <= m.nextIdx <= m.n
    && m.outstanding == l.outstanding + (m.nextIdx - l.nextIdx) - d
    && (m.verdict.Selecting? ==> m.outstanding > 0)
    && (m.verdict.AllFailed? || m.verdict.FellThrough? ==> m.outstanding == 0)
  }

  lemma ResultTurns(l: Loop, r: Result)
    requires l.verdict.Selecting? && l.outstanding > 0 && l.nextIdx <= l.n
    ensures Turned(l, OnResult(l, r), 1)
  {
  }

  lemma OtherTurns(l: Loop)
    requires l.verdict.Selecting? && l.outstanding > 0 && l.nextIdx <= l.n
    ensures Turned(l, OnTimer(l), 0) && Turned(l, OnCancel(l), 0)
  {
  }

  lemma TurnCounts(s: Sys, d: nat, t: Sys)
    requires Counted(s) && s.loop.verdict.Selecting? && Turned(s.loop, t.loop, d) && d <= |s.results|
    requires |t.running| == |s.running| + (t.loop.nextIdx - s.loop.nextIdx) && |t.results| == |s.results| - d
    requires |t.received| == |s.received| + d && t.late == s.late
    requires t.expected == if t.loop.verdict.Won? || t.loop.verdict.Cancelled? then t.loop.outstanding else s.expected
    ensures Counted(t)
  {
  }

  lemma QueueCounts(s: Sys, step: Step, t: Sys)
    requires Counted(s) && Enabled(s, step) && (step.Send? || step.Clean?) && t == Do(s, step)
    requires |t.running| == |s.running| - (if step.Send? then 1 else 0)
    requires |t.late| == |s.late| + (if step.Clean? then 1 else 0)
    ensures Counted(t)
  {
    match step {
      case Send(_, _) =>
      case Clean =>
    }
  }

  /** How many attempts are where. */
  lemma Sizes(s: Sys, step: Step)
    requires Enabled(s, step) && s.loop.nextIdx !in s.running
    requires step.Receive? ==> s.results[0].attempt !in s.received
    requires step.Clean? ==> s.results[0].attempt !in s.late
    ensures var t := Do(s, step);
            && |t.running| == |s.running| + (t.loop.nextIdx - s.loop.nextIdx) - (if step.Send? then 1 else 0)
            && |t.received| == |s.received| + (if step.Receive? then 1 else 0)
            && |t.late| == |s.late| + (if step.Clean? then 1 else 0)
  {
    if step.Receive? {
      var r := s.results[0];
      SelectedSizes(s.(results := s.results[1..], received := s.received + {r.attempt}), OnResult(s.loop, r));
    } else if step.Timer? {
      SelectedSizes(s, OnTimer(s.loop));
    } else if step.Cancel? {
      SelectedSizes(s, OnCancel(s.loop));
    }
  }

  lemma SelectedSizes(s: Sys, l: Loop)
    requires s.loop.nextIdx !in s.running && s.loop.nextIdx <= l.nextIdx <= s.loop.nextIdx + 1
    ensures |Selected(s, l).running| == |s.running| + (l.nextIdx - s.loop.nextIdx)
    ensures Selected(s, l).received == s.received && Selected(s, l).late == s.late
  {
  }

  lemma StepBounds(s: Sys, step: Step)
    requires Bounded(s) && Counted(s) && Enabled(s, step)
    ensures Bounded(Do(s, step))
  {
    if step.Receive? {
      ResultBounds(s.loop, s.results[0]);
      SelectBounds(s, Do(s, step));
    } else if step.Timer? {
      TimerBounds(s.loop);
      SelectBounds(s, Do(s, step));
    } else if step.Cancel? {
      SelectBounds(s, Do(s, step));
    }
  }

  /** A select that goes on lowers the measure and leaves the timer armed for the next
      address; it ends only for a reason. */
  predicate Progresses(l: Loop, m: Loop) {
    && m.n == l.n && !m.verdict.FellThrough? && (m.verdict.AllFailed? ==> m.nextIdx == m.n)
    && (m.verdict.Selecting? ==> Measure(m) < Measure(l) && (m.nextIdx < m.n ==> m.timerArmed))
  }

  lemma ResultBounds(l: Loop, r: Result)
    requires l.verdict.Selecting? && l.outstanding > 0 && l.nextIdx <= l.n && (l.nextIdx < l.n ==> l.timerArmed)
    ensures Progresses(l, OnResult(l, r))
  {
  }

  lemma TimerBounds(l: Loop)
    requires l.verdict.Selecting? && l.outstanding > 0 && l.nextIdx <= l.n && l.timerArmed
    ensures Progresses(l, OnTimer(l))
  {
  }

  lemma SelectBounds(s: Sys, t: Sys)
    requires Bounded(s) && Counted(s) && s.loop.verdict.Selecting?
    requires t.selects == s.selects + 1 && (Progresses(s.loop, t.loop) || t.loop == OnCancel(s.loop))
    ensures Bounded(t)
  {
    assert Measure(s.loop) >= 1;
  }

  lemma StepIsTruthful(s: Sys, step: Step)
    requires SysInv(s) && Enabled(s, step)
    ensures Truthful(Do(s, step))
  {
    var t := Do(s, step);
    if step.Receive? || step.Clean? {
      HeadIsNew(s);
    } else if step.Send? {
      assert Places(s, step.i) <= 1;
      forall k | 0 <= k < |s.results| ensures s.results[k].attempt != step.i {
        HeldInChannel(s.results, k);
      }
    }
    assert Places(s, s.loop.nextIdx) == 0;
  }

  lemma StepKeeps(s: Sys, step: Step)
    requires SysInv(s) && Enabled(s, step)
    ensures SysInv(Do(s, step))
  {
    forall i: nat ensures Places(Do(s, step), i) == if i < Do(s, step).loop.nextIdx then 1 else 0 {
      StepPlaces(s, step, i);
    }
    StepCounts(s, step);
    StepBounds(s, step);
    StepIsTruthful(s, step);
  }

  ghost predicate Next(s: Sys, t: Sys) {
    exists step :: Enabled(s, step) && t == Do(s, step)
  }

  lemma BootKeeps(n: nat)
    requires n > 0
    ensures SysInv(Boot(n))
  {
    assert Placed(Boot(n));
  }

  ghost predicate Boots(s: Sys) {
    s.loop.n > 0 && s == Boot(s.loop.n)
  }

  ghost predicate IsRun(run: seq<Sys>) {
    Runs.IsRun(Boots, Next, run)
  }

  lemma NextKeeps(s: Sys, t: Sys)
    requires SysInv(s) && Next(s, t)
    ensures SysInv(t)
  {
    var step :| Enabled(s, step) && t == Do(s, step);
    StepKeeps(s, step);
  }

  /** Every state of every run, over any number of addresses, satisfies the invariant. */
  lemma RunsAreSound(run: seq<Sys>)
    requires IsRun(run)
    ensures forall p :: 0 <= p < |run| ==> SysInv(run[p])
  {
    forall s | Boots(s) ensures SysInv(s) {
      BootKeeps(s.loop.n);
    }
    forall s, t | SysInv(s) && Next(s, t) ensures SysInv(t) {
      NextKeeps(s, t);
    }
    Runs.Sound(Boots, Next, SysInv, run);
  }

  // ---------------------------------------------------------------- laws

  /** A result send never blocks, whether or not anybody still receives. */
  lemma SendsNeverBlock(s: Sys, i: nat, ok: bool)
    requires SysInv(s) && i in s.running
    ensures Enabled(s, Send(i, ok))
  {
    assert s.running != {};
  }

  /** Attempts start one at a time, in address order, and none twice; while any is
      left the timer that starts the next one is armed. */
  lemma StartsNext(s: Sys, step: Step, i: nat)
    requires SysInv(s) && Enabled(s, step)
    ensures Places(s, i) == 1 <==> i < s.loop.nextIdx
    ensures Places(Do(s, step), i) != Places(s, i) ==> i == s.loop.nextIdx && i in Do(s, step).running && i < s.loop.n
    ensures s.loop.verdict.Selecting? && s.loop.nextIdx < s.loop.n ==> Enabled(s, Timer) && s.loop.nextIdx in Do(s, Timer).running
  {
    StepPlaces(s, step, i);
    assert Places(s, i) == if i < s.loop.nextIdx then 1 else 0;
  }

  /** The race selects at most 2n times, has something outstanding whenever it
      selects, and reports that every address failed only if all were tried and
      none succeeded. */
  lemma RaceIsBounded(s: Sys)
    requires SysInv(s)
    ensures s.selects <= 2 * s.loop.n && !s.loop.verdict.FellThrough?
    ensures s.loop.verdict.AllFailed? ==> s.loop.nextIdx == s.loop.n
    ensures s.loop.verdict.Selecting? ==> (exists i, ok :: Enabled(s, Send(i, ok))) || Enabled(s, Receive)
  {
    if s.loop.verdict.Selecting? && s.results == [] {
      assert s.running != {};
      var i :| i in s.running;
      SendsNeverBlock(s, i, true);
    }
  }

  /** What decides the race, once and for all: a success that is received, the context,
      or the failure that leaves nothing outstanding and no address to try. */
  lemma VerdictIff(s: Sys, step: Step)
    requires SysInv(s) && Enabled(s, step)
    ensures var v, w := s.loop.verdict, Do(s, step).loop.verdict;
            && (!v.Selecting? ==> w == v)
            && (v.Selecting? && w.Won? <==> v.Selecting? && step.Receive? && s.results[0].ok)
            && (v.Selecting? && w.Won? ==> w.winner == s.results[0].attempt)
            && (v.Selecting? && w.Cancelled? <==> step.Cancel?)
            && (v.Selecting? && w.AllFailed? <==>
                  v.Selecting? && step.Receive? && !s.results[0].ok && s.loop.outstanding == 1 && s.loop.nextIdx == s.loop.n)
    ensures s.loop.verdict.Selecting? ==> Enabled(s, Cancel) && (s.results != [] ==> Enabled(s, Receive))
    ensures s.loop.verdict.Selecting? && s.loop.timerArmed ==>
              && Enabled(s, Timer)
              && (s.loop.nextIdx == s.loop.n ==>
                    Do(s, Timer) == s.(loop := s.loop.(timerArmed := false), selects := s.selects + 1))
  {
    match step {
      case Send(_, _) =>
      case Receive =>
      case Timer =>
      case Cancel =>
      case Clean =>
    }
  }

  /** The last error is returned only when every address was tried and failed. */
  lemma AllFailedMeansAll(s: Sys, i: nat)
    requires SysInv(s) && s.loop.verdict.AllFailed?
    ensures i < s.loop.n ==> i in s.received && i !in s.succeeded
  {
    assert s.running == {} && s.results == [];
    assert Places(s, i) == if i < s.loop.nextIdx then 1 else 0;
  }

  /** No connection leaks: once the closing goroutine has nothing to wait for,
      every success is the connection returned or was closed exactly once. */
  lemma SuccessIsReturnedOrClosed(s: Sys, i: nat)
    requires SysInv(s) && i in s.succeeded && !s.loop.verdict.Selecting? && s.expected == 0
    ensures s.loop.verdict == Won(i) <==> s.closes[i] == 0
    ensures s.closes[i] <= 1
  {
    assert s.running == {} && s.results == [];
    assert Places(s, i) == 1;
  }

  /** Until then, the closing goroutine can move or an attempt will feed it. */
  lemma CloserIsFed(s: Sys)
    requires SysInv(s) && s.expected > 0
    ensures Enabled(s, Clean) || exists i, ok :: Enabled(s, Send(i, ok))
  {
    if s.results == [] {
      assert s.running != {};
      var i :| i in s.running;
      SendsNeverBlock(s, i, true);
    }
  }
}
