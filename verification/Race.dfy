/** The order in which addresses are tried (interleaveAddrs in dialer.go). */
module Interleaving {
  datatype Addr = Addr(isV4: bool, id: int)

  function Family(addrs: seq<Addr>, v4: bool): (r: seq<Addr>)
    ensures forall k :: 0 <= k < |r| ==> r[k].isV4 == v4
  {
    if addrs == [] then []
    else if addrs[0].isV4 == v4 then [addrs[0]] + Family(addrs[1..], v4)
    else Family(addrs[1..], v4)
  }

  function Min(a: nat, b: nat): nat {
    if a < b then a else b
  }

  /** Strict alternation, IPv6 first, for twice the shorter family, then the rest
      of the longer one. */
  function Alternating(v6: seq<Addr>, v4: seq<Addr>): seq<Addr> {
    var m := Min(|v6|, |v4|);
    seq(2 * m, k requires 0 <= k < 2 * m => if k % 2 == 0 then v6[k / 2] else v4[k / 2]) + v6[m..] + v4[m..]
  }

  lemma {:induction false} FamilyAppend(addrs: seq<Addr>, a: Addr, v4: bool)
    ensures Family(addrs + [a], v4) == Family(addrs, v4) + (if a.isV4 == v4 then [a] else [])
  {
    if addrs == [] {
      assert addrs + [a] == [a];
    } else {
      FamilyAppend(addrs[1..], a, v4);
      assert (addrs + [a])[1..] == addrs[1..] + [a];
    }
  }

  /** What has been emitted once `i` IPv6 and `j` IPv4 addresses are out. */
  function Emitted(v6: seq<Addr>, v4: seq<Addr>, i: nat, j: nat): seq<Addr>
    requires i <= |v6| && j <= |v4|
  {
    Alternating(v6[..i], v4[..j])
  }

  /** The first loop of interleaveAddrs. */
  method SplitFamilies(addrs: seq<Addr>) returns (v6: seq<Addr>, v4: seq<Addr>)
    ensures v6 == Family(addrs, false) && v4 == Family(addrs, true)
  {
    v6, v4 := [], [];
    for k := 0 to |addrs|
      invariant v4 == Family(addrs[..k], true) && v6 == Family(addrs[..k], false)
    {
      assert addrs[..k + 1] == addrs[..k] + [addrs[k]];
      FamilyAppend(addrs[..k], addrs[k], true);
      FamilyAppend(addrs[..k], addrs[k], false);
      if addrs[k].isV4 {
        v4 := v4 + [addrs[k]];
      } else {
        v6 := v6 + [addrs[k]];
      }
    }
    assert addrs[..|addrs|] == addrs;
  }

  /** As long as both families last they are equal, or IPv6 is one ahead. */
  predicate TakesTurns(n: nat, m: nat, i: nat, j: nat, preferV6: bool) {
    && i <= n && j <= m
    && (i == j || (i == j + 1 && !preferV6) || (j < i && j == m) || (i < j && i == n))
    && (i == j && j < m && i < n ==> preferV6)
    && (i > j + 1 ==> j == m)
  }

  /** The loop has emitted `i` and `j` addresses of the families. */
  ghost predicate Underway(v6: seq<Addr>, v4: seq<Addr>, i: nat, j: nat, preferV6: bool, result: seq<Addr>) {
    var n, m := |v6|, |v4|;
    TakesTurns(n, m, i, j, preferV6) && result == Emitted(v6, v4, i, j)
  }

  lemma TurnOfV6(v6: seq<Addr>, v4: seq<Addr>, i: nat, j: nat, preferV6: bool, result: seq<Addr>)
    requires Underway(v6, v4, i, j, preferV6, result) && i < |v6| && (preferV6 || j == |v4|)
    ensures Underway(v6, v4, i + 1, j, !preferV6, result + [v6[i]])
  {
    EmitV6(v6, v4, i, j);
  }

  lemma TurnOfV4(v6: seq<Addr>, v4: seq<Addr>, i: nat, j: nat, preferV6: bool, result: seq<Addr>)
    requires Underway(v6, v4, i, j, preferV6, result) && j < |v4| && (!preferV6 || i == |v6|)
    ensures Underway(v6, v4, i, j + 1, !preferV6, result + [v4[j]])
  {
    EmitV4(v6, v4, i, j);
  }

  lemma AllEmitted(v6: seq<Addr>, v4: seq<Addr>)
    ensures Emitted(v6, v4, 0, 0) == [] && Emitted(v6, v4, |v6|, |v4|) == Alternating(v6, v4)
  {
    assert v6[..|v6|] == v6 && v4[..|v4|] == v4;
  }

  method InterleaveAddrs(addrs: seq<Addr>) returns (result: seq<Addr>)
    ensures result == Alternating(Family(addrs, false), Family(addrs, true))
  {
    var v6, v4 := SplitFamilies(addrs);
    AllEmitted(v6, v4);
    result := [];
    var i, j := 0, 0;
    var preferV6 := true;
    while i < |v6| || j < |v4|
      invariant i <= |v6| && j <= |v4| && Underway(v6, v4, i, j, preferV6, result)
      decreases |v6| - i + |v4| - j
    {
      if preferV6 && i < |v6| {
        TurnOfV6(v6, v4, i, j, preferV6, result);
        result := result + [v6[i]];
        i := i + 1;
      } else if j < |v4| {
        TurnOfV4(v6, v4, i, j, preferV6, result);
        result := result + [v4[j]];
        j := j + 1;
      } else if i < |v6| {
        TurnOfV6(v6, v4, i, j, preferV6, result);
        result := result + [v6[i]];
        i := i + 1;
      }
      preferV6 := !preferV6;
    }
  }

  lemma EmitV6(v6: seq<Addr>, v4: seq<Addr>, i: nat, j: nat)
    requires i < |v6| && j <= |v4| && j <= i
    ensures Emitted(v6, v4, i + 1, j) == Emitted(v6, v4, i, j) + [v6[i]]
  {
    assert v6[..i + 1][j..] == v6[..i][j..] + [v6[i]];
    assert v4[..j][j..] == [];
  }

  lemma EmitV4(v6: seq<Addr>, v4: seq<Addr>, i: nat, j: nat)
    requires i <= |v6| && j < |v4| && (i == j + 1 || i <= j)
    ensures Emitted(v6, v4, i, j + 1) == Emitted(v6, v4, i, j) + [v4[j]]
  {
    if i == j + 1 {
      var was := Emitted(v6, v4, i, j);
      assert v6[..i][j..] == [v6[j]] && v4[..j][j..] == [];
      assert v6[..i][i..] == [] && v4[..j + 1][i..] == [];
    } else {
      assert v4[..j + 1][i..] == v4[..j][i..] + [v4[j]];
      assert v6[..i][i..] == [];
    }
  }

  lemma LastIsV6(v6: seq<Addr>, v4: seq<Addr>)
    requires |v6| > |v4|
    ensures Alternating(v6, v4) == Alternating(v6[..|v6| - 1], v4) + [v6[|v6| - 1]]
  {
    EmitV6(v6, v4, |v6| - 1, |v4|);
    assert v6[..|v6|] == v6 && v4[..|v4|] == v4;
  }

  lemma LastIsV4(v6: seq<Addr>, v4: seq<Addr>)
    requires 0 < |v4| && |v6| <= |v4|
    ensures Alternating(v6, v4) == Alternating(v6, v4[..|v4| - 1]) + [v4[|v4| - 1]]
  {
    EmitV4(v6, v4, |v6|, |v4| - 1);
    assert v6[..|v6|] == v6 && v4[..|v4|] == v4;
  }

  predicate Pure(addrs: seq<Addr>, v4: bool) {
    forall k :: 0 <= k < |addrs| ==> addrs[k].isV4 == v4
  }

  /** `all` keeps both families in their order and loses nothing. */
  ghost predicate Keeps(all: seq<Addr>, v6: seq<Addr>, v4: seq<Addr>) {
    Family(all, false) == v6 && Family(all, true) == v4 && multiset(all) == multiset(v6) + multiset(v4)
  }

  lemma KeepsMore(all: seq<Addr>, v6: seq<Addr>, v4: seq<Addr>, a: Addr)
    requires Keeps(all, v6, v4)
    ensures a.isV4 ==> Keeps(all + [a], v6, v4 + [a])
    ensures !a.isV4 ==> Keeps(all + [a], v6 + [a], v4)
  {
    FamilyAppend(all, a, false);
    FamilyAppend(all, a, true);
  }

  lemma {:induction false} AlternatingKeeps(v6: seq<Addr>, v4: seq<Addr>, all: seq<Addr>)
    requires Pure(v6, false) && Pure(v4, true) && all == Alternating(v6, v4)
    ensures Keeps(all, v6, v4)
    decreases |v6| + |v4|
  {
    if |v6| > |v4| {
      LastIsV6(v6, v4);
      var front, last := v6[..|v6| - 1], v6[|v6| - 1];
      var most := Alternating(front, v4);
      AlternatingKeeps(front, v4, most);
      assert v6 == front + [last];
      KeepsMore(most, front, v4, last);
    } else if |v4| > 0 {
      LastIsV4(v6, v4);
      var front, last := v4[..|v4| - 1], v4[|v4| - 1];
      var most := Alternating(v6, front);
      AlternatingKeeps(v6, front, most);
      assert v4 == front + [last];
      KeepsMore(most, v6, front, last);
    } else {
      assert all == [];
    }
  }

  /** An IPv6 address comes first if there is one; while both families last they take
      turns, and the rest is of the longer one. */
  lemma OrderOfTrial(addrs: seq<Addr>, k: nat)
    requires k < |Alternating(Family(addrs, false), Family(addrs, true))|
    ensures var r := Alternating(Family(addrs, false), Family(addrs, true));
            var n6, n4 := |Family(addrs, false)|, |Family(addrs, true)|;
            && (k == 0 && n6 > 0 ==> !r[k].isV4)
            && (k < 2 * n6 && k < 2 * n4 ==> (r[k].isV4 <==> k % 2 == 1))
            && (k >= 2 * n6 || k >= 2 * n4 ==> (r[k].isV4 <==> n4 > n6))
  {
  }

  lemma {:induction false} FamiliesAreAll(addrs: seq<Addr>)
    ensures multiset(addrs) == multiset(Family(addrs, false)) + multiset(Family(addrs, true))
  {
    if addrs != [] {
      FamiliesAreAll(addrs[1..]);
      assert addrs == [addrs[0]] + addrs[1..];
    }
  }

  /** Interleaving is a permutation that keeps the order within each family. */
  lemma InterleavingKeepsAll(addrs: seq<Addr>)
    ensures var r := Alternating(Family(addrs, false), Family(addrs, true));
            && multiset(r) == multiset(addrs)
            && Family(r, false) == Family(addrs, false) && Family(r, true) == Family(addrs, true)
  {
    AlternatingKeeps(Family(addrs, false), Family(addrs, true), Alternating(Family(addrs, false), Family(addrs, true)));
    FamiliesAreAll(addrs);
  }
}

/** The connection race of dialHappyEyeballs: the selecting goroutine, one
    goroutine per started attempt, the channel between them, and the goroutine
    that closes what arrives too late.  Attempts are numbered in the order of the
    interleaved addresses. */
module Race {
  datatype Verdict = Selecting | Won(winner: nat) | AllFailed | Cancelled | FellThrough

  datatype Result = Result(attempt: nat, ok: bool)

  /** The variables of the select loop over `n` addresses. */
  datatype Loop = Loop(n: nat, nextIdx: nat, outstanding: int, timerArmed: bool, verdict: Verdict)

  function Begin(n: nat): Loop {
    Loop(n, 1, 1, true, Selecting)
  }

  /** The loop condition, evaluated after every select that does not return. */
  function Guard(l: Loop): Loop {
    if l.verdict.Selecting? && l.outstanding <= 0 then l.(verdict := FellThrough) else l
  }

  function OnResult(l: Loop, r: Result): Loop {
    var left := l.(outstanding := l.outstanding - 1);
    if r.ok then left.(verdict := Won(r.attempt))
    else if left.outstanding == 0 && l.nextIdx >= l.n then left.(verdict := AllFailed)
    else if l.nextIdx < l.n then Guard(left.(nextIdx := l.nextIdx + 1, outstanding := left.outstanding + 1))
    else Guard(left)
  }

  function OnTimer(l: Loop): Loop {
    if l.nextIdx < l.n then Guard(l.(nextIdx := l.nextIdx + 1, outstanding := l.outstanding + 1))
    else Guard(l.(timerArmed := false))
  }

  function OnCancel(l: Loop): Loop {
    l.(verdict := Cancelled)
  }

  function Measure(l: Loop): int {
    2 * (l.n - l.nextIdx) + l.outstanding + (if l.timerArmed then 1 else 0)
  }

  /** Every select that does not end the race makes the measure smaller. */
  lemma SelectDecreases(l: Loop, r: Result)
    requires l.nextIdx <= l.n
    ensures OnResult(l, r).verdict.Selecting? ==> Measure(OnResult(l, r)) < Measure(l)
    ensures l.timerArmed && OnTimer(l).verdict.Selecting? ==> Measure(OnTimer(l)) < Measure(l)
  {
  }

  // ---------------------------------------------------------------- the select loop

  datatype Event = Arrived(result: Result) | TimerFired | ContextDone

  function Select(l: Loop, e: Event): Loop {
    match e
    case Arrived(r) => OnResult(l, r)
    case TimerFired => OnTimer(l)
    case ContextDone => OnCancel(l)
  }

  function After(n: nat, events: seq<Event>): Loop {
    if events == [] then Begin(n) else Select(After(n, events[..|events| - 1]), events[|events| - 1])
  }

  /** A timer channel delivers only while the timer is armed. */
  predicate Plausible(n: nat, events: seq<Event>) {
    forall k :: 0 <= k < |events| && events[k].TimerFired? ==> After(n, events[..k]).timerArmed
  }

  /** `used` events have been picked and the race goes on. */
  ghost predicate Going(n: nat, events: seq<Event>, used: nat, l: Loop) {
    var bound := 2 * n;
    && used <= |events| && l.n == n && 1 <= l.nextIdx <= n && l.outstanding >= 1 && l.verdict.Selecting?
    && After(n, events[..used]) == l
    && used + Measure(l) <= bound
    && Failures(events, used)
  }

  predicate Failures(events: seq<Event>, used: nat)
    requires used <= |events|
  {
    forall k :: 0 <= k < used && events[k].Arrived? ==> !events[k].result.ok
  }

  /** How a race ends over `events`: by the specified selects, at most 2n of them and
      never behind the loop; undecided only when the events ran out; all failed only
      when every address was tried, nothing is outstanding and nothing succeeded; won
      by the success just received. */
  ghost predicate Ends(n: nat, events: seq<Event>, verdict: Verdict, used: nat, outstanding: int) {
    var bound := 2 * n;
    && used <= |events| && used <= bound
    && After(n, events[..used]).verdict == verdict && After(n, events[..used]).outstanding == outstanding
    && !verdict.FellThrough?
    && (verdict.Selecting? ==> used == |events|)
    && (verdict.AllFailed? ==> outstanding == 0 && After(n, events[..used]).nextIdx == n && Failures(events, used))
    && (verdict.Won? ==> used > 0 && events[used - 1] == Arrived(Result(verdict.winner, true)))
  }

  lemma PickedIs(n: nat, events: seq<Event>, used: nat)
    requires used < |events|
    ensures After(n, events[..used + 1]) == Select(After(n, events[..used]), events[used])
  {
    assert events[..used + 1][..used] == events[..used];
  }

  lemma RaceBegins(n: nat, events: seq<Event>)
    requires n > 0
    ensures Going(n, events, 0, Begin(n))
  {
  }

  lemma RanOutEnds(n: nat, events: seq<Event>, l: Loop)
    requires Going(n, events, |events|, l)
    ensures Ends(n, events, Selecting, |events|, l.outstanding)
  {
  }

  lemma WonEnds(n: nat, events: seq<Event>, used: nat, l: Loop)
    requires Going(n, events, used, l) && used < |events| && events[used].Arrived? && events[used].result.ok
    ensures Ends(n, events, Won(events[used].result.attempt), used + 1, l.outstanding - 1)
  {
    PickedIs(n, events, used);
  }

  lemma AllFailedEnds(n: nat, events: seq<Event>, used: nat, l: Loop)
    requires Going(n, events, used, l) && used < |events| && events[used].Arrived? && !events[used].result.ok
    requires l.outstanding == 1 && l.nextIdx >= n
    ensures Ends(n, events, AllFailed, used + 1, 0)
  {
    PickedIs(n, events, used);
  }

  lemma CancelledEnds(n: nat, events: seq<Event>, used: nat, l: Loop)
    requires Going(n, events, used, l) && used < |events| && events[used].ContextDone?
    ensures Ends(n, events, Cancelled, used + 1, l.outstanding)
  {
    PickedIs(n, events, used);
  }

  lemma FailureGoesOn(n: nat, events: seq<Event>, used: nat, l: Loop)
    requires Going(n, events, used, l) && used < |events| && events[used].Arrived? && !events[used].result.ok
    requires l.outstanding > 1 || l.nextIdx < n
    ensures Going(n, events, used + 1,
                  if l.nextIdx < n then l.(nextIdx := l.nextIdx + 1) else l.(outstanding := l.outstanding - 1))
  {
    PickedIs(n, events, used);
  }

  lemma TickGoesOn(n: nat, events: seq<Event>, used: nat, l: Loop)
    requires Going(n, events, used, l) && Plausible(n, events) && used < |events| && events[used].TimerFired?
    ensures l.timerArmed
    ensures Going(n, events, used + 1,
                  if l.nextIdx < n then l.(nextIdx := l.nextIdx + 1, outstanding := l.outstanding + 1) else l.(timerArmed := false))
  {
    PickedIs(n, events, used);
  }

  /** The select loop, with the events its selects pick. */
  method DialHappyEyeballs(n: nat, events: seq<Event>) returns (verdict: Verdict, used: nat, outstanding: int)
    requires n > 0 && Plausible(n, events)
    ensures Ends(n, events, verdict, used, outstanding)
  {
    var nextIdx, armed := 1, true;
    outstanding, used := 1, 0;
    RaceBegins(n, events);
    while outstanding > 0
      invariant used <= |events| && nextIdx <= n && outstanding >= 1
      invariant Going(n, events, used, Loop(n, nextIdx, outstanding, armed, Selecting))
      decreases 2 * (n - nextIdx) + outstanding + (if armed then 1 else 0)
    {
      ghost var l := Loop(n, nextIdx, outstanding, armed, Selecting);
      if used == |events| {
        RanOutEnds(n, events, l);
        return Selecting, used, outstanding;
      }
      match events[used] {
        case Arrived(r) =>
          outstanding := outstanding - 1;
          if r.ok {
            WonEnds(n, events, used, l);
            return Won(r.attempt), used + 1, outstanding;
          }
          if outstanding == 0 && nextIdx >= n {
            AllFailedEnds(n, events, used, l);
            return AllFailed, used + 1, outstanding;
          }
          FailureGoesOn(n, events, used, l);
          if nextIdx < n {
            nextIdx := nextIdx + 1;
            outstanding := outstanding + 1;
          }
        case TimerFired =>
          TickGoesOn(n, events, used, l);
          if nextIdx < n {
            nextIdx := nextIdx + 1;
            outstanding := outstanding + 1;
          } else {
            armed := false;
          }
        case ContextDone =>
          CancelledEnds(n, events, used, l);
          return Cancelled, used + 1, outstanding;
      }
      used := used + 1;
    }
    assert false;
    verdict := FellThrough;
  }
}
