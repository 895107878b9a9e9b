/** The write loop of a stream connection (tcpConn.Write in conn.go). */
module StreamWrite {
  /** How one round ends: the state check refuses, the wait is cancelled, the
      session fails, or it accepts the first `n` of the bytes offered. */
  datatype Round = Refused | Cancelled | Failed | Accepted(n: nat)

  datatype Outcome = Complete | Stopped | ZeroWrite | Unfinished

  /** What the session accepted, when offered `b`, over some rounds. */
  function Taken(b: seq<int>, rounds: seq<Round>): (sent: seq<int>) {
    if rounds == [] then []
    else
      var before := Taken(b, rounds[..|rounds| - 1]);
      var r := rounds[|rounds| - 1];
      if r.Accepted? && |before| + r.n <= |b| then before + b[|before|..|before| + r.n] else before
  }

  /** The session never accepts more than it is offered. */
  predicate Honest(b: seq<int>, rounds: seq<Round>) {
    forall k :: 0 <= k < |rounds| && rounds[k].Accepted? ==> |Taken(b, rounds[..k])| + rounds[k].n <= |b|
  }

  lemma {:induction false} TakenIsPrefix(b: seq<int>, rounds: seq<Round>)
    ensures |Taken(b, rounds)| <= |b| && Taken(b, rounds) == b[..|Taken(b, rounds)|]
  {
    if rounds != [] {
      TakenIsPrefix(b, rounds[..|rounds| - 1]);
    }
  }

  /** A round adds what it accepts to what was sent. */
  lemma OneRound(b: seq<int>, rounds: seq<Round>, used: nat)
    requires Honest(b, rounds) && used < |rounds|
    ensures var before, after := Taken(b, rounds[..used]), Taken(b, rounds[..used + 1]);
            && |after| <= |b| && after == b[..|after|]
            && |after| == |before| + (if rounds[used].Accepted? then rounds[used].n else 0)
  {
    assert rounds[..used + 1][..used] == rounds[..used];
    TakenIsPrefix(b, rounds[..used]);
    TakenIsPrefix(b, rounds[..used + 1]);
  }

  /** `refused` is the answer of the state check before the loop, which even an empty
      buffer meets; `rounds` scripts the foreign outcomes, and Unfinished means it ran
      out.  The count returned is what the session accepted, in order, each byte once;
      unless the call was refused a full count and Complete are the same thing, and a
      round that accepts nothing ends the call. */
  method Write(b: seq<int>, refused: bool, rounds: seq<Round>) returns (written: nat, outcome: Outcome, used: nat)
    requires Honest(b, rounds)
    ensures refused ==> written == used == 0 && outcome.Stopped?
    ensures used <= |rounds| && written == |Taken(b, rounds[..used])| <= |b|
    ensures Taken(b, rounds[..used]) == b[..written]
    ensures outcome.Complete? <==> !refused && written == |b|
    ensures outcome.Stopped? ==> refused || (used > 0 && (rounds[used - 1].Refused? || rounds[used - 1].Failed?))
    ensures outcome.ZeroWrite? ==> used > 0 && rounds[used - 1] == Accepted(0)
    ensures outcome.Unfinished? ==> used == |rounds|
    ensures forall k :: 0 <= k < used - 1 ==> rounds[k].Cancelled? || (rounds[k].Accepted? && rounds[k].n > 0)
  {
    written, used := 0, 0;
    if refused {
      return 0, Stopped, 0;
    }
    while written < |b|
      invariant used <= |rounds| && written == |Taken(b, rounds[..used])| <= |b|
      invariant forall k :: 0 <= k < used ==> rounds[k].Cancelled? || (rounds[k].Accepted? && rounds[k].n > 0)
      decreases |rounds| - used
    {
      if used == |rounds| {
        TakenIsPrefix(b, rounds[..used]);
        return written, Unfinished, used;
      }
      var r := rounds[used];
      OneRound(b, rounds, used);
      used := used + 1;
      if r.Cancelled? {
        continue;
      }
      if !r.Accepted? {
        return written, Stopped, used;
      }
      if r.n == 0 {
        return written, ZeroWrite, used;
      }
      written := written + r.n;
    }
    TakenIsPrefix(b, rounds[..used]);
    outcome := Complete;
  }
}
