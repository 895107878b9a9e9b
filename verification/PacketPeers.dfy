/** The key a UDP peer is filed under (addrToKey in packetconn.go). */
module PeerKeys {
  type Bytes = seq<int>

  function Zeros(n: nat): Bytes {
    seq(n, _ => 0)
  }

  /** An address of 4 bytes, or of 16 that may map an IPv4 one; anything else is
      no address. */
  predicate Mapped(ip: Bytes) {
    |ip| == 16 && ip[..12] == Zeros(10) + [0xff, 0xff]
  }

  /** The four IPv4 bytes, or nothing. */
  function To4(ip: Bytes): (r: Bytes)
    ensures |r| == 0 || |r| == 4
  {
    if |ip| == 4 then ip else if Mapped(ip) then ip[12..] else []
  }

  function Canonical(ip: Bytes): Bytes {
    if To4(ip) != [] then To4(ip) else if |ip| == 16 then ip else []
  }

  datatype PeerKey = PeerKey(ip: Bytes, port: int)

  /** A zeroed 16-byte array with the address copied to its front. */
  function AddrToKey(ip: Bytes, port: int): (k: PeerKey)
    ensures |k.ip| == 16
  {
    var c := Canonical(ip);
    PeerKey(c + Zeros(16 - |c|), port % 0x1_0000)
  }

  /** The longer address is the shorter one with zeros behind it: an IPv6 address that
      looks like an IPv4 one, or an address of zeros beside none at all. */
  predicate Lookalike(short: Bytes, long: Bytes) {
    |short| < |long| && long == short + Zeros(|long| - |short|)
  }

  /** Two peers share a key exactly if their ports agree in 16 bits and their
      addresses are the same, or one is the other's look-alike. */
  lemma SameKeyIff(a: Bytes, p: int, b: Bytes, q: int)
    ensures AddrToKey(a, p) == AddrToKey(b, q) <==>
              p % 0x1_0000 == q % 0x1_0000
              && (Canonical(a) == Canonical(b)
                  || Lookalike(Canonical(a), Canonical(b)) || Lookalike(Canonical(b), Canonical(a)))
  {
    if |Canonical(a)| <= |Canonical(b)| {
      Padded(Canonical(a), Canonical(b));
    } else {
      Padded(Canonical(b), Canonical(a));
    }
  }

  lemma Padded(c: Bytes, d: Bytes)
    requires |c| <= |d| <= 16
    ensures c + Zeros(16 - |c|) == d + Zeros(16 - |d|) <==> c == d || Lookalike(c, d)
  {
    var n := |d| - |c|;
    assert c + Zeros(16 - |c|) == c + Zeros(n) + Zeros(16 - |d|);
    var x, y := c + Zeros(n) + Zeros(16 - |d|), d + Zeros(16 - |d|);
    assert x[..|d|] == c + Zeros(n) && y[..|d|] == d;
  }

  /** Within one family the key determines the peer. */
  lemma KeyInjectivePerFamily(a: Bytes, p: int, b: Bytes, q: int)
    requires |Canonical(a)| == |Canonical(b)|
    requires 0 <= p < 0x1_0000 && 0 <= q < 0x1_0000
    ensures AddrToKey(a, p) == AddrToKey(b, q) <==> Canonical(a) == Canonical(b) && p == q
  {
    SameKeyIff(a, p, b, q);
  }

  /** What is no address shares its key with 0.0.0.0 and ::, and with nothing else. */
  lemma NoAddressIsZero(a: Bytes, b: Bytes, port: int)
    requires Canonical(a) == []
    ensures AddrToKey(a, port) == AddrToKey(b, port) <==> Canonical(b) == Zeros(|Canonical(b)|)
  {
    SameKeyIff(a, port, b, port);
  }

  /** Across families it does not: 1.2.3.4 and 102:304:: share a key. */
  lemma FamiliesCollide(port: int)
    ensures AddrToKey([1, 2, 3, 4], port) == AddrToKey([1, 2, 3, 4] + Zeros(12), port)
    ensures Canonical([1, 2, 3, 4]) != Canonical([1, 2, 3, 4] + Zeros(12))
  {
    var v6 := [1, 2, 3, 4] + Zeros(12);
    assert v6[..12][0] == 1 && (Zeros(10) + [0xff, 0xff])[0] == 0;
    SameKeyIff([1, 2, 3, 4], port, v6, port);
  }
}

/** Peer sessions of a packet connection (packetconn.go): the accept loop, one read
    loop per peer session, readers of the datagram channel, and Close. */
module PacketPeers {
  import Runs
  import opened Collections

  const SLOTS: nat := 64

  /** A read loop: between reads, in a read, offering a datagram, sending an error,
      about to take its session out of the map, about to close it, returned after
      closing it, returned because of stop. */
  datatype Pc = Top | Reading | Offering | Erring | Removing | Closing | Closed | Stopped

  datatype Session = Session(key: int, pc: Pc)

  datatype Accept = Accepting | AcceptErring | AcceptDone

  datatype Closer = Absent | Waiting | Finished

  /** Sessions are named by their identity, never by the foreign handle.
      `replaced` holds those whose map entry was overwritten by a later accept;
      `queued` counts the entries of the datagram channel. */
  datatype Sys = Sys(
    sessions: map<nat, Session>,
    peers: map<int, nat>,
    accept: Accept,
    queued: nat,
    stop: bool,
    closer: Closer,
    closes: multiset<nat>,
    replaced: set<nat>)

  datatype Step =
    | Accept(id: nat, key: int) | AcceptFails(report: bool) | AcceptReport | AcceptStops
    | Read(id: nat) | Datagram(id: nat) | Fail(id: nat, report: bool) | Offer(id: nat) | Report(id: nat)
    | SeeStop(id: nat) | Remove(id: nat) | CloseSession(id: nat)
    | TakeDatagram
    | BeginClose | FinishClose

  const BOOT := Sys(map[], map[], Accepting, 0, false, Absent, multiset{}, {})

  predicate At(s: Sys, id: nat, pc: Pc) {
    id in s.sessions && s.sessions[id].pc == pc
  }

  predicate Returned(x: Session) {
    x.pc.Closed? || x.pc.Stopped?
  }

  predicate AllReturned(s: Sys) {
    s.accept.AcceptDone? && forall id :: id in s.sessions ==> Returned(s.sessions[id])
  }

  predicate Enabled(s: Sys, step: Step) {
    match step
    case Accept(id, _) => s.accept.Accepting? && id !in s.sessions
    case AcceptFails(report) => s.accept.Accepting? && (report ==> !s.stop)
    case AcceptReport => s.accept.AcceptErring? && s.queued < SLOTS
    case AcceptStops => s.accept.Accepting? && s.stop
    case Read(id) => At(s, id, Top)
    case Datagram(id) => At(s, id, Reading)
    case Fail(id, report) => At(s, id, Reading) && (report ==> !s.stop)
    case Offer(id) => At(s, id, Offering) && s.queued < SLOTS
    case Report(id) => At(s, id, Erring) && s.queued < SLOTS
    case SeeStop(id) => s.stop && (At(s, id, Top) || At(s, id, Offering))
    case Remove(id) => At(s, id, Removing)
    case CloseSession(id) => At(s, id, Closing)
    case TakeDatagram => s.queued > 0
    case BeginClose => s.closer.Absent?
    case FinishClose => s.closer.Waiting? && AllReturned(s)
  }

  function Go(s: Sys, id: nat, pc: Pc): Sys
    requires id in s.sessions
  {
    s.(sessions := s.sessions[id := s.sessions[id].(pc := pc)])
  }

  /** acceptLoop files the new session, over whatever was there. */
  function AddPeer(peers: map<int, nat>, key: int, id: nat): map<int, nat> {
    peers[key := id]
  }

  /** removePeer deletes the entry only if it is still this session's. */
  function RemovePeer(peers: map<int, nat>, key: int, id: nat): map<int, nat> {
    if key in peers && peers[key] == id then peers - {key} else peers
  }

  function Do(s: Sys, step: Step): Sys
    requires Enabled(s, step)
  {
    match step
    case Accept(id, key) =>
      s.(sessions := s.sessions[id := Session(key, Top)], peers := AddPeer(s.peers, key, id),
         replaced := if key in s.peers then s.replaced + {s.peers[key]} else s.replaced)
    case AcceptFails(report) => s.(accept := if report then AcceptErring else AcceptDone)
    case AcceptReport => s.(accept := AcceptDone, queued := s.queued + 1)
    case AcceptStops => s.(accept := AcceptDone)
    case Read(id) => Go(s, id, Reading)
    case Datagram(id) => Go(s, id, Offering)
    case Fail(id, report) => Go(s, id, if report then Erring else Removing)
    case Offer(id) => Go(s, id, Top).(queued := s.queued + 1)
    case Report(id) => Go(s, id, Removing).(queued := s.queued + 1)
    case SeeStop(id) => Go(s, id, Stopped)
    case Remove(id) => Go(s, id, Closing).(peers := RemovePeer(s.peers, s.sessions[id].key, id))
    case CloseSession(id) => Go(s, id, Closed).(closes := s.closes + multiset{id})
    case TakeDatagram => s.(queued := s.queued - 1)
    case BeginClose => s.(stop := true, closer := Waiting)
    case FinishClose => s.(closer := Finished, peers := map[], closes := s.closes + multiset(Listed(s.peers)))
  }

  /** The sessions in the map. */
  function Listed(peers: map<int, nat>): set<nat> {
    set k | k in peers :: peers[k]
  }

  // ---------------------------------------------------------------- the map in place

  class PeerTable {
    var peers: map<int, nat>
    var closes: multiset<nat>

    constructor ()
      ensures peers == map[] && closes == multiset{}
    {
      peers, closes := map[], multiset{};
    }

    method Add(key: int, id: nat)
      modifies `peers
      ensures peers == AddPeer(old(peers), key, id)
    {
      peers := peers[key := id];
    }

    method Remove(key: int, id: nat)
      modifies this
      ensures peers == RemovePeer(old(peers), key, id)
      ensures closes == old(closes) + multiset{id}
    {
      if key in peers && peers[key] == id {
        peers := peers - {key};
      }
      closes := closes + multiset{id};
    }

    /** Close's loop over the remaining peers. */
    method CloseAll()
      requires OneKeyEach(peers)
      modifies this
      ensures peers == map[]
      ensures closes == old(closes) + multiset(Listed(old(peers)))
    {
      var rest := peers;
      ghost var left := closes + multiset(Listed(rest));
      while rest != map[]
        invariant OneKeyEach(rest) && closes + multiset(Listed(rest)) == left
        decreases rest.Keys
      {
        var key := SomeElement(rest.Keys);
        ListedDrop(rest, key);
        closes := closes + multiset{rest[key]};
        rest := rest - {key};
      }
      assert Listed(rest) == {};
      peers := map[];
    }
  }

  ghost predicate OneKeyEach(peers: map<int, nat>) {
    forall j, k :: j in peers && k in peers && peers[j] == peers[k] ==> j == k
  }

  lemma ListedDrop(peers: map<int, nat>, key: int)
    requires OneKeyEach(peers) && key in peers
    ensures multiset{peers[key]} + multiset(Listed(peers - {key})) == multiset(Listed(peers))
  {
    var rest := peers - {key};
    forall id | id in Listed(peers) ensures id == peers[key] || id in Listed(rest) {
      var k :| k in peers && peers[k] == id;
      assert k != key ==> k in rest && rest[k] == id;
    }
    assert peers[key] !in Listed(rest);
    assert Listed(peers) == {peers[key]} + Listed(rest);
  }

  // ---------------------------------------------------------------- invariants

  /** The map lists each key's latest session, as long as that has not removed
      itself. */
  ghost predicate MapOk(peers: map<int, nat>, sessions: map<nat, Session>) {
    forall k :: k in peers ==>
      peers[k] in sessions && sessions[peers[k]].key == k && !sessions[peers[k]].pc.Closing? && !sessions[peers[k]].pc.Closed?
  }

  predicate IsListed(peers: map<int, nat>, id: nat, key: int) {
    key in peers && peers[key] == id
  }

  /** Before Close empties the map, a session is listed, replaced, or on its way out. */
  ghost predicate Kept(s: Sys) {
    !s.closer.Finished? ==> forall id :: id in s.sessions ==>
      IsListed(s.peers, id, s.sessions[id].key) || id in s.replaced || s.sessions[id].pc.Closing? || s.sessions[id].pc.Closed?
  }

  ghost predicate ReplacedOk(s: Sys) {
    forall id :: id in s.replaced ==> id in s.sessions && !IsListed(s.peers, id, s.sessions[id].key)
  }

  ghost predicate ClosesOk(s: Sys) {
    forall id :: s.closes[id] ==
      if id !in s.sessions then 0
      else if s.sessions[id].pc.Closed? then 1
      else if s.closer.Finished? && id !in s.replaced then 1
      else 0
  }

  ghost predicate Phases(s: Sys) {
    && s.queued <= SLOTS
    && (s.closer.Absent? <==> !s.stop)
    && (s.closer.Finished? ==> AllReturned(s) && s.peers == map[])
  }

  ghost predicate SysInv(s: Sys) {
    var peers := s.peers;
    MapOk(peers, s.sessions) && Kept(s) && ReplacedOk(s) && ClosesOk(s) && Phases(s)
  }

  lemma StepMaps(s: Sys, step: Step)
    requires MapOk(s.peers, s.sessions) && Enabled(s, step)
    ensures MapOk(Do(s, step).peers, Do(s, step).sessions)
  {
    match step {
      case Accept(_, _) =>
      case Remove(_) =>
      case FinishClose =>
      case _ =>
    }
  }

  lemma StepLists(s: Sys, step: Step)
    requires SysInv(s) && Enabled(s, step)
    ensures Kept(Do(s, step)) && ReplacedOk(Do(s, step))
  {
    StepKept(s, step);
    StepReplaces(s, step);
  }

  lemma StepKept(s: Sys, step: Step)
    requires SysInv(s) && Enabled(s, step)
    ensures Kept(Do(s, step))
  {
    if step.Accept? {
      AcceptKept(s, step.id, step.key, Do(s, step));
    } else if step.Remove? {
      RemoveKept(s, step.id, Do(s, step));
    } else {
      OthersKept(s, step, Do(s, step));
    }
  }

  lemma AcceptKept(s: Sys, id: nat, key: int, t: Sys)
    requires Kept(s) && Enabled(s, Accept(id, key)) && t == Do(s, Accept(id, key))
    ensures Kept(t)
  {
  }

  lemma RemoveKept(s: Sys, id: nat, t: Sys)
    requires Kept(s) && MapOk(s.peers, s.sessions) && Enabled(s, Remove(id)) && t == Do(s, Remove(id))
    ensures Kept(t)
  {
  }

  lemma OthersKept(s: Sys, step: Step, t: Sys)
    requires Kept(s) && Enabled(s, step) && !step.Accept? && !step.Remove? && t == Do(s, step)
    ensures Kept(t)
  {
    match step {
      case CloseSession(_) =>
      case FinishClose =>
      case _ =>
    }
  }

  lemma StepReplaces(s: Sys, step: Step)
    requires SysInv(s) && Enabled(s, step)
    ensures ReplacedOk(Do(s, step))
  {
    match step {
      case Accept(_, _) =>
      case Remove(_) =>
      case FinishClose =>
      case _ =>
    }
  }

  lemma ListedMeans(s: Sys, id: nat)
    requires MapOk(s.peers, s.sessions) && id in s.sessions
    ensures id in Listed(s.peers) <==> IsListed(s.peers, id, s.sessions[id].key)
  {
  }

  lemma StepCloses(s: Sys, step: Step)
    requires SysInv(s) && Enabled(s, step)
    ensures ClosesOk(Do(s, step))
  {
    if step.FinishClose? {
      FinishCloses(s, Do(s, step));
    } else {
      OthersClose(s, step, Do(s, step));
    }
  }

  lemma FinishCloses(s: Sys, t: Sys)
    requires SysInv(s) && Enabled(s, FinishClose) && t == Do(s, FinishClose)
    ensures ClosesOk(t)
  {
    forall id | id in s.sessions ensures id in Listed(s.peers) <==> IsListed(s.peers, id, s.sessions[id].key) {
      ListedMeans(s, id);
    }
  }

  lemma OthersClose(s: Sys, step: Step, t: Sys)
    requires ClosesOk(s) && ReplacedOk(s) && Phases(s) && Enabled(s, step) && !step.FinishClose? && t == Do(s, step)
    ensures ClosesOk(t)
  {
    match step {
      case Accept(_, _) =>
      case CloseSession(_) =>
      case _ =>
    }
  }

  lemma StepPhases(s: Sys, step: Step)
    requires SysInv(s) && Enabled(s, step)
    ensures Phases(Do(s, step))
  {
  }

  lemma StepKeeps(s: Sys, step: Step)
    requires SysInv(s) && Enabled(s, step)
    ensures SysInv(Do(s, step))
  {
    StepMaps(s, step);
    StepLists(s, step);
    StepCloses(s, step);
    StepPhases(s, step);
  }

  ghost predicate Next(s: Sys, t: Sys) {
    exists step :: Enabled(s, step) && t == Do(s, step)
  }

  ghost predicate Boots(s: Sys) {
    s == BOOT
  }

  ghost predicate IsRun(run: seq<Sys>) {
    Runs.IsRun(Boots, Next, run)
  }

  lemma NextKeeps(s: Sys, t: Sys)
    requires SysInv(s) && Next(s, t)
    ensures SysInv(t)
  {
    var step :| Enabled(s, step) && t == Do(s, step);
    StepKeeps(s, step);
  }

  /** Every state of every run satisfies the invariant. */
  lemma RunsAreSound(run: seq<Sys>)
    requires IsRun(run)
    ensures forall p :: 0 <= p < |run| ==> SysInv(run[p])
  {
    forall s, t | SysInv(s) && Next(s, t) ensures SysInv(t) {
      NextKeeps(s, t);
    }
    Runs.Sound(Boots, Next, SysInv, run);
  }

  // ---------------------------------------------------------------- laws

  /** No peer session is closed twice; once Close has returned, a session was
      closed exactly if it was not replaced or its loop left by a read error. */
  lemma ClosedOnceIff(s: Sys, id: nat)
    requires SysInv(s)
    ensures s.closes[id] <= 1
    ensures s.closer.Finished? && id in s.sessions ==>
              (s.closes[id] == 1 <==> id !in s.replaced || s.sessions[id].pc.Closed?)
  {
  }

  /** A peer's entry only goes when its own session removes it or Close does, and
      only changes when a later accept files a newer session. */
  lemma ReplacementSurvives(s: Sys, step: Step, key: int)
    requires SysInv(s) && Enabled(s, step) && key in s.peers
    requires !step.FinishClose? && !(step.Accept? && step.key == key) && step != Remove(s.peers[key])
    ensures key in Do(s, step).peers && Do(s, step).peers[key] == s.peers[key]
  {
  }

  /** In particular a replaced session that fails leaves the map as it is. */
  lemma ReplacedExitHarmless(s: Sys, id: nat)
    requires SysInv(s) && Enabled(s, Remove(id)) && id in s.replaced
    ensures Do(s, Remove(id)).peers == s.peers
  {
  }

  /** Sessions are listed under at most one key, so Close never closes one twice. */
  lemma ListedOnce(s: Sys)
    requires SysInv(s)
    ensures OneKeyEach(s.peers)
    ensures forall id :: id in Listed(s.peers) ==> s.closes[id] == 0
  {
    forall j, k | j in s.peers && k in s.peers && s.peers[j] == s.peers[k] ensures j == k {
      assert s.sessions[s.peers[j]].key == j && s.sessions[s.peers[k]].key == k;
    }
  }

  /** A read loop goes round as long as the datagram channel has room: it reads, offers what
      it read, and reads again; a reader makes room; after a failed read it removes and then
      closes its own session. */
  lemma LoopGoesRound(s: Sys, id: nat, report: bool)
    requires id in s.sessions
    ensures At(s, id, Top) ==> Enabled(s, Read(id)) && At(Do(s, Read(id)), id, Reading)
    ensures At(s, id, Reading) ==>
              && Enabled(s, Datagram(id)) && At(Do(s, Datagram(id)), id, Offering)
              && (!(report && s.stop) ==>
                    Enabled(s, Fail(id, report)) && At(Do(s, Fail(id, report)), id, if report then Erring else Removing))
    ensures At(s, id, Offering) && s.queued < 64 ==>
              Enabled(s, Offer(id)) && At(Do(s, Offer(id)), id, Top) && Do(s, Offer(id)).queued == s.queued + 1
    ensures At(s, id, Erring) && s.queued < 64 ==>
              Enabled(s, Report(id)) && At(Do(s, Report(id)), id, Removing) && Do(s, Report(id)).queued == s.queued + 1
    ensures At(s, id, Removing) ==> Enabled(s, Remove(id)) && At(Do(s, Remove(id)), id, Closing)
    ensures At(s, id, Closing) ==> Enabled(s, CloseSession(id)) && At(Do(s, CloseSession(id)), id, Closed)
                                   && Do(s, CloseSession(id)).closes == s.closes + multiset{id}
    ensures s.queued > 0 ==> Enabled(s, TakeDatagram) && Do(s, TakeDatagram).queued == s.queued - 1
  {
  }

  /** An accepted session is filed under its peer's key, in front of any earlier one; Close
      waits for all loops and then closes what is left in the map. */
  lemma AcceptFiles(s: Sys, id: nat, key: int)
    requires Enabled(s, Accept(id, key))
    ensures var t := Do(s, Accept(id, key));
            At(t, id, Top) && t.peers == s.peers[key := id] && (key in s.peers ==> s.peers[key] in t.replaced)
  {
  }

  lemma CloseGoesOn(s: Sys)
    ensures s.closer.Absent? ==> Enabled(s, BeginClose) && Do(s, BeginClose).stop
    ensures s.closer.Waiting? ==> (Enabled(s, FinishClose) <==>
              s.accept.AcceptDone? && forall id :: id in s.sessions ==> s.sessions[id].pc.Closed? || s.sessions[id].pc.Stopped?)
    ensures s.stop && s.accept.Accepting? ==> Enabled(s, AcceptStops) && Do(s, AcceptStops).accept.AcceptDone?
    ensures s.accept.Accepting? && !s.stop ==>
              Enabled(s, AcceptFails(true)) && Do(s, AcceptFails(true)).accept.AcceptErring?
    ensures s.accept.Accepting? ==> Enabled(s, AcceptFails(false)) && Do(s, AcceptFails(false)).accept.AcceptDone?
    ensures s.accept.Accepting? ==> forall id, key :: id !in s.sessions ==> Enabled(s, Accept(id, key))
    ensures s.accept.AcceptErring? && s.queued < 64 ==> Enabled(s, AcceptReport) && Do(s, AcceptReport).accept.AcceptDone?
  {
  }

  /** After stop, a read loop that has not returned can move by itself, unless it
      is reporting an error into a full datagram channel: that send does not watch
      stop, and Close waits for it until some reader takes a datagram. */
  lemma LoopStuckIff(s: Sys, id: nat)
    requires SysInv(s) && s.stop && id in s.sessions && !Returned(s.sessions[id])
    ensures (exists step :: Enabled(s, step) && MoveOf(step, id)) <==> !(s.sessions[id].pc.Erring? && s.queued == SLOTS)
  {
    if !(s.sessions[id].pc.Erring? && s.queued == SLOTS) {
      var step := match s.sessions[id].pc
        case Reading => Fail(id, false)
        case Erring => Report(id)
        case Removing => Remove(id)
        case Closing => CloseSession(id)
        case _ => SeeStop(id);
      assert Enabled(s, step) && MoveOf(step, id);
    }
  }

  predicate MoveOf(step: Step, id: nat) {
    step == Read(id) || step == Datagram(id) || step == Fail(id, true) || step == Fail(id, false) || step == Offer(id)
    || step == Report(id) || step == SeeStop(id) || step == Remove(id) || step == CloseSession(id)
  }

  ghost predicate Reachable(s: Sys) {
    Runs.Reachable(Boots, Next, s)
  }

  lemma Play(s: Sys, step: Step) returns (t: Sys)
    requires Reachable(s) && Enabled(s, step)
    ensures Reachable(t) && t == Do(s, step)
  {
    t := Do(s, step);
    assert Next(s, t);
    Runs.Extend(Boots, Next, s, t);
  }

  function Stopping(key: int): Sys {
    BOOT.(sessions := map[0 := Session(key, Top), 1 := Session(key, Top)], peers := map[key := 1],
          replaced := {0}, stop := true, closer := Waiting)
  }

  lemma StoppingReached(key: int)
    ensures Reachable(Stopping(key))
  {
    Runs.Begin(Boots, Next, BOOT);
    var s := Play(BOOT, Accept(0, key));
    s := Play(s, Accept(1, key));
    s := Play(s, BeginClose);
    assert s == Stopping(key);
  }

  /** A session can outlive its connection: replaced by an accept from the same
      address, its loop then leaves because of stop, and nobody closes it. */
  lemma ReplacedSessionLeaks(key: int) returns (s: Sys)
    ensures Reachable(s) && s.closer.Finished? && 0 in s.sessions && s.closes[0] == 0
  {
    StoppingReached(key);
    s := Play(Stopping(key), SeeStop(0));
    s := Play(s, SeeStop(1));
    s := Play(s, AcceptStops);
    assert s.sessions == map[0 := Session(key, Stopped), 1 := Session(key, Stopped)] && s.peers == map[key := 1];
    s := Play(s, FinishClose);
  }
}
