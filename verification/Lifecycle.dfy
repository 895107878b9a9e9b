/** The registry of live objects and pending dials, and its drain notification
    (lifecycle.go). */
module Lifecycle {
  import opened Options

  datatype Category = Listener | StreamConn | PacketConn

  /** An object with a Close method that the registry tracks. */
  datatype Closer = Closer(category: Category, id: nat)

  /** `drainedCh` is the channel waiters share; `closed` counts channel closes
      and `made` the channels ever created. */
  datatype Registry = Registry(
    live: set<Closer>,
    pendingDials: int,
    drainedCh: Option<nat>,
    closed: multiset<nat>,
    made: nat)

  const NEW := Registry({}, 0, None, multiset{}, 0)

  predicate Drained(r: Registry) {
    r.live == {} && r.pendingDials == 0
  }

  /** notifyIfDrained with the verdict of its check. */
  function Notify(r: Registry, drained: bool): Registry {
    if drained && r.drainedCh.Some?
    then r.(closed := r.closed + multiset{r.drainedCh.value}, drainedCh := None)
    else r
  }

  /** waitDrain makes sure there is a channel to wait on. */
  function Install(r: Registry): Registry {
    if r.drainedCh.None? then r.(drainedCh := Some(r.made), made := r.made + 1) else r
  }

  /** The registry object: every method is one section under its mutex, except
      the dial counter, which is atomic on its own. */
  class LiveRegistry {
    var listeners: set<Closer>
    var conns: set<Closer>
    var packetConns: set<Closer>
    var pendingDials: int
    var drainedCh: Option<nat>
    var closed: multiset<nat>
    var made: nat

    ghost predicate Valid()
      reads this
    {
      && (forall c :: c in listeners ==> c.category == Listener)
      && (forall c :: c in conns ==> c.category == StreamConn)
      && (forall c :: c in packetConns ==> c.category == PacketConn)
      && (drainedCh.Some? ==> drainedCh.value < made && drainedCh.value !in closed)
      && (forall ch :: ch in closed ==> ch < made && closed[ch] == 1)
    }

    ghost function View(): Registry
      reads this
    {
      Registry(listeners + conns + packetConns, pendingDials, drainedCh, closed, made)
    }

    constructor ()
      ensures Valid() && View() == NEW
    {
      listeners, conns, packetConns := {}, {}, {};
      pendingDials, drainedCh, closed, made := 0, None, multiset{}, 0;
    }

    method Add(c: Closer)
      requires Valid()
      modifies this
      ensures Valid() && View() == old(View()).(live := old(View()).live + {c})
    {
      match c.category {
        case Listener => listeners := listeners + {c};
        case StreamConn => conns := conns + {c};
        case PacketConn => packetConns := packetConns + {c};
      }
    }

    /** The deletion, before the notification that follows outside the section. */
    method Delete(c: Closer)
      requires Valid()
      modifies this
      ensures Valid() && View() == old(View()).(live := old(View()).live - {c})
    {
      match c.category {
        case Listener => listeners := listeners - {c};
        case StreamConn => conns := conns - {c};
        case PacketConn => packetConns := packetConns - {c};
      }
    }

    method Remove(c: Closer)
      requires Valid()
      modifies this
      ensures Valid()
      ensures var r := old(View()).(live := old(View()).live - {c}); View() == Notify(r, Drained(r))
    {
      Delete(c);
      NotifyIfDrained();
    }

    method BeginDial()
      requires Valid()
      modifies `pendingDials
      ensures Valid() && View() == old(View()).(pendingDials := old(pendingDials) + 1)
    {
      pendingDials := pendingDials + 1;
    }

    method EndDial()
      requires Valid()
      modifies this
      ensures Valid()
      ensures var r := old(View()).(pendingDials := old(pendingDials) - 1); View() == Notify(r, Drained(r))
    {
      pendingDials := pendingDials - 1;
      NotifyIfDrained();
    }

    method DrainedLocked() returns (d: bool)
      ensures d == Drained(View())
    {
      d := |listeners| == 0 && |conns| == 0 && |packetConns| == 0 && pendingDials == 0;
      assert listeners <= View().live && conns <= View().live && packetConns <= View().live;
    }

    /** Closing a closed channel panics; validity rules that out. */
    method NotifyIfDrained()
      requires Valid()
      modifies this
      ensures Valid() && View() == Notify(old(View()), Drained(old(View())))
    {
      var d := DrainedLocked();
      if !d {
        return;
      }
      if drainedCh.Some? {
        closed := closed + multiset{drainedCh.value};
        drainedCh := None;
      }
    }

    /** The locked part of waitDrain: None when it is drained already. */
    method AwaitChannel() returns (ch: Option<nat>)
      requires Valid()
      modifies this
      ensures Valid()
      ensures ch.None? <==> Drained(old(View()))
      ensures ch.None? ==> View() == old(View())
      ensures ch.Some? ==> View() == Install(old(View())) && ch == drainedCh
    {
      var d := DrainedLocked();
      if d {
        return None;
      }
      if drainedCh.None? {
        drainedCh, made := Some(made), made + 1;
      }
      ch := drainedCh;
    }
  }
}

/** Any number of goroutines around one registry.  A section under the mutex is
    split where another goroutine's atomic dial counter can come in between: at
    the check that reads the counter and at the action taken on its verdict. */
module DrainSystem {
  import opened Lifecycle
  import opened Options
  import Runs

  /** A tracked object: registered (its `tracked` flag set or not yet), closed
      with its removal outstanding, removed, or closed while not yet flagged. */
  datatype Life = Registered(tracked: bool) | Removing | Removed | Leaked

  datatype Dial = Dialing | Linked(conn: Closer) | Over(made: Option<Closer>)

  datatype Thread = OfCloser(c: Closer) | OfDial(t: nat)

  datatype Lock = Free | Notifying(thread: Thread, verdict: bool) | Installing(w: nat)

  datatype Wait = On(ch: nat) | Done(result: bool, timedOut: bool)

  /** `owed` holds the goroutines that still have to finish a notifyIfDrained.
      `clock` counts steps; `born` remembers when an object or dial was registered,
      and `verdicts` when the check was made that closed a channel. */
  datatype Sys = Sys(
    reg: Registry,
    lock: Lock,
    objs: map<Closer, Life>,
    dials: map<nat, Dial>,
    owed: set<Thread>,
    waits: map<nat, Wait>,
    clock: nat,
    born: map<Thread, nat>,
    verdicts: map<nat, nat>)

  datatype Step =
    | Add(c: Closer) | Track(c: Closer) | Close(c: Closer) | Remove(c: Closer)
    | Begin(t: nat) | Link(t: nat, c: Closer) | End(t: nat)
    | NotifyCheck(thread: Thread) | NotifyAct
    | WaitCheck(w: nat) | WaitAct | Wake(w: nat) | Expire(w: nat)

  const BOOT := Sys(NEW, Free, map[], map[], {}, map[], 0, map[], map[])

  predicate LifeIs(s: Sys, c: Closer, l: Life) {
    c in s.objs && s.objs[c] == l
  }

  predicate Enabled(s: Sys, step: Step) {
    match step
    case Add(c) => s.lock.Free? && c !in s.objs
    case Track(c) => LifeIs(s, c, Registered(false))
    case Close(c) => c in s.objs && s.objs[c].Registered?
    case Remove(c) => s.lock.Free? && LifeIs(s, c, Removing)
    case Begin(t) => t !in s.dials
    case Link(t, c) => s.lock.Free? && t in s.dials && s.dials[t].Dialing? && c !in s.objs
    case End(t) =>
      && t in s.dials && !s.dials[t].Over?
      && (s.dials[t].Linked? ==> !LifeIs(s, s.dials[t].conn, Registered(false)))
    case NotifyCheck(thread) => s.lock.Free? && thread in s.owed
    case NotifyAct => s.lock.Notifying?
    case WaitCheck(w) => s.lock.Free? && w !in s.waits
    case WaitAct => s.lock.Installing?
    case Wake(w) => s.lock.Free? && w in s.waits && s.waits[w].On? && s.waits[w].ch in s.reg.closed
    case Expire(w) => s.lock.Free? && w in s.waits && s.waits[w].On?
  }

  /** The effect of a step, apart from the clock. */
  function Effect(s: Sys, step: Step): Sys
    requires Enabled(s, step)
  {
    match step
    case Add(c) =>
      s.(reg := s.reg.(live := s.reg.live + {c}), objs := s.objs[c := Registered(false)], born := s.born[OfCloser(c) := s.clock])
    case Track(c) => s.(objs := s.objs[c := Registered(true)])
    case Close(c) => s.(objs := s.objs[c := if s.objs[c].tracked then Removing else Leaked])
    case Remove(c) =>
      s.(reg := s.reg.(live := s.reg.live - {c}), objs := s.objs[c := Removed], owed := s.owed + {OfCloser(c)})
    case Begin(t) =>
      s.(reg := s.reg.(pendingDials := s.reg.pendingDials + 1), dials := s.dials[t := Dialing], born := s.born[OfDial(t) := s.clock])
    case Link(t, c) =>
      s.(reg := s.reg.(live := s.reg.live + {c}), objs := s.objs[c := Registered(false)], dials := s.dials[t := Linked(c)],
         born := s.born[OfCloser(c) := s.clock])
    case End(t) =>
      s.(reg := s.reg.(pendingDials := s.reg.pendingDials - 1), owed := s.owed + {OfDial(t)},
         dials := s.dials[t := Over(if s.dials[t].Linked? then Some(s.dials[t].conn) else None)])
    case NotifyCheck(thread) =>
      s.(lock := Notifying(thread, Drained(s.reg)),
         verdicts := if Drained(s.reg) && s.reg.drainedCh.Some? then s.verdicts[s.reg.drainedCh.value := s.clock] else s.verdicts)
    case NotifyAct => s.(reg := Notify(s.reg, s.lock.verdict), lock := Free, owed := s.owed - {s.lock.thread})
    case WaitCheck(w) =>
      if Drained(s.reg) then s.(waits := s.waits[w := Done(true, false)]) else s.(lock := Installing(w))
    case WaitAct =>
      var r := Install(s.reg);
      s.(reg := r, lock := Free, waits := s.waits[s.lock.w := On(r.drainedCh.value)])
    case Wake(w) => s.(waits := s.waits[w := Done(Drained(s.reg), false)])
    case Expire(w) => s.(waits := s.waits[w := Done(Drained(s.reg), true)])
  }

  function Do(s: Sys, step: Step): Sys
    requires Enabled(s, step)
  {
    Effect(s, step).(clock := s.clock + 1)
  }

  // ---------------------------------------------------------------- invariants

  predicate Listed(l: Life) {
    !l.Removed?
  }

  /** The registry lists exactly the objects added and not removed. */
  ghost predicate Tracks(live: set<Closer>, objs: map<Closer, Life>) {
    forall c :: c in live <==> c in objs && Listed(objs[c])
  }

  function Active(dials: map<nat, Dial>): set<nat> {
    set t | t in dials && !dials[t].Over?
  }

  ghost predicate DialsOk(dials: map<nat, Dial>, objs: map<Closer, Life>) {
    && (forall t :: t in dials && dials[t].Linked? ==> dials[t].conn in objs)
    && (forall t :: t in dials && dials[t].Over? && dials[t].made.Some? ==> dials[t].made.value in objs)
  }

  ghost predicate ChannelsOk(r: Registry, waits: map<nat, Wait>) {
    && (r.drainedCh.Some? ==> r.drainedCh.value < r.made && r.drainedCh.value !in r.closed)
    && (forall ch :: ch in r.closed ==> ch < r.made && r.closed[ch] == 1)
    && (forall w :: w in waits && waits[w].On? ==> r.drainedCh == Some(waits[w].ch) || waits[w].ch in r.closed)
  }

  ghost predicate OwedOk(owed: set<Thread>, lock: Lock, objs: map<Closer, Life>, dials: map<nat, Dial>) {
    && (forall c :: OfCloser(c) in owed ==> c in objs && objs[c].Removed?)
    && (forall t :: OfDial(t) in owed ==> t in dials && dials[t].Over?)
    && (lock.Notifying? ==> lock.thread in owed)
  }

  /** Those whose notification will still look, or has looked and will act. */
  function Willing(owed: set<Thread>, lock: Lock): set<Thread> {
    if lock.Notifying? && !lock.verdict then owed - {lock.thread} else owed
  }

  /** While somebody waits, or is about to, a drained registry is owed a notification. */
  ghost predicate NoneLost(s: Sys) {
    (s.reg.drainedCh.Some? || s.lock.Installing?) && Drained(s.reg) ==> Willing(s.owed, s.lock) != {}
  }

  /** What keeps the registry from being drained. */
  ghost predicate Holding(r: Registry, dials: map<nat, Dial>, e: Thread) {
    match e
    case OfCloser(c) => c in r.live
    case OfDial(t) => t in Active(dials)
  }

  /** Whatever is registered was registered after every verdict that found the
      registry drained, and every closed channel has such a verdict. */
  ghost predicate TimesOk(s: Sys) {
    && (forall e :: Holding(s.reg, s.dials, e) ==> e in s.born && s.born[e] < s.clock)
    && (forall ch, e :: ch in s.verdicts && Holding(s.reg, s.dials, e) ==> e in s.born && s.verdicts[ch] < s.born[e])
    && (forall ch :: ch in s.verdicts ==> s.verdicts[ch] < s.clock)
    && (forall ch :: ch in s.reg.closed ==> ch in s.verdicts)
    && (s.lock.Notifying? && s.lock.verdict && s.reg.drainedCh.Some? ==> s.reg.drainedCh.value in s.verdicts)
  }

  ghost predicate SysInv(s: Sys) {
    var r := s.reg;
    && Tracks(r.live, s.objs)
    && r.pendingDials == |Active(s.dials)|
    && DialsOk(s.dials, s.objs)
    && ChannelsOk(r, s.waits)
    && (s.lock.Installing? ==> s.lock.w !in s.waits)
    && OwedOk(s.owed, s.lock, s.objs, s.dials)
    && NoneLost(s)
    && TimesOk(s)
  }

  lemma ActiveChanges(dials: map<nat, Dial>, t: nat, d: Dial)
    ensures Active(dials[t := d]) == (if d.Over? then Active(dials) - {t} else Active(dials) + {t})
  {
  }

  lemma StepTracks(s: Sys, step: Step)
    requires Tracks(s.reg.live, s.objs) && Enabled(s, step)
    ensures Tracks(Do(s, step).reg.live, Do(s, step).objs)
  {
    match step {
      case Add(_) =>
      case Track(_) =>
      case Close(_) =>
      case Remove(_) =>
      case Begin(_) =>
      case Link(_, _) =>
      case End(_) =>
      case NotifyCheck(_) =>
      case NotifyAct =>
      case WaitCheck(_) =>
      case WaitAct =>
      case Wake(_) =>
      case Expire(_) =>
    }
  }

  lemma StepCounts(s: Sys, step: Step)
    requires s.reg.pendingDials == |Active(s.dials)| && Enabled(s, step)
    ensures Do(s, step).reg.pendingDials == |Active(Do(s, step).dials)|
  {
    if step.Begin? || step.Link? || step.End? {
      var active := Active(s.dials);
      assert step.t in active <==> !step.Begin?;
      ActiveChanges(s.dials, step.t, Do(s, step).dials[step.t]);
      if step.Link? {
        assert active + {step.t} == active;
      }
    }
  }

  lemma StepDials(s: Sys, step: Step)
    requires DialsOk(s.dials, s.objs) && Enabled(s, step)
    ensures DialsOk(Do(s, step).dials, Do(s, step).objs)
  {
  }

  lemma NotifyChannels(r: Registry, waits: map<nat, Wait>, drained: bool)
    requires ChannelsOk(r, waits)
    ensures ChannelsOk(Notify(r, drained), waits)
  {
  }

  lemma WaitChannels(r: Registry, waits: map<nat, Wait>, w: nat)
    requires ChannelsOk(r, waits)
    ensures var u := Install(r); ChannelsOk(u, waits[w := On(u.drainedCh.value)])
  {
  }

  lemma StepChannels(s: Sys, step: Step)
    requires ChannelsOk(s.reg, s.waits) && Enabled(s, step)
    requires s.lock.Installing? ==> s.lock.w !in s.waits
    ensures ChannelsOk(Do(s, step).reg, Do(s, step).waits)
    ensures Do(s, step).lock.Installing? ==> Do(s, step).lock.w !in Do(s, step).waits
  {
    if step.NotifyAct? {
      NotifyChannels(s.reg, s.waits, s.lock.verdict);
    } else if step.WaitAct? {
      WaitChannels(s.reg, s.waits, s.lock.w);
    } else {
      ChannelsStay(s, step, Do(s, step));
    }
  }

  /** The other sections touch no channel; a wait may end in them. */
  lemma ChannelsStay(s: Sys, step: Step, t: Sys)
    requires Enabled(s, step) && !step.NotifyAct? && !step.WaitAct? && t == Do(s, step)
    ensures t.reg.drainedCh == s.reg.drainedCh && t.reg.closed == s.reg.closed && t.reg.made == s.reg.made
    ensures forall w :: w in t.waits ==> t.waits[w].Done? || (w in s.waits && t.waits[w] == s.waits[w])
    ensures t.lock.Installing? ==> (t.lock == s.lock || step == WaitCheck(t.lock.w)) && t.waits.Keys == s.waits.Keys
  {
    if step.WaitCheck? || step.Wake? || step.Expire? {
      WaitsOnly(s, step, t);
    } else {
      WaitsStay(s, step, t);
    }
  }

  lemma WaitsOnly(s: Sys, step: Step, t: Sys)
    requires Enabled(s, step) && (step.WaitCheck? || step.Wake? || step.Expire?) && t == Do(s, step)
    ensures t.reg == s.reg
    ensures t.waits == s.waits || (step.w in t.waits && t.waits[step.w].Done? && t.waits == s.waits[step.w := t.waits[step.w]])
    ensures t.lock.Installing? ==> step == WaitCheck(t.lock.w) && t.waits == s.waits
  {
    if step.WaitCheck? {
      CheckOnly(s, step.w, t);
    } else {
      EndOnly(s, step, t);
    }
  }

  lemma CheckOnly(s: Sys, w: nat, t: Sys)
    requires Enabled(s, WaitCheck(w)) && t == Do(s, WaitCheck(w))
    ensures t.reg == s.reg
    ensures if Drained(s.reg) then t.waits == s.waits[w := Done(true, false)] && t.lock == s.lock
            else t.waits == s.waits && t.lock == Installing(w)
  {
  }

  lemma EndOnly(s: Sys, step: Step, t: Sys)
    requires Enabled(s, step) && (step.Wake? || step.Expire?) && t == Do(s, step)
    ensures t.reg == s.reg && t.lock == s.lock && t.waits == s.waits[step.w := Done(Drained(s.reg), step.Expire?)]
  {
  }

  lemma WaitsStay(s: Sys, step: Step, t: Sys)
    requires Enabled(s, step) && !step.NotifyAct? && !step.WaitAct? && !step.WaitCheck? && !step.Wake? && !step.Expire?
    requires t == Do(s, step)
    ensures t.waits == s.waits && (t.lock.Installing? ==> t.lock == s.lock)
    ensures t.reg.drainedCh == s.reg.drainedCh && t.reg.closed == s.reg.closed && t.reg.made == s.reg.made
  {
    match step {
      case Add(_) =>
      case Track(_) =>
      case Close(_) =>
      case Remove(_) =>
      case Begin(_) =>
      case Link(_, _) =>
      case End(_) =>
      case NotifyCheck(_) =>
    }
  }

  lemma StepOwes(s: Sys, step: Step)
    requires OwedOk(s.owed, s.lock, s.objs, s.dials) && Enabled(s, step)
    ensures var t := Do(s, step); OwedOk(t.owed, t.lock, t.objs, t.dials)
  {
    match step {
      case Add(_) =>
      case Track(_) =>
      case Close(_) =>
      case Remove(_) =>
      case Begin(_) =>
      case Link(_, _) =>
      case End(_) =>
      case NotifyCheck(_) =>
      case NotifyAct =>
      case WaitCheck(_) =>
      case WaitAct =>
      case Wake(_) =>
      case Expire(_) =>
    }
  }

  lemma StepLosesNone(s: Sys, step: Step)
    requires SysInv(s) && Enabled(s, step)
    ensures NoneLost(Do(s, step))
  {
    var t := Do(s, step);
    if step.Remove? {
      assert OfCloser(step.c) in Willing(t.owed, t.lock);
    } else if step.End? {
      assert OfDial(step.t) in Willing(t.owed, t.lock);
    } else if step.NotifyCheck? {
      assert step.thread in s.owed;
    }
  }

  lemma DrainedIff(s: Sys)
    requires s.reg.pendingDials == |Active(s.dials)|
    ensures Drained(s.reg) <==> forall e :: !Holding(s.reg, s.dials, e)
  {
    if !Drained(s.reg) {
      if s.reg.live != {} {
        var c :| c in s.reg.live;
        assert Holding(s.reg, s.dials, OfCloser(c));
      } else {
        assert Active(s.dials) != {};
        var t :| t in Active(s.dials);
        assert Holding(s.reg, s.dials, OfDial(t));
      }
    }
  }

  /** A step registers at most the one it records. */
  lemma StepRegisters(s: Sys, step: Step, e: Thread)
    requires Enabled(s, step)
    ensures var t := Do(s, step);
            && (Holding(t.reg, t.dials, e) && !Holding(s.reg, s.dials, e) ==> e in t.born && t.born[e] == s.clock)
            && (Holding(t.reg, t.dials, e) && Holding(s.reg, s.dials, e) && e in s.born ==>
                  e in t.born && (t.born[e] == s.born[e] || t.born[e] == s.clock))
  {
    match step {
      case Add(_) =>
      case Track(_) =>
      case Close(_) =>
      case Remove(_) =>
      case Begin(_) =>
      case Link(_, _) =>
      case End(_) =>
      case NotifyCheck(_) =>
      case NotifyAct =>
      case WaitCheck(_) =>
      case WaitAct =>
      case Wake(_) =>
      case Expire(_) =>
    }
  }

  lemma StepTimes(s: Sys, step: Step)
    requires SysInv(s) && Enabled(s, step)
    ensures TimesOk(Do(s, step))
  {
    var t := Do(s, step);
    DrainedIff(s);
    VerdictsAfter(s, step, t);
    forall e | Holding(t.reg, t.dials, e)
      ensures e in t.born && t.born[e] < t.clock && forall ch :: ch in t.verdicts ==> t.verdicts[ch] < t.born[e]
    {
      StepRegisters(s, step, e);
    }
  }

  /** Verdicts are only made now, on a drained registry, and before a channel closes. */
  lemma VerdictsAfter(s: Sys, step: Step, t: Sys)
    requires Enabled(s, step) && t == Do(s, step)
    ensures t.clock == s.clock + 1
    ensures forall ch :: ch in t.verdicts ==>
              || (ch in s.verdicts && t.verdicts[ch] == s.verdicts[ch])
              || (t.verdicts[ch] == s.clock && Drained(s.reg) && t.reg == s.reg && t.dials == s.dials)
    ensures s.verdicts.Keys <= t.verdicts.Keys
    ensures forall ch :: ch in t.reg.closed ==>
              || ch in s.reg.closed
              || (s.lock.Notifying? && s.lock.verdict && s.reg.drainedCh == Some(ch))
    ensures t.lock.Notifying? && t.lock.verdict && t.reg.drainedCh.Some? ==>
              t.reg.drainedCh.value in t.verdicts || (s.lock == t.lock && s.reg.drainedCh == t.reg.drainedCh)
  {
    match step {
      case Add(_) =>
      case Track(_) =>
      case Close(_) =>
      case Remove(_) =>
      case Begin(_) =>
      case Link(_, _) =>
      case End(_) =>
      case NotifyCheck(_) =>
      case NotifyAct =>
      case WaitCheck(_) =>
      case WaitAct =>
      case Wake(_) =>
      case Expire(_) =>
    }
  }

  lemma StepKeeps(s: Sys, step: Step)
    requires SysInv(s) && Enabled(s, step)
    ensures SysInv(Do(s, step))
  {
    StepTimes(s, step);
    StepTracks(s, step);
    StepCounts(s, step);
    StepDials(s, step);
    StepChannels(s, step);
    StepOwes(s, step);
    StepLosesNone(s, step);
  }

  ghost predicate Next(s: Sys, t: Sys) {
    exists step :: Enabled(s, step) && t == Do(s, step)
  }

  ghost predicate Boots(s: Sys) {
    s == BOOT
  }

  ghost predicate IsRun(run: seq<Sys>) {
    Runs.IsRun(Boots, Next, run)
  }

  lemma NextKeeps(s: Sys, t: Sys)
    requires SysInv(s) && Next(s, t)
    ensures SysInv(t)
  {
    var step :| Enabled(s, step) && t == Do(s, step);
    StepKeeps(s, step);
  }

  /** Every state of every run satisfies the invariant. */
  lemma RunsAreSound(run: seq<Sys>)
    requires IsRun(run)
    ensures forall p :: 0 <= p < |run| ==> SysInv(run[p])
  {
    assert Active(BOOT.dials) == {};
    forall s, t | SysInv(s) && Next(s, t) ensures SysInv(t) {
      NextKeeps(s, t);
    }
    Runs.Sound(Boots, Next, SysInv, run);
  }

  // ---------------------------------------------------------------- laws

  /** No lost wakeup: while the registry is drained and somebody still waits on an
      open channel, a goroutine that owes the notification can move, and once
      nobody owes one every waiter can return. */
  lemma WaiterWillBeWoken(s: Sys, w: nat)
    requires SysInv(s) && Drained(s.reg) && w in s.waits && s.waits[w].On?
    ensures s.waits[w].ch !in s.reg.closed ==>
              exists thread :: thread in Willing(s.owed, s.lock) &&
                (Enabled(s, NotifyCheck(thread)) || (s.lock.Installing? && Enabled(s, WaitAct)) || Enabled(s, NotifyAct))
    ensures s.owed == {} && s.lock.Free? ==> Enabled(s, Wake(w)) && Do(s, Wake(w)).waits[w] == Done(true, false)
  {
    if s.waits[w].ch !in s.reg.closed {
      assert s.reg.drainedCh.Some?;
      var thread :| thread in Willing(s.owed, s.lock);
      assert thread in s.owed;
    }
  }

  /** The mutex is handed on: its holder can release it, and while it is free every
      goroutine that is after it can have it. */
  lemma MutexIsHandedOn(s: Sys, c: Closer, t: nat, w: nat, thread: Thread)
    ensures s.lock.Notifying? ==> Enabled(s, NotifyAct) && Do(s, NotifyAct).lock.Free?
    ensures s.lock.Installing? ==> Enabled(s, WaitAct) && Do(s, WaitAct).lock.Free?
    ensures s.lock.Free? ==>
              && (c !in s.objs ==> Enabled(s, Add(c)))
              && (LifeIs(s, c, Removing) ==> Enabled(s, Remove(c)) && c !in Do(s, Remove(c)).reg.live)
              && (t in s.dials && s.dials[t].Dialing? && c !in s.objs ==> Enabled(s, Link(t, c)))
              && (thread in s.owed ==> Enabled(s, NotifyCheck(thread)))
              && (w !in s.waits ==> Enabled(s, WaitCheck(w)))
  {
  }

  /** What needs no mutex may happen at any time. */
  lemma OthersGoOn(s: Sys, c: Closer, t: nat)
    ensures LifeIs(s, c, Registered(false)) ==> Enabled(s, Track(c)) && LifeIs(Do(s, Track(c)), c, Registered(true))
    ensures c in s.objs && s.objs[c].Registered? ==> Enabled(s, Close(c))
    ensures t !in s.dials ==> Enabled(s, Begin(t))
    ensures t in s.dials && s.dials[t].Dialing? ==> Enabled(s, End(t))
  {
  }

  /** A wait ends by the close of its channel or by its timeout, whichever the goroutine
      takes, with the truth about the registry. */
  lemma WaitEnds(s: Sys, w: nat)
    requires s.lock.Free? && w in s.waits && s.waits[w].On?
    ensures Enabled(s, Wake(w)) <==> s.waits[w].ch in s.reg.closed
    ensures Enabled(s, Wake(w)) ==> Do(s, Wake(w)).waits[w] == Done(Drained(s.reg), false)
    ensures Enabled(s, Expire(w)) && Do(s, Expire(w)).waits[w] == Done(Drained(s.reg), true)
  {
  }

  /** A waiter that finds the registry drained returns at once; otherwise it gets the one
      channel that all waiters share. */
  lemma WaitBegins(s: Sys, w: nat)
    requires SysInv(s) && Enabled(s, WaitCheck(w))
    ensures Drained(s.reg) ==> Do(s, WaitCheck(w)).waits[w] == Done(true, false)
    ensures !Drained(s.reg) ==>
              && Enabled(Do(s, WaitCheck(w)), WaitAct)
              && var t := Do(Do(s, WaitCheck(w)), WaitAct);
                 && t.reg.drainedCh.Some? && w in t.waits && t.waits[w] == On(t.reg.drainedCh.value)
                 && (s.reg.drainedCh.Some? ==> t.reg.drainedCh == s.reg.drainedCh)
  {
  }

  lemma ChannelsCloseOnce(s: Sys, ch: nat)
    requires SysInv(s)
    ensures s.reg.closed[ch] <= 1
    ensures s.reg.closed[ch] == 1 ==> s.reg.drainedCh != Some(ch)
  {
  }

  /** A dial holds the registry undrained from its beginning; when it succeeds,
      its connection does so until that connection has been removed. */
  lemma DialHoldsOff(s: Sys, t: nat)
    requires SysInv(s) && t in s.dials
    requires !s.dials[t].Over? || (s.dials[t].made.Some? && !LifeIs(s, s.dials[t].made.value, Removed))
    ensures !Drained(s.reg)
  {
    if !s.dials[t].Over? {
      assert t in Active(s.dials);
    } else {
      assert s.dials[t].made.value in s.reg.live;
    }
  }

  /** waitDrain answers true exactly if the registry is drained when it looks. */
  lemma AnswerIsTrue(s: Sys, step: Step, w: nat)
    requires Enabled(s, step)
    requires w !in s.waits || s.waits[w].On?
    requires w in Do(s, step).waits && Do(s, step).waits[w].Done?
    ensures Do(s, step).waits[w].result <==> Drained(s.reg)
  {
    match step {
      case Add(_) =>
      case Track(_) =>
      case Close(_) =>
      case Remove(_) =>
      case Begin(_) =>
      case Link(_, _) =>
      case End(_) =>
      case NotifyCheck(_) =>
      case NotifyAct =>
      case WaitCheck(_) =>
      case WaitAct =>
      case Wake(_) =>
      case Expire(_) =>
    }
  }

  /** A woken waiter answers false, before its timeout, exactly if something that was
      registered after the check that closed its channel is still registered. */
  lemma FalseBeforeTimeoutIff(s: Sys, w: nat)
    requires SysInv(s) && Enabled(s, Wake(w))
    ensures s.waits[w].ch in s.verdicts
    ensures Do(s, Wake(w)).waits[w] == Done(false, false) <==>
              exists e :: Holding(s.reg, s.dials, e) && e in s.born && s.born[e] > s.verdicts[s.waits[w].ch]
  {
    AnswerIsTrue(s, Wake(w), w);
    DrainedIff(s);
  }

  ghost predicate From(run: seq<Sys>, s: Sys) {
    Runs.From(Next, run, s)
  }

  ghost predicate StaysForEver(s: Sys, c: Closer) {
    forall run: seq<Sys> :: From(run, s) ==> c in run[|run| - 1].reg.live
  }

  /** A closed object stays registered in every continuation exactly if its Close
      read the tracked flag before that was set. */
  lemma StaysForEverIff(s: Sys, c: Closer)
    requires SysInv(s) && Enabled(s, Close(c))
    ensures StaysForEver(Do(s, Close(c)), c) <==> s.objs[c] == Registered(false)
  {
    var t := Do(s, Close(c));
    StepKeeps(s, Close(c));
    if s.objs[c].tracked {
      var run := Removal(t, c);
      assert From(run, t) && c !in run[|run| - 1].reg.live;
    } else {
      forall run: seq<Sys> | From(run, t) ensures c in run[|run| - 1].reg.live {
        LeakContinues(run, c);
      }
    }
  }

  /** Once it is due, a removal can be carried out: whoever holds the mutex lets go. */
  lemma Removal(s: Sys, c: Closer) returns (run: seq<Sys>)
    requires SysInv(s) && LifeIs(s, c, Removing)
    ensures From(run, s) && c !in run[|run| - 1].reg.live
  {
    if s.lock.Free? {
      var t := Do(s, Remove(c));
      assert Next(s, t);
      run := [s, t];
    } else {
      var step := if s.lock.Notifying? then NotifyAct else WaitAct;
      var t := Do(s, step);
      assert Next(s, t) && LifeIs(t, c, Removing) && t.lock.Free?;
      var u := Do(t, Remove(c));
      assert Next(t, u);
      run := [s, t, u];
    }
  }

  lemma {:induction false} LeakContinues(run: seq<Sys>, c: Closer)
    requires |run| > 0 && From(run, run[0]) && SysInv(run[0]) && LifeIs(run[0], c, Leaked)
    ensures SysInv(run[|run| - 1]) && LifeIs(run[|run| - 1], c, Leaked) && c in run[|run| - 1].reg.live
  {
    var last := |run| - 1;
    if last > 0 {
      var front := run[..last];
      forall p | 0 <= p < |front| - 1 ensures Next(front[p], front[p + 1]) {
        assert Next(run[p], run[p + 1]);
      }
      LeakContinues(front, c);
      assert Next(run[last - 1], run[last - 1 + 1]);
      LeakStays(run[last - 1], run[last], c);
      NextKeeps(run[last - 1], run[last]);
    }
  }

  lemma LeakOutlives(s: Sys, step: Step, c: Closer)
    requires Enabled(s, step) && LifeIs(s, c, Leaked)
    ensures LifeIs(Do(s, step), c, Leaked)
  {
    assert Effect(s, step).objs == s.objs || (c in Effect(s, step).objs && Effect(s, step).objs[c] == Leaked);
  }

  lemma LeakStays(s: Sys, t: Sys, c: Closer)
    requires Next(s, t) && LifeIs(s, c, Leaked)
    ensures LifeIs(t, c, Leaked)
  {
    var step :| Enabled(s, step) && t == Do(s, step);
    LeakOutlives(s, step, c);
  }

  lemma LeakHoldsOff(s: Sys, c: Closer)
    requires SysInv(s) && LifeIs(s, c, Leaked)
    ensures !Drained(s.reg)
  {
    assert c in s.reg.live;
  }

  lemma {:induction false} LeakPersists(run: seq<Sys>, p: nat, q: nat, c: Closer)
    requires IsRun(run) && p <= q < |run| && LifeIs(run[p], c, Leaked)
    ensures LifeIs(run[q], c, Leaked)
    decreases q
  {
    if p < q {
      LeakPersists(run, p, q - 1, c);
      assert Next(run[q - 1], run[q - 1 + 1]);
      LeakStays(run[q - 1], run[q], c);
    }
  }

  lemma LeakedForEver(run: seq<Sys>, p: nat, q: nat, c: Closer)
    requires IsRun(run) && p <= q < |run| && LifeIs(run[p], c, Leaked)
    ensures LifeIs(run[q], c, Leaked) && !Drained(run[q].reg)
  {
    RunsAreSound(run);
    LeakPersists(run, p, q, c);
    LeakHoldsOff(run[q], c);
  }

  ghost predicate Reachable(s: Sys) {
    Runs.Reachable(Boots, Next, s)
  }

  lemma Play(s: Sys, step: Step) returns (t: Sys)
    requires Reachable(s) && Enabled(s, step)
    ensures Reachable(t) && t == Do(s, step)
  {
    t := Do(s, step);
    assert Next(s, t);
    Runs.Extend(Boots, Next, s, t);
  }

  /** A connection that shutdown closes between addConn and the store of its
      tracked flag is never removed. */
  lemma ClosedBeforeTracked(c: Closer, t: nat) returns (s: Sys)
    ensures Reachable(s) && s.dials == map[t := Over(Some(c))] && LifeIs(s, c, Leaked)
  {
    Runs.Begin(Boots, Next, BOOT);
    s := Play(BOOT, Begin(t));
    s := Play(s, Link(t, c));
    s := Play(s, Close(c));
    s := Play(s, End(t));
  }

  function Awaiting(w: nat): Sys {
    BOOT.(reg := Registry({}, 1, Some(0), multiset{}, 1), dials := map[0 := Dialing], waits := map[w := On(0)],
          clock := 3, born := map[OfDial(0) := 0])
  }

  lemma AwaitingReached(w: nat)
    ensures Reachable(Awaiting(w))
  {
    Runs.Begin(Boots, Next, BOOT);
    var s := Play(BOOT, Begin(0));
    s := Play(s, WaitCheck(w));
    s := Play(s, WaitAct);
    assert s == Awaiting(w);
  }

  /** waitDrain may return false before its timeout: a dial that begins between
      the notifier's check and the waiter's own undoes the drained state. */
  lemma FalseBeforeTimeout(w: nat) returns (s: Sys)
    ensures Reachable(s) && w in s.waits && s.waits[w] == Done(false, false)
  {
    AwaitingReached(w);
    s := Play(Awaiting(w), End(0));
    s := Play(s, NotifyCheck(OfDial(0)));
    assert s.reg == NEW.(drainedCh := Some(0), made := 1) && s.lock == Notifying(OfDial(0), true);
    s := Play(s, Begin(1));
    s := Play(s, NotifyAct);
    s := Play(s, Wake(w));
  }
}
