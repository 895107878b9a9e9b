/** The certificate cache of tls.go: any number of TLSConfig values resolved
    concurrently against one cache and VPP's certificate store.  The two sections
    under the cache mutex and the two calls into the store are separate steps. */
module TlsCache {
  import opened TlsKey
  import Runs
  import opened Collections

  datatype Pair = Pair(cert: Bytes, key: Bytes)

  /** resolveCKPair, run once per config: before the first look into the cache,
      calling the store, holding a new index, deleting it again because `kept`
      was there first, and the outcomes. */
  datatype Pc = Look | Adding | Holding(idx: nat) | Deleting(idx: nat, kept: nat) | Failed | Resolved(idx: nat)

  datatype Config = Config(pair: Pair, pc: Pc)

  /** `live` are the store's indexes in use; an index may be issued again after it
      was deleted.  `stuck` are those whose deletion failed.  `clock` counts steps;
      `looked` and `ended` remember when a config first and last looked into the
      cache, `inserted` when a key was, `succeeded` whose call of the store did, and
      `calls` counts the successful calls per key. */
  datatype Sys = Sys(
    configs: map<nat, Config>,
    cache: map<int, nat>,
    live: set<nat>,
    issues: multiset<nat>,
    deletes: multiset<nat>,
    stuck: set<nat>,
    clock: nat,
    looked: map<nat, nat>,
    ended: map<nat, nat>,
    inserted: map<int, nat>,
    succeeded: set<nat>,
    calls: multiset<int>)

  datatype Step =
    | Start(c: nat, pair: Pair)
    | FirstLook(c: nat)
    | AddOk(c: nat, idx: nat)
    | AddFails(c: nat)
    | SecondLook(c: nat)
    | Delete(c: nat, ok: bool)

  const BOOT := Sys(map[], map[], {}, multiset{}, multiset{}, {}, 0, map[], map[], map[], {}, multiset{})

  /** The cache key of a pair; `digest` stands for SHA-256 in hexadecimal. */
  function Key(digest: Bytes -> int, p: Pair): int {
    digest(Encode(p.cert, p.key))
  }

  predicate Anonymous(p: Pair) {
    p.cert == [] && p.key == []
  }

  predicate At(s: Sys, c: nat, pc: Pc) {
    c in s.configs && s.configs[c].pc == pc
  }

  predicate Enabled(s: Sys, step: Step) {
    match step
    case Start(c, p) => c !in s.configs && !Anonymous(p)
    case FirstLook(c) => At(s, c, Look)
    case AddOk(c, idx) => At(s, c, Adding) && idx !in s.live
    case AddFails(c) => At(s, c, Adding)
    case SecondLook(c) => c in s.configs && s.configs[c].pc.Holding?
    case Delete(c, _) => c in s.configs && s.configs[c].pc.Deleting?
  }

  function Go(s: Sys, c: nat, pc: Pc): Sys
    requires c in s.configs
  {
    s.(configs := s.configs[c := s.configs[c].(pc := pc)])
  }

  /** The effect of a step, apart from the clock. */
  function Effect(digest: Bytes -> int, s: Sys, step: Step): Sys
    requires Enabled(s, step)
  {
    match step
    case Start(c, p) => s.(configs := s.configs[c := Config(p, Look)])
    case FirstLook(c) =>
      var k := Key(digest, s.configs[c].pair);
      Go(s, c, if k in s.cache then Resolved(s.cache[k]) else Adding).(looked := s.looked[c := s.clock])
    case AddOk(c, idx) =>
      Go(s, c, Holding(idx)).(live := s.live + {idx}, issues := s.issues + multiset{idx},
                              succeeded := s.succeeded + {c}, calls := s.calls + multiset{Key(digest, s.configs[c].pair)})
    case AddFails(c) => Go(s, c, Failed)
    case SecondLook(c) =>
      var k, idx := Key(digest, s.configs[c].pair), s.configs[c].pc.idx;
      var t := s.(ended := s.ended[c := s.clock]);
      if k in s.cache then Go(t, c, Deleting(idx, s.cache[k]))
      else Go(t, c, Resolved(idx)).(cache := s.cache[k := idx], inserted := s.inserted[k := s.clock])
    case Delete(c, ok) =>
      var idx := s.configs[c].pc.idx;
      var t := Go(s, c, Resolved(s.configs[c].pc.kept));
      if ok then t.(live := s.live - {idx}, deletes := s.deletes + multiset{idx}) else t.(stuck := s.stuck + {idx})
  }

  function Do(digest: Bytes -> int, s: Sys, step: Step): Sys
    requires Enabled(s, step)
  {
    Effect(digest, s, step).(clock := s.clock + 1)
  }

  // ---------------------------------------------------------------- invariants

  predicate InFlight(pc: Pc, idx: nat) {
    (pc.Holding? || pc.Deleting?) && pc.idx == idx
  }

  ghost predicate Cached(cache: map<int, nat>, i: nat) {
    exists k :: k in cache && cache[k] == i
  }

  ghost predicate Carried(configs: map<nat, Config>, i: nat) {
    exists c :: c in configs && InFlight(configs[c].pc, i)
  }

  /** A cached index is live, cached under one key, in flight nowhere, not stuck. */
  ghost predicate CacheOk(cache: map<int, nat>, configs: map<nat, Config>, live: set<nat>, stuck: set<nat>) {
    && (forall k :: k in cache ==> cache[k] in live && cache[k] !in stuck)
    && (forall j, k :: j in cache && k in cache && cache[j] == cache[k] ==> j == k)
    && (forall c, k :: c in configs && k in cache ==> !InFlight(configs[c].pc, cache[k]))
  }

  /** An index in flight is live, at one config, not stuck. */
  ghost predicate FlightsOk(configs: map<nat, Config>, live: set<nat>, stuck: set<nat>) {
    && (forall c, i :: c in configs && InFlight(configs[c].pc, i) ==> i in live && i !in stuck)
    && (forall c, d, i :: c in configs && d in configs && InFlight(configs[c].pc, i) && InFlight(configs[d].pc, i) ==> c == d)
  }

  ghost predicate NoneForgotten(s: Sys) {
    forall i :: i in s.live ==> Cached(s.cache, i) || i in s.stuck || Carried(s.configs, i)
  }

  /** The store issues an index again only after a deletion. */
  ghost predicate Balanced(s: Sys) {
    && s.stuck <= s.live
    && forall i :: s.issues[i] == s.deletes[i] + (if i in s.live then 1 else 0)
  }

  /** Whatever a config was given is what the cache holds for its pair. */
  ghost predicate Answers(digest: Bytes -> int, configs: map<nat, Config>, cache: map<int, nat>) {
    forall c :: c in configs ==> AnswerOk(digest, configs[c], cache)
  }

  ghost predicate AnswerOk(digest: Bytes -> int, c: Config, cache: map<int, nat>) {
    var k := Key(digest, c.pair);
    && (c.pc.Resolved? ==> k in cache && cache[k] == c.pc.idx)
    && (c.pc.Deleting? ==> k in cache && cache[k] == c.pc.kept)
  }

  /** A config calls the store if it found its key missing. */
  predicate Called(s: Sys, c: nat) {
    c in s.succeeded || (c in s.configs && (s.configs[c].pc.Adding? || s.configs[c].pc.Failed?))
  }

  /** The config looked before its key was inserted, if it was at all. */
  predicate Early(digest: Bytes -> int, s: Sys, c: nat)
    requires c in s.configs && c in s.looked
  {
    var k := Key(digest, s.configs[c].pair);
    k in s.inserted ==> s.looked[c] < s.inserted[k]
  }

  ghost predicate ClockOk(s: Sys) {
    && (forall c :: c in s.looked ==> s.looked[c] < s.clock)
    && (forall c :: c in s.ended ==> s.ended[c] < s.clock)
    && (forall k :: k in s.inserted ==> s.inserted[k] < s.clock)
    && s.inserted.Keys == s.cache.Keys
  }

  ghost predicate TimesOk(digest: Bytes -> int, s: Sys) {
    forall c :: c in s.configs ==> ConfigTimesOk(digest, s, c)
  }

  ghost predicate ConfigTimesOk(digest: Bytes -> int, s: Sys, c: nat)
    requires c in s.configs
  {
    var pc := s.configs[c].pc;
    && (c in s.looked <==> !pc.Look?)
    && (c in s.looked ==> (Called(s, c) <==> Early(digest, s, c)))
    && (pc.Look? || pc.Adding? || pc.Failed? ==> c !in s.succeeded)
    && (pc.Holding? || pc.Deleting? ==> c in s.succeeded)
    && (c in s.ended <==> c in s.succeeded && !pc.Holding?)
    && (c in s.ended ==> Key(digest, s.configs[c].pair) in s.inserted && s.inserted[Key(digest, s.configs[c].pair)] <= s.ended[c])
  }

  ghost predicate LookersOk(s: Sys) {
    s.looked.Keys <= s.configs.Keys && s.ended.Keys <= s.configs.Keys
  }

  function WithKey(digest: Bytes -> int, s: Sys, k: int): set<nat> {
    set c | c in s.succeeded && c in s.configs && Key(digest, s.configs[c].pair) == k
  }

  ghost predicate CallsOk(digest: Bytes -> int, s: Sys) {
    && s.succeeded <= s.configs.Keys
    && forall k :: s.calls[k] == |WithKey(digest, s, k)|
  }

  ghost predicate SysInv(digest: Bytes -> int, s: Sys) {
    var cache := s.cache;
    CacheOk(cache, s.configs, s.live, s.stuck) && FlightsOk(s.configs, s.live, s.stuck)
    && NoneForgotten(s) && Balanced(s) && Answers(digest, s.configs, cache)
    && ClockOk(s) && LookersOk(s) && TimesOk(digest, s) && CallsOk(digest, s)
  }

  /** A cached index is never replaced or deleted. */
  lemma CacheKept(digest: Bytes -> int, s: Sys, step: Step, k: int)
    requires CacheOk(s.cache, s.configs, s.live, s.stuck) && Enabled(s, step) && k in s.cache
    ensures k in Do(digest, s, step).cache && Do(digest, s, step).cache[k] == s.cache[k]
    ensures s.cache[k] in Do(digest, s, step).live
    ensures Do(digest, s, step).deletes[s.cache[k]] == s.deletes[s.cache[k]]
  {
    if step.Delete? {
      assert InFlight(s.configs[step.c].pc, s.configs[step.c].pc.idx);
    }
  }

  ghost predicate IndexesOk(cache: map<int, nat>, configs: map<nat, Config>, live: set<nat>, stuck: set<nat>) {
    var now := live;
    CacheOk(cache, configs, now, stuck) && FlightsOk(configs, now, stuck)
  }

  /** A config that carries nothing new disturbs nobody. */
  lemma MoveKeeps(s: Sys, c: nat, to: Config)
    requires IndexesOk(s.cache, s.configs, s.live, s.stuck)
    requires forall i :: InFlight(to.pc, i) ==> c in s.configs && InFlight(s.configs[c].pc, i)
    ensures IndexesOk(s.cache, s.configs[c := to], s.live, s.stuck)
  {
  }

  lemma IssueKeeps(s: Sys, c: nat, to: Config, idx: nat)
    requires IndexesOk(s.cache, s.configs, s.live, s.stuck) && s.stuck <= s.live
    requires idx !in s.live && to.pc == Holding(idx)
    ensures IndexesOk(s.cache, s.configs[c := to], s.live + {idx}, s.stuck)
  {
  }

  lemma InsertKeeps(s: Sys, c: nat, k: int, to: Config)
    requires IndexesOk(s.cache, s.configs, s.live, s.stuck)
    requires c in s.configs && s.configs[c].pc.Holding? && to.pc.Resolved? && k !in s.cache
    ensures IndexesOk(s.cache[k := s.configs[c].pc.idx], s.configs[c := to], s.live, s.stuck)
  {
    assert InFlight(s.configs[c].pc, s.configs[c].pc.idx);
  }

  lemma DeleteKeeps(s: Sys, c: nat, to: Config)
    requires IndexesOk(s.cache, s.configs, s.live, s.stuck)
    requires c in s.configs && s.configs[c].pc.Deleting? && to.pc.Resolved?
    ensures var idx := s.configs[c].pc.idx;
            && IndexesOk(s.cache, s.configs[c := to], s.live - {idx}, s.stuck)
            && IndexesOk(s.cache, s.configs[c := to], s.live, s.stuck + {idx})
  {
    assert InFlight(s.configs[c].pc, s.configs[c].pc.idx);
  }

  lemma StepIndexes(digest: Bytes -> int, s: Sys, step: Step)
    requires IndexesOk(s.cache, s.configs, s.live, s.stuck) && s.stuck <= s.live && Enabled(s, step)
    ensures var t := Do(digest, s, step); IndexesOk(t.cache, t.configs, t.live, t.stuck)
  {
    var t := Do(digest, s, step);
    if step.AddOk? {
      IssueKeeps(s, step.c, t.configs[step.c], step.idx);
    } else if step.SecondLook? {
      LookIndexes(digest, s, step, t);
    } else if step.Delete? {
      DeleteIndexes(digest, s, step, t);
    } else {
      MoveIndexes(digest, s, step, t);
    }
  }

  lemma DeleteIndexes(digest: Bytes -> int, s: Sys, step: Step, t: Sys)
    requires IndexesOk(s.cache, s.configs, s.live, s.stuck) && Enabled(s, step) && step.Delete? && t == Do(digest, s, step)
    ensures IndexesOk(t.cache, t.configs, t.live, t.stuck)
  {
    DeleteKeeps(s, step.c, t.configs[step.c]);
    DeleteIs(digest, s, step, t);
  }

  lemma DeleteIs(digest: Bytes -> int, s: Sys, step: Step, t: Sys)
    requires Enabled(s, step) && step.Delete? && t == Do(digest, s, step)
    ensures step.c in t.configs && t.configs == s.configs[step.c := t.configs[step.c]] && t.cache == s.cache
    ensures var idx := s.configs[step.c].pc.idx;
            && t.issues == s.issues && t.deletes == (if step.ok then s.deletes + multiset{idx} else s.deletes)
            && if step.ok then t.live == s.live - {idx} && t.stuck == s.stuck
               else t.live == s.live && t.stuck == s.stuck + {idx}
  {
  }

  lemma MoveIndexes(digest: Bytes -> int, s: Sys, step: Step, t: Sys)
    requires IndexesOk(s.cache, s.configs, s.live, s.stuck) && Enabled(s, step) && t == Do(digest, s, step)
    requires step.Start? || step.FirstLook? || step.AddFails?
    ensures IndexesOk(t.cache, t.configs, t.live, t.stuck)
  {
    MoveKeeps(s, step.c, t.configs[step.c]);
  }

  lemma LookIndexes(digest: Bytes -> int, s: Sys, step: Step, t: Sys)
    requires IndexesOk(s.cache, s.configs, s.live, s.stuck) && Enabled(s, step) && step.SecondLook? && t == Do(digest, s, step)
    ensures IndexesOk(t.cache, t.configs, t.live, t.stuck)
  {
    var to := t.configs[step.c];
    if to.pc.Resolved? {
      InsertKeeps(s, step.c, Key(digest, s.configs[step.c].pair), to);
    } else {
      MoveKeeps(s, step.c, to);
    }
  }

  lemma CacheGrows(digest: Bytes -> int, s: Sys, step: Step, k: int)
    requires Enabled(s, step) && k in s.cache
    ensures k in Do(digest, s, step).cache && Do(digest, s, step).cache[k] == s.cache[k]
  {
  }

  /** What a config carried it still carries, or it was cached, deleted or is stuck. */
  lemma CarriedOn(digest: Bytes -> int, s: Sys, step: Step, c: nat, i: nat)
    requires Enabled(s, step) && c in s.configs && InFlight(s.configs[c].pc, i)
    ensures var t := Do(digest, s, step);
            && c in t.configs
            && (InFlight(t.configs[c].pc, i) || i !in t.live || i in t.stuck
                || (Key(digest, s.configs[c].pair) in t.cache && t.cache[Key(digest, s.configs[c].pair)] == i))
  {
    match step {
      case Start(_, _) =>
      case FirstLook(_) =>
      case AddOk(_, _) =>
      case AddFails(_) =>
      case SecondLook(_) =>
      case Delete(_, _) =>
    }
  }

  lemma IssuedIs(digest: Bytes -> int, s: Sys, step: Step, i: nat)
    requires Enabled(s, step) && i in Do(digest, s, step).live && i !in s.live
    ensures step.AddOk? && i == step.idx && step.c in Do(digest, s, step).configs
    ensures InFlight(Do(digest, s, step).configs[step.c].pc, i)
  {
  }

  lemma StepForgetsNone(digest: Bytes -> int, s: Sys, step: Step)
    requires NoneForgotten(s) && Enabled(s, step)
    ensures NoneForgotten(Do(digest, s, step))
  {
    var t := Do(digest, s, step);
    forall i | i in t.live ensures Cached(t.cache, i) || i in t.stuck || Carried(t.configs, i) {
      if i !in s.live {
        IssuedIs(digest, s, step, i);
      } else if Cached(s.cache, i) {
        var k :| k in s.cache && s.cache[k] == i;
        CacheGrows(digest, s, step, k);
      } else if i !in s.stuck {
        var c :| c in s.configs && InFlight(s.configs[c].pc, i);
        CarriedOn(digest, s, step, c, i);
      } else {
        StuckStays(digest, s, step, i);
      }
    }
  }

  lemma StuckStays(digest: Bytes -> int, s: Sys, step: Step, i: nat)
    requires Enabled(s, step) && i in s.stuck
    ensures i in Do(digest, s, step).stuck
  {
  }

  lemma StepBalances(digest: Bytes -> int, s: Sys, step: Step)
    requires Balanced(s) && FlightsOk(s.configs, s.live, s.stuck) && Enabled(s, step)
    ensures Balanced(Do(digest, s, step))
  {
    if step.Delete? {
      assert InFlight(s.configs[step.c].pc, s.configs[step.c].pc.idx);
      DeleteIs(digest, s, step, Do(digest, s, step));
      DeleteBalances(s, s.configs[step.c].pc.idx, step.ok, Do(digest, s, step));
    } else if !step.AddOk? {
      NothingStored(digest, s, step, Do(digest, s, step));
    }
  }

  lemma DeleteBalances(s: Sys, idx: nat, ok: bool, t: Sys)
    requires Balanced(s) && idx in s.live && idx !in s.stuck && t.issues == s.issues
    requires t.deletes == (if ok then s.deletes + multiset{idx} else s.deletes)
    requires if ok then t.live == s.live - {idx} && t.stuck == s.stuck else t.live == s.live && t.stuck == s.stuck + {idx}
    ensures Balanced(t)
  {
  }

  lemma NothingStored(digest: Bytes -> int, s: Sys, step: Step, t: Sys)
    requires Enabled(s, step) && !step.Delete? && !step.AddOk? && t == Do(digest, s, step)
    ensures t.stuck == s.stuck && t.live == s.live && t.issues == s.issues && t.deletes == s.deletes
  {
    match step {
      case Start(_, _) =>
      case FirstLook(_) =>
      case AddFails(_) =>
      case SecondLook(_) =>
    }
  }

  lemma ActorAnswers(digest: Bytes -> int, s: Sys, step: Step)
    requires Enabled(s, step) && step.c in Do(digest, s, step).configs
    requires step.c in s.configs ==> AnswerOk(digest, s.configs[step.c], s.cache)
    ensures AnswerOk(digest, Do(digest, s, step).configs[step.c], Do(digest, s, step).cache)
  {
    match step {
      case Start(_, _) =>
      case FirstLook(_) =>
      case AddOk(_, _) =>
      case AddFails(_) =>
      case SecondLook(_) =>
      case Delete(_, _) =>
    }
  }

  lemma OtherAnswers(digest: Bytes -> int, s: Sys, t: Sys, step: Step, c: nat)
    requires Enabled(s, step) && c in s.configs && c != step.c && AnswerOk(digest, s.configs[c], s.cache)
    requires t == Do(digest, s, step)
    ensures c in t.configs && AnswerOk(digest, t.configs[c], t.cache)
  {
    Untouched(digest, s, step, c);
    var k := Key(digest, s.configs[c].pair);
    if k in s.cache {
      CacheGrows(digest, s, step, k);
    }
  }

  lemma NobodyElse(digest: Bytes -> int, s: Sys, step: Step, c: nat)
    requires Enabled(s, step) && c in Do(digest, s, step).configs && c !in s.configs
    ensures c == step.c
  {
  }

  lemma StepAnswers(digest: Bytes -> int, s: Sys, step: Step)
    requires Answers(digest, s.configs, s.cache) && Enabled(s, step)
    ensures Answers(digest, Do(digest, s, step).configs, Do(digest, s, step).cache)
  {
    var t := Do(digest, s, step);
    forall c | c in t.configs ensures AnswerOk(digest, t.configs[c], t.cache) {
      if c == step.c {
        ActorAnswers(digest, s, step);
      } else if c in s.configs {
        OtherAnswers(digest, s, t, step, c);
      } else {
        NobodyElse(digest, s, step, c);
      }
    }
  }

  lemma StepClocks(digest: Bytes -> int, s: Sys, step: Step)
    requires ClockOk(s) && Enabled(s, step)
    ensures ClockOk(Do(digest, s, step))
  {
    LookClocks(digest, s, step, Do(digest, s, step));
    InsertClocks(digest, s, step, Do(digest, s, step));
  }

  lemma LookClocks(digest: Bytes -> int, s: Sys, step: Step, t: Sys)
    requires ClockOk(s) && Enabled(s, step) && t == Do(digest, s, step)
    ensures forall c :: c in t.looked ==> t.looked[c] < t.clock
    ensures forall c :: c in t.ended ==> t.ended[c] < t.clock
  {
    if !step.FirstLook? && !step.SecondLook? {
      NothingLooked(digest, s, step, t);
    }
  }

  lemma NothingLooked(digest: Bytes -> int, s: Sys, step: Step, t: Sys)
    requires Enabled(s, step) && !step.FirstLook? && !step.SecondLook? && t == Do(digest, s, step)
    ensures t.looked == s.looked && t.ended == s.ended && s.clock < t.clock
  {
  }

  lemma InsertClocks(digest: Bytes -> int, s: Sys, step: Step, t: Sys)
    requires ClockOk(s) && Enabled(s, step) && t == Do(digest, s, step)
    ensures (forall k :: k in t.inserted ==> t.inserted[k] < t.clock) && t.inserted.Keys == t.cache.Keys
  {
    if step.SecondLook? {
      LookInserts(digest, s, step, t);
    } else {
      NothingInserted(digest, s, step, t);
    }
  }

  lemma LookInserts(digest: Bytes -> int, s: Sys, step: Step, t: Sys)
    requires ClockOk(s) && Enabled(s, step) && step.SecondLook? && t == Do(digest, s, step)
    ensures (forall k :: k in t.inserted ==> t.inserted[k] < t.clock) && t.inserted.Keys == t.cache.Keys
  {
  }

  lemma NothingInserted(digest: Bytes -> int, s: Sys, step: Step, t: Sys)
    requires Enabled(s, step) && !step.SecondLook? && t == Do(digest, s, step)
    ensures t.inserted == s.inserted && t.cache == s.cache && s.clock < t.clock
  {
  }

  lemma Untouched(digest: Bytes -> int, s: Sys, step: Step, c: nat)
    requires Enabled(s, step) && c in s.configs && c != step.c
    ensures var t := Do(digest, s, step);
            && c in t.configs && t.configs[c] == s.configs[c]
            && (c in t.looked <==> c in s.looked) && (c in s.looked ==> t.looked[c] == s.looked[c])
            && (c in t.ended <==> c in s.ended) && (c in s.ended ==> t.ended[c] == s.ended[c])
            && (c in t.succeeded <==> c in s.succeeded)
  {
    OneConfig(digest, s, step);
    LooksElsewhere(digest, s, step, c);
    SucceededAfter(digest, s, step);
  }

  lemma LooksElsewhere(digest: Bytes -> int, s: Sys, step: Step, c: nat)
    requires Enabled(s, step) && c != step.c
    ensures var t := Do(digest, s, step);
            && (c in t.looked <==> c in s.looked) && (c in s.looked ==> t.looked[c] == s.looked[c])
            && (c in t.ended <==> c in s.ended) && (c in s.ended ==> t.ended[c] == s.ended[c])
  {
    match step {
      case Start(_, _) =>
      case FirstLook(_) =>
      case AddOk(_, _) =>
      case AddFails(_) =>
      case SecondLook(_) =>
      case Delete(_, _) =>
    }
  }

  lemma InsertedAfter(digest: Bytes -> int, s: Sys, step: Step, k: int)
    requires Enabled(s, step) && s.inserted.Keys == s.cache.Keys
    ensures var t := Do(digest, s, step);
            && (k in s.inserted ==> k in t.inserted && t.inserted[k] == s.inserted[k])
            && (k in t.inserted && k !in s.inserted ==> t.inserted[k] == s.clock)
  {
    assert k in s.inserted.Keys <==> k in s.cache.Keys;
  }

  /** A step of another config, or an insertion under any key, changes nothing. */
  lemma OtherKeepsTimes(digest: Bytes -> int, s: Sys, step: Step, c: nat)
    requires ClockOk(s) && Enabled(s, step) && c in s.configs && c != step.c && ConfigTimesOk(digest, s, c)
    ensures ConfigTimesOk(digest, Do(digest, s, step), c)
  {
    var t := Do(digest, s, step);
    Untouched(digest, s, step, c);
    InsertedAfter(digest, s, step, Key(digest, s.configs[c].pair));
  }

  lemma ActorKeepsTimes(digest: Bytes -> int, s: Sys, step: Step)
    requires ClockOk(s) && Enabled(s, step)
    requires step.c in s.configs && ConfigTimesOk(digest, s, step.c)
    ensures ConfigTimesOk(digest, Do(digest, s, step), step.c)
  {
  }

  lemma NewcomerTimes(digest: Bytes -> int, s: Sys, step: Step)
    requires step.Start? && Enabled(s, step) && CallsOk(digest, s) && LookersOk(s)
    ensures ConfigTimesOk(digest, Do(digest, s, step), step.c)
  {
  }

  lemma StepTimes(digest: Bytes -> int, s: Sys, step: Step)
    requires ClockOk(s) && TimesOk(digest, s) && CallsOk(digest, s) && LookersOk(s) && Enabled(s, step)
    ensures TimesOk(digest, Do(digest, s, step))
  {
    forall c | c in Do(digest, s, step).configs ensures ConfigTimesOk(digest, Do(digest, s, step), c) {
      if c != step.c {
        OtherKeepsTimes(digest, s, step, c);
      } else if step.Start? {
        NewcomerTimes(digest, s, step);
      } else {
        ActorKeepsTimes(digest, s, step);
      }
    }
  }

  lemma StepLookers(digest: Bytes -> int, s: Sys, step: Step)
    requires LookersOk(s) && Enabled(s, step)
    ensures LookersOk(Do(digest, s, step))
  {
    match step {
      case Start(_, _) =>
      case FirstLook(_) =>
      case AddOk(_, _) =>
      case AddFails(_) =>
      case SecondLook(_) =>
      case Delete(_, _) =>
    }
  }

  /** Only the config that steps changes, and its pair never does. */
  lemma OneConfig(digest: Bytes -> int, s: Sys, step: Step)
    requires Enabled(s, step)
    ensures var t := Do(digest, s, step);
            && step.c in t.configs && t.configs == s.configs[step.c := t.configs[step.c]]
            && (step.c in s.configs ==> t.configs[step.c].pair == s.configs[step.c].pair)
  {
    match step {
      case Start(_, _) =>
      case FirstLook(_) =>
      case AddOk(_, _) =>
      case AddFails(_) =>
      case SecondLook(_) =>
      case Delete(_, _) =>
    }
  }

  /** No pair ever changes. */
  lemma PairsStay(digest: Bytes -> int, s: Sys, step: Step)
    requires Enabled(s, step)
    ensures forall c :: c in s.configs ==> c in Do(digest, s, step).configs && Do(digest, s, step).configs[c].pair == s.configs[c].pair
  {
    OneConfig(digest, s, step);
  }

  lemma SucceededAfter(digest: Bytes -> int, s: Sys, step: Step)
    requires Enabled(s, step)
    ensures var t := Do(digest, s, step);
            && t.succeeded == (if step.AddOk? then s.succeeded + {step.c} else s.succeeded)
            && t.calls == (if step.AddOk? then s.calls + multiset{Key(digest, s.configs[step.c].pair)} else s.calls)
  {
    match step {
      case Start(_, _) =>
      case FirstLook(_) =>
      case AddOk(_, _) =>
      case AddFails(_) =>
      case SecondLook(_) =>
      case Delete(_, _) =>
    }
  }

  /** A call that does not succeed in this step leaves the count of every key. */
  lemma OthersCount(digest: Bytes -> int, s: Sys, t: Sys, step: Step, k: int)
    requires Enabled(s, step) && s.succeeded <= s.configs.Keys && t == Do(digest, s, step)
    requires !(step.AddOk? && Key(digest, s.configs[step.c].pair) == k)
    ensures WithKey(digest, t, k) == WithKey(digest, s, k) && t.calls[k] == s.calls[k]
  {
    PairsStay(digest, s, step);
    SucceededAfter(digest, s, step);
  }

  lemma AddCounts(digest: Bytes -> int, s: Sys, t: Sys, step: Step, k: int)
    requires Enabled(s, step) && s.succeeded <= s.configs.Keys && step.AddOk? && t == Do(digest, s, step)
    requires Key(digest, s.configs[step.c].pair) == k
    ensures WithKey(digest, t, k) == WithKey(digest, s, k) + {step.c} && t.calls[k] == s.calls[k] + 1
  {
    PairsStay(digest, s, step);
    SucceededAfter(digest, s, step);
  }

  lemma StepCalls(digest: Bytes -> int, s: Sys, step: Step)
    requires TimesOk(digest, s) && CallsOk(digest, s) && Enabled(s, step)
    ensures CallsOk(digest, Do(digest, s, step))
  {
    var t := Do(digest, s, step);
    PairsStay(digest, s, step);
    SucceededAfter(digest, s, step);
    forall k ensures t.calls[k] == |WithKey(digest, t, k)| {
      if step.AddOk? && Key(digest, s.configs[step.c].pair) == k {
        assert ConfigTimesOk(digest, s, step.c);
        AddCounts(digest, s, t, step, k);
      } else {
        OthersCount(digest, s, t, step, k);
      }
    }
  }

  lemma StepKeeps(digest: Bytes -> int, s: Sys, step: Step)
    requires SysInv(digest, s) && Enabled(s, step)
    ensures SysInv(digest, Do(digest, s, step))
  {
    StepClocks(digest, s, step);
    StepLookers(digest, s, step);
    StepTimes(digest, s, step);
    StepCalls(digest, s, step);
    StepIndexes(digest, s, step);
    StepForgetsNone(digest, s, step);
    StepBalances(digest, s, step);
    StepAnswers(digest, s, step);
  }

  ghost predicate Next(digest: Bytes -> int, s: Sys, t: Sys) {
    exists step :: Enabled(s, step) && t == Do(digest, s, step)
  }

  ghost predicate Boots(s: Sys) {
    s == BOOT
  }

  ghost function NextOf(digest: Bytes -> int): (Sys, Sys) -> bool {
    (s: Sys, t: Sys) => Next(digest, s, t)
  }

  ghost function SysInvOf(digest: Bytes -> int): Sys -> bool {
    (s: Sys) => SysInv(digest, s)
  }

  ghost predicate IsRun(digest: Bytes -> int, run: seq<Sys>) {
    Runs.IsRun(Boots, NextOf(digest), run)
  }

  lemma NextKeeps(digest: Bytes -> int, s: Sys, t: Sys)
    requires SysInv(digest, s) && Next(digest, s, t)
    ensures SysInv(digest, t)
  {
    var step :| Enabled(s, step) && t == Do(digest, s, step);
    StepKeeps(digest, s, step);
  }

  /** Every state of every run satisfies the invariant. */
  lemma RunsAreSound(digest: Bytes -> int, run: seq<Sys>)
    requires IsRun(digest, run)
    ensures forall p :: 0 <= p < |run| ==> SysInv(digest, run[p])
  {
    forall s, t | SysInv(digest, s) && Next(digest, s, t) ensures SysInv(digest, t) {
      NextKeeps(digest, s, t);
    }
    Runs.Sound(Boots, NextOf(digest), SysInvOf(digest), run);
    assert forall p :: 0 <= p < |run| ==> SysInvOf(digest)(run[p]);
  }

  // ---------------------------------------------------------------- laws

  ghost predicate Collides(digest: Bytes -> int) {
    exists a, b :: a != b && digest(a) == digest(b)
  }

  /** A resolution that has not ended can go on.  A cached pair is answered from the cache;
      a new index is entered for its pair, or, if another was entered meanwhile, deleted
      again in favour of that one, whatever the deletion answers. */
  lemma ResolutionGoesOn(digest: Bytes -> int, s: Sys, c: nat, ok: bool) returns (step: Step)
    requires c in s.configs && !s.configs[c].pc.Failed? && !s.configs[c].pc.Resolved?
    ensures Enabled(s, step) && step.c == c && c in Do(digest, s, step).configs
    ensures var k, pc, t := Key(digest, s.configs[c].pair), s.configs[c].pc, Do(digest, s, step);
            && (pc.Look? ==> t.configs[c].pc == if k in s.cache then Resolved(s.cache[k]) else Adding)
            && (pc.Adding? ==> t.configs[c].pc == Failed && t.cache == s.cache)
            && (pc.Holding? && k in s.cache ==> t.configs[c].pc == Deleting(pc.idx, s.cache[k]) && t.cache == s.cache)
            && (pc.Holding? && k !in s.cache ==> t.configs[c].pc == Resolved(pc.idx) && t.cache == s.cache[k := pc.idx])
            && (pc.Deleting? ==> t.configs[c].pc == Resolved(pc.kept) && t.cache == s.cache)
            && (pc.Deleting? && ok ==> t.live == s.live - {pc.idx})
    ensures s.configs[c].pc.Adding? ==>
              forall idx :: idx !in s.live ==>
                Enabled(s, AddOk(c, idx)) && Do(digest, s, AddOk(c, idx)).configs[c].pc == Holding(idx)
                && Do(digest, s, AddOk(c, idx)).live == s.live + {idx}
  {
    match s.configs[c].pc {
      case Look => step := FirstLook(c);
      case Adding => step := AddFails(c);
      case Holding(_) => step := SecondLook(c);
      case Deleting(_, _) => step := Delete(c, ok);
    }
  }

  /** Concurrent resolutions answer with the same index exactly if they were asked
      about the same certificate and key, provided the digest does not collide. */
  lemma SameIndexIffSameBytes(digest: Bytes -> int, s: Sys, c: nat, d: nat)
    requires SysInv(digest, s) && !Collides(digest)
    requires c in s.configs && d in s.configs && s.configs[c].pc.Resolved? && s.configs[d].pc.Resolved?
    requires |s.configs[c].pair.cert| < WORD && |s.configs[d].pair.cert| < WORD
    ensures s.configs[c].pc.idx == s.configs[d].pc.idx <==> s.configs[c].pair == s.configs[d].pair
  {
    var p, q := s.configs[c].pair, s.configs[d].pair;
    assert AnswerOk(digest, s.configs[c], s.cache) && AnswerOk(digest, s.configs[d], s.cache);
    EncodeInjective(p.cert, p.key, q.cert, q.key);
    assert digest(Encode(p.cert, p.key)) == digest(Encode(q.cert, q.key)) ==> Encode(p.cert, p.key) == Encode(q.cert, q.key);
  }

  ghost predicate Kept(s: Sys, t: Sys, k: int)
    requires k in s.cache
  {
    k in t.cache && t.cache[k] == s.cache[k] && s.cache[k] in t.live && t.deletes[s.cache[k]] == s.deletes[s.cache[k]]
  }

  lemma NextKeepsIndex(digest: Bytes -> int, s: Sys, t: Sys, k: int)
    requires SysInv(digest, s) && Next(digest, s, t) && k in s.cache
    ensures Kept(s, t, k)
  {
    var step :| Enabled(s, step) && t == Do(digest, s, step);
    CacheKept(digest, s, step, k);
  }

  ghost predicate AllKept(s: Sys, t: Sys) {
    forall k :: k in s.cache ==> Kept(s, t, k)
  }

  lemma NextKeepsAll(digest: Bytes -> int, s: Sys, t: Sys)
    requires SysInv(digest, s) && Next(digest, s, t)
    ensures AllKept(s, t)
  {
    forall k | k in s.cache ensures Kept(s, t, k) {
      NextKeepsIndex(digest, s, t, k);
    }
  }

  lemma {:induction false} AnswerStays(run: seq<Sys>, p: nat, q: nat, k: int)
    requires p <= q < |run| && k in run[p].cache && run[p].cache[k] in run[p].live
    requires forall r :: 0 <= r < |run| - 1 ==> AllKept(run[r], run[r + 1])
    ensures Kept(run[p], run[q], k)
    decreases q
  {
    if p < q {
      AnswerStays(run, p, q - 1, k);
      assert AllKept(run[q - 1], run[q - 1 + 1]);
      assert Kept(run[q - 1], run[q], k);
    }
  }

  /** Over a whole run a cached index stays cached, in the store, undeleted. */
  lemma CachedForEver(digest: Bytes -> int, run: seq<Sys>, p: nat, q: nat, k: int)
    requires IsRun(digest, run) && p <= q < |run| && k in run[p].cache
    ensures Kept(run[p], run[q], k)
  {
    RunsAreSound(digest, run);
    forall r | 0 <= r < |run| - 1 ensures AllKept(run[r], run[r + 1]) {
      assert SysInv(digest, run[r]) && Next(digest, run[r], run[r + 1]);
      NextKeepsAll(digest, run[r], run[r + 1]);
    }
    assert SysInv(digest, run[p]);
    AnswerStays(run, p, q, k);
  }

  /** Every index the store issued is cached once, in flight at one config,
      deleted once per issue, or stuck because its deletion failed. */
  lemma EveryIndexAccountedFor(digest: Bytes -> int, s: Sys, i: nat)
    requires SysInv(digest, s) && s.issues[i] > 0
    ensures s.issues[i] - s.deletes[i] == if i in s.live then 1 else 0
    ensures i in s.live <==> Cached(s.cache, i) || i in s.stuck || Carried(s.configs, i)
    ensures Cached(s.cache, i) ==> !Carried(s.configs, i) && i !in s.stuck
  {
  }

  /** A pair is registered more than once only when its resolutions overlapped:
      when none is in flight and no deletion failed, the store holds exactly the
      cached indexes. */
  lemma StoreIsCacheAtRest(digest: Bytes -> int, s: Sys)
    requires SysInv(digest, s) && s.stuck == {}
    requires forall c :: c in s.configs ==> !s.configs[c].pc.Holding? && !s.configs[c].pc.Deleting?
    ensures forall i :: i in s.live <==> Cached(s.cache, i)
  {
  }

  /** A resolution calls the store exactly if its first look into the cache came
      before the insertion of its pair. */
  lemma CallsStoreIff(digest: Bytes -> int, s: Sys, c: nat)
    requires SysInv(digest, s) && c in s.configs && c in s.looked
    ensures Called(s, c) <==> (Key(digest, s.configs[c].pair) in s.cache ==>
                                 s.looked[c] < s.inserted[Key(digest, s.configs[c].pair)])
  {
    assert ConfigTimesOk(digest, s, c);
  }

  /** Neither resolution had looked for the last time before the other looked first. */
  predicate Overlap(s: Sys, c: nat, d: nat)
    requires c in s.looked && d in s.looked
  {
    (c in s.ended ==> s.looked[d] < s.ended[c]) && (d in s.ended ==> s.looked[c] < s.ended[d])
  }

  /** The resolutions of a pair that looked before it was inserted and whose call of
      the store has returned without an error. */
  ghost function EarlyCallers(digest: Bytes -> int, s: Sys, k: int): set<nat> {
    set c | c in s.configs && EarlyCaller(digest, s, k, c)
  }

  predicate EarlyCaller(digest: Bytes -> int, s: Sys, k: int, c: nat)
    requires c in s.configs
  {
    var pc := s.configs[c].pc;
    && Key(digest, s.configs[c].pair) == k && c in s.looked && Early(digest, s, c)
    && (pc.Holding? || pc.Deleting? || pc.Resolved?)
  }

  /** The store has issued exactly one index to each of them. */
  lemma IssuedPerEarlyCaller(digest: Bytes -> int, s: Sys, k: int)
    requires SysInv(digest, s)
    ensures s.calls[k] == |EarlyCallers(digest, s, k)|
  {
    forall c | c in s.configs && Key(digest, s.configs[c].pair) == k
      ensures c in s.succeeded <==> EarlyCaller(digest, s, k, c)
    {
      assert ConfigTimesOk(digest, s, c);
    }
    assert EarlyCallers(digest, s, k) == WithKey(digest, s, k);
  }

  /** Any two of them overlapped. */
  lemma EarlyCallersOverlap(digest: Bytes -> int, s: Sys, k: int, c: nat, d: nat)
    requires SysInv(digest, s) && c in EarlyCallers(digest, s, k) && d in EarlyCallers(digest, s, k)
    ensures Overlap(s, c, d)
  {
    assert ConfigTimesOk(digest, s, c) && ConfigTimesOk(digest, s, d);
  }

  ghost predicate Rivals(digest: Bytes -> int, s: Sys, k: int, c: nat, d: nat) {
    && c != d && c in EarlyCallers(digest, s, k) && d in EarlyCallers(digest, s, k)
    && c in s.looked && d in s.looked && Overlap(s, c, d)
  }

  /** So a pair is issued more than once exactly if two of its resolutions overlapped,
      both looking before the insertion, and both calls succeeded. */
  lemma IssuedAgainIff(digest: Bytes -> int, s: Sys, k: int)
    requires SysInv(digest, s)
    ensures s.calls[k] > 1 <==> exists c, d :: Rivals(digest, s, k, c, d)
  {
    var all := EarlyCallers(digest, s, k);
    IssuedPerEarlyCaller(digest, s, k);
    if |all| > 1 {
      var c :| c in all;
      var others := all - {c};
      assert |others| > 0;
      var d :| d in others;
      EarlyCallersOverlap(digest, s, k, c, d);
      assert Rivals(digest, s, k, c, d);
    }
    if c, d :| Rivals(digest, s, k, c, d) {
      assert {c, d} <= all;
      Fewer({c, d}, all);
    }
  }

  ghost predicate Reachable(digest: Bytes -> int, s: Sys) {
    Runs.Reachable(Boots, NextOf(digest), s)
  }

  lemma Play(digest: Bytes -> int, s: Sys, step: Step) returns (t: Sys)
    requires Reachable(digest, s) && Enabled(s, step)
    ensures Reachable(digest, t) && t == Do(digest, s, step)
  {
    t := Do(digest, s, step);
    assert Next(digest, s, t);
    Runs.Extend(Boots, NextOf(digest), s, t);
  }

  /** The same bytes can be registered with the store twice: both configs look
      before either stores.  Only one of the indexes is kept. */
  lemma RegisteredTwice(digest: Bytes -> int, p: Pair) returns (s: Sys)
    requires !Anonymous(p)
    ensures Reachable(digest, s) && s.configs == map[0 := Config(p, Holding(10)), 1 := Config(p, Holding(11))]
  {
    Runs.Begin(Boots, NextOf(digest), BOOT);
    s := Play(digest, BOOT, Start(0, p));
    s := Play(digest, s, Start(1, p));
    s := Play(digest, s, FirstLook(0));
    s := Play(digest, s, FirstLook(1));
    assert s.cache == map[] && s.live == {};
    s := Play(digest, s, AddOk(0, 10));
    s := Play(digest, s, AddOk(1, 11));
  }
}
