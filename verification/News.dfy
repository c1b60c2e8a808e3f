/**
 The news tool (src/trading_strands/tools/news.py): cache first, then quota, then the external call.
 Symbols are taken as already upper-cased, and an item is an opaque string.
 */
module NewsTool {
  import opened Prelude
  import opened ToolQuota

  type Items = seq<string>

  const CACHE_TTL_SECONDS := 3600.0
  const TOOL := "news"

  datatype Entry = Entry(cachedAt: int, items: Items)

  type Cache = map<string, Entry>

  /** `NewsCache.get`: the entry of the symbol while it is no older than the time to live. */
  function Lookup(cache: Cache, symbol: string, now: real): Option<Items> {
    if symbol !in cache || now - cache[symbol].cachedAt as real > CACHE_TTL_SECONDS then None
    else Some(cache[symbol].items)
  }

  /** One invocation.  `now` is the clock when the cache is read and `later` when it is written; `reply`
      is what the news service answers, nothing if the request fails. */
  datatype Call = Call(
    strategyId: string, symbol: string, today: string, dailyQuota: int,
    now: real, later: real, reply: Option<Items>)
  {
    function QuotaOf(): Quota { Quota(strategyId, TOOL, today) }
  }

  datatype Outcome = CacheHit(items: Items) | Refused(consumed: int, limit: int) | Failed | Fetched(items: Items)

  datatype NewsState = NewsState(rows: Rows, cache: Cache, fetches: seq<Quota>)

  function AfterCall(s: NewsState, c: Call): (NewsState, Outcome) {
    var cached := Lookup(s.cache, c.symbol, c.now);
    if cached.Some? then (s.(rows := Bump(s.rows, c.QuotaOf().Row(), HitsAttr(TOOL))), CacheHit(cached.value))
    else AfterMiss(s, c)
  }

  function AfterMiss(s: NewsState, c: Call): (NewsState, Outcome) {
    var key := c.QuotaOf().Row();
    if c.dailyQuota <= 0 then (s, Refused(0, c.dailyQuota))
    else
      var consumed := Read(s.rows, key, ConsumedAttr(TOOL)) + 1;
      var reserved := s.(rows := Bump(s.rows, key, ConsumedAttr(TOOL)));
      if consumed > c.dailyQuota then (reserved, Refused(consumed, c.dailyQuota)) else AfterGrant(reserved, c)
  }

  function AfterGrant(s: NewsState, c: Call): (NewsState, Outcome) {
    var called := s.(fetches := s.fetches + [c.QuotaOf()]);
    match c.reply
    case None => (called, Failed)
    case Some(items) => (called.(cache := s.cache[c.symbol := Entry(c.later.Floor, items)]), Fetched(items))
  }

  class NewsCache {
    var entries: Cache

    method Get(symbol: string, now: real) returns (r: Option<Items>)
      ensures r == Lookup(entries, symbol, now)
    {
      if symbol !in entries {
        return None;
      }
      if now - entries[symbol].cachedAt as real > CACHE_TTL_SECONDS {
        return None;
      }
      r := Some(entries[symbol].items);
    }

    method Put(symbol: string, items: Items, now: real)
      modifies this
      ensures entries == old(entries)[symbol := Entry(now.Floor, items)]
    {
      entries := entries[symbol := Entry(now.Floor, items)];
    }
  }

  /** The external service, with a record of who called it. */
  class NewsClient {
    var fetches: seq<Quota>
  }

  method RunNewsFetch(c: Call, quotas: ToolQuotaStore, cache: NewsCache, client: NewsClient)
    returns (r: Outcome)
    modifies quotas, cache, client
    ensures (NewsState(quotas.rows, cache.entries, client.fetches), r)
            == AfterCall(NewsState(old(quotas.rows), old(cache.entries), old(client.fetches)), c)
  {
    var cached := cache.Get(c.symbol, c.now);
    if cached.Some? {
      quotas.RecordCacheHit(c.strategyId, TOOL, c.today);
      return CacheHit(cached.value);
    }
    var reservation := quotas.Reserve(c.strategyId, TOOL, c.dailyQuota, c.today);
    if reservation.QuotaExceeded? {
      return Refused(reservation.consumed, reservation.limit);
    }
    client.fetches := client.fetches + [c.QuotaOf()];
    if c.reply.None? {
      return Failed;
    }
    cache.Put(c.symbol, c.reply.value, c.later);
    r := Fetched(c.reply.value);
  }

  // ---------- Runs ----------

  function RunCalls(calls: seq<Call>): NewsState {
    if |calls| == 0 then NewsState(map[], map[], [])
    else AfterCall(RunCalls(calls[..|calls| - 1]), calls[|calls| - 1]).0
  }

  /** How call `i` of the run ends. */
  function OutcomeOf(calls: seq<Call>, i: nat): Outcome
    requires i < |calls|
  {
    AfterCall(RunCalls(calls[..i]), calls[i]).1
  }

  ghost function Misses(calls: seq<Call>, q: Quota): nat {
    if |calls| == 0 then 0
    else
      var n := |calls| - 1;
      Misses(calls[..n], q)
      + (if calls[n].QuotaOf() == q && !OutcomeOf(calls, n).CacheHit? then 1 else 0)
  }

  ghost predicate FixedQuota(calls: seq<Call>, q: Quota, limit: int) {
    forall c :: c in calls && c.QuotaOf() == q ==> c.dailyQuota == limit
  }

  lemma {:induction false} CallMovesOwnCounters(s: NewsState, c: Call, q: Quota)
    ensures var (t, o) := AfterCall(s, c);
            var mine := c.QuotaOf() == q && c.dailyQuota > 0 && !o.CacheHit?;
            var fits := Read(s.rows, q.Row(), ConsumedAttr(q.tool)) < c.dailyQuota;
            && Read(t.rows, q.Row(), ConsumedAttr(q.tool))
               == Read(s.rows, q.Row(), ConsumedAttr(q.tool)) + (if mine then 1 else 0)
            && multiset(t.fetches)[q] == multiset(s.fetches)[q] + (if mine && fits then 1 else 0)
  {
    hide Lookup, Bump, Read, ConsumedAttr, HitsAttr;
    AttributesAreDistinct(TOOL, q.tool);
    BumpIsLocal(s.rows, c.QuotaOf().Row(), HitsAttr(TOOL), q.Row(), ConsumedAttr(q.tool));
    BumpIsLocal(s.rows, c.QuotaOf().Row(), ConsumedAttr(TOOL), q.Row(), ConsumedAttr(q.tool));
  }

  /** For any run of calls, by any strategies on any days, with a fixed positive quota on `q`: its counter
      is the number of its calls that missed the cache, and exactly the smaller of that number and the
      quota reached the news service.  Failed requests count; cache hits do not. */
  lemma {:induction false} FetchesAreMetered(calls: seq<Call>, q: Quota, limit: int)
    requires limit > 0 && FixedQuota(calls, q, limit)
    ensures var s, misses := RunCalls(calls), Misses(calls, q);
            && Read(s.rows, q.Row(), ConsumedAttr(q.tool)) == misses
            && multiset(s.fetches)[q] == if misses < limit then misses else limit
  {
    hide AfterCall;
    if |calls| > 0 {
      var before, c := calls[..|calls| - 1], calls[|calls| - 1];
      assert c in calls && forall d :: d in before ==> d in calls;
      FetchesAreMetered(before, q, limit);
      CallMovesOwnCounters(RunCalls(before), c, q);
    }
  }

  /** How each call of a run ends, for a fixed quota: one that misses the cache is refused exactly when as many
      of its strategy's calls missed it before that day as the quota allows, or when the quota is not
      positive, and is told how many were counted; otherwise it ends as the service answers. */
  lemma {:induction false} OutcomeIsKnown(calls: seq<Call>, j: nat, limit: int)
    requires j < |calls| && FixedQuota(calls, calls[j].QuotaOf(), limit)
    ensures var c, o, misses := calls[j], OutcomeOf(calls, j), Misses(calls[..j], calls[j].QuotaOf());
            o.CacheHit? ||
            o == if limit <= 0 then Refused(0, limit)
                 else if misses >= limit then Refused(misses + 1, limit)
                 else if c.reply.None? then Failed
                 else Fetched(c.reply.value)
  {
    hide Lookup, RunCalls, Misses, HitsAttr, ConsumedAttr, Bump, Read;
    var before, c := calls[..j], calls[j];
    assert c in calls && forall d :: d in before ==> d in calls;
    if limit > 0 {
      FetchesAreMetered(before, c.QuotaOf(), limit);
    }
  }

  ghost predicate InOrder(calls: seq<Call>) {
    && (forall i :: 0 <= i < |calls| ==> calls[i].now <= calls[i].later)
    && (forall i, j :: 0 <= i < j < |calls| ==> calls[i].later <= calls[j].now)
  }

  /** Once fetched, a symbol stays cached with a stamp no older than the fetch. */
  lemma {:induction false} StampNeverGoesBack(calls: seq<Call>, i: nat)
    requires i < |calls| && InOrder(calls) && OutcomeOf(calls, i).Fetched?
    ensures var cache, sym := RunCalls(calls).cache, calls[i].symbol;
            sym in cache && cache[sym].cachedAt >= calls[i].later.Floor
  {
    hide AfterCall;
    var n := |calls| - 1;
    CallCaches(RunCalls(calls[..n]), calls[n], calls[i].symbol);
    if i < n {
      var before := calls[..n];
      assert before[..i] == calls[..i];
      StampNeverGoesBack(before, i);
      FloorMonotone(calls[i].later, calls[n].later);
    }
  }

  lemma FloorMonotone(a: real, b: real)
    requires a <= b
    ensures a.Floor <= b.Floor
  {
  }

  /** The cache shields the service: after a successful fetch no call for the same symbol, by whichever
      strategy, leaves the cache again until the time to live has run out. */
  lemma {:induction false} NoRefetchWhileFresh(calls: seq<Call>, i: nat, j: nat)
    requires i < j < |calls| && InOrder(calls) && calls[i].symbol == calls[j].symbol
    requires OutcomeOf(calls, i).Fetched?
    ensures calls[j].now <= calls[i].later.Floor as real + 3600.0 ==> OutcomeOf(calls, j).CacheHit?
  {
    var before := calls[..j];
    assert before[..i] == calls[..i];
    StampNeverGoesBack(before, i);
  }

  /** Call `i` fetched the symbol and no call of the first `n` after it did. */
  ghost predicate LastFetch(calls: seq<Call>, n: nat, i: nat, symbol: string)
    requires n <= |calls|
  {
    && i < n && calls[i].symbol == symbol && OutcomeOf(calls, i).Fetched?
    && forall k :: i < k < n && calls[k].symbol == symbol ==> !OutcomeOf(calls, k).Fetched?
  }

  lemma CallCaches(s: NewsState, c: Call, symbol: string)
    ensures var (t, o) := AfterCall(s, c);
            && (o.Fetched? ==> c.reply.Some?)
            && if c.symbol == symbol && o.Fetched? then
                 symbol in t.cache && t.cache[symbol] == Entry(c.later.Floor, c.reply.value)
               else
                 && (symbol in t.cache <==> symbol in s.cache)
                 && (symbol in t.cache ==> t.cache[symbol] == s.cache[symbol])
  {
  }

  lemma PrefixOutcomes(calls: seq<Call>, n: nat)
    requires n <= |calls|
    ensures forall k: nat :: k < n ==> OutcomeOf(calls[..n], k) == OutcomeOf(calls, k)
    ensures forall i: nat, symbol :: LastFetch(calls[..n], n, i, symbol) <==> LastFetch(calls, n, i, symbol)
  {
    hide AfterCall;
    assert forall k: nat :: k < n ==> calls[..n][..k] == calls[..k];
  }

  /** What the cache holds of a symbol: what the service answered to its last fetch, stamped with the whole
      second of it, or nothing if it was never fetched. */
  lemma {:induction false} CacheIsLastFetch(calls: seq<Call>, symbol: string)
    ensures var cache := RunCalls(calls).cache;
            && (symbol !in cache ==>
                  forall k: nat :: k < |calls| && calls[k].symbol == symbol ==> !OutcomeOf(calls, k).Fetched?)
            && (symbol in cache ==>
                  exists i: nat ::
                    && LastFetch(calls, |calls|, i, symbol) && calls[i].reply.Some?
                    && cache[symbol] == Entry(calls[i].later.Floor, calls[i].reply.value))
  {
    hide AfterCall, OutcomeOf;
    if |calls| > 0 {
      var n := |calls| - 1;
      var before := calls[..n];
      CacheIsLastFetch(before, symbol);
      PrefixOutcomes(calls, n);
      CallCaches(RunCalls(before), calls[n], symbol);
      LastOutcome(calls);
      if calls[n].symbol == symbol && OutcomeOf(calls, n).Fetched? {
        assert LastFetch(calls, |calls|, n, symbol);
      } else if symbol in RunCalls(before).cache {
        var i: nat :| LastFetch(before, n, i, symbol) && before[i].reply.Some?
                      && RunCalls(before).cache[symbol] == Entry(before[i].later.Floor, before[i].reply.value);
        assert LastFetch(calls, n, i, symbol);
        assert LastFetch(calls, |calls|, i, symbol);
      }
    }
  }

  lemma LastOutcome(calls: seq<Call>)
    requires |calls| > 0
    ensures OutcomeOf(calls, |calls| - 1) == AfterCall(RunCalls(calls[..|calls| - 1]), calls[|calls| - 1]).1
  {
  }

  /** The cache answers with what was fetched and with nothing older than an hour: over any run a call hits
      the cache exactly when its symbol was fetched before and at most 3600 seconds have passed since the
      stamp of the last fetch, and it then gets what the service answered to that fetch. */
  lemma {:induction false} HitIffLastFetchIsFresh(calls: seq<Call>, j: nat)
    requires j < |calls|
    ensures OutcomeOf(calls, j).CacheHit? <==>
              exists i: nat ::
                && LastFetch(calls, j, i, calls[j].symbol)
                && calls[j].now - calls[i].later.Floor as real <= 3600.0
    ensures forall i: nat :: OutcomeOf(calls, j).CacheHit? && LastFetch(calls, j, i, calls[j].symbol) ==>
              calls[i].reply == Some(OutcomeOf(calls, j).items)
  {
    var before, symbol := calls[..j], calls[j].symbol;
    CacheIsLastFetch(before, symbol);
    PrefixOutcomes(calls, j);
    assert forall i: nat, k: nat :: LastFetch(calls, j, i, symbol) && LastFetch(calls, j, k, symbol) ==> i == k;
  }

  // ---------- Interleaved invocations ----------

  /** What an invocation does next; between any two of its steps others may take theirs. */
  datatype Stage =
    | ToLook                   // read the cache
    | ToCount(items: Items)    // record the hit
    | ToReserve                // reserve quota
    | ToFetch                  // call the service
    | ToStore(items: Items)    // write the cache
    | Done(outcome: Outcome)

  datatype Invocation = Invocation(call: Call, stage: Stage)

  datatype Newsroom = Newsroom(rows: Rows, cache: Cache, fetches: seq<Quota>, running: seq<Invocation>)

  datatype Step = Arrive(call: Call) | Advance(i: nat)

  function AfterStage(f: Newsroom, i: nat): Newsroom
    requires i < |f.running|
  {
    var c, stage := f.running[i].call, f.running[i].stage;
    var key := c.QuotaOf().Row();
    match stage
    case ToLook =>
      var cached := Lookup(f.cache, c.symbol, c.now);
      At(f, i, if cached.Some? then ToCount(cached.value) else ToReserve)
    case ToCount(items) => At(f.(rows := Bump(f.rows, key, HitsAttr(TOOL))), i, Done(CacheHit(items)))
    case ToReserve =>
      if c.dailyQuota <= 0 then At(f, i, Done(Refused(0, c.dailyQuota)))
      else
        var consumed := Read(f.rows, key, ConsumedAttr(TOOL)) + 1;
        At(f.(rows := Bump(f.rows, key, ConsumedAttr(TOOL))), i,
           if consumed > c.dailyQuota then Done(Refused(consumed, c.dailyQuota)) else ToFetch)
    case ToFetch =>
      At(f.(fetches := f.fetches + [c.QuotaOf()]), i,
         match c.reply case None => Done(Failed) case Some(items) => ToStore(items))
    case ToStore(items) => At(f.(cache := f.cache[c.symbol := Entry(c.later.Floor, items)]), i, Done(Fetched(items)))
    case Done(_) => f
  }

  function At(f: Newsroom, i: nat, stage: Stage): Newsroom
    requires i < |f.running|
  {
    f.(running := f.running[i := f.running[i].(stage := stage)])
  }

  function NextInNewsroom(f: Newsroom, step: Step): Newsroom {
    match step
    case Arrive(c) => f.(running := f.running + [Invocation(c, ToLook)])
    case Advance(i) => if i < |f.running| then AfterStage(f, i) else f
  }

  function RunNewsroom(steps: seq<Step>): Newsroom {
    if |steps| == 0 then Newsroom(map[], map[], [], [])
    else NextInNewsroom(RunNewsroom(steps[..|steps| - 1]), steps[|steps| - 1])
  }

  lemma UninterruptedFetch(f: Newsroom, i: nat)
    requires i < |f.running| && f.running[i].stage.ToFetch?
    ensures var g := AfterStage(AfterStage(f, i), i);
            var (t, o) := AfterGrant(NewsState(f.rows, f.cache, f.fetches), f.running[i].call);
            && NewsState(g.rows, g.cache, g.fetches) == t
            && g.running == f.running[i := f.running[i].(stage := Done(o))]
  {
  }

  lemma UninterruptedMiss(f: Newsroom, i: nat)
    requires i < |f.running| && f.running[i].stage.ToReserve?
    ensures var g := AfterStage(AfterStage(AfterStage(f, i), i), i);
            var (t, o) := AfterMiss(NewsState(f.rows, f.cache, f.fetches), f.running[i].call);
            && NewsState(g.rows, g.cache, g.fetches) == t
            && g.running == f.running[i := f.running[i].(stage := Done(o))]
  {
    hide Bump, Read, ConsumedAttr, AfterGrant;
    var asked := AfterStage(f, i);
    assert asked.running[i].call == f.running[i].call;
    if asked.running[i].stage.ToFetch? {
      hide AfterStage;
      UninterruptedFetch(asked, i);
    }
  }

  /** An invocation that nobody interrupts is the whole call. */
  lemma UninterruptedIsCall(f: Newsroom, i: nat)
    requires i < |f.running| && f.running[i].stage.ToLook?
    ensures var g := AfterStage(AfterStage(AfterStage(AfterStage(f, i), i), i), i);
            var (t, o) := AfterCall(NewsState(f.rows, f.cache, f.fetches), f.running[i].call);
            && NewsState(g.rows, g.cache, g.fetches) == t
            && g.running == f.running[i := f.running[i].(stage := Done(o))]
  {
    hide Bump, HitsAttr, Lookup, AfterMiss;
    var looked := AfterStage(f, i);
    assert looked.running[i].call == f.running[i].call;
    if looked.running[i].stage.ToReserve? {
      hide AfterStage;
      UninterruptedMiss(looked, i);
    }
  }

  function Count(p: Invocation -> bool, s: seq<Invocation>): nat {
    if |s| == 0 then 0 else Count(p, s[..|s| - 1]) + (if p(s[|s| - 1]) then 1 else 0)
  }

  lemma {:induction false} CountUpdate(p: Invocation -> bool, s: seq<Invocation>, i: nat, x: Invocation)
    requires i < |s|
    ensures Count(p, s[i := x]) == Count(p, s) - (if p(s[i]) then 1 else 0) + (if p(x) then 1 else 0)
  {
    var n := |s| - 1;
    if i < n {
      assert s[i := x][..n] == s[..n][i := x];
      CountUpdate(p, s[..n], i, x);
    } else {
      assert s[i := x][..n] == s[..n];
    }
  }

  lemma CountAppend(p: Invocation -> bool, s: seq<Invocation>, x: Invocation)
    ensures Count(p, s + [x]) == Count(p, s) + (if p(x) then 1 else 0)
  {
    assert (s + [x])[..|s|] == s;
  }

  /** Past its reservation, granted or not. */
  predicate HasReserved(stage: Stage) {
    stage.ToFetch? || stage.ToStore? || (stage.Done? && !stage.outcome.CacheHit?)
  }

  predicate WasGranted(stage: Stage) {
    stage.ToFetch? || stage.ToStore? || (stage.Done? && (stage.outcome.Failed? || stage.outcome.Fetched?))
  }

  function Reserved(q: Quota): Invocation -> bool { (v: Invocation) => v.call.QuotaOf() == q && HasReserved(v.stage) }

  function Granted(q: Quota): Invocation -> bool { (v: Invocation) => v.call.QuotaOf() == q && WasGranted(v.stage) }

  function Waiting(q: Quota): Invocation -> bool { (v: Invocation) => v.call.QuotaOf() == q && v.stage.ToFetch? }

  ghost predicate FixedInNewsroom(f: Newsroom, q: Quota, limit: int) {
    forall v :: v in f.running && v.call.QuotaOf() == q ==> v.call.dailyQuota == limit
  }

  /** What every step of every invocation keeps, for one strategy, tool and day. */
  ghost predicate Metered(f: Newsroom, q: Quota, limit: int) {
    var reserved := Count(Reserved(q), f.running);
    && Read(f.rows, q.Row(), ConsumedAttr(q.tool)) == reserved
    && Count(Granted(q), f.running) == (if reserved < limit then reserved else limit)
    && multiset(f.fetches)[q] + Count(Waiting(q), f.running) == Count(Granted(q), f.running)
  }

  lemma StageMovesOwnCounters(f: Newsroom, i: nat, q: Quota)
    requires i < |f.running|
    ensures var g, v := AfterStage(f, i), f.running[i];
            var mine := v.call.QuotaOf() == q;
            && Read(g.rows, q.Row(), ConsumedAttr(q.tool))
               == Read(f.rows, q.Row(), ConsumedAttr(q.tool))
                  + (if mine && v.stage.ToReserve? && v.call.dailyQuota > 0 then 1 else 0)
            && multiset(g.fetches)[q] == multiset(f.fetches)[q] + (if mine && v.stage.ToFetch? then 1 else 0)
  {
    hide Lookup, Bump, Read, ConsumedAttr, HitsAttr;
    AttributesAreDistinct(TOOL, q.tool);
    var key := f.running[i].call.QuotaOf().Row();
    BumpIsLocal(f.rows, key, HitsAttr(TOOL), q.Row(), ConsumedAttr(q.tool));
    BumpIsLocal(f.rows, key, ConsumedAttr(TOOL), q.Row(), ConsumedAttr(q.tool));
    assert q.tool == TOOL ==> ConsumedAttr(q.tool) == ConsumedAttr(TOOL);
  }

  lemma {:induction false} StageKeepsMetered(f: Newsroom, i: nat, q: Quota, limit: int)
    requires i < |f.running| && limit > 0 && Metered(f, q, limit) && FixedInNewsroom(f, q, limit)
    ensures Metered(AfterStage(f, i), q, limit)
  {
    hide Count, Lookup, Bump, ConsumedAttr, HitsAttr;
    var g, v := AfterStage(f, i), f.running[i];
    assert v in f.running;
    StageMovesOwnCounters(f, i, q);
    if !v.stage.Done? {
      var x := g.running[i];
      assert g.running == f.running[i := x] && x.call == v.call;
      CountUpdate(Reserved(q), f.running, i, x);
      CountUpdate(Granted(q), f.running, i, x);
      CountUpdate(Waiting(q), f.running, i, x);
    }
  }

  /** Fetches are metered whatever the interleaving: with any invocations in flight, of any strategies and
      days, each anywhere between reading the cache and writing it, and a fixed positive quota on `q`, its
      counter is the number of its invocations that have reserved, no more than the quota ever reach the
      service, and once all of `q` are done exactly the smaller of the quota and its cache misses have. */
  lemma {:induction false} InterleavedFetchesAreMetered(steps: seq<Step>, q: Quota, limit: int)
    requires limit > 0
    requires forall s :: s in steps && s.Arrive? && s.call.QuotaOf() == q ==> s.call.dailyQuota == limit
    ensures var f := RunNewsroom(steps);
            var reserved := Count(Reserved(q), f.running);
            && FixedInNewsroom(f, q, limit)
            && Read(f.rows, q.Row(), ConsumedAttr(q.tool)) == reserved
            && multiset(f.fetches)[q] <= (if reserved < limit then reserved else limit)
            && ((forall v :: v in f.running && v.call.QuotaOf() == q ==> v.stage.Done?) ==>
                  multiset(f.fetches)[q] == if reserved < limit then reserved else limit)
  {
    hide Count;
    StaysMetered(steps, q, limit);
    var f := RunNewsroom(steps);
    if forall v :: v in f.running && v.call.QuotaOf() == q ==> v.stage.Done? {
      NoneWaits(f.running, q);
    }
  }

  lemma {:induction false} NoneWaits(running: seq<Invocation>, q: Quota)
    requires forall v :: v in running && v.call.QuotaOf() == q ==> v.stage.Done?
    ensures Count(Waiting(q), running) == 0
  {
    if |running| > 0 {
      var n := |running| - 1;
      assert running[n] in running && forall v :: v in running[..n] ==> v in running;
      NoneWaits(running[..n], q);
    }
  }

  lemma {:induction false} StaysMetered(steps: seq<Step>, q: Quota, limit: int)
    requires limit > 0
    requires forall s :: s in steps && s.Arrive? && s.call.QuotaOf() == q ==> s.call.dailyQuota == limit
    ensures Metered(RunNewsroom(steps), q, limit) && FixedInNewsroom(RunNewsroom(steps), q, limit)
  {
    hide AfterStage, Metered;
    if |steps| > 0 {
      var before, step := steps[..|steps| - 1], steps[|steps| - 1];
      assert step in steps && forall s :: s in before ==> s in steps;
      StaysMetered(before, q, limit);
      var f := RunNewsroom(before);
      match step {
        case Arrive(c) => ArrivalKeepsMetered(f, c, q, limit);
        case Advance(i) =>
          if i < |f.running| {
            StageKeepsMetered(f, i, q, limit);
            StageKeepsCalls(f, i, q, limit);
          }
      }
    } else {
      NothingMetered(q, limit);
    }
  }

  lemma ArrivalKeepsMetered(f: Newsroom, c: Call, q: Quota, limit: int)
    requires Metered(f, q, limit)
    ensures Metered(NextInNewsroom(f, Arrive(c)), q, limit)
  {
    var x := Invocation(c, ToLook);
    CountAppend(Reserved(q), f.running, x);
    CountAppend(Granted(q), f.running, x);
    CountAppend(Waiting(q), f.running, x);
  }

  lemma StageKeepsCalls(f: Newsroom, i: nat, q: Quota, limit: int)
    requires i < |f.running| && FixedInNewsroom(f, q, limit)
    ensures FixedInNewsroom(AfterStage(f, i), q, limit)
  {
    assert f.running[i] in f.running;
  }

  lemma NothingMetered(q: Quota, limit: int)
    requires limit > 0
    ensures Metered(Newsroom(map[], map[], [], []), q, limit)
  {
  }
}
