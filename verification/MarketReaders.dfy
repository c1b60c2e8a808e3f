/**
 Reading the market data island: a range of bars (src/trading_strands/marketdata_store/store.py) and the
 freshest price (src/trading_strands/marketdata/store_provider.py).

 The minutes of a row come in no particular order.
 */
module MarketReaders {
  import opened Prelude
  import opened MarketData

  type Stamped = (int, Bar)

  /** Every bar sits in the row and minute of its last observation. */
  ghost predicate WellPlaced(table: Table) {
    forall k :: BarAt(table, k).Some? ==>
      HourOf(BarAt(table, k).value.lastTs) == k.hour && MinuteOf(BarAt(table, k).value.lastTs) == k.minute
  }

  /** The writer places its bars so, whatever events it has seen. */
  lemma {:induction false} WriterPlacesBars(events: seq<Event>, k: Key)
    ensures var m := RunEvents(events, k);
            && (forall t :: t in m.buffered ==> KeyOf(t) == k)
            && (m.stored.Some? ==>
                  HourOf(m.stored.value.lastTs) == k.hour && MinuteOf(m.stored.value.lastTs) == k.minute)
  {
    if |events| > 0 {
      var before := RunEvents(events[..|events| - 1], k);
      WriterPlacesBars(events[..|events| - 1], k);
      if |before.buffered| > 0 {
        assert before.buffered[|before.buffered| - 1] in before.buffered;
      }
    }
  }

  // ---------- A range of bars ----------

  ghost predicate SortedByTs(out: seq<Stamped>) {
    forall i, j :: 0 <= i < j < |out| ==> out[i].0 <= out[j].0
  }

  ghost predicate StrictlyAscending(out: seq<Stamped>) {
    forall i, j :: 0 <= i < j < |out| ==> out[i].0 < out[j].0
  }

  ghost predicate DistinctTs(out: seq<Stamped>) {
    forall i, j :: 0 <= i < j < |out| ==> out[i].0 != out[j].0
  }

  function InsertByTs(x: Stamped, s: seq<Stamped>): seq<Stamped> {
    if |s| == 0 then [x]
    else if x.0 < s[|s| - 1].0 then InsertByTs(x, s[..|s| - 1]) + [s[|s| - 1]]
    else s + [x]
  }

  /** `out.sort(key=ts)`, a stable sort. */
  function SortByTs(s: seq<Stamped>): seq<Stamped> {
    if |s| == 0 then [] else InsertByTs(s[|s| - 1], SortByTs(s[..|s| - 1]))
  }

  lemma {:induction false} InsertKeepsElements(x: Stamped, s: seq<Stamped>)
    ensures forall y :: y in InsertByTs(x, s) <==> y == x || y in s
  {
    if |s| > 0 {
      var init, last := s[..|s| - 1], s[|s| - 1];
      assert s == init + [last];
      InsertKeepsElements(x, init);
    }
  }

  lemma {:induction false} InsertKeepsOrder(x: Stamped, s: seq<Stamped>)
    requires SortedByTs(s)
    ensures SortedByTs(InsertByTs(x, s))
  {
    if |s| > 0 {
      var init, last := s[..|s| - 1], s[|s| - 1];
      InsertKeepsOrder(x, init);
      InsertKeepsElements(x, init);
      var t := InsertByTs(x, init);
      forall i | 0 <= i < |t| && x.0 < last.0
        ensures t[i].0 <= last.0
      {
        assert t[i] in t;
      }
    }
  }

  lemma {:induction false} InsertKeepsDistinct(x: Stamped, s: seq<Stamped>)
    requires DistinctTs(s) && forall i :: 0 <= i < |s| ==> s[i].0 != x.0
    ensures DistinctTs(InsertByTs(x, s))
  {
    if |s| > 0 && x.0 < s[|s| - 1].0 {
      var init, last := s[..|s| - 1], s[|s| - 1];
      InsertKeepsDistinct(x, init);
      var t := InsertByTs(x, init);
      forall i | 0 <= i < |t|
        ensures t[i].0 != last.0
      {
        InsertKeepsElements(x, init);
        assert t[i] in t;
      }
    }
  }

  lemma {:induction false} SortIsRight(s: seq<Stamped>)
    ensures forall y :: y in SortByTs(s) <==> y in s
    ensures SortedByTs(SortByTs(s))
    ensures DistinctTs(s) ==> StrictlyAscending(SortByTs(s))
  {
    if |s| > 0 {
      var n := |s| - 1;
      var rest := SortByTs(s[..n]);
      SortIsRight(s[..n]);
      InsertKeepsElements(s[n], rest);
      InsertKeepsOrder(s[n], rest);
      assert s == s[..n] + [s[n]];
      if DistinctTs(s) {
        forall j | 0 <= j < |rest|
          ensures rest[j].0 != s[n].0
        {
          assert rest[j] in s[..n];
        }
        assert DistinctTs(rest);
        InsertKeepsDistinct(s[n], rest);
      }
    }
  }

  ghost predicate InRange(x: Stamped, startTs: real, endTs: real) {
    x.0 == x.1.lastTs && startTs <= x.0 as real <= endTs
  }

  ghost predicate FromRow(row: map<int, Bar>, x: Stamped) {
    exists m :: m in row && row[m] == x.1
  }

  /** The bars of one row that fall in the window. */
  method CollectHour(row: map<int, Bar>, startTs: real, endTs: real) returns (found: seq<Stamped>)
    ensures forall x :: x in found <==> FromRow(row, x) && InRange(x, startTs, endTs)
    ensures (forall m, m' :: m in row && m' in row && m != m' ==> row[m].lastTs != row[m'].lastTs) ==>
              DistinctTs(found)
  {
    found := [];
    var unread := row.Keys;
    while unread != {}
      invariant unread <= row.Keys
      invariant forall x :: x in found <==>
        InRange(x, startTs, endTs) && exists m :: m in row.Keys - unread && row[m] == x.1
      invariant (forall m, m' :: m in row && m' in row && m != m' ==> row[m].lastTs != row[m'].lastTs) ==>
        DistinctTs(found)
    {
      var m :| m in unread;
      unread := unread - {m};
      var lastTs := row[m].lastTs;
      if startTs <= lastTs as real <= endTs {
        found := found + [(lastTs, row[m])];
      }
    }
  }

  /** The hours `get_range` visits: from the hour of the start up to the last one begun by the end. */
  ghost predicate Visited(hour: int, startTs: real, endTs: real) {
    (startTs / 3600.0).Floor <= hour && (hour * 3600) as real <= endTs
  }

  ghost predicate Picked(table: Table, symbol: string, k: Key, x: Stamped, startTs: real, endTs: real) {
    k.symbol == symbol && BarAt(table, k) == Some(x.1) && InRange(x, startTs, endTs)
  }

  /** The list holds precisely the symbol's bars of the window. */
  ghost predicate ListsWindow(table: Table, symbol: string, startTs: real, endTs: real, out: seq<Stamped>) {
    forall x :: x in out <==> exists k :: Picked(table, symbol, k, x, startTs, endTs)
  }

  /** What `GetRange` promises of a list. */
  ghost predicate PromisedRange(table: Table, symbol: string, startTs: real, endTs: real, out: seq<Stamped>) {
    WellPlaced(table) ==> StrictlyAscending(out) && ListsWindow(table, symbol, startTs, endTs, out)
  }

  /** Reads one row per hour of the window; always terminates. */
  method GetRange(store: MarketDataStore, symbol: string, startTs: real, endTs: real) returns (out: seq<Stamped>)
    ensures SortedByTs(out)
    ensures forall x :: x in out <==>
              exists k :: Picked(store.table, symbol, k, x, startTs, endTs) && Visited(k.hour, startTs, endTs)
    ensures PromisedRange(store.table, symbol, startTs, endTs, out)
  {
    out := [];
    var first := (startTs / 3600.0).Floor;
    var h := first * 3600;
    ghost var hour := first;
    while h as real <= endTs
      invariant h == hour * 3600 && first <= hour
      invariant hour == first || ((hour - 1) * 3600) as real <= endTs
      invariant forall x :: x in out <==>
        exists k :: Picked(store.table, symbol, k, x, startTs, endTs) && first <= k.hour < hour
      invariant WellPlaced(store.table) ==> DistinctTs(out)
      decreases endTs.Floor - h
    {
      var row := GetHour(store.table, symbol, h / 3600);
      var found := CollectHour(row, startTs, endTs);
      RowBars(store.table, symbol, hour, startTs, endTs);
      assert forall x :: x in out + found <==> x in out || x in found;
      if WellPlaced(store.table) {
        RowsAreDistinct(store.table, symbol, first, hour, startTs, endTs, out, found);
      }
      out := out + found;
      h := h + 3600;
      hour := hour + 1;
    }
    SortIsRight(out);
    out := SortByTs(out);
    if WellPlaced(store.table) {
      forall k, x | Picked(store.table, symbol, k, x, startTs, endTs)
        ensures Visited(k.hour, startTs, endTs)
      {
        WindowIsVisited(store.table, symbol, k, x, startTs, endTs);
      }
    }
  }

  /** What a row holds, said with keys. */
  lemma RowBars(table: Table, symbol: string, hour: int, startTs: real, endTs: real)
    ensures forall x :: FromRow(GetHour(table, symbol, hour), x) && InRange(x, startTs, endTs)
              <==> exists k :: Picked(table, symbol, k, x, startTs, endTs) && k.hour == hour
  {
    forall x
      ensures FromRow(GetHour(table, symbol, hour), x) && InRange(x, startTs, endTs)
              <==> exists k :: Picked(table, symbol, k, x, startTs, endTs) && k.hour == hour
    {
      var row := GetHour(table, symbol, hour);
      if FromRow(row, x) && InRange(x, startTs, endTs) {
        var m :| m in row && row[m] == x.1;
        assert Picked(table, symbol, Key(symbol, hour, m), x, startTs, endTs);
      }
      if k :| Picked(table, symbol, k, x, startTs, endTs) && k.hour == hour {
        assert k.minute in row && row[k.minute] == x.1;
      }
    }
  }

  /** In a well-placed table no two bars of a symbol end at the same instant. */
  lemma RowsAreDistinct(
    table: Table, symbol: string, first: int, hour: int, startTs: real, endTs: real,
    out: seq<Stamped>, found: seq<Stamped>)
    requires WellPlaced(table) && DistinctTs(out)
    requires forall x :: x in out ==>
               exists k :: Picked(table, symbol, k, x, startTs, endTs) && first <= k.hour < hour
    requires forall x :: x in found ==> FromRow(GetHour(table, symbol, hour), x) && InRange(x, startTs, endTs)
    requires var row := GetHour(table, symbol, hour);
             (forall m, m' :: m in row && m' in row && m != m' ==> row[m].lastTs != row[m'].lastTs) ==>
               DistinctTs(found)
    ensures DistinctTs(out + found)
  {
    var row := GetHour(table, symbol, hour);
    forall m, m' | m in row && m' in row && m != m'
      ensures row[m].lastTs != row[m'].lastTs
    {
      assert BarAt(table, Key(symbol, hour, m)) == Some(row[m]);
      assert BarAt(table, Key(symbol, hour, m')) == Some(row[m']);
    }
    forall i, j | 0 <= i < |out| && 0 <= j < |found|
      ensures out[i].0 != found[j].0
    {
      assert out[i] in out && found[j] in found;
      var k :| Picked(table, symbol, k, out[i], startTs, endTs) && first <= k.hour < hour;
      var m :| m in row && row[m] == found[j].1;
      assert BarAt(table, Key(symbol, hour, m)) == Some(row[m]);
    }
  }

  /** In a well-placed table no bar of the window lies outside the hours visited. */
  lemma WindowIsVisited(table: Table, symbol: string, k: Key, x: Stamped, startTs: real, endTs: real)
    requires WellPlaced(table) && Picked(table, symbol, k, x, startTs, endTs)
    ensures Visited(k.hour, startTs, endTs)
  {
    var ts := x.0;
    assert BarAt(table, k).Some? && k.hour == ts / 3600;
    assert k.hour * 3600 <= ts < (k.hour + 1) * 3600;
    var s := startTs / 3600.0;
    assert s * 3600.0 == startTs;
    assert s < (k.hour + 1) as real;
  }

  /** The table is what the writer has made of the events. */
  ghost predicate Built(table: Table, events: seq<Event>) {
    forall k :: BarAt(table, k) == RunEvents(events, k).stored
  }

  lemma {:induction false} BuiltIsWellPlaced(table: Table, events: seq<Event>)
    requires Built(table, events)
    ensures WellPlaced(table)
  {
    hide RunEvents;
    forall k
      ensures BarAt(table, k).Some? ==>
                HourOf(BarAt(table, k).value.lastTs) == k.hour && MinuteOf(BarAt(table, k).value.lastTs) == k.minute
    {
      WriterPlacesBars(events, k);
    }
  }

  /** End to end: over whatever the writer has stored, after any events, a range read gives precisely the
      symbol's bars whose last observation lies between start and end, in strictly ascending order. */
  lemma {:induction false} RangeIsExact(
    table: Table, events: seq<Event>, symbol: string, startTs: real, endTs: real, out: seq<Stamped>)
    requires Built(table, events) && PromisedRange(table, symbol, startTs, endTs, out)
    ensures StrictlyAscending(out)
    ensures forall x :: x in out <==>
              exists k: Key ::
                k.symbol == symbol && RunEvents(events, k).stored == Some(x.1) && InRange(x, startTs, endTs)
  {
    hide RunEvents, WellPlaced;
    BuiltIsWellPlaced(table, events);
    forall x
      ensures (exists k :: Picked(table, symbol, k, x, startTs, endTs)) <==>
              exists k: Key ::
                k.symbol == symbol && RunEvents(events, k).stored == Some(x.1) && InRange(x, startTs, endTs)
    {
      if k: Key :| k.symbol == symbol && RunEvents(events, k).stored == Some(x.1) && InRange(x, startTs, endTs) {
        assert Picked(table, symbol, k, x, startTs, endTs);
      }
    }
  }

  // ---------- The freshest price ----------

  /** The row looked at: the current hour's, or the previous one's if the current one has no bar. */
  function Seen(table: Table, symbol: string, now: real): map<int, Bar> {
    var bars := GetHour(table, symbol, (now / 3600.0).Floor);
    if bars == map[] then GetHour(table, symbol, ((now - 3600.0) / 3600.0).Floor) else bars
  }

  /** `r` is the close of the newest bar of the row, if that is fresh enough. */
  ghost predicate FreshFrom(row: map<int, Bar>, now: real, staleness: real, r: Option<real>) {
    match r
    case None =>
      forall m :: m in row && row[m].lastTs > 0 ==> now - row[m].lastTs as real > staleness
    case Some(price) =>
      exists m :: m in row && row[m].lastTs > 0 && row[m].close == price
        && now - row[m].lastTs as real <= staleness
        && forall m' :: m' in row ==> row[m'].lastTs <= row[m].lastTs
  }

  method ReadFreshFromStore(store: MarketDataStore, symbol: string, now: real, staleness: real)
    returns (r: Option<real>)
    ensures FreshFrom(Seen(store.table, symbol, now), now, staleness, r)
  {
    var bars := GetHour(store.table, symbol, (now / 3600.0).Floor);
    if bars == map[] {
      bars := GetHour(store.table, symbol, ((now - 3600.0) / 3600.0).Floor);
      if bars == map[] {
        return None;
      }
    }
    var bestTs := 0;
    var bestBar: Option<Bar> := None;
    ghost var best := 0;
    var unread := bars.Keys;
    while unread != {}
      invariant unread <= bars.Keys
      invariant bestTs >= 0 && (bestBar.None? ==> bestTs == 0)
      invariant bestBar.Some? ==> best in bars && bars[best] == bestBar.value && bestTs == bestBar.value.lastTs > 0
      invariant forall m :: m in bars.Keys - unread ==> bars[m].lastTs <= bestTs
    {
      ghost var some := SomeElement(unread);
      var m :| m in unread;
      unread := unread - {m};
      if bars[m].lastTs > bestTs {
        bestTs := bars[m].lastTs;
        bestBar := Some(bars[m]);
        best := m;
      }
    }
    if bestBar.None? || now - bestTs as real > staleness {
      return None;
    }
    assert bars[best].lastTs == bestTs;
    r := Some(bestBar.value.close);
  }

  /** The store's freshest price, from the broker when the store has none; no answer if that fails too. */
  method GetPrice(store: MarketDataStore, symbol: string, now: real, staleness: real, quote: Option<real>)
    returns (price: Option<real>)
    ensures exists r :: FreshFrom(Seen(store.table, symbol, now), now, staleness, r)
              && price == if r.Some? then r else quote
  {
    var cached := ReadFreshFromStore(store, symbol, now, staleness);
    if cached.Some? {
      return cached;
    }
    price := quote;
  }

  /** A store whose bars are well placed, after the epoch and not in the future. */
  ghost predicate Plausible(table: Table, now: real) {
    && WellPlaced(table)
    && forall k :: BarAt(table, k).Some? ==>
         0 < BarAt(table, k).value.lastTs && BarAt(table, k).value.lastTs as real <= now
  }

  /** `r` is the close of the symbol's newest bar in the whole store if that bar is fresh enough, and
      nothing otherwise. */
  ghost predicate IsNewestPrice(table: Table, symbol: string, now: real, staleness: real, r: Option<real>) {
    match r
    case None =>
      forall k: Key :: k.symbol == symbol && BarAt(table, k).Some? ==>
        now - BarAt(table, k).value.lastTs as real > staleness
    case Some(price) =>
      exists k: Key :: k.symbol == symbol && BarAt(table, k).Some?
        && BarAt(table, k).value.close == price && now - BarAt(table, k).value.lastTs as real <= staleness
        && forall k': Key :: k'.symbol == symbol && BarAt(table, k').Some? ==>
             BarAt(table, k').value.lastTs <= BarAt(table, k).value.lastTs
  }

  lemma HourOfNow(now: real, ts: int)
    requires ts as real <= now
    ensures ((now - 3600.0) / 3600.0).Floor == (now / 3600.0).Floor - 1
    ensures HourOf(ts) <= (now / 3600.0).Floor
    ensures HourOf(ts) < (now / 3600.0).Floor - 1 ==> now - ts as real >= 3601.0
  {
    var q := now / 3600.0;
    assert q * 3600.0 == now;
    assert (now - 3600.0) / 3600.0 == q - 1.0;
    var n := q.Floor;
    assert (n * 3600) as real <= now < ((n + 1) * 3600) as real;
    assert HourOf(ts) * 3600 <= ts < (HourOf(ts) + 1) * 3600;
  }

  /** Every bar of the symbol is in the row looked at, or is older than some bar there, or ended at least
      3601 seconds ago. */
  lemma SeenOrOld(table: Table, symbol: string, now: real, k: Key)
    requires Plausible(table, now) && k.symbol == symbol && BarAt(table, k).Some?
    ensures var row, bar := Seen(table, symbol, now), BarAt(table, k).value;
            || (k.minute in row && row[k.minute] == bar)
            || (exists m :: m in row && row[m].lastTs > bar.lastTs)
            || now - bar.lastTs as real >= 3601.0
  {
    HourOfNow(now, BarAt(table, k).value.lastTs);
    var n := (now / 3600.0).Floor;
    var current := GetHour(table, symbol, n);
    if current != map[] {
      var m := SomeElement(current.Keys);
      assert BarAt(table, Key(symbol, n, m)) == Some(current[m]);
    }
  }

  /** The rows looked at hold bars of the symbol only. */
  lemma SeenIsStored(table: Table, symbol: string, now: real, m: int)
    requires m in Seen(table, symbol, now)
    ensures exists k: Key :: k.symbol == symbol && BarAt(table, k) == Some(Seen(table, symbol, now)[m])
  {
    var n := (now / 3600.0).Floor;
    var hour := if GetHour(table, symbol, n) == map[] then ((now - 3600.0) / 3600.0).Floor else n;
    assert BarAt(table, Key(symbol, hour, m)) == Some(Seen(table, symbol, now)[m]);
  }

  /** Looking at two rows is enough: with a threshold under 3601 seconds the answer is the newest price of
      the whole store. */
  lemma {:induction false} TwoRowsSuffice(
    table: Table, symbol: string, now: real, staleness: real, r: Option<real>)
    requires Plausible(table, now) && staleness < 3601.0
    requires FreshFrom(Seen(table, symbol, now), now, staleness, r)
    ensures IsNewestPrice(table, symbol, now, staleness, r)
  {
    hide Seen, WellPlaced;
    var row := Seen(table, symbol, now);
    forall k: Key | k.symbol == symbol && BarAt(table, k).Some?
      ensures 0 < BarAt(table, k).value.lastTs
      ensures || (k.minute in row && row[k.minute] == BarAt(table, k).value)
              || (exists m :: m in row && row[m].lastTs > BarAt(table, k).value.lastTs)
              || now - BarAt(table, k).value.lastTs as real >= 3601.0
    {
      SeenOrOld(table, symbol, now, k);
    }
    if r.Some? {
      var m :| m in row && row[m].lastTs > 0 && row[m].close == r.value
               && now - row[m].lastTs as real <= staleness
               && forall m' :: m' in row ==> row[m'].lastTs <= row[m].lastTs;
      SeenIsStored(table, symbol, now, m);
    }
  }

  /** And the bound is exact: 3601 seconds is the first threshold at which a bar fresh enough can sit in a
      row that is not looked at. */
  lemma {:induction false} TwoRowsSufficeIff(staleness: real)
    ensures staleness < 3601.0 <==>
            forall table, symbol, now, r ::
              Plausible(table, now) && FreshFrom(Seen(table, symbol, now), now, staleness, r) ==>
              IsNewestPrice(table, symbol, now, staleness, r)
  {
    if staleness < 3601.0 {
      forall table, symbol, now, r | Plausible(table, now) && FreshFrom(Seen(table, symbol, now), now, staleness, r)
        ensures IsNewestPrice(table, symbol, now, staleness, r)
      {
        TwoRowsSuffice(table, symbol, now, staleness, r);
      }
    } else {
      var bar := Bar(1.0, 1.0, 1.0, 1.0, 0.0, 1, 3599, 3599);
      var table: Table := map[RowKey("A", 0) := map[59 := bar]];
      assert BarAt(table, Key("A", 0, 59)) == Some(bar);
      assert Plausible(table, 7200.0);
      assert Seen(table, "A", 7200.0) == map[];
      assert FreshFrom(Seen(table, "A", 7200.0), 7200.0, staleness, None);
      assert !IsNewestPrice(table, "A", 7200.0, staleness, None);
    }
  }

  // ---------- From ticks to prices ----------

  /** A stored bar closes with the last tick of its minute. */
  lemma {:induction false} StoredBarEnds(ticks: seq<Tick>, k: Key) returns (j: nat)
    requires Ordered(ticks) && RunEvents(Observations(ticks) + [Flush], k).stored.Some?
    ensures var bar := RunEvents(Observations(ticks) + [Flush], k).stored.value;
            IsLast(ticks, k, j) && bar.close == ticks[j].price && bar.lastTs == ticks[j].timestamp
  {
    hide RunEvents, Ordered, KeyOf;
    BarsAreGroupByMinute(ticks, k);
    if forall m :: 0 <= m < |ticks| ==> KeyOf(ticks[m]) != k {
      NoTicksOf(ticks, k);
      assert false;
    }
    var m :| 0 <= m < |ticks| && KeyOf(ticks[m]) == k;
    j := LastOf(ticks, k, m);
    var i := FirstOf(ticks, k, m);
    StoredBarSays(ticks, k, i, j);
  }

  lemma {:induction false} FirstOf(ticks: seq<Tick>, k: Key, m: nat) returns (i: nat)
    requires m < |ticks| && KeyOf(ticks[m]) == k
    ensures IsFirst(ticks, k, i)
  {
    i := 0;
    while KeyOf(ticks[i]) != k
      invariant i <= m && forall n :: 0 <= n < i ==> KeyOf(ticks[n]) != k
      decreases m - i
    {
      i := i + 1;
    }
  }

  /** And every minute with a tick is stored, ending no earlier than that tick. */
  lemma {:induction false} TickIsStored(ticks: seq<Tick>, m: nat) returns (j: nat)
    requires Ordered(ticks) && m < |ticks|
    ensures var stored := RunEvents(Observations(ticks) + [Flush], KeyOf(ticks[m])).stored;
            stored.Some? && m <= j && IsLast(ticks, KeyOf(ticks[m]), j) && stored.value.lastTs == ticks[j].timestamp
  {
    hide RunEvents, Ordered, KeyOf;
    var k := KeyOf(ticks[m]);
    j := LastOf(ticks, k, m);
    var i := FirstOf(ticks, k, m);
    StoredBarSays(ticks, k, i, j);
  }

  ghost predicate LatestOf(ticks: seq<Tick>, symbol: string, j: nat) {
    j < |ticks| && ticks[j].symbol == symbol && forall m :: j < m < |ticks| ==> ticks[m].symbol != symbol
  }

  /** The newest bar of a symbol closes with its latest tick. */
  lemma {:induction false} NewestIsLatest(ticks: seq<Tick>, k: Key, j: nat)
    requires Ordered(ticks) && IsLast(ticks, k, j)
    requires forall k': Key :: k'.symbol == k.symbol && RunEvents(Observations(ticks) + [Flush], k').stored.Some? ==>
               RunEvents(Observations(ticks) + [Flush], k').stored.value.lastTs <= ticks[j].timestamp
    ensures LatestOf(ticks, k.symbol, j)
  {
    hide RunEvents;
    forall m | j < m < |ticks|
      ensures ticks[m].symbol != k.symbol
    {
      if ticks[m].symbol == k.symbol {
        var l := TickIsStored(ticks, m);
      }
    }
  }

  /** From ticks to prices: for ticks in time order per symbol, after the epoch and not in the future, and one
      flush at the end, the freshest price of a symbol is the price of its latest tick if that is no older
      than the threshold, and nothing otherwise. */
  lemma {:induction false} FreshPriceIsLatestTick(
    table: Table, ticks: seq<Tick>, symbol: string, now: real, staleness: real, r: Option<real>)
    requires Ordered(ticks) && Built(table, Observations(ticks) + [Flush]) && staleness < 3601.0
    requires forall t :: t in ticks ==> 0 < t.timestamp && t.timestamp as real <= now
    requires FreshFrom(Seen(table, symbol, now), now, staleness, r)
    ensures match r
            case Some(price) =>
              exists j: nat :: LatestOf(ticks, symbol, j) && price == ticks[j].price
                && now - ticks[j].timestamp as real <= staleness
            case None => forall t :: t in ticks && t.symbol == symbol ==> now - t.timestamp as real > staleness
  {
    hide RunEvents, Seen, FreshFrom, KeyOf;
    var events := Observations(ticks) + [Flush];
    BuiltIsWellPlaced(table, events);
    forall k | BarAt(table, k).Some?
      ensures 0 < BarAt(table, k).value.lastTs && BarAt(table, k).value.lastTs as real <= now
    {
      var j := StoredBarEnds(ticks, k);
      assert ticks[j] in ticks;
    }
    TwoRowsSuffice(table, symbol, now, staleness, r);
    if r.Some? {
      var k: Key :| k.symbol == symbol && BarAt(table, k).Some?
                    && BarAt(table, k).value.close == r.value
                    && now - BarAt(table, k).value.lastTs as real <= staleness
                    && forall k': Key :: k'.symbol == symbol && BarAt(table, k').Some? ==>
                         BarAt(table, k').value.lastTs <= BarAt(table, k).value.lastTs;
      var j := StoredBarEnds(ticks, k);
      NewestIsLatest(ticks, k, j);
    } else {
      forall t | t in ticks && t.symbol == symbol
        ensures now - t.timestamp as real > staleness
      {
        var m :| 0 <= m < |ticks| && ticks[m] == t;
        var j := TickIsStored(ticks, m);
        SameSymbol(t);
        SameSymbol(ticks[j]);
      }
    }
  }

  lemma SameSymbol(t: Tick)
    ensures KeyOf(t).symbol == t.symbol
  {
  }
}
