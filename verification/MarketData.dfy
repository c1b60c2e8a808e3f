/**
 The market data island (src/trading_strands/marketdata_store/store.py): a writer that buffers ticks and
 stores one bar per symbol and minute, in one row per symbol and hour.

 An hour bucket is the number of hours since the epoch, and a minute is the minute of that hour.
 */
module MarketData {
  import opened Prelude

  datatype Tick = Tick(timestamp: int, symbol: string, price: real, volume: real)

  datatype Bar = Bar(
    open: real, high: real, low: real, close: real, volume: real, samples: nat, firstTs: int, lastTs: int)

  datatype Key = Key(symbol: string, hour: int, minute: int)

  datatype RowKey = RowKey(symbol: string, hour: int)

  /** Rows of minute bars. */
  type Table = map<RowKey, map<int, Bar>>

  function HourOf(ts: int): int { ts / 3600 }

  function MinuteOf(ts: int): int { ts % 3600 / 60 }

  function KeyOf(t: Tick): Key { Key(t.symbol, HourOf(t.timestamp), MinuteOf(t.timestamp)) }

  function Volume(t: Tick): real { t.volume }

  function Highest(obs: seq<Tick>): real
    requires |obs| > 0
  {
    var last := obs[|obs| - 1].price;
    if |obs| == 1 then last else Max(Highest(obs[..|obs| - 1]), last)
  }

  function Lowest(obs: seq<Tick>): real
    requires |obs| > 0
  {
    var last := obs[|obs| - 1].price;
    if |obs| == 1 then last else Min(Lowest(obs[..|obs| - 1]), last)
  }

  /** The bar of one minute's observations. */
  function Aggregate(obs: seq<Tick>): (bar: Bar)
    requires |obs| > 0
    ensures bar.samples == |obs|
  {
    var first, last := obs[0], obs[|obs| - 1];
    Bar(first.price, Highest(obs), Lowest(obs), last.price, Total(Volume, obs), |obs|,
        first.timestamp, last.timestamp)
  }

  /** High and low bound every price and are reached. */
  lemma {:induction false} HighAndLowAreReached(obs: seq<Tick>)
    requires |obs| > 0
    ensures forall i :: 0 <= i < |obs| ==> Lowest(obs) <= obs[i].price <= Highest(obs)
    ensures exists i :: 0 <= i < |obs| && obs[i].price == Highest(obs)
    ensures exists i :: 0 <= i < |obs| && obs[i].price == Lowest(obs)
  {
    var n := |obs| - 1;
    if n > 0 {
      HighAndLowAreReached(obs[..n]);
      var i :| 0 <= i < n && obs[..n][i].price == Highest(obs[..n]);
      var j :| 0 <= j < n && obs[..n][j].price == Lowest(obs[..n]);
      assert obs[if obs[n].price > Highest(obs[..n]) then n else i].price == Highest(obs);
      assert obs[if obs[n].price < Lowest(obs[..n]) then n else j].price == Lowest(obs);
    }
  }

  function BarAt(table: Table, k: Key): Option<Bar> {
    var row := RowKey(k.symbol, k.hour);
    if row in table && k.minute in table[row] then Some(table[row][k.minute]) else None
  }

  function GetHour(table: Table, symbol: string, hour: int): map<int, Bar> {
    var row := RowKey(symbol, hour);
    if row in table then table[row] else map[]
  }

  // ---------- The writer, one key at a time ----------

  datatype Event = Observe(tick: Tick) | Flush

  /** What the store knows of one minute: the observations still buffered, and the bar written. */
  datatype MinuteState = MinuteState(buffered: seq<Tick>, stored: Option<Bar>)

  function WriteOut(m: MinuteState): MinuteState {
    if |m.buffered| == 0 then m else MinuteState([], Some(Aggregate(m.buffered)))
  }

  /** A tick joins its own minute and completes every other minute of its symbol; a flush completes all. */
  function AfterEvent(m: MinuteState, e: Event, k: Key): MinuteState {
    match e
    case Flush => WriteOut(m)
    case Observe(t) =>
      if KeyOf(t) == k then m.(buffered := m.buffered + [t])
      else if t.symbol == k.symbol then WriteOut(m)
      else m
  }

  class MarketDataStore {
    var table: Table
    var buffer: map<Key, seq<Tick>>

    constructor ()
      ensures forall k :: Minute(k) == MinuteState([], None)
    {
      table, buffer := map[], map[];
    }

    function Minute(k: Key): MinuteState
      reads this
    {
      MinuteState(if k in buffer then buffer[k] else [], BarAt(table, k))
    }

    method RecordTick(bar: Tick)
      modifies this
      ensures forall k :: Minute(k) == AfterEvent(old(Minute(k)), Observe(bar), k)
    {
      var key := KeyOf(bar);
      buffer := buffer[key := (if key in buffer then buffer[key] else []) + [bar]];
      FlushCompletedMinutes(key);
    }

    method FlushCompletedMinutes(current: Key)
      modifies this
      ensures forall k :: Minute(k) == if k.symbol == current.symbol && k != current
                                       then WriteOut(old(Minute(k))) else old(Minute(k))
    {
      var completed: set<Key> := {};
      var unseen := buffer.Keys;
      while unseen != {}
        invariant unseen <= buffer.Keys
        invariant completed == set k | k in buffer.Keys - unseen && k.symbol == current.symbol && k != current
      {
        var key :| key in unseen;
        unseen := unseen - {key};
        if key.symbol == current.symbol && key != current {
          completed := completed + {key};
        }
      }
      FlushKeys(completed);
    }

    method FlushAll()
      modifies this
      ensures forall k :: Minute(k) == WriteOut(old(Minute(k)))
    {
      FlushKeys(buffer.Keys);
    }

    /** Flushes the keys one after the other; the order does not matter. */
    method FlushKeys(keys: set<Key>)
      modifies this
      ensures forall k :: Minute(k) == if k in keys then WriteOut(old(Minute(k))) else old(Minute(k))
    {
      var left := keys;
      while left != {}
        invariant left <= keys
        invariant forall k :: Minute(k) == if k in keys - left then WriteOut(old(Minute(k))) else old(Minute(k))
      {
        var key :| key in left;
        FlushOne(key);
        left := left - {key};
      }
    }

    method FlushOne(key: Key)
      modifies this
      ensures forall k :: Minute(k) == if k == key then WriteOut(old(Minute(k))) else old(Minute(k))
    {
      var observations := if key in buffer then buffer[key] else [];
      buffer := buffer - {key};
      if observations == [] {
        return;
      }
      var row := RowKey(key.symbol, key.hour);
      if row !in table {
        table := table[row := map[]];
      }
      table := table[row := table[row][key.minute := Aggregate(observations)]];
    }
  }

  // ---------- Runs ----------

  function RunEvents(events: seq<Event>, k: Key): MinuteState {
    if |events| == 0 then MinuteState([], None)
    else AfterEvent(RunEvents(events[..|events| - 1], k), events[|events| - 1], k)
  }

  /** All the ticks of a minute, in order: the group a naive scan would form. */
  function TicksOf(events: seq<Event>, k: Key): seq<Tick> {
    if |events| == 0 then []
    else
      var e := events[|events| - 1];
      TicksOf(events[..|events| - 1], k) + (if IsTickOf(e, k) then [e.tick] else [])
  }

  predicate IsTickOf(e: Event, k: Key) { e.Observe? && KeyOf(e.tick) == k }

  /** An event that completes the minute: a flush, or a tick of the symbol in another minute. */
  predicate Completes(e: Event, k: Key) {
    e.Flush? || (e.tick.symbol == k.symbol && KeyOf(e.tick) != k)
  }

  function GroupBar(events: seq<Event>, k: Key): Option<Bar> {
    var group := TicksOf(events, k);
    if |group| == 0 then None else Some(Aggregate(group))
  }

  /** The minute is never completed between two of its own ticks. */
  ghost predicate InOnePiece(events: seq<Event>, k: Key) {
    forall i, j, l :: 0 <= i < j < l < |events| && IsTickOf(events[i], k) && IsTickOf(events[l], k) ==>
      !Completes(events[j], k)
  }

  /** Where the minute stands: not begun, filling, completed, or begun again after being completed. */
  datatype Phase = Unseen | Filling | Completed | Reopened

  ghost function PhaseOf(events: seq<Event>, k: Key): Phase {
    if |events| == 0 then Unseen
    else
      var before, e := PhaseOf(events[..|events| - 1], k), events[|events| - 1];
      if IsTickOf(e, k) then
        (if before.Unseen? then Filling else if before.Completed? then Reopened else before)
      else if before.Filling? && Completes(e, k) then Completed
      else before
  }

  ghost predicate HasTick(events: seq<Event>, k: Key) {
    exists i :: 0 <= i < |events| && IsTickOf(events[i], k)
  }

  /** Some tick of the minute was followed by an event that completed it. */
  ghost predicate WasCompleted(events: seq<Event>, k: Key) {
    exists i, j :: 0 <= i < j < |events| && IsTickOf(events[i], k) && Completes(events[j], k)
  }

  lemma HasTickStep(events: seq<Event>, e: Event, k: Key)
    ensures HasTick(events + [e], k) <==> HasTick(events, k) || IsTickOf(e, k)
  {
    var all := events + [e];
    assert all[|events|] == e && forall i :: 0 <= i < |events| ==> all[i] == events[i];
  }

  lemma WasCompletedStep(events: seq<Event>, e: Event, k: Key)
    ensures WasCompleted(events + [e], k) <==> WasCompleted(events, k) || (HasTick(events, k) && Completes(e, k))
  {
    hide IsTickOf, Completes;
    var all := events + [e];
    assert all[|events|] == e && forall i :: 0 <= i < |events| ==> all[i] == events[i];
  }

  lemma InOnePieceStep(events: seq<Event>, e: Event, k: Key)
    ensures InOnePiece(events + [e], k) <==> InOnePiece(events, k) && !(IsTickOf(e, k) && WasCompleted(events, k))
  {
    hide IsTickOf, Completes;
    var all := events + [e];
    assert all[|events|] == e && forall i :: 0 <= i < |events| ==> all[i] == events[i];
  }

  /** The phases say where ticks and completions lie. */
  lemma {:induction false} PhasesAreRight(events: seq<Event>, k: Key)
    ensures match PhaseOf(events, k)
            case Unseen => !HasTick(events, k) && !WasCompleted(events, k) && InOnePiece(events, k)
            case Filling => HasTick(events, k) && !WasCompleted(events, k) && InOnePiece(events, k)
            case Completed => HasTick(events, k) && WasCompleted(events, k) && InOnePiece(events, k)
            case Reopened => !InOnePiece(events, k)
  {
    hide HasTick, WasCompleted, InOnePiece, KeyOf;
    if |events| == 0 {
      NothingSeen(k);
    } else {
      var before, e := events[..|events| - 1], events[|events| - 1];
      assert events == before + [e];
      PhasesAreRight(before, k);
      HasTickStep(before, e, k);
      WasCompletedStep(before, e, k);
      InOnePieceStep(before, e, k);
    }
  }

  lemma NothingSeen(k: Key)
    ensures !HasTick([], k) && !WasCompleted([], k) && InOnePiece([], k)
  {
  }

  lemma OnePieceIffNotReopened(events: seq<Event>, k: Key)
    ensures InOnePiece(events, k) <==> !PhaseOf(events, k).Reopened?
  {
    PhasesAreRight(events, k);
  }

  /** What the writer holds in each phase. */
  lemma {:induction false} WriterInvariant(events: seq<Event>, k: Key)
    ensures var m, group := RunEvents(events, k), TicksOf(events, k);
            match PhaseOf(events, k)
            case Unseen => group == [] && m == MinuteState([], None)
            case Filling => group != [] && m == MinuteState(group, None)
            case Completed => group != [] && m == MinuteState([], Some(Aggregate(group)))
            case Reopened =>
              && |m.buffered| < |group|
              && m.stored.Some? && m.stored.value.samples < |group|
  {
    hide Aggregate;
    if |events| > 0 {
      WriterInvariant(events[..|events| - 1], k);
      var group := TicksOf(events[..|events| - 1], k);
      assert group + [] == group;
    }
  }

  /** Refinement: once everything is flushed, the bar stored for a minute is the one a naive group-by
      would give exactly when the minute was written in one piece.  A minute that is completed, by a
      flush or by a tick of another minute, and then ticks again keeps only its last piece. */
  lemma {:induction false} StoredIsGroupIffOnePiece(events: seq<Event>, k: Key)
    ensures RunEvents(events + [Flush], k).stored == GroupBar(events, k) <==> InOnePiece(events, k)
    ensures RunEvents(events + [Flush], k).buffered == []
  {
    OnePieceIffNotReopened(events, k);
    WriterInvariant(events, k);
    assert (events + [Flush])[..|events|] == events;
    assert RunEvents(events + [Flush], k) == WriteOut(RunEvents(events, k));
  }

  /** The ticks of a minute, cut where an event completes it: the pieces so far, and the one still growing. */
  datatype Pieces = Pieces(done: seq<seq<Tick>>, growing: seq<Tick>)

  ghost function PiecesOf(events: seq<Event>, k: Key): Pieces {
    if |events| == 0 then Pieces([], [])
    else
      var before, e := PiecesOf(events[..|events| - 1], k), events[|events| - 1];
      if IsTickOf(e, k) then before.(growing := before.growing + [e.tick])
      else if Completes(e, k) && before.growing != [] then Pieces(before.done + [before.growing], [])
      else before
  }

  ghost function Joined(pieces: seq<seq<Tick>>): seq<Tick> {
    if |pieces| == 0 then [] else Joined(pieces[..|pieces| - 1]) + pieces[|pieces| - 1]
  }

  /** A piece replaces the one before it: at any time, over any events, the ticks of a minute are its pieces
      end to end, the writer buffers the one that is growing, and the stored bar is that of the last one done,
      the earlier ones being lost. */
  lemma {:induction false} LastPieceIsStored(events: seq<Event>, k: Key)
    ensures var m, p := RunEvents(events, k), PiecesOf(events, k);
            && TicksOf(events, k) == Joined(p.done) + p.growing
            && m.buffered == p.growing
            && (p.done == [] ==> m.stored == None)
            && (p.done != [] ==>
                  var last := p.done[|p.done| - 1];
                  last != [] && m.stored == Some(Aggregate(last)))
  {
    hide Aggregate;
    if |events| > 0 {
      var before := PiecesOf(events[..|events| - 1], k);
      LastPieceIsStored(events[..|events| - 1], k);
      var p := PiecesOf(events, k);
      assert (before.done + [before.growing])[..|before.done|] == before.done;
      assert Joined(p.done) + p.growing + [] == Joined(p.done) + p.growing;
    }
  }

  function Observations(ticks: seq<Tick>): (events: seq<Event>)
    ensures |events| == |ticks|
  {
    seq(|ticks|, i requires 0 <= i < |ticks| => Observe(ticks[i]))
  }

  /** Time never runs backwards within a symbol. */
  ghost predicate Ordered(ticks: seq<Tick>) {
    forall i, j :: 0 <= i < j < |ticks| && ticks[i].symbol == ticks[j].symbol ==>
      ticks[i].timestamp <= ticks[j].timestamp
  }

  lemma SameMinute(a: int, b: int)
    ensures HourOf(a) == HourOf(b) && MinuteOf(a) == MinuteOf(b) <==> a / 60 == b / 60
  {
    assert a / 60 == HourOf(a) * 60 + MinuteOf(a);
    assert b / 60 == HourOf(b) * 60 + MinuteOf(b);
    assert 0 <= MinuteOf(a) < 60 && 0 <= MinuteOf(b) < 60;
  }

  /** Main refinement: for ticks in time order per symbol and one flush at the end, the stored bars are
      exactly the group-by-minute bars, one for every minute seen and none for any other. */
  lemma {:induction false} BarsAreGroupByMinute(ticks: seq<Tick>, k: Key)
    requires Ordered(ticks)
    ensures RunEvents(Observations(ticks) + [Flush], k).stored == GroupBar(Observations(ticks), k)
  {
    var events := Observations(ticks);
    forall i, j, l | 0 <= i < j < l < |events| && IsTickOf(events[i], k) && IsTickOf(events[l], k)
      ensures !Completes(events[j], k)
    {
      if ticks[j].symbol == k.symbol {
        SameMinute(ticks[i].timestamp, ticks[l].timestamp);
        SameMinute(ticks[i].timestamp, ticks[j].timestamp);
      }
    }
    StoredIsGroupIffOnePiece(events, k);
  }

  ghost predicate IsFirst(ticks: seq<Tick>, k: Key, i: nat) {
    i < |ticks| && KeyOf(ticks[i]) == k && forall m :: 0 <= m < i ==> KeyOf(ticks[m]) != k
  }

  ghost predicate IsLast(ticks: seq<Tick>, k: Key, j: nat) {
    j < |ticks| && KeyOf(ticks[j]) == k && forall m :: j < m < |ticks| ==> KeyOf(ticks[m]) != k
  }

  /** The ticks of a minute begin with its first tick, end with its last, and are those of the stream. */
  lemma {:induction false} TicksOfEnds(ticks: seq<Tick>, k: Key, i: nat, j: nat)
    requires IsFirst(ticks, k, i) && IsLast(ticks, k, j)
    ensures var group := TicksOf(Observations(ticks), k);
            |group| > 0 && group[0] == ticks[i] && group[|group| - 1] == ticks[j]
  {
    hide KeyOf;
    var n := |ticks| - 1;
    TicksOfStep(ticks, k);
    forall m | 0 <= m < n
      ensures ticks[..n][m] == ticks[m]
    {
    }
    if j < n {
      assert IsLast(ticks[..n], k, j);
      TicksOfEnds(ticks[..n], k, i, j);
    } else if i < n {
      var l := LastOf(ticks[..n], k, i);
      TicksOfEnds(ticks[..n], k, i, l);
    } else {
      NoTicksOf(ticks[..n], k);
    }
  }

  lemma {:induction false} LastOf(ticks: seq<Tick>, k: Key, i: nat) returns (l: nat)
    requires i < |ticks| && KeyOf(ticks[i]) == k
    ensures IsLast(ticks, k, l)
  {
    l := |ticks| - 1;
    while KeyOf(ticks[l]) != k
      invariant i <= l < |ticks| && forall m :: l < m < |ticks| ==> KeyOf(ticks[m]) != k
      decreases l
    {
      l := l - 1;
    }
  }

  lemma {:induction false} NoTicksOf(ticks: seq<Tick>, k: Key)
    requires forall m :: 0 <= m < |ticks| ==> KeyOf(ticks[m]) != k
    ensures TicksOf(Observations(ticks), k) == []
  {
    if |ticks| > 0 {
      TicksOfStep(ticks, k);
      NoTicksOf(ticks[..|ticks| - 1], k);
    }
  }

  lemma {:induction false} TicksOfElements(ticks: seq<Tick>, k: Key, t: Tick)
    ensures t in TicksOf(Observations(ticks), k) <==> t in ticks && KeyOf(t) == k
  {
    if |ticks| > 0 {
      var n := |ticks| - 1;
      assert ticks == ticks[..n] + [ticks[n]];
      TicksOfStep(ticks, k);
      TicksOfElements(ticks[..n], k, t);
    }
  }

  /** What a stored bar says, in terms of the ticks alone: for ticks in time order per symbol and one flush at
      the end it opens with the first tick of its minute and closes with the last, its high and low bound the
      prices of all of them and are reached, and it has their count and volume. */
  lemma {:induction false} StoredBarSays(ticks: seq<Tick>, k: Key, i: nat, j: nat)
    requires Ordered(ticks)
    requires IsFirst(ticks, k, i) && IsLast(ticks, k, j)
    ensures var stored := RunEvents(Observations(ticks) + [Flush], k).stored;
            && stored.Some?
            && var bar := stored.value;
               && bar.open == ticks[i].price && bar.firstTs == ticks[i].timestamp
               && bar.close == ticks[j].price && bar.lastTs == ticks[j].timestamp
               && (forall t :: t in ticks && KeyOf(t) == k ==> bar.low <= t.price <= bar.high)
               && (exists t :: t in ticks && KeyOf(t) == k && t.price == bar.high)
               && (exists t :: t in ticks && KeyOf(t) == k && t.price == bar.low)
               && bar.samples == |TicksOf(Observations(ticks), k)|
               && bar.volume == Total(Volume, TicksOf(Observations(ticks), k))
  {
    hide RunEvents, Ordered, Highest, Lowest, KeyOf;
    BarsAreGroupByMinute(ticks, k);
    TicksOfEnds(ticks, k, i, j);
    var group := TicksOf(Observations(ticks), k);
    HighAndLowAreReached(group);
    forall t
      ensures t in group <==> t in ticks && KeyOf(t) == k
    {
      TicksOfElements(ticks, k, t);
    }
    var h :| 0 <= h < |group| && group[h].price == Highest(group);
    var l :| 0 <= l < |group| && group[l].price == Lowest(group);
    assert group[h] in group && group[l] in group;
  }

  /** At all times, in any order of events, at most one minute per symbol is buffered. */
  lemma {:induction false} OneMinuteBuffered(events: seq<Event>, k: Key, k': Key)
    requires k != k' && k.symbol == k'.symbol
    ensures RunEvents(events, k).buffered == [] || RunEvents(events, k').buffered == []
  {
    if |events| > 0 {
      OneMinuteBuffered(events[..|events| - 1], k, k');
    }
  }

  // ---------- Conservation ----------

  ghost function KeysOf(ticks: seq<Tick>): set<Key> { set t | t in ticks :: KeyOf(t) }

  /** What the naive groups of `keys` add up to, under any weight per tick. */
  ghost function GroupedTotal(f: Tick -> real, ticks: seq<Tick>, keys: set<Key>): real {
    if keys == {} then 0.0
    else
      var k :| k in keys;
      Total(f, TicksOf(Observations(ticks), k)) + GroupedTotal(f, ticks, keys - {k})
  }

  lemma {:induction false} TicksOfStep(ticks: seq<Tick>, k: Key)
    requires |ticks| > 0
    ensures var n := |ticks| - 1;
            TicksOf(Observations(ticks), k)
            == if KeyOf(ticks[n]) == k then TicksOf(Observations(ticks[..n]), k) + [ticks[n]]
               else TicksOf(Observations(ticks[..n]), k)
  {
    var n := |ticks| - 1;
    assert Observations(ticks)[..n] == Observations(ticks[..n]);
  }

  /** Adding a tick adds its weight to the groups if its minute is among them. */
  lemma {:induction false} GroupedTotalStep(f: Tick -> real, ticks: seq<Tick>, keys: set<Key>)
    requires |ticks| > 0
    ensures var n := |ticks| - 1;
            GroupedTotal(f, ticks, keys)
            == GroupedTotal(f, ticks[..n], keys) + (if KeyOf(ticks[n]) in keys then f(ticks[n]) else 0.0)
    decreases keys
  {
    var n := |ticks| - 1;
    if keys != {} {
      var k :| k in keys && GroupedTotal(f, ticks, keys)
                 == Total(f, TicksOf(Observations(ticks), k)) + GroupedTotal(f, ticks, keys - {k});
      GroupedTotalStep(f, ticks, keys - {k});
      TicksOfStep(ticks, k);
      TotalConcat(f, TicksOf(Observations(ticks[..n]), k), [ticks[n]]);
      TotalSingle(f, ticks[n]);
      GroupedTotalPick(f, ticks[..n], keys, k);
    }
  }

  /** The sum over a set of minutes does not depend on which is taken first. */
  lemma {:induction false} GroupedTotalPick(f: Tick -> real, ticks: seq<Tick>, keys: set<Key>, k: Key)
    requires k in keys
    ensures GroupedTotal(f, ticks, keys)
            == Total(f, TicksOf(Observations(ticks), k)) + GroupedTotal(f, ticks, keys - {k})
    decreases keys
  {
    var first :| first in keys && GroupedTotal(f, ticks, keys)
                   == Total(f, TicksOf(Observations(ticks), first)) + GroupedTotal(f, ticks, keys - {first});
    if first != k {
      GroupedTotalPick(f, ticks, keys - {first}, k);
      GroupedTotalPick(f, ticks, keys - {k}, first);
      assert keys - {first} - {k} == keys - {k} - {first};
    }
  }

  /** Over any set of minutes that covers the ticks, the groups add up to the whole stream, whatever is added
      up (one per tick, or its volume). */
  lemma {:induction false} GroupsAddUp(f: Tick -> real, ticks: seq<Tick>, keys: set<Key>)
    requires KeysOf(ticks) <= keys
    ensures GroupedTotal(f, ticks, keys) == Total(f, ticks)
  {
    if |ticks| == 0 {
      NothingGrouped(f, keys);
    } else {
      var n := |ticks| - 1;
      assert ticks[n] in ticks && KeyOf(ticks[n]) in KeysOf(ticks);
      assert forall t :: t in ticks[..n] ==> t in ticks;
      GroupsAddUp(f, ticks[..n], keys);
      GroupedTotalStep(f, ticks, keys);
    }
  }

  lemma {:induction false} NothingGrouped(f: Tick -> real, keys: set<Key>)
    ensures GroupedTotal(f, [], keys) == 0.0
    decreases keys
  {
    if keys != {} {
      var k :| k in keys && GroupedTotal(f, [], keys)
                 == Total(f, TicksOf(Observations([]), k)) + GroupedTotal(f, [], keys - {k});
      assert Observations([]) == [];
      assert TicksOf([], k) == [] && Total(f, []) == 0.0;
      NothingGrouped(f, keys - {k});
    }
  }

  // ---------- What the stored bars add up to ----------

  function Samples(bar: Bar): real { bar.samples as real }

  function BarVolume(bar: Bar): real { bar.volume }

  function One(t: Tick): real { 1.0 }

  /** What the bar stored for a minute after the events and a flush weighs. */
  ghost function StoredWeight(f: Bar -> real, events: seq<Event>, k: Key): real {
    var stored := RunEvents(events + [Flush], k).stored;
    if stored.None? then 0.0 else f(stored.value)
  }

  ghost function StoredTotal(f: Bar -> real, events: seq<Event>, keys: set<Key>): real {
    if keys == {} then 0.0
    else
      var k :| k in keys;
      StoredWeight(f, events, k) + StoredTotal(f, events, keys - {k})
  }

  /** The ticks of a stream of events, in order. */
  function TicksIn(events: seq<Event>): seq<Tick> {
    if |events| == 0 then []
    else
      var n := |events| - 1;
      TicksIn(events[..n]) + (if events[n].Observe? then [events[n].tick] else [])
  }

  lemma {:induction false} SameGroups(events: seq<Event>, k: Key)
    ensures TicksOf(Observations(TicksIn(events)), k) == TicksOf(events, k)
  {
    if |events| > 0 {
      var n := |events| - 1;
      SameGroups(events[..n], k);
      if events[n].Observe? {
        assert TicksIn(events)[..|TicksIn(events)| - 1] == TicksIn(events[..n]);
        TicksOfStep(TicksIn(events), k);
      } else {
        assert TicksIn(events) == TicksIn(events[..n]);
      }
    }
  }

  lemma {:induction false} OnesCount(ticks: seq<Tick>)
    ensures Total(One, ticks) == |ticks| as real
  {
    if |ticks| > 0 {
      OnesCount(ticks[..|ticks| - 1]);
    }
  }

  /** Where the stored bar of every minute weighs what the minute's ticks do, so do they all together. */
  lemma {:induction false} StoredAddsUp(f: Bar -> real, g: Tick -> real, events: seq<Event>, keys: set<Key>)
    requires forall k :: k in keys ==> StoredWeight(f, events, k) == Total(g, TicksOf(events, k))
    ensures StoredTotal(f, events, keys) == GroupedTotal(g, TicksIn(events), keys)
    decreases keys
  {
    hide StoredWeight, Total;
    if keys != {} {
      var k :| k in keys && StoredTotal(f, events, keys)
                 == StoredWeight(f, events, k) + StoredTotal(f, events, keys - {k});
      StoredAddsUp(f, g, events, keys - {k});
      SameGroups(events, k);
      GroupedTotalPick(g, TicksIn(events), keys, k);
    }
  }

  /** Every tick lands in exactly one stored bar: for ticks in time order per symbol and one flush at the end,
      the sample counts of the stored bars add up to the number of ticks, and their volumes to the volume of
      the stream. */
  lemma {:induction false} TicksAreConserved(ticks: seq<Tick>, keys: set<Key>)
    requires Ordered(ticks) && KeysOf(ticks) <= keys
    ensures StoredTotal(Samples, Observations(ticks), keys) == |ticks| as real
    ensures StoredTotal(BarVolume, Observations(ticks), keys) == Total(Volume, ticks)
  {
    hide RunEvents, KeysOf, Ordered;
    var events := Observations(ticks);
    forall k | k in keys
      ensures StoredWeight(Samples, events, k) == Total(One, TicksOf(events, k))
      ensures StoredWeight(BarVolume, events, k) == Total(Volume, TicksOf(events, k))
    {
      BarsAreGroupByMinute(ticks, k);
      OnesCount(TicksOf(events, k));
    }
    StoredAddsUp(Samples, One, events, keys);
    StoredAddsUp(BarVolume, Volume, events, keys);
    TicksOfObservations(ticks);
    GroupsAddUp(One, ticks, keys);
    GroupsAddUp(Volume, ticks, keys);
    OnesCount(ticks);
  }

  lemma {:induction false} TicksOfObservations(ticks: seq<Tick>)
    ensures TicksIn(Observations(ticks)) == ticks
  {
    if |ticks| > 0 {
      var n := |ticks| - 1;
      assert Observations(ticks)[..n] == Observations(ticks[..n]);
      TicksOfObservations(ticks[..n]);
    }
  }

  /** A stored bar never counts more ticks than its minute has, and counts all of them exactly when the minute
      came in one piece. */
  lemma {:induction false} SamplesAtMost(events: seq<Event>, k: Key)
    ensures StoredWeight(Samples, events, k) <= Total(One, TicksOf(events, k))
    ensures StoredWeight(Samples, events, k) == Total(One, TicksOf(events, k)) <==> InOnePiece(events, k)
  {
    var all := events + [Flush];
    assert all[..|events|] == events;
    OnesCount(TicksOf(events, k));
    StoredIsGroupIffOnePiece(events, k);
    WriterInvariant(events, k);
    OnePieceIffNotReopened(events, k);
  }

  /** For any events at all: the stored bars count every tick exactly when every minute came in one piece, and
      otherwise some tick is in no bar. */
  lemma {:induction false} TicksAreKeptIff(events: seq<Event>, keys: set<Key>)
    requires KeysOf(TicksIn(events)) <= keys
    ensures StoredTotal(Samples, events, keys) <= |TicksIn(events)| as real
    ensures StoredTotal(Samples, events, keys) == |TicksIn(events)| as real
            <==> forall k :: k in keys ==> InOnePiece(events, k)
  {
    StoredAtMostGrouped(events, keys);
    GroupsAddUp(One, TicksIn(events), keys);
    OnesCount(TicksIn(events));
  }

  lemma {:induction false} StoredAtMostGrouped(events: seq<Event>, keys: set<Key>)
    ensures StoredTotal(Samples, events, keys) <= GroupedTotal(One, TicksIn(events), keys)
    ensures StoredTotal(Samples, events, keys) == GroupedTotal(One, TicksIn(events), keys)
            <==> forall k :: k in keys ==> InOnePiece(events, k)
    decreases keys
  {
    hide StoredWeight, Total, InOnePiece;
    if keys != {} {
      var k :| k in keys && StoredTotal(Samples, events, keys)
                 == StoredWeight(Samples, events, k) + StoredTotal(Samples, events, keys - {k});
      StoredAtMostGrouped(events, keys - {k});
      SamplesAtMost(events, k);
      SameGroups(events, k);
      GroupedTotalPick(One, TicksIn(events), keys, k);
      assert keys == {k} + (keys - {k});
    }
  }
}
