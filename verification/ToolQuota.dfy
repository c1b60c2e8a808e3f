/**
 Daily tool quotas (src/trading_strands/tool_quota/store.py).

 A row per strategy and day holds every counter of that strategy-day.  `ADD` is atomic in the table; the
 comparison with the limit happens afterwards, in the caller, so many reservations may be in between.
 */
module ToolQuota {
  import opened Prelude

  datatype RowKey = RowKey(strategyId: string, date: string)

  type Rows = map<RowKey, map<string, int>>

  function ConsumedAttr(tool: string): string { tool + "_consumed" }

  function HitsAttr(tool: string): string { tool + "_cache_hits" }

  function Read(rows: Rows, key: RowKey, attr: string): int {
    if key in rows && attr in rows[key] then rows[key][attr] else 0
  }

  /** `ADD attr :one`, creating the row and the counter when missing. */
  function Bump(rows: Rows, key: RowKey, attr: string): Rows {
    var row := if key in rows then rows[key] else map[];
    rows[key := row[attr := Read(rows, key, attr) + 1]]
  }

  datatype Reservation = Granted | QuotaExceeded(consumed: int, limit: int)

  class ToolQuotaStore {
    var rows: Rows

    constructor ()
      ensures rows == map[]
    {
      rows := map[];
    }

    /** Reserve before the call: the counter grows even when the answer is a refusal, except that a
        limit of zero or less is refused without touching the row. */
    method Reserve(strategyId: string, tool: string, limit: int, today: string) returns (r: Reservation)
      modifies this
      ensures limit <= 0 ==> rows == old(rows) && r == QuotaExceeded(0, limit)
      ensures limit > 0 ==>
                var key := RowKey(strategyId, today);
                var consumed := Read(old(rows), key, ConsumedAttr(tool)) + 1;
                && rows == Bump(old(rows), key, ConsumedAttr(tool))
                && r == if consumed > limit then QuotaExceeded(consumed, limit) else Granted
    {
      if limit <= 0 {
        return QuotaExceeded(0, limit);
      }
      var key := RowKey(strategyId, today);
      rows := Bump(rows, key, ConsumedAttr(tool));
      var newConsumed := rows[key][ConsumedAttr(tool)];
      if newConsumed > limit {
        return QuotaExceeded(newConsumed, limit);
      }
      r := Granted;
    }

    method RecordCacheHit(strategyId: string, tool: string, today: string)
      modifies this
      ensures rows == Bump(old(rows), RowKey(strategyId, today), HitsAttr(tool))
    {
      rows := Bump(rows, RowKey(strategyId, today), HitsAttr(tool));
    }
  }

  lemma BumpIsLocal(rows: Rows, key: RowKey, attr: string, otherKey: RowKey, other: string)
    ensures Read(Bump(rows, key, attr), otherKey, other)
            == Read(rows, otherKey, other) + (if otherKey == key && other == attr then 1 else 0)
  {
  }

  /** No two counters share an attribute: not across tools, and not hits with consumption. */
  lemma AttributesAreDistinct(a: string, b: string)
    ensures ConsumedAttr(a) == ConsumedAttr(b) ==> a == b
    ensures HitsAttr(a) == HitsAttr(b) ==> a == b
    ensures HitsAttr(a) != ConsumedAttr(b)
  {
    var c, h := ConsumedAttr(b), HitsAttr(a);
    assert c[|c| - 3] == 'm' && h[|h| - 3] == 'i';
    if ConsumedAttr(a) == ConsumedAttr(b) {
      assert ConsumedAttr(a)[..|a|] == a && ConsumedAttr(b)[..|b|] == b;
    }
    if HitsAttr(a) == HitsAttr(b) {
      assert HitsAttr(a)[..|a|] == a && HitsAttr(b)[..|b|] == b;
    }
  }

  // ---------- Concurrent reservations ----------

  datatype Quota = Quota(strategyId: string, tool: string, date: string)
  {
    function Row(): RowKey { RowKey(strategyId, date) }
  }

  /** The answer of one `ADD`: the value after the increment, and the limit its caller will compare. */
  datatype Ticket = Ticket(quota: Quota, limit: int, value: int)

  /** What the table holds and what the callers have been told: `pending` answers are still to be
      compared with their limits, `settled` ones have been. */
  datatype State = State(rows: Rows, pending: set<Ticket>, settled: set<Ticket>)

  datatype Step =
    | Land(quota: Quota, limit: int)   // the ADD of a reservation takes effect
    | Settle(ticket: Ticket)           // some caller compares the answer it got
    | Hit(quota: Quota)                // a cache hit is recorded

  function Next(s: State, step: Step): State {
    match step
    case Land(q, limit) =>
      if limit <= 0 then s
      else
        var rows := Bump(s.rows, q.Row(), ConsumedAttr(q.tool));
        var value := Read(rows, q.Row(), ConsumedAttr(q.tool));
        s.(rows := rows, pending := s.pending + {Ticket(q, limit, value)})
    case Settle(t) =>
      if t in s.pending then s.(pending := s.pending - {t}, settled := s.settled + {t}) else s
    case Hit(q) => s.(rows := Bump(s.rows, q.Row(), HitsAttr(q.tool)))
  }

  function RunSteps(steps: seq<Step>): State {
    if |steps| == 0 then State(map[], {}, {})
    else Next(RunSteps(steps[..|steps| - 1]), steps[|steps| - 1])
  }

  ghost function Attempts(steps: seq<Step>, q: Quota): nat {
    if |steps| == 0 then 0
    else
      var last := steps[|steps| - 1];
      Attempts(steps[..|steps| - 1], q) + (if last.Land? && last.quota == q then 1 else 0)
  }

  ghost function Consumed(s: State, q: Quota): int { Read(s.rows, q.Row(), ConsumedAttr(q.tool)) }

  /** The settled answers of `q` that were within their limit: the calls allowed to go out. */
  ghost function GrantedFor(s: State, q: Quota): set<Ticket> {
    set t | t in s.settled && t.quota == q && t.value <= t.limit
  }

  ghost function TicketsUpTo(q: Quota, limit: int, n: int): set<Ticket> {
    set v | 1 <= v <= n :: Ticket(q, limit, v)
  }

  ghost predicate FixedLimit(steps: seq<Step>, q: Quota, limit: int) {
    forall step :: step in steps && step.Land? && step.quota == q ==> step.limit == limit
  }

  lemma {:induction false} TicketsCount(q: Quota, limit: int, n: nat)
    ensures |TicketsUpTo(q, limit, n)| == n
  {
    if n > 0 {
      TicketsCount(q, limit, n - 1);
      assert TicketsUpTo(q, limit, n) == TicketsUpTo(q, limit, n - 1) + {Ticket(q, limit, n)};
    } else {
      assert TicketsUpTo(q, limit, 0) == {};
    }
  }

  /** A step moves the counter of `q` only if it is a reservation of `q`. */
  lemma StepMovesOwnCounter(s: State, step: Step, q: Quota)
    ensures Consumed(Next(s, step), q)
            == Consumed(s, q) + (if step.Land? && step.quota == q && step.limit > 0 then 1 else 0)
  {
    match step {
      case Land(other, _) => AttributesAreDistinct(other.tool, q.tool);
      case Hit(other) => AttributesAreDistinct(other.tool, q.tool);
      case Settle(_) =>
    }
  }

  /** The answers given out for `q` are the numbers from 1 to its counter, each exactly once. */
  lemma {:induction false} AnswersAreConsecutive(steps: seq<Step>, q: Quota, limit: int)
    requires limit > 0 && FixedLimit(steps, q, limit)
    ensures var s := RunSteps(steps);
            && Consumed(s, q) == Attempts(steps, q)
            && (forall t :: t in s.pending + s.settled && t.quota == q <==> t in TicketsUpTo(q, limit, Consumed(s, q)))
            && s.pending !! s.settled
            && (forall t :: t in s.pending + s.settled ==> t.value <= Consumed(s, t.quota))
  {
    if |steps| > 0 {
      var before, last := steps[..|steps| - 1], steps[|steps| - 1];
      assert last in steps && forall step :: step in before ==> step in steps;
      AnswersAreConsecutive(before, q, limit);
      var s, t := RunSteps(before), RunSteps(steps);
      StepMovesOwnCounter(s, last, q);
      forall ticket | ticket in t.pending + t.settled
        ensures ticket.value <= Consumed(t, ticket.quota)
      {
        StepMovesOwnCounter(s, last, ticket.quota);
      }
      if last.Land? {
        StepMovesOwnCounter(s, last, last.quota);
      }
    }
  }

  /** Quota exactness under concurrency: for any interleaving of reservations and cache hits, of any
      strategies, tools and days, with a fixed positive limit on `q`, the counter is the number of
      attempts, no more than the limit are ever granted, and once every caller has compared its answer
      exactly the smaller of limit and attempts have been. */
  lemma {:induction false} QuotaIsExact(steps: seq<Step>, q: Quota, limit: int)
    requires limit > 0 && FixedLimit(steps, q, limit)
    ensures var s, attempts := RunSteps(steps), Attempts(steps, q);
            var most := if attempts < limit then attempts else limit;
            && Consumed(s, q) == attempts
            && |GrantedFor(s, q)| <= most
            && ((forall t :: t in s.pending ==> t.quota != q) ==> |GrantedFor(s, q)| == most)
  {
    AnswersAreConsecutive(steps, q, limit);
    var s, attempts := RunSteps(steps), Attempts(steps, q);
    var most := if attempts < limit then attempts else limit;
    var granted, all := GrantedFor(s, q), TicketsUpTo(q, limit, most);
    TicketsCount(q, limit, most);
    forall t | t in granted
      ensures t in all
    {
      assert t in s.pending + s.settled;
    }
    SubsetCount(granted, all);
    if forall t :: t in s.pending ==> t.quota != q {
      forall t | t in all
        ensures t in granted
      {
        assert t in TicketsUpTo(q, limit, attempts);
        assert t in s.pending + s.settled;
      }
      assert granted == all;
    }
  }

  ghost function Hits(steps: seq<Step>, q: Quota): nat {
    if |steps| == 0 then 0
    else
      var last := steps[|steps| - 1];
      Hits(steps[..|steps| - 1], q) + (if last == Hit(q) then 1 else 0)
  }

  /** And the hit counter beside it is the number of cache hits of `q`, whatever is reserved in between. */
  lemma {:induction false} HitsAreCounted(steps: seq<Step>, q: Quota)
    ensures Read(RunSteps(steps).rows, q.Row(), HitsAttr(q.tool)) == Hits(steps, q)
  {
    hide Bump, Read, HitsAttr, ConsumedAttr;
    if |steps| > 0 {
      var before, last := steps[..|steps| - 1], steps[|steps| - 1];
      HitsAreCounted(before, q);
      var rows := RunSteps(before).rows;
      match last {
        case Land(other, _) =>
          AttributesAreDistinct(q.tool, other.tool);
          BumpIsLocal(rows, other.Row(), ConsumedAttr(other.tool), q.Row(), HitsAttr(q.tool));
        case Hit(other) =>
          AttributesAreDistinct(q.tool, other.tool);
          BumpIsLocal(rows, other.Row(), HitsAttr(other.tool), q.Row(), HitsAttr(q.tool));
        case Settle(_) =>
      }
    } else {
      NoRows(q.Row(), HitsAttr(q.tool));
    }
  }

  lemma NoRows(key: RowKey, attr: string)
    ensures Read(map[], key, attr) == 0
  {
  }

  lemma {:induction false} SubsetCount<T>(a: set<T>, b: set<T>)
    requires a <= b
    ensures |a| <= |b|
  {
    assert b == a + (b - a);
  }
}
