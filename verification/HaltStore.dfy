/**
 Halt flags and their transition log (src/trading_strands/halt/store.py).

 The table is a map from primary keys to rows.  Rows of the log have random unique keys, so the log is
 kept apart, as a sequence in the order of writing.
 */
module HaltControl {
  import opened Prelude

  datatype HaltRow = HaltRow(halted: bool, reason: string, updatedAt: int)

  datatype HaltState = HaltState(halted: bool, reason: Option<string>, updatedAt: int)

  /** One row of the log; an empty org id is not written to it. */
  datatype HaltEvent = HaltEvent(ts: int, scope: string, halted: bool, reason: string, orgId: Option<string>)

  datatype Scope = System | Org(id: string)

  datatype Table = Table(rows: map<string, HaltRow>, events: seq<HaltEvent>)

  const SYSTEM_HALT_PK := "CONTROL"
  const ORG_HALT_PK_PREFIX := "CONTROL#"

  function KeyOf(scope: Scope): string {
    match scope
    case System => SYSTEM_HALT_PK
    case Org(id) => ORG_HALT_PK_PREFIX + id
  }

  function StateAt(rows: map<string, HaltRow>, pk: string): HaltState {
    if pk !in rows then HaltState(false, None, 0)
    else
      var row := rows[pk];
      HaltState(row.halted, if row.reason == "" then None else Some(row.reason), row.updatedAt)
  }

  function EventFor(scope: Scope, halted: bool, reason: string, now: int): HaltEvent {
    match scope
    case System => HaltEvent(now, "system", halted, reason, None)
    case Org(id) => HaltEvent(now, "org", halted, reason, if id == "" then None else Some(id))
  }

  /** Writing a flag: the row always, the log only when the flag changes. */
  function AfterSet(t: Table, scope: Scope, halted: bool, reason: string, now: int): Table {
    var prior := StateAt(t.rows, KeyOf(scope));
    Table(
      t.rows[KeyOf(scope) := HaltRow(halted, reason, now)],
      t.events + (if prior.halted != halted then [EventFor(scope, halted, reason, now)] else []))
  }

  predicate EffectiveHalted(rows: map<string, HaltRow>, orgId: string) {
    StateAt(rows, KeyOf(System)).halted || StateAt(rows, KeyOf(Org(orgId))).halted
  }

  function EffectiveReason(rows: map<string, HaltRow>, orgId: string): Option<string> {
    var sys, org := StateAt(rows, KeyOf(System)), StateAt(rows, KeyOf(Org(orgId)));
    if sys.halted then sys.reason else if org.halted then org.reason else None
  }

  class HaltStore {
    var rows: map<string, HaltRow>
    var events: seq<HaltEvent>

    constructor ()
      ensures View() == Table(map[], [])
    {
      rows, events := map[], [];
    }

    function View(): Table
      reads this
    {
      Table(rows, events)
    }

    function GetOrgState(orgId: string): HaltState
      reads this
    {
      StateAt(rows, ORG_HALT_PK_PREFIX + orgId)
    }

    function GetSystemState(): HaltState
      reads this
    {
      StateAt(rows, SYSTEM_HALT_PK)
    }

    method RecordTransition(scope: Scope, halted: bool, reason: string, now: int)
      modifies `events
      ensures events == old(events) + [EventFor(scope, halted, reason, now)]
    {
      var orgId := if scope.Org? && scope.id != "" then Some(scope.id) else None;
      events := events + [HaltEvent(now, if scope.Org? then "org" else "system", halted, reason, orgId)];
    }

    method SetOrgHalt(orgId: string, halted: bool, reason: string, now: int)
      modifies this
      ensures View() == AfterSet(old(View()), Org(orgId), halted, reason, now)
    {
      var prior := GetOrgState(orgId);
      rows := rows[ORG_HALT_PK_PREFIX + orgId := HaltRow(halted, reason, now)];
      if prior.halted != halted {
        RecordTransition(Org(orgId), halted, reason, now);
      }
    }

    method SetSystemHalt(halted: bool, reason: string, now: int)
      modifies this
      ensures View() == AfterSet(old(View()), System, halted, reason, now)
    {
      var prior := GetSystemState();
      rows := rows[SYSTEM_HALT_PK := HaltRow(halted, reason, now)];
      if prior.halted != halted {
        RecordTransition(System, halted, reason, now);
      }
    }

    predicate IsEffectiveHalted(orgId: string)
      reads this
    {
      EffectiveHalted(rows, orgId)
    }

    function GetEffectiveReason(orgId: string): Option<string>
      reads this
    {
      EffectiveReason(rows, orgId)
    }
  }

  // ---------- Runs ----------

  datatype Write = Write(scope: Scope, halted: bool, reason: string, now: int)

  function RunWrites(writes: seq<Write>): Table {
    if |writes| == 0 then Table(map[], [])
    else
      var w := writes[|writes| - 1];
      AfterSet(RunWrites(writes[..|writes| - 1]), w.scope, w.halted, w.reason, w.now)
  }

  /** The scope a log row is about. */
  ghost function ScopeOf(e: HaltEvent): Scope {
    if e.scope == "system" then System else Org(if e.orgId.Some? then e.orgId.value else "")
  }

  /** The flags logged for a scope, in order. */
  ghost function Logged(events: seq<HaltEvent>, scope: Scope): seq<bool> {
    if |events| == 0 then []
    else
      var e := events[|events| - 1];
      Logged(events[..|events| - 1], scope) + (if ScopeOf(e) == scope then [e.halted] else [])
  }

  /** Halted, unhalted, halted, ... */
  ghost predicate Alternates(flags: seq<bool>) {
    forall i :: 0 <= i < |flags| ==> flags[i] == (i % 2 == 0)
  }

  ghost predicate LastOr(flags: seq<bool>, default: bool) {
    if |flags| == 0 then default else flags[|flags| - 1]
  }

  /** Different scopes have different keys. */
  lemma KeysAreDistinct(a: Scope, b: Scope)
    requires KeyOf(a) == KeyOf(b)
    ensures a == b
  {
    var n := |ORG_HALT_PK_PREFIX|;
    assert |SYSTEM_HALT_PK| < n;
    if a.Org? && b.Org? {
      assert KeyOf(a)[n..] == a.id && KeyOf(b)[n..] == b.id;
    }
  }

  /** A write moves the state and the log of its own scope, and of no other. */
  lemma {:induction false} WriteIsLocal(t: Table, w: Write, scope: Scope)
    ensures var t' := AfterSet(t, w.scope, w.halted, w.reason, w.now);
            var prior := StateAt(t.rows, KeyOf(scope));
            && Logged(t'.events, scope) == Logged(t.events, scope)
                 + (if w.scope == scope && prior.halted != w.halted then [w.halted] else [])
            && StateAt(t'.rows, KeyOf(scope)) ==
               (if w.scope != scope then prior
                else HaltState(w.halted, if w.reason == "" then None else Some(w.reason), w.now))
  {
    if w.scope != scope && KeyOf(w.scope) == KeyOf(scope) {
      KeysAreDistinct(w.scope, scope);
    }
    var e := EventFor(w.scope, w.halted, w.reason, w.now);
    assert ScopeOf(e) == w.scope;
    assert (t.events + [e])[..|t.events|] == t.events;
    assert t.events + [] == t.events;
  }

  lemma NothingWritten(scope: Scope)
    ensures Logged([], scope) == [] && StateAt(map[], KeyOf(scope)) == HaltState(false, None, 0)
    ensures Alternates([]) && LastOr([], false) == false
  {
  }

  lemma AlternatesAppend(flags: seq<bool>, flag: bool)
    requires Alternates(flags) && flag != LastOr(flags, false)
    ensures Alternates(flags + [flag]) && LastOr(flags + [flag], false) == flag
  {
    if |flags| > 0 {
      assert flags[|flags| - 1] == ((|flags| - 1) % 2 == 0);
    }
  }

  /** The log is faithful: over any sequential run each scope's logged flags strictly alternate, starting
      with halted, and the last of them (unhalted if none) is the flag now stored. */
  lemma {:induction false} LogIsFaithful(writes: seq<Write>, scope: Scope)
    ensures var t := RunWrites(writes); var flags := Logged(t.events, scope);
            Alternates(flags) && StateAt(t.rows, KeyOf(scope)).halted == LastOr(flags, false)
  {
    hide AfterSet, StateAt, Logged, Alternates, LastOr;
    if |writes| == 0 {
      NothingWritten(scope);
    } else {
      var before, w := writes[..|writes| - 1], writes[|writes| - 1];
      var t := RunWrites(before);
      var flags := Logged(t.events, scope);
      LogIsFaithful(before, scope);
      WriteIsLocal(t, w, scope);
      if w.scope == scope && LastOr(flags, false) != w.halted {
        AlternatesAppend(flags, w.halted);
      } else {
        assert flags + [] == flags;
      }
    }
  }

  /** What stops an org is exactly the last transition of the system or of that org. */
  lemma EffectiveIsOrOfLastTransitions(writes: seq<Write>, orgId: string)
    ensures var t := RunWrites(writes);
            EffectiveHalted(t.rows, orgId)
            <==> LastOr(Logged(t.events, System), false) || LastOr(Logged(t.events, Org(orgId)), false)
  {
    LogIsFaithful(writes, System);
    LogIsFaithful(writes, Org(orgId));
  }

  ghost predicate IsLastWrite(writes: seq<Write>, scope: Scope, k: nat) {
    && k < |writes| && writes[k].scope == scope
    && forall i :: k < i < |writes| ==> writes[i].scope != scope
  }

  /** Scopes are isolated: the state of a scope is what its own last write said, whatever was written to
      the others since, and is empty if it was never written. */
  lemma {:induction false} StateIsLastWrite(writes: seq<Write>, scope: Scope)
    ensures forall k: nat :: IsLastWrite(writes, scope, k) ==>
              StateAt(RunWrites(writes).rows, KeyOf(scope))
              == HaltState(writes[k].halted,
                           if writes[k].reason == "" then None else Some(writes[k].reason),
                           writes[k].now)
    ensures (forall w :: w in writes ==> w.scope != scope) ==>
              StateAt(RunWrites(writes).rows, KeyOf(scope)) == HaltState(false, None, 0)
  {
    hide AfterSet, StateAt, Logged, KeyOf;
    if |writes| == 0 {
      NothingWritten(scope);
    } else {
      var before, w := writes[..|writes| - 1], writes[|writes| - 1];
      StateIsLastWrite(before, scope);
      WriteIsLocal(RunWrites(before), w, scope);
      if w.scope != scope {
        forall k: nat | IsLastWrite(writes, scope, k)
          ensures IsLastWrite(before, scope, k)
        {
        }
      } else {
        hide RunWrites;
        assert w in writes;
        assert forall k: nat :: IsLastWrite(writes, scope, k) ==> k == |before|;
      }
    }
  }

  /** While the system is halted its reason is the one reported, whatever the org's own row says. */
  lemma SystemReasonWins(writes: seq<Write>, orgId: string, k: nat)
    requires IsLastWrite(writes, System, k) && writes[k].halted
    ensures EffectiveHalted(RunWrites(writes).rows, orgId)
    ensures EffectiveReason(RunWrites(writes).rows, orgId)
            == if writes[k].reason == "" then None else Some(writes[k].reason)
  {
    StateIsLastWrite(writes, System);
  }

  /** And otherwise the reason is the org's own, if its last write halted it and gave one. */
  lemma OrgReasonOtherwise(writes: seq<Write>, orgId: string, k: nat)
    requires !LastOr(Logged(RunWrites(writes).events, System), false) && IsLastWrite(writes, Org(orgId), k)
    ensures EffectiveReason(RunWrites(writes).rows, orgId)
            == if writes[k].halted && writes[k].reason != "" then Some(writes[k].reason) else None
  {
    LogIsFaithful(writes, System);
    StateIsLastWrite(writes, Org(orgId));
  }

  /** What the log holds: one row per write that changes its scope's flag, with the time, the scope, the flag,
      the reason and the org of that write. */
  lemma {:induction false} LogRowSays(writes: seq<Write>)
    requires |writes| > 0
    ensures var w, before := writes[|writes| - 1], RunWrites(writes[..|writes| - 1]);
            var changes := LastOr(Logged(before.events, w.scope), false) != w.halted;
            RunWrites(writes).events
            == before.events
               + (if !changes then []
                  else if w.scope.System? then [HaltEvent(w.now, "system", w.halted, w.reason, None)]
                  else
                    var org := if w.scope.id == "" then None else Some(w.scope.id);
                    [HaltEvent(w.now, "org", w.halted, w.reason, org)])
  {
    hide Logged, LastOr, Alternates;
    LogIsFaithful(writes[..|writes| - 1], writes[|writes| - 1].scope);
  }
}
