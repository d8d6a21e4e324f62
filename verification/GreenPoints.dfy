/** The green-points ledger kept by a trigger on the activity log, against recomputation from the log. */
module GreenPoints {
  import opened Wrappers

  type Id = nat
  type Time = nat

  datatype Rule = Rule(points: int, active: bool)

  /** green_point_rules, keyed by activity type. */
  type Rules = map<string, Rule>

  /** The activity types the CHECK constraint of garden_activity_logs admits. */
  const ACTIVITIES: set<string> := {
    "note", "planting", "watering", "feeding", "pruning", "pest_control", "inspection", "harvest", "share_update",
    "task_completed", "installation"}

  datatype Log = Log(owner: Id, activity: string, title: string, at: Time)

  datatype Entry = Entry(owner: Id, points: int, description: string, at: Time, activity: string)

  /** A log's id is its position; the ledger holds the rows whose source is a log, one for each source. */
  datatype State = State(logs: seq<Log>, ledger: map<Id, Entry>)

  function ActivePoints(rules: Rules, activity: string): Option<int> {
    if activity in rules && rules[activity].active then Some(rules[activity].points) else None
  }

  /** The activity's own rule, else the rule for notes, else nothing. */
  function Award(rules: Rules, activity: string): int {
    OrElse(ActivePoints(rules, activity), OrElse(ActivePoints(rules, "note"), 0))
  }

  /** An activity earns its own rule's points if that is active, else those of the rule for notes if that is, else 0. */
  lemma AwardIs(rules: Rules, activity: string)
    ensures activity in rules && rules[activity].active ==> Award(rules, activity) == rules[activity].points
    ensures !(activity in rules && rules[activity].active) && "note" in rules && rules["note"].active ==>
              Award(rules, activity) == rules["note"].points
    ensures !(activity in rules && rules[activity].active) && !("note" in rules && rules["note"].active) ==>
              Award(rules, activity) == 0
  {
  }

  function EntryFor(rules: Rules, l: Log): Entry {
    Entry(l.owner, Award(rules, l.activity), l.title, l.at, l.activity)
  }

  // ---------- The trigger and the backfill ----------

  /** INSERT ... ON CONFLICT DO UPDATE: an existing row keeps its owner. */
  function Recorded(rules: Rules, ledger: map<Id, Entry>, id: Id, l: Log): map<Id, Entry> {
    if Award(rules, l.activity) <= 0 then ledger
    else
      var entry := EntryFor(rules, l);
      ledger[id := if id in ledger then entry.(owner := ledger[id].owner) else entry]
  }

  /** INSERT ... SELECT ... ON CONFLICT DO NOTHING over the first `n` logs. */
  function Backfilled(rules: Rules, s: State, n: nat): map<Id, Entry>
    requires n <= |s.logs|
  {
    if n == 0 then s.ledger
    else
      var before := Backfilled(rules, s, n - 1);
      if Award(rules, s.logs[n - 1].activity) > 0 && n - 1 !in before
      then before[n - 1 := EntryFor(rules, s.logs[n - 1])] else before
  }

  datatype Event =
    | InsertLog(log: Log)
    | UpdateLog(id: Id, activity: string, title: string, at: Time)

  datatype LogError = LogNotFound | UnknownActivity

  function Edited(l: Log, e: Event): Log
    requires e.UpdateLog?
  {
    l.(activity := e.activity, title := e.title, at := e.at)
  }

  /** The constraint refuses a log of any other activity, whatever the rules name. */
  predicate Admitted(e: Event) {
    match e
    case InsertLog(l) => l.activity in ACTIVITIES
    case UpdateLog(_, activity, _, _) => activity in ACTIVITIES
  }

  function Step(rules: Rules, s: State, e: Event): State {
    if !Admitted(e) then s
    else
      match e
      case InsertLog(l) => State(s.logs + [l], Recorded(rules, s.ledger, |s.logs|, l))
      case UpdateLog(id, _, _, _) =>
        if id < |s.logs|
        then State(s.logs[id := Edited(s.logs[id], e)], Recorded(rules, s.ledger, id, Edited(s.logs[id], e)))
        else s
  }

  /** Only the log's own row is written, and only for a positive award; an existing row keeps its owner. */
  ghost predicate Awarded(rules: Rules, before: map<Id, Entry>, after: map<Id, Entry>, id: Id, l: Log) {
    && (forall k: Id :: k != id ==> (k in after <==> k in before))
    && (forall k: Id :: k != id && k in before ==> after[k] == before[k])
    && (Award(rules, l.activity) <= 0 ==> (id in after <==> id in before) && (id in before ==> after[id] == before[id]))
    && (Award(rules, l.activity) > 0 ==>
          id in after && after[id] == Entry(if id in before then before[id].owner else l.owner, Award(rules, l.activity),
                                            l.title, l.at, l.activity))
  }

  class PointsDatabase {
    const rules: Rules
    var logs: seq<Log>
    var ledger: map<Id, Entry>

    constructor (rules: Rules, logs: seq<Log>)
      ensures this.rules == rules && Current() == State(logs, map[])
    {
      this.rules, this.logs, this.ledger := rules, logs, map[];
    }

    function Current(): State
      reads this
    {
      State(logs, ledger)
    }

    /** record_green_points_for_activity_log */
    method RecordGreenPoints(id: Id, row: Log)
      modifies `ledger
      ensures ledger == Recorded(rules, old(ledger), id, row)
      ensures Awarded(rules, old(ledger), ledger, id, row)
    {
      var awarded := ActivePoints(rules, row.activity);
      if awarded.None? {
        awarded := ActivePoints(rules, "note");
      }
      if awarded.Some? && awarded.value > 0 {
        if id in ledger {
          ledger := ledger[id := ledger[id].(points := awarded.value, description := row.title, at := row.at,
                                             activity := row.activity)];
        } else {
          ledger := ledger[id := Entry(row.owner, awarded.value, row.title, row.at, row.activity)];
        }
      }
    }

    method InsertActivityLog(row: Log) returns (r: Result<Id, LogError>)
      modifies this
      ensures Current() == Step(rules, old(Current()), InsertLog(row))
      ensures r == if row.activity in ACTIVITIES then Success(|old(logs)|) else Failure(UnknownActivity)
      ensures r.Success? ==> logs == old(logs) + [row] && Awarded(rules, old(ledger), ledger, r.value, row)
      ensures r.Failure? ==> Current() == old(Current())
    {
      if row.activity !in ACTIVITIES {
        return Failure(UnknownActivity);
      }
      var id := |logs|;
      logs := logs + [row];
      RecordGreenPoints(id, row);
      return Success(id);
    }

    method UpdateActivityLog(id: Id, activity: string, title: string, at: Time) returns (r: Result<Id, LogError>)
      modifies this
      ensures Current() == Step(rules, old(Current()), UpdateLog(id, activity, title, at))
      ensures r == if id >= |old(logs)| then Failure(LogNotFound)
                   else if activity !in ACTIVITIES then Failure(UnknownActivity) else Success(id)
      ensures r.Success? ==>
                var row := Log(old(logs)[id].owner, activity, title, at);
                logs == old(logs)[id := row] && Awarded(rules, old(ledger), ledger, id, row)
      ensures r.Failure? ==> Current() == old(Current())
    {
      if id >= |logs| {
        return Failure(LogNotFound);
      }
      if activity !in ACTIVITIES {
        return Failure(UnknownActivity);
      }
      logs := logs[id := logs[id].(activity := activity, title := title, at := at)];
      RecordGreenPoints(id, logs[id]);
      return Success(id);
    }

    method Backfill()
      modifies `ledger
      ensures ledger == Backfilled(rules, old(Current()), |logs|)
    {
      for n := 0 to |logs|
        invariant ledger == Backfilled(rules, old(Current()), n)
      {
        if Award(rules, logs[n].activity) > 0 && n !in ledger {
          ledger := ledger[n := EntryFor(rules, logs[n])];
        }
      }
    }
  }

  // ---------- Agreement ----------

  /** The ledger has one row for each log with an award, and it is what the log now earns. */
  ghost predicate Agrees(rules: Rules, s: State) {
    && (forall id: Id :: id in s.ledger <==> id < |s.logs| && Award(rules, s.logs[id].activity) > 0)
    && (forall id: Id :: id in s.ledger ==>
          id < |s.logs|
          && var l := s.logs[id]; s.ledger[id] == Entry(l.owner, Award(rules, l.activity), l.title, l.at, l.activity))
  }

  predicate AllPositive(rules: Rules) {
    forall activity :: activity in ACTIVITIES ==> Award(rules, activity) > 0
  }

  predicate NonePositive(rules: Rules) {
    forall activity :: activity in ACTIVITIES ==> Award(rules, activity) <= 0
  }

  /** The rule an admitted activity finds under its own name rewards it. */
  predicate Rewards(rules: Rules, activity: string) {
    activity in rules && rules[activity].active && rules[activity].points > 0
  }

  /** Of the rule table: all awards are positive exactly when the rule for notes rewards and so does every
      active rule of an admitted activity; none is exactly when no rule of an admitted activity rewards.
      Rules of other activities do not matter. */
  lemma AwardsByRules(rules: Rules)
    ensures AllPositive(rules)
            <==> Rewards(rules, "note")
                 && forall activity :: activity in ACTIVITIES && activity in rules && rules[activity].active ==>
                                         rules[activity].points > 0
    ensures NonePositive(rules) <==> forall activity :: activity in ACTIVITIES ==> !Rewards(rules, activity)
  {
    assert "note" in ACTIVITIES;
    if AllPositive(rules) {
      assert Award(rules, "note") > 0;
      forall activity | activity in ACTIVITIES && activity in rules && rules[activity].active
        ensures rules[activity].points > 0
      {
        assert Award(rules, activity) > 0;
      }
    }
    if NonePositive(rules) {
      forall activity | activity in ACTIVITIES ensures !Rewards(rules, activity) {
        assert Award(rules, activity) <= 0;
      }
    }
  }

  ghost predicate AdmittedLogs(logs: seq<Log>) {
    forall id :: 0 <= id < |logs| ==> logs[id].activity in ACTIVITIES
  }

  lemma StepAgrees(rules: Rules, s: State, e: Event)
    requires Agrees(rules, s) && AdmittedLogs(s.logs) && (AllPositive(rules) || NonePositive(rules))
    ensures Agrees(rules, Step(rules, s, e)) && AdmittedLogs(Step(rules, s, e).logs)
  {
    if Admitted(e) {
      match e {
        case InsertLog(l) => assert Award(rules, l.activity) > 0 || Award(rules, l.activity) <= 0;
        case UpdateLog(id, activity, _, _) =>
          if id < |s.logs| {
            assert Award(rules, activity) > 0 <==> Award(rules, s.logs[id].activity) > 0;
          }
      }
    }
  }

  lemma {:induction false} BackfillAgrees(rules: Rules, logs: seq<Log>, n: nat)
    requires n <= |logs|
    ensures var ledger := Backfilled(rules, State(logs, map[]), n);
            && (forall id: Id :: id in ledger <==> id < n && Award(rules, logs[id].activity) > 0)
            && (forall id: Id :: id in ledger ==> id < n && ledger[id] == EntryFor(rules, logs[id]))
  {
    if n > 0 {
      BackfillAgrees(rules, logs, n - 1);
    }
  }

  /** Where the ledger agrees, running the backfill again changes nothing. */
  lemma {:induction false} BackfillAgainIsIdle(rules: Rules, s: State, n: nat)
    requires Agrees(rules, s) && n <= |s.logs|
    ensures Backfilled(rules, s, n) == s.ledger
  {
    if n > 0 {
      BackfillAgainIsIdle(rules, s, n - 1);
    }
  }

  // ---------- Runs ----------

  /** A run starts from the logs there were and the backfill of the migration. */
  ghost predicate IsRun(rules: Rules, states: seq<State>, events: seq<Event>) {
    && |states| == |events| + 1 && AdmittedLogs(states[0].logs)
    && states[0].ledger == Backfilled(rules, State(states[0].logs, map[]), |states[0].logs|)
    && forall n :: 0 <= n < |events| ==> states[n + 1] == Step(rules, states[n], events[n])
  }

  lemma {:induction false} RunAgrees(rules: Rules, states: seq<State>, events: seq<Event>, n: nat)
    requires IsRun(rules, states, events) && (AllPositive(rules) || NonePositive(rules)) && n < |states|
    ensures Agrees(rules, states[n]) && AdmittedLogs(states[n].logs)
  {
    if n == 0 {
      BackfillAgrees(rules, states[0].logs, |states[0].logs|);
    } else {
      RunAgrees(rules, states, events, n - 1);
      StepAgrees(rules, states[n - 1], events[n - 1]);
    }
  }

  /** A log moved from a rewarded admitted activity to an unrewarded one keeps its old ledger row. */
  lemma MixedRulesDisagree(rules: Rules, rewarded: string, unrewarded: string, owner: Id, title: string, at: Time)
    returns (states: seq<State>, events: seq<Event>)
    requires rewarded in ACTIVITIES && unrewarded in ACTIVITIES
    requires Award(rules, rewarded) > 0 && Award(rules, unrewarded) <= 0
    ensures IsRun(rules, states, events) && !Agrees(rules, states[|events|])
  {
    var s0 := State([], map[]);
    events := [InsertLog(Log(owner, rewarded, title, at)), UpdateLog(0, unrewarded, title, at)];
    var s1 := Step(rules, s0, events[0]);
    var s2 := Step(rules, s1, events[1]);
    states := [s0, s1, s2];
    assert 0 in s2.ledger && s2.logs[0].activity == unrewarded;
  }

  /** The ledger agrees with recomputation in every state of every run if and only if all awards are
      positive or none is. */
  lemma AgreementExactly(rules: Rules)
    ensures (forall states, events, n: nat :: IsRun(rules, states, events) && n < |states| ==> Agrees(rules, states[n]))
            <==> AllPositive(rules) || NonePositive(rules)
  {
    if AllPositive(rules) || NonePositive(rules) {
      forall states, events, n: nat | IsRun(rules, states, events) && n < |states| ensures Agrees(rules, states[n]) {
        RunAgrees(rules, states, events, n);
      }
    } else {
      var rewarded :| rewarded in ACTIVITIES && Award(rules, rewarded) > 0;
      var unrewarded :| unrewarded in ACTIVITIES && Award(rules, unrewarded) <= 0;
      var states, events := MixedRulesDisagree(rules, rewarded, unrewarded, 0, "", 0);
    }
  }

  // ---------- Totals ----------

  function Earned(rules: Rules, l: Log): int {
    if Award(rules, l.activity) > 0 then Award(rules, l.activity) else 0
  }

  /** A grower's points recomputed from the logs. */
  function Recomputed(rules: Rules, logs: seq<Log>, owner: Id): int {
    if logs == [] then 0
    else
      var n := |logs| - 1;
      Recomputed(rules, logs[..n], owner) + (if logs[n].owner == owner then Earned(rules, logs[n]) else 0)
  }

  /** A grower's points in the ledger rows whose sources are the first `n` logs. */
  function LedgerTotal(ledger: map<Id, Entry>, n: nat, owner: Id): int {
    if n == 0 then 0
    else LedgerTotal(ledger, n - 1, owner)
         + (if n - 1 in ledger && ledger[n - 1].owner == owner then ledger[n - 1].points else 0)
  }

  lemma {:induction false} TotalsAgree(rules: Rules, s: State, n: nat, owner: Id)
    requires Agrees(rules, s) && n <= |s.logs|
    ensures LedgerTotal(s.ledger, n, owner) == Recomputed(rules, s.logs[..n], owner)
  {
    if n > 0 {
      TotalsAgree(rules, s, n - 1, owner);
      assert s.logs[..n][..n - 1] == s.logs[..n - 1];
    }
  }

  /** In every run with positive awards a grower's ledger total is the sum recomputed from the logs, and
      a backfill would change nothing. */
  lemma LedgerIsRecomputation(rules: Rules, states: seq<State>, events: seq<Event>, n: nat, owner: Id)
    requires IsRun(rules, states, events) && (AllPositive(rules) || NonePositive(rules)) && n < |states|
    ensures var s := states[n];
            && (forall id: Id :: id in s.ledger ==> id < |s.logs|)
            && LedgerTotal(s.ledger, |s.logs|, owner) == Recomputed(rules, s.logs, owner)
            && Backfilled(rules, s, |s.logs|) == s.ledger
  {
    RunAgrees(rules, states, events, n);
    var s := states[n];
    TotalsAgree(rules, s, |s.logs|, owner);
    assert s.logs[..|s.logs|] == s.logs;
    BackfillAgainIsIdle(rules, s, |s.logs|);
  }
}
