/** The decision-trace table over whole runs (storage/decision_trace.py), written by the single worker
    turn by turn and by the transport in between, each row behind `ensure_user`. */
module Traces {
  import opened Prelude
  import opened Policy
  import Session

  /** A `decision_trace` row; a degraded one has no action. */
  datatype Row = Row(
    id: string, user: string, rule: PolicyRule, proximity: Proximity, action: Option<ActionTaken>,
    outcome: ReminderOutcome)

  function MinimalRow(id: string, user: string): Row {
    Row(id, user, NoRule, NoDeadline, None, NoReminder)
  }

  predicate Degraded(row: Row) { row == MinimalRow(row.id, row.user) }

  /** A pending reminder row of the user that no R5 decision has suppressed. */
  function Live(user: string): Row -> bool {
    (r: Row) => r.user == user && r.outcome == PendingReminder && r.action.Some? && r.action != Some(Suppress)
  }

  function Suppressed(rows: seq<Row>, user: string): (r: seq<Row>)
    ensures |r| == |rows|
    ensures forall i :: 0 <= i < |rows| ==>
      r[i] == if Live(user)(rows[i]) then rows[i].(action := Some(Suppress)) else rows[i]
  {
    seq(|rows|, i requires 0 <= i < |rows| =>
      if Live(user)(rows[i]) then rows[i].(action := Some(Suppress)) else rows[i])
  }

  // ----- turns -----

  /** How far a run of the pipeline gets. */
  datatype Ending = FailsBeforePolicy | FailsAfterPolicy | Completes

  /** A turn of the worker, with the rows the transport writes while it runs; or one of those rows on
      its own. */
  datatype Step =
    | Turn(id: string, user: string, governed: bool, affect: AffectLevel, proximity: Proximity, ending: Ending,
           meanwhile: seq<Row>)
    | Transport(row: Row)

  /** The transport writes degraded rows only, of users the store accepts. */
  predicate FromTransport(row: Row) { Degraded(row) && Session.StoreAccepts(row.user) }

  predicate Genuine(s: Step) {
    match s
    case Turn(_, _, _, _, _, _, meanwhile) => forall i :: 0 <= i < |meanwhile| ==> FromTransport(meanwhile[i])
    case Transport(row) => FromTransport(row)
  }

  function RuleOf(s: Step): PolicyRule
    requires s.Turn?
  {
    if s.governed then RuleFor(s.affect, s.proximity) else NoRule
  }

  /** The policy node decided R5 for this user; for an empty user suppression fails the turn instead. */
  predicate DecidesR5(s: Step, user: string) {
    s.Turn? && s.user == user && Session.StoreAccepts(user) && s.ending != FailsBeforePolicy && RuleOf(s) == R5
  }

  /** The full trace is saved. */
  predicate Finishes(s: Step)
    requires s.Turn?
  {
    s.ending == Completes && Session.StoreAccepts(s.user)
  }

  function TraceOf(s: Step): Row
    requires s.Turn?
  {
    Row(s.id, s.user, RuleOf(s), if s.governed then s.proximity else NoDeadline, Some(ActionFor(RuleOf(s))),
        if s.governed then PendingReminder else NoReminder)
  }

  /** What a turn ends with: the full trace or the degraded row, and nothing if the store refuses the
      user. */
  function LastRows(s: Step): seq<Row>
    requires s.Turn?
  {
    if !Session.StoreAccepts(s.user) then []
    else if Finishes(s) then [TraceOf(s)]
    else [MinimalRow(s.id, s.user)]
  }

  function Apply(rows: seq<Row>, s: Step): seq<Row> {
    match s
    case Transport(row) => rows + [row]
    case Turn(_, user, _, _, _, _, meanwhile) =>
      var decided := if DecidesR5(s, user) then Suppressed(rows, user) else rows;
      decided + meanwhile + LastRows(s)
  }

  function Run(rows: seq<Row>, steps: seq<Step>): seq<Row> {
    if steps == [] then rows else Apply(Run(rows, steps[..|steps| - 1]), steps[|steps| - 1])
  }

  /** The pending rows that turns of the user have saved. */
  function Saved(steps: seq<Step>, user: string): seq<Row> {
    if steps == [] then []
    else
      var s := steps[|steps| - 1];
      Saved(steps[..|steps| - 1], user)
      + if s.Turn? && s.user == user && s.governed && Finishes(s) then [TraceOf(s)] else []
  }

  // ----- suppression -----

  lemma SuppressedIsQuiet(rows: seq<Row>, user: string)
    ensures Filter(Suppressed(rows, user), Live(user)) == []
  {
    FilterNone(Suppressed(rows, user), Live(user));
  }

  /** Suppression touches nothing but the action of the user's own rows. */
  lemma {:induction false} OthersStay(rows: seq<Row>, user: string, keep: Row -> bool)
    requires forall r :: keep(r) ==> r.user != user
    ensures Filter(Suppressed(rows, user), keep) == Filter(rows, keep)
  {
    if rows != [] {
      assert Suppressed(rows, user)[1..] == Suppressed(rows[1..], user);
      OthersStay(rows[1..], user, keep);
    }
  }

  lemma StepFilter(rows: seq<Row>, s: Step, keep: Row -> bool)
    requires Genuine(s) && forall id, u :: !keep(MinimalRow(id, u))
    ensures Filter(Apply(rows, s), keep) ==
      (if s.Turn? && DecidesR5(s, s.user)
       then Filter(Suppressed(rows, s.user), keep) else Filter(rows, keep))
      + (if s.Turn? && Finishes(s) && keep(TraceOf(s)) then [TraceOf(s)] else [])
  {
    match s
    case Transport(row) =>
      FilterAppend(rows, [row], keep);
      FilterOne(row, keep);
    case Turn(_, user, _, _, _, _, meanwhile) =>
      var decided := if DecidesR5(s, user) then Suppressed(rows, user) else rows;
      FilterAppend(decided + meanwhile, LastRows(s), keep);
      FilterAppend(decided, meanwhile, keep);
      FilterNone(meanwhile, keep);
      LastRowsFilter(s, keep);
  }

  lemma LastRowsFilter(s: Step, keep: Row -> bool)
    requires s.Turn?
    ensures Filter(LastRows(s), keep) == if LastRows(s) != [] && keep(LastRows(s)[0]) then LastRows(s) else []
  {
    if LastRows(s) != [] {
      FilterOne(LastRows(s)[0], keep);
    }
  }

  /** One step: an R5 decision of the user empties the live rows, anything else keeps them; then the
      row of a finished governed turn of the user is added. */
  lemma LiveStep(rows: seq<Row>, s: Step, user: string)
    requires Genuine(s)
    ensures Filter(Apply(rows, s), Live(user)) ==
      (if DecidesR5(s, user) then [] else Filter(rows, Live(user))) + Saved([s], user)
  {
    StepFilter(rows, s, Live(user));
    assert [s][..0] == [];
    assert Saved([s], user) == Saved([], user)
      + if s.Turn? && s.user == user && s.governed && Finishes(s) then [TraceOf(s)] else [];
    if s.Turn? && DecidesR5(s, s.user) {
      if s.user == user {
        SuppressedIsQuiet(rows, user);
      } else {
        OthersStay(rows, s.user, Live(user));
      }
    }
  }

  lemma SavedOneMore(steps: seq<Step>, s: Step, user: string)
    ensures Saved(steps + [s], user) == Saved(steps, user) + Saved([s], user)
  {
    assert (steps + [s])[..|steps|] == steps && [s][..0] == [];
  }

  /** Step `k` is the last to decide R5 for the user, or `k` is 0 and no later step does. */
  ghost predicate LastDecision(steps: seq<Step>, user: string, k: nat) {
    && (k == 0 || (k < |steps| && DecidesR5(steps[k], user)))
    && forall j :: k < j < |steps| ==> !DecidesR5(steps[j], user)
  }

  /** What an earlier table contributes: its live rows, unless step `k` was an R5 decision. */
  function Carried(rows: seq<Row>, steps: seq<Step>, user: string, k: nat): seq<Row> {
    if k < |steps| && DecidesR5(steps[k], user) then [] else Filter(rows, Live(user))
  }

  /** Over any run from any table, the user's live rows are exactly those saved since the user's last
      R5 decision, its own row included; before any decision the table's own live rows come first. */
  lemma {:induction false} LiveSinceLastDecision(rows: seq<Row>, steps: seq<Step>, user: string, k: nat)
    requires forall j :: 0 <= j < |steps| ==> Genuine(steps[j])
    requires LastDecision(steps, user, k)
    ensures Filter(Run(rows, steps), Live(user)) == Carried(rows, steps, user, k) + Saved(steps[k..], user)
    decreases |steps|
  {
    if steps != [] {
      var n := |steps| - 1;
      var before, s := steps[..n], steps[n];
      assert steps == before + [s];
      RunOneMore(rows, before, s);
      assert k <= n && (k < n ==> !DecidesR5(s, user));
      if !DecidesR5(s, user) {
        LiveSinceLastDecision(rows, before, user, k);
      }
      LiveOneMore(rows, before, s, user, k);
    }
  }

  lemma RunOneMore(rows: seq<Row>, before: seq<Step>, s: Step)
    ensures Run(rows, before + [s]) == Apply(Run(rows, before), s)
  {
    assert (before + [s])[..|before|] == before;
  }

  lemma LiveOneMore(rows: seq<Row>, before: seq<Step>, s: Step, user: string, k: nat)
    requires Genuine(s) && k <= |before|
    requires if DecidesR5(s, user) then k == |before|
             else Filter(Run(rows, before), Live(user)) == Carried(rows, before, user, k) + Saved(before[k..], user)
    ensures Filter(Apply(Run(rows, before), s), Live(user)) ==
      Carried(rows, before + [s], user, k) + Saved((before + [s])[k..], user)
  {
    var since := before[k..];
    assert (before + [s])[k..] == since + [s];
    LiveStep(Run(rows, before), s, user);
    if DecidesR5(s, user) {
      assert since + [s] == [s];
    } else {
      SavedOneMore(since, s, user);
      CarriedOn(rows, before, s, user, k);
      Regrouped(Carried(rows, before, user, k), Saved(since, user), Saved([s], user));
    }
  }

  lemma Regrouped<T>(a: seq<T>, b: seq<T>, c: seq<T>)
    ensures (a + b) + c == a + (b + c)
  {
  }

  lemma CarriedOn(rows: seq<Row>, before: seq<Step>, s: Step, user: string, k: nat)
    requires k <= |before| && !DecidesR5(s, user)
    ensures Carried(rows, before + [s], user, k) == Carried(rows, before, user, k)
  {
  }

  /** Right after a finished R5 turn only the row of that turn is live, whatever was live before. */
  lemma OnlyTriggerStaysLive(rows: seq<Row>, s: Step, user: string)
    requires Genuine(s) && DecidesR5(s, user) && Finishes(s)
    ensures Filter(Apply(rows, s), Live(user)) == [TraceOf(s)]
  {
    LiveStep(rows, s, user);
    assert [s][..0] == [];
  }

  function OwnedBy(user: string): Row -> bool {
    (r: Row) => r.user == user
  }

  /** The rows the transport writes during a step. */
  function TransportRows(s: Step): seq<Row> {
    match s
    case Turn(_, _, _, _, _, _, meanwhile) => meanwhile
    case Transport(row) => [row]
  }

  /** Whatever a turn decides, the rows of other users stay as they are; only the transport can add to
      them meanwhile. */
  lemma OtherUsersUntouched(rows: seq<Row>, s: Step, other: string)
    requires s.Turn? ==> s.user != other
    ensures Filter(Apply(rows, s), OwnedBy(other)) ==
      Filter(rows, OwnedBy(other)) + Filter(TransportRows(s), OwnedBy(other))
  {
    var mine := OwnedBy(other);
    match s
    case Transport(row) =>
      FilterAppend(rows, [row], mine);
    case Turn(_, user, _, _, _, _, meanwhile) =>
      var decided := if DecidesR5(s, user) then Suppressed(rows, user) else rows;
      OthersStay(rows, user, mine);
      FilterAppend(decided + meanwhile, LastRows(s), mine);
      FilterAppend(decided, meanwhile, mine);
      LastRowsFilter(s, mine);
  }

  /** A full trace follows the policy, with the deadline of a governed turn, which is pending; so it has a rule
      exactly when it has a deadline, and `save` never refuses one. */
  lemma TracesFollowPolicy(s: Step)
    requires s.Turn?
    ensures var row, near := TraceOf(s), if s.governed then s.proximity else NoDeadline;
      && row.id == s.id && row.user == s.user && row.proximity == near
      && row.action.Some? && IsPolicy(s.affect, near, row.rule, row.action.value)
      && (row.outcome == PendingReminder <==> s.governed)
      && InPolicyDomain(row.rule, row.proximity)
  {
  }

  // ----- the repository -----

  class DecisionTraceRepository {
    var rows: seq<Row>

    constructor ()
      ensures rows == []
    {
      rows := [];
    }

    /** `save`: an invalid record is refused and nothing is written. */
    method Save(row: Row) returns (ok: bool)
      modifies this
      ensures ok == InPolicyDomain(row.rule, row.proximity)
      ensures rows == if ok then old(rows) + [row] else old(rows)
    {
      ok := InPolicyDomain(row.rule, row.proximity);
      if ok {
        rows := rows + [row];
      }
    }

    method SaveDegraded(id: string, user: string)
      modifies this
      ensures rows == old(rows) + [MinimalRow(id, user)]
    {
      rows := rows + [MinimalRow(id, user)];
    }

    /** `suppress_pending_reminder_traces`: the number of rows changed, or nothing for an empty user. */
    method SuppressPending(user: string) returns (changed: Option<nat>)
      modifies this
      ensures changed.None? <==> user == ""
      ensures changed == if user == "" then None else Some(|Filter(old(rows), Live(user))|)
      ensures rows == if user == "" then old(rows) else Suppressed(old(rows), user)
      ensures |rows| == |old(rows)| && forall i :: 0 <= i < |rows| ==>
        var r := old(rows)[i];
        rows[i] == if user != "" && r.user == user && r.outcome == PendingReminder && r.action.Some?
                      && r.action != Some(Suppress)
                   then r.(action := Some(Suppress)) else r
    {
      if user == "" {
        return None;
      }
      changed := Some(|Filter(rows, Live(user))|);
      rows := Suppressed(rows, user);
    }
  }

  /** Every row belongs to a user the store knows: the foreign key of the trace table. */
  ghost predicate Referenced(rows: seq<Row>, users: set<string>) {
    forall i :: 0 <= i < |rows| ==> rows[i].user in users
  }

  class UserTable {
    var users: set<string>

    constructor ()
      ensures users == {}
    {
      users := {};
    }

    /** `ensure_user`: refuses an empty id. */
    method Ensure(user: string) returns (ok: bool)
      modifies this
      ensures ok == Session.StoreAccepts(user)
      ensures users == if ok then old(users) + {user} else old(users)
    {
      ok := user != "";
      if ok {
        users := users + {user};
      }
    }
  }

  /** `_persist_degraded_trace`: the row is written unless the store refuses the user. */
  method PersistDegraded(db: DecisionTraceRepository, table: UserTable, id: string, user: string)
    requires Referenced(db.rows, table.users)
    modifies db, table
    ensures Referenced(db.rows, table.users) && old(table.users) <= table.users
    ensures db.rows == old(db.rows) + if Session.StoreAccepts(user) then [MinimalRow(id, user)] else []
  {
    var ok := table.Ensure(user);
    if ok {
      db.SaveDegraded(id, user);
    }
  }

  /** The event-loop thread persists degraded records of its own. */
  method TransportWrites(db: DecisionTraceRepository, table: UserTable, records: seq<Row>)
    requires forall i :: 0 <= i < |records| ==> FromTransport(records[i])
    requires Referenced(db.rows, table.users)
    modifies db, table
    ensures Referenced(db.rows, table.users) && old(table.users) <= table.users
    ensures db.rows == old(db.rows) + records
  {
    for i := 0 to |records|
      invariant Referenced(db.rows, table.users) && old(table.users) <= table.users
      invariant db.rows == old(db.rows) + records[..i]
    {
      PersistDegraded(db, table, records[i].id, records[i].user);
      assert FromTransport(records[i]) && records[..i + 1] == records[..i] + [records[i]];
    }
  }

  /** What one turn of the worker does to the table, statement by statement, with the rows that the
      transport writes between its decision and its trace. */
  method PlayTurn(db: DecisionTraceRepository, table: UserTable, s: Step)
    requires s.Turn? && Genuine(s) && Referenced(db.rows, table.users)
    modifies db, table
    ensures db.rows == Apply(old(db.rows), s)
    ensures Referenced(db.rows, table.users) && old(table.users) <= table.users
  {
    var reached := s.ending != FailsBeforePolicy;
    var completed := false;
    if reached && RuleOf(s) == R5 {
      var changed := db.SuppressPending(s.user);
      reached := changed.Some?;
    }
    TransportWrites(db, table, s.meanwhile);
    if reached && s.ending == Completes {
      completed := table.Ensure(s.user);
      if completed {
        completed := db.Save(TraceOf(s));
      }
    }
    if !completed {
      PersistDegraded(db, table, s.id, s.user);
    }
  }
}
