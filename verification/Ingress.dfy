/** External task ingress (storage/ingress.py): an idempotent insert keyed on (source, external id)
    with an audit log, one transaction a call. */
module Ingress {
  import opened Prelude

  const INGRESS_USER := "__ingress__"

  datatype Key = Key(source: string, externalId: string)

  datatype Row = Row(
    taskId: string, user: string, title: string, deadline: Option<string>, priority: string, createdAt: string,
    key: Option<Key>)

  datatype EventOutcome = Created | Duplicate

  datatype Event = Event(eventId: string, key: Key, outcome: EventOutcome, taskId: string, loggedAt: string)

  datatype Tables = Tables(users: map<string, string>, tasks: seq<Row>, log: seq<Event>)

  /** One call, with the identifiers and the time it draws. */
  datatype Call = Call(
    key: Key, title: string, dueAt: Option<string>, priority: string, createdAt: string,
    taskId: string, eventId: string, now: string)

  datatype Reply = Ingested(row: Row, created: bool) | Failed

  predicate AllowedPriority(priority: string) { priority in {"low", "normal", "high"} }

  function RowOf(c: Call): Row {
    Row(c.taskId, INGRESS_USER, c.title, c.dueAt, c.priority, c.createdAt, Some(c.key))
  }

  predicate HasKey(tasks: seq<Row>, key: Key) {
    exists k :: 0 <= k < |tasks| && tasks[k].key == Some(key)
  }

  predicate HasTaskId(tasks: seq<Row>, id: string) {
    exists k :: 0 <= k < |tasks| && tasks[k].taskId == id
  }

  predicate HasEventId(log: seq<Event>, id: string) {
    exists k :: 0 <= k < |log| && log[k].eventId == id
  }

  /** The first row with the key. */
  function Lookup(tasks: seq<Row>, key: Key): (row: Option<Row>)
    ensures row.Some? <==> HasKey(tasks, key)
    ensures row.Some? ==> row.value in tasks && row.value.key == Some(key)
  {
    if tasks == [] then None
    else if tasks[0].key == Some(key) then Some(tasks[0])
    else
      assert forall k :: 1 <= k < |tasks| ==> tasks[k] == tasks[1..][k - 1];
      Lookup(tasks[1..], key)
  }

  /** The unique indexes and the primary key. */
  ghost predicate Sound(tasks: seq<Row>) {
    && (forall i, j :: 0 <= i < j < |tasks| && tasks[i].key.Some? ==> tasks[i].key != tasks[j].key)
    && (forall i, j :: 0 <= i < j < |tasks| ==> tasks[i].taskId != tasks[j].taskId)
  }

  /** The insert, which does nothing on a clash of keys or identifiers. */
  function Inserted(tasks: seq<Row>, c: Call): seq<Row> {
    if HasKey(tasks, c.key) || HasTaskId(tasks, c.taskId) then tasks else tasks + [RowOf(c)]
  }

  /** `ingest_task`: a priority outside the CHECK, or an identifier already in use, rolls back. */
  function Ingest(t: Tables, c: Call): (Tables, Reply) {
    var tasks := Inserted(t.tasks, c);
    var row := Lookup(tasks, c.key);
    if !AllowedPriority(c.priority) || row.None? || HasEventId(t.log, c.eventId) then (t, Failed)
    else
      var created := |tasks| > |t.tasks|;
      var event := Event(c.eventId, c.key, if created then Created else Duplicate, row.value.taskId, c.now);
      var users := if INGRESS_USER in t.users then t.users else t.users[INGRESS_USER := c.now];
      (Tables(users, tasks, t.log + [event]), Ingested(row.value, created))
  }

  function Run(t: Tables, calls: seq<Call>): Tables {
    if calls == [] then t else Ingest(Run(t, calls[..|calls| - 1]), calls[|calls| - 1]).0
  }

  /** The calls that were not rolled back. */
  function Accepted(t: Tables, calls: seq<Call>): seq<Call> {
    if calls == [] then []
    else
      var before, c := calls[..|calls| - 1], calls[|calls| - 1];
      Accepted(t, before) + if Ingest(Run(t, before), c).1.Failed? then [] else [c]
  }

  lemma RunOneMore(t: Tables, before: seq<Call>, c: Call)
    ensures Run(t, before + [c]) == Ingest(Run(t, before), c).0
    ensures Accepted(t, before + [c]) ==
      if Ingest(Run(t, before), c).1.Failed? then Accepted(t, before) else Accepted(t, before) + [c]
  {
    var calls := before + [c];
    assert calls[..|calls| - 1] == before;
  }

  lemma IngestEffect(t: Tables, c: Call)
    ensures var (after, reply) := Ingest(t, c);
      if reply.Failed? then after == t
      else after.tasks == Inserted(t.tasks, c) && Lookup(Inserted(t.tasks, c), c.key).Some?
  {
  }

  // ----- what a history leaves behind -----

  /** Call `k` is the first with its key. */
  predicate FirstAt(base: seq<Row>, calls: seq<Call>, k: nat)
    requires k < |calls|
  {
    !HasKey(base, calls[k].key) && forall j :: 0 <= j < k ==> calls[j].key != calls[k].key
  }

  /** The rows of the first calls, in order of arrival. */
  function FirstRows(base: seq<Row>, calls: seq<Call>): seq<Row> {
    if calls == [] then []
    else
      var n := |calls| - 1;
      FirstRows(base, calls[..n]) + if FirstAt(base, calls, n) then [RowOf(calls[n])] else []
  }

  lemma {:induction false} FirstRowsKeys(base: seq<Row>, calls: seq<Call>, key: Key)
    ensures HasKey(base + FirstRows(base, calls), key) <==>
      HasKey(base, key) || exists k :: 0 <= k < |calls| && calls[k].key == key
  {
    if calls == [] {
      assert base + [] == base;
    } else {
      var n := |calls| - 1;
      var front := base + FirstRows(base, calls[..n]);
      FirstRowsKeys(base, calls[..n], key);
      FirstRowsKeys(base, calls[..n], calls[n].key);
      assert forall k :: 0 <= k < n ==> calls[..n][k] == calls[k];
      var all := base + FirstRows(base, calls);
      if FirstAt(base, calls, n) {
        assert all == front + [RowOf(calls[n])];
        KeyOfMore(front, RowOf(calls[n]), key);
      } else {
        assert all == front;
      }
    }
  }

  lemma KeyOfMore(rows: seq<Row>, row: Row, key: Key)
    ensures HasKey(rows + [row], key) <==> HasKey(rows, key) || row.key == Some(key)
  {
    var all := rows + [row];
    assert all[|rows|] == row;
    if HasKey(rows, key) {
      var k :| 0 <= k < |rows| && rows[k].key == Some(key);
      assert all[k] == rows[k];
    }
  }

  lemma InsertKeepsSound(tasks: seq<Row>, c: Call)
    requires Sound(tasks)
    ensures Sound(Inserted(tasks, c))
  {
  }

  lemma {:induction false} RunKeepsSound(t: Tables, calls: seq<Call>)
    requires Sound(t.tasks)
    ensures Sound(Run(t, calls).tasks)
  {
    if calls != [] {
      RunKeepsSound(t, calls[..|calls| - 1]);
      InsertKeepsSound(Run(t, calls[..|calls| - 1]).tasks, calls[|calls| - 1]);
    }
  }

  lemma FirstAtMeansNew(base: seq<Row>, seen: seq<Call>, c: Call)
    ensures FirstAt(base, seen + [c], |seen|) <==> !HasKey(base + FirstRows(base, seen), c.key)
  {
    FirstRowsKeys(base, seen, c.key);
    assert forall j :: 0 <= j < |seen| ==> (seen + [c])[j] == seen[j];
  }

  lemma InsertIsFirstRow(base: seq<Row>, seen: seq<Call>, c: Call)
    requires Lookup(Inserted(base + FirstRows(base, seen), c), c.key).Some?
    ensures Inserted(base + FirstRows(base, seen), c) == base + FirstRows(base, seen + [c])
  {
    var front := base + FirstRows(base, seen);
    FirstAtMeansNew(base, seen, c);
    assert (seen + [c])[..|seen|] == seen;
    if !HasKey(front, c.key) {
      assert !HasTaskId(front, c.taskId);
      assert front + [RowOf(c)] == base + (FirstRows(base, seen) + [RowOf(c)]);
    } else {
      assert FirstRows(base, seen + [c]) == FirstRows(base, seen) + [];
    }
  }

  /** The tasks after any history are those there were before and one for each new key, with the
      fields of its first call. */
  lemma {:induction false} TasksAreFirstOccurrences(t: Tables, calls: seq<Call>)
    ensures TasksMatch(Run(t, calls), t.tasks, Accepted(t, calls))
  {
    if calls == [] {
      assert t.tasks + [] == t.tasks;
    } else {
      var before, c := calls[..|calls| - 1], calls[|calls| - 1];
      assert before + [c] == calls;
      TasksAreFirstOccurrences(t, before);
      TasksOneMore(t, before, c);
    }
  }

  lemma TasksOneMore(t: Tables, before: seq<Call>, c: Call)
    requires TasksMatch(Run(t, before), t.tasks, Accepted(t, before))
    ensures TasksMatch(Run(t, before + [c]), t.tasks, Accepted(t, before + [c]))
  {
    TasksStep(Run(t, before), t.tasks, Accepted(t, before), c);
    RunOneMore(t, before, c);
  }

  /** A table that holds the rows of `base`, then those of the first calls. */
  predicate TasksMatch(t: Tables, base: seq<Row>, seen: seq<Call>) {
    t.tasks == base + FirstRows(base, seen)
  }

  lemma TasksStep(t: Tables, base: seq<Row>, seen: seq<Call>, c: Call)
    requires TasksMatch(t, base, seen)
    ensures var (after, reply) := Ingest(t, c);
      TasksMatch(after, base, if reply.Failed? then seen else seen + [c])
  {
    IngestEffect(t, c);
    if !Ingest(t, c).1.Failed? { InsertIsFirstRow(base, seen, c); }
  }

  /** What the audit log says about an accepted call: "created" exactly at the first one with its
      key, and always the row that holds the key. */
  ghost predicate LogsCall(e: Event, base: seq<Row>, calls: seq<Call>, k: nat, tasks: seq<Row>)
    requires k < |calls|
  {
    && e.eventId == calls[k].eventId && e.key == calls[k].key && e.loggedAt == calls[k].now
    && (e.outcome == Created <==> FirstAt(base, calls, k))
    && (exists r :: r in tasks && r.key == Some(e.key) && r.taskId == e.taskId)
  }

  ghost predicate LogsAll(events: seq<Event>, base: seq<Row>, calls: seq<Call>, tasks: seq<Row>) {
    |events| == |calls| && forall k :: 0 <= k < |events| ==> LogsCall(events[k], base, calls, k, tasks)
  }

  lemma LogsCallStays(e: Event, base: seq<Row>, calls: seq<Call>, c: Call, k: nat, tasks: seq<Row>)
    requires k < |calls| && LogsCall(e, base, calls, k, tasks)
    ensures LogsCall(e, base, calls + [c], k, Inserted(tasks, c))
  {
    var r :| r in tasks && r.key == Some(e.key) && r.taskId == e.taskId;
    assert r in Inserted(tasks, c);
    assert forall j :: 0 <= j <= k ==> (calls + [c])[j] == calls[j];
  }

  lemma LogsOneMore(events: seq<Event>, e: Event, base: seq<Row>, calls: seq<Call>, c: Call, tasks: seq<Row>)
    requires LogsAll(events, base, calls, tasks)
    requires LogsCall(e, base, calls + [c], |calls|, Inserted(tasks, c))
    ensures LogsAll(events + [e], base, calls + [c], Inserted(tasks, c))
  {
    forall k | 0 <= k < |events| ensures LogsCall((events + [e])[k], base, calls + [c], k, Inserted(tasks, c)) {
      LogsCallStays(events[k], base, calls, c, k, tasks);
    }
  }

  /** The event an accepted call writes. */
  lemma NewEventLogsCall(t: Tables, c: Call, base: seq<Row>, seen: seq<Call>)
    requires TasksMatch(t, base, seen) && !Ingest(t, c).1.Failed?
    ensures var after := Ingest(t, c).0;
      && |after.log| == |t.log| + 1 && after.log[..|t.log|] == t.log
      && LogsCall(after.log[|t.log|], base, seen + [c], |seen|, Inserted(t.tasks, c))
  {
    FirstAtMeansNew(base, seen, c);
  }

  lemma LogStep(t: Tables, log: seq<Event>, events: seq<Event>, base: seq<Row>, seen: seq<Call>, c: Call)
    returns (events': seq<Event>)
    requires TasksMatch(t, base, seen)
    requires t.log == log + events && LogsAll(events, base, seen, t.tasks)
    ensures var (after, reply) := Ingest(t, c);
      && after.log == log + events'
      && LogsAll(events', base, if reply.Failed? then seen else seen + [c], after.tasks)
  {
    IngestEffect(t, c);
    var (after, reply) := Ingest(t, c);
    if reply.Failed? {
      events' := events;
    } else {
      NewEventLogsCall(t, c, base, seen);
      var e := after.log[|t.log|];
      LogsOneMore(events, e, base, seen, c, t.tasks);
      assert after.log == t.log + [e];
      events' := events + [e];
    }
  }

  lemma LogOneMore(t: Tables, before: seq<Call>, c: Call, events: seq<Event>) returns (events': seq<Event>)
    requires Run(t, before).log == t.log + events
    requires LogsAll(events, t.tasks, Accepted(t, before), Run(t, before).tasks)
    ensures Run(t, before + [c]).log == t.log + events'
    ensures LogsAll(events', t.tasks, Accepted(t, before + [c]), Run(t, before + [c]).tasks)
  {
    TasksAreFirstOccurrences(t, before);
    RunOneMore(t, before, c);
    events' := LogStep(Run(t, before), t.log, events, t.tasks, Accepted(t, before), c);
  }

  /** The log after any history: one event for each accepted call, in order. */
  lemma {:induction false} LogIsHistory(t: Tables, calls: seq<Call>) returns (events: seq<Event>)
    ensures Run(t, calls).log == t.log + events
    ensures LogsAll(events, t.tasks, Accepted(t, calls), Run(t, calls).tasks)
  {
    if calls == [] {
      events := [];
    } else {
      var before, c := calls[..|calls| - 1], calls[|calls| - 1];
      assert before + [c] == calls;
      events := LogIsHistory(t, before);
      events := LogOneMore(t, before, c, events);
    }
  }

  // ----- which calls are accepted -----

  /** A call is rolled back exactly when its priority is not allowed, its event identifier is in use,
      or its key is new and its task identifier in use. */
  lemma AcceptedIff(t: Tables, c: Call)
    ensures !Ingest(t, c).1.Failed? <==>
      && (c.priority == "low" || c.priority == "normal" || c.priority == "high") && !HasEventId(t.log, c.eventId)
      && (HasKey(t.tasks, c.key) || !HasTaskId(t.tasks, c.taskId))
  {
    if !HasKey(t.tasks, c.key) {
      KeyOfMore(t.tasks, RowOf(c), c.key);
    }
  }

  /** A rolled-back call leaves nothing behind; an accepted one answers with the row that holds its key, says
      whether the key was new, and has the reserved user registered and no other touched. */
  lemma AnswerFits(t: Tables, c: Call)
    ensures var (after, reply) := Ingest(t, c);
      if reply.Failed? then after == t
      else
        && reply.row in after.tasks && reply.row.key == Some(c.key)
        && (reply.created <==> !HasKey(t.tasks, c.key)) && (reply.created ==> HoldsCall(reply.row, c))
        && after.users.Keys == t.users.Keys + {"__ingress__"}
        && forall u :: u in t.users ==> after.users[u] == t.users[u]
  {
    if !HasKey(t.tasks, c.key) && !HasTaskId(t.tasks, c.taskId) {
      KeyOfMore(t.tasks, RowOf(c), c.key);
      assert forall k :: 0 <= k < |t.tasks| ==> t.tasks[k].key != Some(c.key);
      assert Inserted(t.tasks, c) == t.tasks + [RowOf(c)];
    }
  }

  /** The identifiers the calls draw are new and differ from call to call, as random ones do. */
  ghost predicate DrawsNewIds(t: Tables, calls: seq<Call>) {
    && (forall k :: 0 <= k < |calls| ==> NewIn(t, calls[k]))
    && (forall j, k :: 0 <= j < k < |calls| ==> calls[j].taskId != calls[k].taskId)
    && (forall j, k :: 0 <= j < k < |calls| ==> calls[j].eventId != calls[k].eventId)
  }

  predicate NewIn(t: Tables, c: Call) {
    !HasTaskId(t.tasks, c.taskId) && !HasEventId(t.log, c.eventId)
  }

  lemma StaysNew(t: Tables, c: Call, other: Call)
    requires NewIn(t, c) && other.taskId != c.taskId && other.eventId != c.eventId
    ensures NewIn(Ingest(t, other).0, c)
  {
    var after := Ingest(t, other).0;
    assert forall k :: 0 <= k < |t.tasks| ==> t.tasks[k].taskId != c.taskId;
    assert forall k :: 0 <= k < |t.log| ==> t.log[k].eventId != c.eventId;
    assert forall k :: 0 <= k < |after.tasks| ==> after.tasks[k].taskId != c.taskId;
    assert forall k :: 0 <= k < |after.log| ==> after.log[k].eventId != c.eventId;
  }

  lemma {:induction false} StaysNewInRun(t: Tables, before: seq<Call>, c: Call)
    requires NewIn(t, c)
    requires forall k :: 0 <= k < |before| ==> before[k].taskId != c.taskId && before[k].eventId != c.eventId
    ensures NewIn(Run(t, before), c)
  {
    if before != [] {
      var front, last := before[..|before| - 1], before[|before| - 1];
      assert before == front + [last];
      StaysNewInRun(t, front, c);
      RunOneMore(t, front, last);
      StaysNew(Run(t, front), c, last);
    }
  }

  function AllowedCall(): Call -> bool {
    (c: Call) => AllowedPriority(c.priority)
  }

  /** With new identifiers exactly the calls with an allowed priority are accepted. */
  lemma {:induction false} AcceptedAreTheAllowed(t: Tables, calls: seq<Call>)
    requires DrawsNewIds(t, calls)
    ensures Accepted(t, calls) == Filter(calls, AllowedCall())
  {
    if calls != [] {
      var before, c := calls[..|calls| - 1], calls[|calls| - 1];
      assert calls == before + [c];
      AcceptedAreTheAllowed(t, before);
      StaysNewInRun(t, before, c);
      AcceptedIff(Run(t, before), c);
      RunOneMore(t, before, c);
      FilterAppend(before, [c], AllowedCall());
      FilterOne(c, AllowedCall());
    }
  }

  /** The row holds what the call said, for the reserved user. */
  predicate HoldsCall(row: Row, c: Call) {
    && row.taskId == c.taskId && row.user == "__ingress__" && row.title == c.title && row.deadline == c.dueAt
    && row.priority == c.priority && row.createdAt == c.createdAt && row.key == Some(c.key)
  }

  /** The new rows are those of the first calls, in order: row `i` holds what call `at[i]` said. */
  ghost predicate RowsHold(rows: seq<Row>, base: seq<Row>, calls: seq<Call>, at: seq<nat>) {
    && |at| == |rows|
    && (forall i, j :: 0 <= i < j < |at| ==> at[i] < at[j])
    && (forall i :: 0 <= i < |at| ==>
          at[i] < |calls| && FirstAt(base, calls, at[i]) && HoldsCall(rows[i], calls[at[i]]))
    && (forall k :: 0 <= k < |calls| && FirstAt(base, calls, k) ==> k in at)
  }

  lemma FirstAtInFront(base: seq<Row>, before: seq<Call>, c: Call, k: nat)
    requires k < |before|
    ensures (before + [c])[k] == before[k]
    ensures FirstAt(base, before + [c], k) <==> FirstAt(base, before, k)
  {
    assert forall j :: 0 <= j <= k ==> (before + [c])[j] == before[j];
  }

  lemma RowsHoldOneMore(rows: seq<Row>, base: seq<Row>, before: seq<Call>, c: Call, at: seq<nat>)
    requires RowsHold(rows, base, before, at)
    ensures var calls, n := before + [c], |before|;
      if FirstAt(base, calls, n) then RowsHold(rows + [RowOf(c)], base, calls, at + [n])
      else RowsHold(rows, base, calls, at)
  {
    forall k | 0 <= k < |before|
      ensures (before + [c])[k] == before[k] && (FirstAt(base, before + [c], k) <==> FirstAt(base, before, k))
    {
      FirstAtInFront(base, before, c, k);
    }
  }

  lemma {:induction false} FirstRowsHold(base: seq<Row>, calls: seq<Call>) returns (at: seq<nat>)
    ensures RowsHold(FirstRows(base, calls), base, calls, at)
  {
    at := [];
    if calls != [] {
      var n := |calls| - 1;
      assert calls == calls[..n] + [calls[n]];
      at := FirstRowsHold(base, calls[..n]);
      RowsHoldOneMore(FirstRows(base, calls[..n]), base, calls[..n], calls[n], at);
      if FirstAt(base, calls, n) { at := at + [n]; }
    }
  }

  /** The whole history in terms of the calls alone: the tasks are the earlier ones and those of the
      first allowed call of each new key, and the log has one event for each allowed call. */
  lemma HistoryIsDedup(t: Tables, calls: seq<Call>) returns (rows: seq<Row>, at: seq<nat>, events: seq<Event>)
    requires DrawsNewIds(t, calls)
    ensures forall c :: AllowedCall()(c) <==> c.priority == "low" || c.priority == "normal" || c.priority == "high"
    ensures var allowed := Filter(calls, AllowedCall());
      && Run(t, calls).tasks == t.tasks + rows && RowsHold(rows, t.tasks, allowed, at)
      && Run(t, calls).log == t.log + events && LogsAll(events, t.tasks, allowed, Run(t, calls).tasks)
  {
    AcceptedAreTheAllowed(t, calls);
    TasksAreFirstOccurrences(t, calls);
    rows := FirstRows(t.tasks, Accepted(t, calls));
    at := FirstRowsHold(t.tasks, Accepted(t, calls));
    events := LogIsHistory(t, calls);
  }

  /** Calling again with the same key changes no task and answers with the row of the first call. */
  lemma RepeatChangesNothing(t: Tables, c: Call, again: Call)
    requires again.key == c.key && Ingest(t, c).1.Ingested?
    ensures var (after, reply) := Ingest(Ingest(t, c).0, again);
      && after.tasks == Ingest(t, c).0.tasks
      && (reply.Ingested? ==> reply.row == Ingest(t, c).1.row && !reply.created)
  {
  }

  // ----- the repository -----

  class IngressRepository {
    var users: map<string, string>
    var tasks: seq<Row>
    var log: seq<Event>

    ghost function Contents(): Tables
      reads this
    {
      Tables(users, tasks, log)
    }

    constructor ()
      ensures Contents() == Tables(map[], [], [])
    {
      users, tasks, log := map[], [], [];
    }

    /** The statements of the transaction in order, undone together when one of them raises. */
    method IngestTask(c: Call) returns (reply: Reply)
      modifies this
      ensures (Contents(), reply) == Ingest(old(Contents()), c)
    {
      var users0, tasks0 := users, tasks;
      if INGRESS_USER !in users {
        users := users[INGRESS_USER := c.now];
      }
      if !AllowedPriority(c.priority) {
        users := users0;
        return Failed;
      }
      var created := !HasKey(tasks, c.key) && !HasTaskId(tasks, c.taskId);
      if created {
        tasks := tasks + [RowOf(c)];
      }
      var row := Lookup(tasks, c.key);
      if row.None? || HasEventId(log, c.eventId) {
        users, tasks := users0, tasks0;
        return Failed;
      }
      log := log + [Event(c.eventId, c.key, if created then Created else Duplicate, row.value.taskId, c.now)];
      reply := Ingested(row.value, created);
    }
  }
}
