/** The bounded context queries of storage/context.py. A table is a sequence of rows; a query's answer
    is any arrangement of the rows it selects that respects its ORDER BY, cut off by its LIMIT. */
module Context {
  import opened Prelude
  import opened Policy

  const HOUR := 3600000000 // in microseconds

  datatype Status = Pending | Overdue | Completed

  datatype Task = Task(id: string, user: string, deadline: Option<int>, status: Status, created: int)

  datatype Result = Result(tasks: seq<Task>, routine: Option<string>, overdue: seq<Task>, proximity: Proximity)

  // ----- queries -----

  /** SQLite's LIMIT: a negative one is no limit. */
  function Limit<T>(s: seq<T>, n: int): seq<T> {
    if n < 0 || n >= |s| then s else s[..n]
  }

  predicate Past(t: Task, now: int) { t.deadline.Some? && t.deadline.value < now }

  predicate InWindow(t: Task, now: int, hours: int) {
    t.deadline.Some? && now <= t.deadline.value <= now + hours * HOUR
  }

  predicate Open(t: Task, user: string) { t.user == user && t.status != Completed }

  /** The WHERE clauses of the two task queries. */
  function Upcoming(user: string, now: int): Task -> bool {
    t => Open(t, user) && !Past(t, now)
  }

  function Dated(user: string): Task -> bool {
    t => Open(t, user) && t.deadline.Some?
  }

  function PastDue(now: int): Task -> bool {
    t => Past(t, now)
  }

  function Late(now: int): Task -> bool {
    (t: Task) => t.status == Overdue || Past(t, now)
  }

  /** The ORDER BY of both: deadline, missing ones last, then creation. */
  predicate Before(a: Task, b: Task) {
    match (a.deadline, b.deadline)
    case (Some(x), Some(y)) => x < y || (x == y && a.created <= b.created)
    case (Some(_), None) => true
    case (None, Some(_)) => false
    case (None, None) => a.created <= b.created
  }

  predicate Ordered(rows: seq<Task>) {
    forall i, j :: 0 <= i < j < |rows| ==> Before(rows[i], rows[j])
  }

  /** `rows` is a way the database may return the selected rows of the table. */
  predicate Arranged(rows: seq<Task>, table: seq<Task>, keep: Task -> bool) {
    multiset(rows) == multiset(Filter(table, keep)) && Ordered(rows)
  }

  lemma ArrangedMember(rows: seq<Task>, table: seq<Task>, keep: Task -> bool, t: Task)
    requires Arranged(rows, table, keep)
    ensures t in rows <==> t in table && keep(t)
  {
    FilterMember(table, keep, t);
    assert t in rows <==> t in multiset(rows);
    assert t in Filter(table, keep) <==> t in multiset(Filter(table, keep));
  }

  // ----- imminence -----

  predicate AnyInWindow(rows: seq<Task>, now: int, hours: int) {
    exists k :: 0 <= k < |rows| && InWindow(rows[k], now, hours)
  }

  /** The unbounded definition: some open task of the user falls due within the window. */
  ghost predicate DueSoon(table: seq<Task>, user: string, now: int, hours: int) {
    exists t :: t in table && Open(t, user) && InWindow(t, now, hours)
  }

  function OverdueIn(rows: seq<Task>, now: int): seq<Task> {
    Filter(rows, Late(now))
  }

  /** The flag as the bounded lists give it. */
  predicate Flag(upcoming: seq<Task>, dated: seq<Task>, topK: int, now: int, hours: int) {
    AnyInWindow(Limit(upcoming, topK) + OverdueIn(Limit(dated, Max(topK, 1)), now), now, hours)
  }

  lemma FlagIsSound(table: seq<Task>, user: string, now: int, hours: int, topK: int, upcoming: seq<Task>,
      dated: seq<Task>)
    requires Arranged(upcoming, table, Upcoming(user, now)) && Arranged(dated, table, Dated(user))
    requires Flag(upcoming, dated, topK, now, hours)
    ensures DueSoon(table, user, now, hours)
  {
    var first, late := Limit(upcoming, topK), OverdueIn(Limit(dated, Max(topK, 1)), now);
    var k :| 0 <= k < |first + late| && InWindow((first + late)[k], now, hours);
    var t := (first + late)[k];
    if k < |first| {
      assert t == upcoming[k];
      ArrangedMember(upcoming, table, Upcoming(user, now), t);
    } else {
      assert t in late;
      FilterMember(Limit(dated, Max(topK, 1)), Late(now), t);
      ArrangedMember(dated, table, Dated(user), t);
    }
  }

  /** Truncation loses nothing: for every table and every limit other than zero, the flag computed
      from the truncated lists is the unbounded definition. */
  lemma ImminenceIsExact(table: seq<Task>, user: string, now: int, hours: int, topK: int, upcoming: seq<Task>,
      dated: seq<Task>)
    requires Arranged(upcoming, table, Upcoming(user, now)) && Arranged(dated, table, Dated(user))
    requires topK != 0
    ensures Flag(upcoming, dated, topK, now, hours) <==> DueSoon(table, user, now, hours)
  {
    var first, late := Limit(upcoming, topK), OverdueIn(Limit(dated, Max(topK, 1)), now);
    if DueSoon(table, user, now, hours) {
      var t :| t in table && Open(t, user) && InWindow(t, now, hours);
      ArrangedMember(upcoming, table, Upcoming(user, now), t);
      var j :| 0 <= j < |upcoming| && upcoming[j] == t;
      ArrangedMember(upcoming, table, Upcoming(user, now), upcoming[0]);
      assert j > 0 ==> Before(upcoming[0], upcoming[j]);
      assert (first + late)[0] == upcoming[0];
    }
    if Flag(upcoming, dated, topK, now, hours) {
      FlagIsSound(table, user, now, hours, topK, upcoming, dated);
    }
  }

  /** With a limit of zero only the single dated row is left, and it has to be marked overdue. */
  lemma ZeroLimitFlag(table: seq<Task>, user: string, now: int, hours: int, upcoming: seq<Task>, dated: seq<Task>)
    ensures Flag(upcoming, dated, 0, now, hours) <==>
      dated != [] && dated[0].status == Overdue && InWindow(dated[0], now, hours)
  {
    var late := OverdueIn(Limit(dated, 1), now);
    assert Limit(upcoming, 0) + late == late;
    if dated != [] {
      assert Limit(dated, 1) == [dated[0]];
      FilterOne(dated[0], Late(now));
    }
  }

  /** So a zero limit does miss a task due within the hour. */
  lemma ZeroLimitMisses(now: int)
    ensures var t := Task("t", "u", Some(now), Pending, now);
      && Arranged([t], [t], Upcoming("u", now)) && Arranged([t], [t], Dated("u"))
      && DueSoon([t], "u", now, 1) && !Flag([t], [t], 0, now, 1)
  {
    var t := Task("t", "u", Some(now), Pending, now);
    FilterOne(t, Upcoming("u", now));
    FilterOne(t, Dated("u"));
    assert t in [t] && Open(t, "u") && InWindow(t, now, 1);
    ZeroLimitFlag([t], "u", now, 1, [t], [t]);
  }

  // ----- the overdue list -----

  /** How many rows at the head of an ordered list are past. */
  function PastCount(rows: seq<Task>, now: int): (m: nat)
    requires forall t :: t in rows ==> t.deadline.Some?
    ensures m <= |rows|
    ensures forall i :: 0 <= i < m ==> Past(rows[i], now)
    ensures m < |rows| ==> !Past(rows[m], now)
  {
    if rows == [] || !Past(rows[0], now) then 0 else 1 + PastCount(rows[1..], now)
  }

  /** A filter that keeps a whole head of a list. */
  lemma FilterBehind<T>(s: seq<T>, m: nat, keep: T -> bool)
    requires m <= |s| && forall i :: 0 <= i < m ==> keep(s[i])
    ensures Filter(s, keep) == s[..m] + Filter(s[m..], keep)
    ensures Filter(s, keep) == s[..m] <==> forall i :: m <= i < |s| ==> !keep(s[i])
  {
    var head, tail := s[..m], s[m..];
    assert s == head + tail;
    FilterAppend(head, tail, keep);
    FilterAll(head, keep);
    FilterNone(tail, keep);
    assert forall i :: m <= i < |s| ==> s[i] == tail[i - m];
    assert (forall x :: x in tail ==> !keep(x)) <==> forall i :: m <= i < |s| ==> !keep(s[i]);
  }

  lemma PastComesFirst(rows: seq<Task>, now: int, m: nat)
    requires Ordered(rows) && (forall t :: t in rows ==> t.deadline.Some?) && m == PastCount(rows, now)
    ensures forall i :: 0 <= i < |rows| ==> (Past(rows[i], now) <==> i < m)
  {
    forall i | m <= i < |rows| ensures !Past(rows[i], now) {
      assert i > m ==> Before(rows[m], rows[i]);
      assert rows[m] in rows && rows[i] in rows;
    }
  }

  lemma SplitAtNow(rows: seq<Task>, now: int, m: nat)
    requires Ordered(rows) && (forall t :: t in rows ==> t.deadline.Some?) && m == PastCount(rows, now)
    ensures Filter(rows, PastDue(now)) == rows[..m]
  {
    PastComesFirst(rows, now, m);
    FilterBehind(rows, m, PastDue(now));
  }

  lemma DatedHaveDeadlines(table: seq<Task>, user: string, dated: seq<Task>)
    requires Arranged(dated, table, Dated(user))
    ensures forall t :: t in dated ==> t.deadline.Some?
  {
    forall t | t in dated ensures t.deadline.Some? {
      ArrangedMember(dated, table, Dated(user), t);
    }
  }

  /** The rows of the cut that are marked overdue are past their deadline. */
  predicate MarkedArePast(rows: seq<Task>, now: int) {
    forall i :: 0 <= i < |rows| && rows[i].status == Overdue ==> Past(rows[i], now)
  }

  /** Of a cut whose first `n` rows are the past ones, the late rows are those and the marked ones. */
  lemma LateOfCut(cut: seq<Task>, now: int, n: nat)
    requires n <= |cut| && forall i :: 0 <= i < |cut| ==> (Past(cut[i], now) <==> i < n)
    ensures OverdueIn(cut, now) == cut[..n] <==> MarkedArePast(cut, now)
  {
    FilterBehind(cut, n, Late(now));
  }

  lemma OverdueOfOrdered(dated: seq<Task>, now: int, limit: nat)
    requires Ordered(dated) && forall t :: t in dated ==> t.deadline.Some?
    ensures OverdueIn(Limit(dated, limit), now) == Limit(Filter(dated, PastDue(now)), limit) <==>
      MarkedArePast(Limit(dated, limit), now)
  {
    var m := PastCount(dated, now);
    PastComesFirst(dated, now, m);
    SplitAtNow(dated, now, m);
    var cut := Limit(dated, limit);
    var n := if m < |cut| then m else |cut|;
    CutOfCut(dated, limit, m, n);
    LateOfCut(cut, now, n);
  }

  lemma CutOfCut(rows: seq<Task>, limit: nat, m: nat, n: nat)
    requires m <= |rows| && n == if m < |Limit(rows, limit)| then m else |Limit(rows, limit)|
    ensures Limit(rows, limit)[..n] == Limit(rows[..m], limit)
    ensures forall i :: 0 <= i < |Limit(rows, limit)| ==> Limit(rows, limit)[i] == rows[i]
  {
  }

  /** Filtering commutes with cutting off: the bounded overdue list is the first `limit` of all the
      past-due rows exactly when every row of the cut that is marked overdue is past its deadline. */
  lemma OverdueIsExact(table: seq<Task>, user: string, now: int, limit: nat, dated: seq<Task>)
    requires Arranged(dated, table, Dated(user))
    ensures OverdueIn(Limit(dated, limit), now) == Limit(Filter(dated, PastDue(now)), limit) <==>
      MarkedArePast(Limit(dated, limit), now)
  {
    DatedHaveDeadlines(table, user, dated);
    OverdueOfOrdered(dated, now, limit);
  }

  /** Nothing in the host writes a row marked overdue ahead of its deadline, but one would be listed as
      overdue. */
  lemma EarlyMarkIsListed(now: int)
    ensures var t := Task("t", "u", Some(now + HOUR), Overdue, now);
      && Arranged([t], [t], Dated("u")) && Filter([t], PastDue(now)) == []
      && OverdueIn([t], now) == [t]
  {
    var t := Task("t", "u", Some(now + HOUR), Overdue, now);
    FilterOne(t, Dated("u"));
    FilterOne(t, PastDue(now));
    FilterOne(t, Late(now));
  }

  lemma {:induction false} FilterTwice<T>(s: seq<T>, p: T -> bool, q: T -> bool, both: T -> bool)
    requires forall x :: both(x) == (p(x) && q(x))
    ensures Filter(Filter(s, p), q) == Filter(s, both)
  {
    if s != [] {
      FilterTwice(s[1..], p, q, both);
      FilterAppend(if p(s[0]) then [s[0]] else [], Filter(s[1..], p), q);
      assert [s[0]][1..] == [];
    }
  }

  lemma {:induction false} FilterCounts<T>(s: seq<T>, keep: T -> bool, x: T)
    ensures multiset(Filter(s, keep))[x] == if keep(x) then multiset(s)[x] else 0
  {
    if s != [] {
      assert s == [s[0]] + s[1..];
      FilterCounts(s[1..], keep, x);
    }
  }

  function PastDueOf(user: string, now: int): Task -> bool {
    t => Open(t, user) && Past(t, now)
  }

  /** The past-due rows of the dated answer are all the user's open past-due tasks, in order. */
  lemma PastDueIsArranged(table: seq<Task>, user: string, now: int, dated: seq<Task>)
    requires Arranged(dated, table, Dated(user))
    ensures Arranged(Filter(dated, PastDue(now)), table, PastDueOf(user, now))
  {
    var past, all := Filter(dated, PastDue(now)), Filter(table, Dated(user));
    forall t ensures multiset(past)[t] == multiset(Filter(all, PastDue(now)))[t] {
      FilterCounts(dated, PastDue(now), t);
      FilterCounts(all, PastDue(now), t);
    }
    FilterTwice(table, Dated(user), PastDue(now), PastDueOf(user, now));
    DatedHaveDeadlines(table, user, dated);
    SplitAtNow(dated, now, PastCount(dated, now));
  }

  // ----- identifiers -----

  function IdsOf(tasks: seq<Task>): (ids: seq<string>)
    ensures |ids| == |tasks| && forall k :: 0 <= k < |ids| ==> ids[k] == tasks[k].id
  {
    seq(|tasks|, k requires 0 <= k < |tasks| => tasks[k].id)
  }

  ghost predicate Distinct<T>(s: seq<T>) {
    forall i, j :: 0 <= i < j < |s| ==> s[i] != s[j]
  }

  lemma {:induction false} DistinctMeansOnce<T>(s: seq<T>)
    ensures Distinct(s) <==> forall x :: multiset(s)[x] <= 1
  {
    if s != [] {
      var rest := s[1..];
      assert s == [s[0]] + rest;
      DistinctMeansOnce(rest);
      assert forall i :: 0 < i < |s| ==> s[i] == rest[i - 1];
      assert s[0] in rest <==> multiset(rest)[s[0]] > 0;
      if Distinct(s) {
        assert Distinct(rest) && s[0] !in rest;
      }
      if forall x :: multiset(s)[x] <= 1 {
        forall x ensures multiset(rest)[x] <= 1 {
          assert multiset(rest)[x] <= multiset(s)[x];
        }
        assert multiset(s)[s[0]] == 1 + multiset(rest)[s[0]];
      }
    }
  }

  /** As task identifiers are a primary key, no answer lists one twice. */
  lemma AnswerIdsAreDistinct(rows: seq<Task>, table: seq<Task>, keep: Task -> bool, n: int)
    requires Arranged(rows, table, keep) && Distinct(IdsOf(table))
    ensures Distinct(IdsOf(Limit(rows, n)))
  {
    assert Distinct(table) by {
      assert forall i :: 0 <= i < |table| ==> IdsOf(table)[i] == table[i].id;
    }
    DistinctMeansOnce(table);
    forall x ensures multiset(rows)[x] <= 1 {
      FilterCounts(table, keep, x);
    }
    DistinctMeansOnce(rows);
    forall i, j | 0 <= i < j < |rows| ensures rows[i].id != rows[j].id {
      ArrangedMember(rows, table, keep, rows[i]);
      ArrangedMember(rows, table, keep, rows[j]);
      var a :| 0 <= a < |table| && table[a] == rows[i];
      var b :| 0 <= b < |table| && table[b] == rows[j];
      assert IdsOf(table)[a] == rows[i].id && IdsOf(table)[b] == rows[j].id;
    }
  }

  /** The task identifiers of a result: the upcoming ones, then the overdue ones not yet there, then
      that of the latest routine entry. The list is checked while it grows, so no task is listed
      twice, whatever the two lists share. */
  method Ids(tasks: seq<Task>, overdue: seq<Task>, routine: Option<string>) returns (ids: seq<string>)
    ensures |tasks| <= |ids| && ids[..|tasks|] == IdsOf(tasks)
    ensures var n := if routine.Some? then |ids| - 1 else |ids|;
      && |tasks| <= n && (routine.Some? ==> ids[n] == routine.value)
      && (forall id :: id in ids[..n] <==> id in IdsOf(tasks) || id in IdsOf(overdue))
      && (Distinct(IdsOf(tasks)) ==> Distinct(ids[..n]))
  {
    ids := IdsOf(tasks);
    var k := 0;
    while k < |overdue|
      invariant 0 <= k <= |overdue|
      invariant |tasks| <= |ids| && ids[..|tasks|] == IdsOf(tasks)
      invariant forall id :: id in ids <==> id in IdsOf(tasks) || id in IdsOf(overdue[..k])
      invariant Distinct(IdsOf(tasks)) ==> Distinct(ids)
    {
      ghost var seen := IdsOf(overdue[..k]);
      assert IdsOf(overdue[..k + 1]) == seen + [overdue[k].id];
      if overdue[k].id !in ids {
        ids := ids + [overdue[k].id];
      }
      k := k + 1;
    }
    assert overdue[..k] == overdue;
    if routine.Some? {
      ghost var listed := ids;
      ids := ids + [routine.value];
      assert ids[..|ids| - 1] == listed;
    } else {
      assert ids[..|ids|] == ids;
    }
  }

  // ----- retrieval -----

  /** The loop over the dated rows. */
  method CollectOverdue(rows: seq<Task>, now: int) returns (overdue: seq<Task>)
    ensures overdue == OverdueIn(rows, now)
  {
    overdue := [];
    var k := 0;
    while k < |rows|
      invariant 0 <= k <= |rows|
      invariant overdue == OverdueIn(rows[..k], now)
    {
      assert rows[..k + 1] == rows[..k] + [rows[k]] && [rows[k]][1..] == [];
      FilterAppend(rows[..k], [rows[k]], Late(now));
      if rows[k].status == Overdue || Past(rows[k], now) {
        overdue := overdue + [rows[k]];
      }
      k := k + 1;
    }
    assert rows[..k] == rows;
  }

  /** The loop that raises the flag and stops at the first task in the window. */
  method FindImminent(rows: seq<Task>, now: int, hours: int) returns (imminent: bool)
    ensures imminent <==> AnyInWindow(rows, now, hours)
  {
    imminent := false;
    var k := 0;
    while k < |rows|
      invariant 0 <= k <= |rows|
      invariant imminent ==> AnyInWindow(rows, now, hours)
      invariant !imminent ==> forall j :: 0 <= j < k ==> !InWindow(rows[j], now, hours)
    {
      if InWindow(rows[k], now, hours) {
        imminent := true;
        break;
      }
      k := k + 1;
    }
  }

  /** What the first query answers, told by the rows alone: open tasks of the user not yet past, ordered by
      deadline with missing ones last and then by creation, at most `topK` unless that is negative, and none is
      left out that would come before a listed one. */
  lemma TasksAreFirst(table: seq<Task>, user: string, now: int, topK: int, upcoming: seq<Task>)
    requires Arranged(upcoming, table, Upcoming(user, now))
    ensures var tasks := Limit(upcoming, topK);
      && (0 <= topK ==> |tasks| <= topK)
      && (forall t :: t in tasks ==>
            t in table && t.user == user && t.status != Completed && (t.deadline.Some? ==> now <= t.deadline.value))
      && (forall i, j :: 0 <= i < j < |tasks| ==> NotLater(tasks[i], tasks[j]))
      && (forall t | t in table && t.user == user && t.status != Completed && t !in tasks ::
            (t.deadline.Some? ==> now <= t.deadline.value) ==>
              |tasks| == topK && forall u :: u in tasks ==> NotLater(u, t))
  {
    var tasks := Limit(upcoming, topK);
    forall t ensures t in upcoming <==> t in table && Upcoming(user, now)(t) {
      ArrangedMember(upcoming, table, Upcoming(user, now), t);
    }
    forall t | t in tasks ensures t in upcoming {
      var i :| 0 <= i < |tasks| && tasks[i] == t;
      assert upcoming[i] == t;
    }
    forall t, u | t in upcoming && t !in tasks && u in tasks ensures NotLater(u, t) {
      var i :| 0 <= i < |tasks| && tasks[i] == u;
      var j :| 0 <= j < |upcoming| && upcoming[j] == t;
      assert forall k :: 0 <= k < |tasks| ==> upcoming[k] == tasks[k] && upcoming[k] in tasks;
      assert i < j ==> Before(upcoming[i], upcoming[j]);
    }
  }

  /** Of two tasks with deadlines the earlier one first, one with a deadline before one without, and otherwise
      the one created earlier. */
  predicate NotLater(a: Task, b: Task) {
    if a.deadline.Some? && b.deadline.Some? && a.deadline.value != b.deadline.value
    then a.deadline.value < b.deadline.value
    else if a.deadline.Some? != b.deadline.Some? then a.deadline.Some?
    else a.created <= b.created
  }

  /** The answers depend on the user's own rows only: whatever the table holds for others, the database may
      return the same rows. */
  lemma OthersDoNotMatter(table: seq<Task>, table': seq<Task>, user: string, now: int, rows: seq<Task>)
    requires Filter(table, (t: Task) => t.user == user) == Filter(table', (t: Task) => t.user == user)
    ensures Arranged(rows, table, Upcoming(user, now)) <==> Arranged(rows, table', Upcoming(user, now))
    ensures Arranged(rows, table, Dated(user)) <==> Arranged(rows, table', Dated(user))
  {
    var own := (t: Task) => t.user == user;
    FilterTwice(table, own, Upcoming(user, now), Upcoming(user, now));
    FilterTwice(table', own, Upcoming(user, now), Upcoming(user, now));
    FilterTwice(table, own, Dated(user), Dated(user));
    FilterTwice(table', own, Dated(user), Dated(user));
  }

  lemma DueSoonIsPlain(table: seq<Task>, user: string, now: int, hours: int)
    ensures DueSoon(table, user, now, hours) <==>
      exists t :: t in table && t.user == user && t.status != Completed && t.deadline.Some?
        && now <= t.deadline.value <= now + hours * 3600000000
  {
    if DueSoon(table, user, now, hours) {
      var t :| t in table && Open(t, user) && InWindow(t, now, hours);
      assert t.user == user && t.status != Completed && t.deadline.Some?;
    }
    forall t | t in table && t.user == user && t.status != Completed && t.deadline.Some?
      ensures now <= t.deadline.value <= now + hours * 3600000000 ==> DueSoon(table, user, now, hours)
    {
      assert Open(t, user) && (now <= t.deadline.value <= now + hours * 3600000000 ==> InWindow(t, now, hours));
    }
  }

  /** `retrieve`: the proximity is the unbounded one unless the limit is zero, and the overdue list is
      the first of all past-due tasks if no row is marked overdue ahead of its deadline. */
  method Retrieve(table: seq<Task>, user: string, topK: int, hours: int, now: int,
                  upcoming: seq<Task>, dated: seq<Task>, routine: Option<string>)
    returns (r: Result)
    requires Arranged(upcoming, table, Upcoming(user, now)) && Arranged(dated, table, Dated(user))
    ensures r.tasks == Limit(upcoming, topK) && r.routine == routine
    ensures r.overdue == OverdueIn(Limit(dated, Max(topK, 1)), now)
    ensures r.proximity == Imminent <==> Flag(upcoming, dated, topK, now, hours)
    ensures forall t :: t in r.tasks ==>
      t in table && t.user == user && t.status != Completed && (t.deadline.Some? ==> now <= t.deadline.value)
    ensures forall t :: t in r.overdue ==>
      && t in table && t.user == user && t.status != Completed
      && t.deadline.Some? && (t.status == Overdue || t.deadline.value < now)
    ensures topK != 0 ==> (r.proximity == Imminent <==>
      exists t :: t in table && t.user == user && t.status != Completed && t.deadline.Some?
        && now <= t.deadline.value <= now + hours * 3600000000)
    ensures (forall t :: t in table && t.user == user && t.status == Overdue ==> Past(t, now)) ==>
      r.overdue == Limit(Filter(dated, PastDue(now)), Max(topK, 1))
  {
    var tasks := Limit(upcoming, topK);
    var overdue := CollectOverdue(Limit(dated, Max(topK, 1)), now);
    var imminent := FindImminent(tasks + overdue, now, hours);
    r := Result(tasks, routine, overdue, if imminent then Imminent else NotImminent);
    TasksAreFirst(table, user, now, topK, upcoming);
    if topK != 0 {
      ImminenceIsExact(table, user, now, hours, topK, upcoming, dated);
      DueSoonIsPlain(table, user, now, hours);
    }
    OverdueIsExact(table, user, now, Max(topK, 1), dated);
    forall t ensures t in overdue <==> t in Limit(dated, Max(topK, 1)) && Late(now)(t) {
      FilterMember(Limit(dated, Max(topK, 1)), Late(now), t);
    }
    forall t | t in dated ensures t in table && t.user == user && t.status != Completed && t.deadline.Some? {
      ArrangedMember(dated, table, Dated(user), t);
    }
  }
}
