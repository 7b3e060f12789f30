/**
  The board page's view derivation: the full task list is narrowed by the
  search box, the status drop-down and the priority drop-down (in that order),
  and the result is split into the Pending, In Progress and Completed columns,
  whose sizes the page shows next to the unfiltered total.
 */
module Board {
  import opened TaskModel
  import opened Text
  import opened Sequences

  /** The page's filter state: search box text and the two drop-downs. */
  datatype Query = Query(searchTerm: string, statusFilter: Filter<Status>, priorityFilter: Filter<Priority>)

  /** The query the page starts with: empty search, both drop-downs on `'ALL'`. */
  const InitialQuery := Query("", All, All)

  /**
    A task matches the search when its lowered title contains the lowered
    term, or it has a description whose lowered text contains it. A missing
    description (`?.` yielding `undefined`) never matches.
   */
  predicate SearchHit(t: Task, term: string) {
    || Contains(Lower(t.title), Lower(term))
    || (t.description.Some? && Contains(Lower(t.description.value), Lower(term)))
  }

  /** A task survives all three filters. */
  predicate Visible(q: Query, t: Task) {
    && SearchHit(t, q.searchTerm)
    && Admits(q.statusFilter, t.status)
    && Admits(q.priorityFilter, t.priority)
  }

  /** First `.filter`: the search box. */
  function SearchStage(tasks: seq<Task>, term: string): seq<Task> {
    Select(tasks, t => SearchHit(t, term))
  }

  /** Second `.filter`: the status drop-down. */
  function StatusStage(tasks: seq<Task>, f: Filter<Status>): seq<Task> {
    Select(tasks, (t: Task) => Admits(f, t.status))
  }

  /** Third `.filter`: the priority drop-down. */
  function PriorityStage(tasks: seq<Task>, f: Filter<Priority>): seq<Task> {
    Select(tasks, (t: Task) => Admits(f, t.priority))
  }

  /** `filteredTasks`: the three filters applied one after another. */
  function FilteredTasks(tasks: seq<Task>, q: Query): (r: seq<Task>)
    ensures |r| <= |tasks|
    ensures forall i :: 0 <= i < |r| ==> Visible(q, r[i])
  {
    var searched := SearchStage(tasks, q.searchTerm);
    var byStatus := StatusStage(searched, q.statusFilter);
    PriorityStage(byStatus, q.priorityFilter)
  }

  /** The filter chain is a single filter by `Visible`. */
  lemma FilteredIsSinglePass(tasks: seq<Task>, q: Query)
    ensures FilteredTasks(tasks, q) == Select(tasks, t => Visible(q, t))
  {
    var search := t => SearchHit(t, q.searchTerm);
    var status := (t: Task) => Admits(q.statusFilter, t.status);
    var priority := (t: Task) => Admits(q.priorityFilter, t.priority);
    var searchAndStatus := (t: Task) => SearchHit(t, q.searchTerm) && Admits(q.statusFilter, t.status);
    SelectFusion(tasks, search, status, searchAndStatus);
    SelectFusion(tasks, searchAndStatus, priority, t => Visible(q, t));
  }

  /** `filteredTasks` keeps exactly the visible tasks. */
  lemma FilteredMembership(tasks: seq<Task>, q: Query, t: Task)
    ensures t in FilteredTasks(tasks, q) <==> t in tasks && Visible(q, t)
  {
    FilteredIsSinglePass(tasks, q);
    SelectMembership(tasks, t => Visible(q, t), t);
  }

  /** `filteredTasks` is an order-preserving subsequence of `tasks`. */
  lemma FilteredIsSubsequence(tasks: seq<Task>, q: Query)
    ensures IsSubsequence(FilteredTasks(tasks, q), tasks)
  {
    FilteredIsSinglePass(tasks, q);
    SelectIsSubsequence(tasks, t => Visible(q, t));
  }

  /** With a specific status chosen, every listed task has that status. */
  lemma StatusFilterSound(tasks: seq<Task>, q: Query, t: Task)
    requires q.statusFilter.Only? && t in FilteredTasks(tasks, q)
    ensures t.status == q.statusFilter.value
  {
    FilteredMembership(tasks, q, t);
  }

  /** With status `'ALL'`, the status filter removes nothing. */
  lemma StatusAllUnrestricted(tasks: seq<Task>, q: Query)
    requires q.statusFilter.All?
    ensures FilteredTasks(tasks, q) == PriorityStage(SearchStage(tasks, q.searchTerm), q.priorityFilter)
  {
    SelectKeepsAll(SearchStage(tasks, q.searchTerm), (t: Task) => Admits(q.statusFilter, t.status));
  }

  /** With a specific priority chosen, every listed task has that priority. */
  lemma PriorityFilterSound(tasks: seq<Task>, q: Query, t: Task)
    requires q.priorityFilter.Only? && t in FilteredTasks(tasks, q)
    ensures t.priority == q.priorityFilter.value
  {
    FilteredMembership(tasks, q, t);
  }

  /** With priority `'ALL'`, the priority filter removes nothing. */
  lemma PriorityAllUnrestricted(tasks: seq<Task>, q: Query)
    requires q.priorityFilter.All?
    ensures FilteredTasks(tasks, q) == StatusStage(SearchStage(tasks, q.searchTerm), q.statusFilter)
  {
    var byStatus := StatusStage(SearchStage(tasks, q.searchTerm), q.statusFilter);
    SelectKeepsAll(byStatus, (t: Task) => Admits(q.priorityFilter, t.priority));
  }

  /** The empty search term matches every task, through its title. */
  lemma EmptyTermMatchesAll(t: Task)
    ensures SearchHit(t, "")
  {
    assert Lower("") == "";
    EmptyIsContained(Lower(t.title));
  }

  /** On the initial query the page lists every task, in the order received. */
  lemma InitialQueryShowsAll(tasks: seq<Task>)
    ensures FilteredTasks(tasks, InitialQuery) == tasks
  {
    forall i | 0 <= i < |tasks|
      ensures Visible(InitialQuery, tasks[i])
    {
      EmptyTermMatchesAll(tasks[i]);
    }
    FilteredIsSinglePass(tasks, InitialQuery);
    SelectKeepsAll(tasks, t => Visible(InitialQuery, t));
  }

  /** A task without a description matches only through its title. */
  lemma AbsentDescriptionSearchesTitle(t: Task, term: string)
    requires t.description.None?
    ensures SearchHit(t, term) <==> Contains(Lower(t.title), Lower(term))
  {
  }

  /**
    Two search terms that differ only in the case of ASCII letters select the
    same tasks: typing "Report" or "REPORT" finds what "report" finds.
   */
  lemma SearchCaseInsensitive(t: Task, a: string, b: string)
    requires |a| == |b|
    requires forall i :: 0 <= i < |a| ==> LowerChar(a[i]) == LowerChar(b[i])
    ensures SearchHit(t, a) <==> SearchHit(t, b)
  {
    assert Lower(a) == Lower(b);
  }

  /** Lowering the term before searching changes nothing. */
  lemma SearchIgnoresTermCase(t: Task, term: string)
    ensures SearchHit(t, Lower(term)) <==> SearchHit(t, term)
  {
    assert forall i :: 0 <= i < |term| ==> LowerChar(Lower(term)[i]) == LowerChar(term[i]);
    SearchCaseInsensitive(t, Lower(term), term);
  }

  /** Lowering the task's title or description before searching changes nothing. */
  lemma SearchIgnoresTaskCase(t: Task, term: string)
    ensures SearchHit(t.(title := Lower(t.title)), term) <==> SearchHit(t, term)
    ensures t.description.Some? ==>
      (SearchHit(t.(description := Some(Lower(t.description.value))), term) <==> SearchHit(t, term))
  {
    LowerIdempotent(t.title);
    if t.description.Some? {
      LowerIdempotent(t.description.value);
    }
  }

  /**
    The predicate passed to the first `.filter`, evaluated the way the page
    does: title first, and the description only when the title misses and
    the description is present.
   */
  method MatchesSearch(t: Task, term: string) returns (hit: bool)
    ensures hit <==> SearchHit(t, term)
  {
    var needle := Lower(term);
    hit := Includes(Lower(t.title), needle);
    if !hit {
      match t.description {
        case None =>
        case Some(d) =>
          hit := Includes(Lower(d), needle);
      }
    }
  }

  /** The three status columns. */
  datatype Columns = Columns(pending: seq<Task>, inProgress: seq<Task>, completed: seq<Task>)

  /** The column a status is shown in. */
  function Column(c: Columns, s: Status): seq<Task> {
    match s
    case PENDING => c.pending
    case IN_PROGRESS => c.inProgress
    case COMPLETED => c.completed
  }

  /** The tasks of one status, in their filtered order. */
  function Bucket(tasks: seq<Task>, s: Status): (r: seq<Task>)
    ensures forall i :: 0 <= i < |r| ==> r[i].status == s
  {
    Select(tasks, (t: Task) => t.status == s)
  }

  /** The first task goes to the front of the bucket of its status. */
  lemma BucketConsOwn(tasks: seq<Task>)
    requires |tasks| > 0
    ensures multiset(Bucket(tasks, tasks[0].status)) == multiset{tasks[0]} + multiset(Bucket(tasks[1..], tasks[0].status))
  {
    assert Bucket(tasks, tasks[0].status) == [tasks[0]] + Bucket(tasks[1..], tasks[0].status);
  }

  /** Every task lands in the bucket of its own status, with its multiplicity. */
  lemma {:induction false} BucketsCoverAll(tasks: seq<Task>)
    ensures multiset(tasks) == multiset(Bucket(tasks, PENDING)) + multiset(Bucket(tasks, IN_PROGRESS)) + multiset(Bucket(tasks, COMPLETED))
  {
    if |tasks| > 0 {
      var t, rest := tasks[0], tasks[1..];
      BucketsCoverAll(rest);
      BucketConsOwn(tasks);
      assert tasks == [t] + rest;
      assert multiset(tasks) == multiset{t} + multiset(rest);
      var p, i, c := multiset(Bucket(rest, PENDING)), multiset(Bucket(rest, IN_PROGRESS)), multiset(Bucket(rest, COMPLETED));
      match t.status
      case PENDING =>
        assert multiset(Bucket(tasks, IN_PROGRESS)) == i;
        assert multiset(Bucket(tasks, COMPLETED)) == c;
      case IN_PROGRESS =>
        assert multiset(Bucket(tasks, PENDING)) == p;
        assert multiset(Bucket(tasks, COMPLETED)) == c;
      case COMPLETED =>
        assert multiset(Bucket(tasks, PENDING)) == p;
        assert multiset(Bucket(tasks, IN_PROGRESS)) == i;
    }
  }

  /** `pendingTasks`, `inProgressTasks` and `completedTasks`. */
  function Split(filtered: seq<Task>): (c: Columns)
    ensures forall s: Status, i :: 0 <= i < |Column(c, s)| ==> Column(c, s)[i].status == s
    ensures multiset(filtered) == multiset(c.pending) + multiset(c.inProgress) + multiset(c.completed)
    ensures |c.pending| + |c.inProgress| + |c.completed| == |filtered|
  {
    var pending, inProgress, completed := Bucket(filtered, PENDING), Bucket(filtered, IN_PROGRESS), Bucket(filtered, COMPLETED);
    BucketsCoverAll(filtered);
    assert |multiset(filtered)| == |filtered|;
    assert |multiset(pending)| == |pending| && |multiset(inProgress)| == |inProgress| && |multiset(completed)| == |completed|;
    Columns(pending, inProgress, completed)
  }

  /** The columns the page renders for a task list and query. */
  function BoardColumns(tasks: seq<Task>, q: Query): Columns {
    Split(FilteredTasks(tasks, q))
  }

  /**
    Each column holds exactly the filtered tasks of its status, as an
    order-preserving subsequence, and no task sits in two columns.
   */
  lemma ColumnsPartition(filtered: seq<Task>, s: Status, other: Status, t: Task)
    ensures t in Column(Split(filtered), s) <==> t in filtered && t.status == s
    ensures IsSubsequence(Column(Split(filtered), s), filtered)
    ensures s != other ==> !(t in Column(Split(filtered), s) && t in Column(Split(filtered), other))
  {
    SelectMembership(filtered, (x: Task) => x.status == s, t);
    SelectIsSubsequence(filtered, (x: Task) => x.status == s);
  }

  /** Each rendered column is an order-preserving subsequence of the unfiltered task list. */
  lemma ColumnIsSubsequenceOfTasks(tasks: seq<Task>, q: Query, s: Status)
    ensures IsSubsequence(Column(BoardColumns(tasks, q), s), tasks)
  {
    var filtered := FilteredTasks(tasks, q);
    SelectIsSubsequence(filtered, (x: Task) => x.status == s);
    FilteredIsSubsequence(tasks, q);
    SubsequenceTransitive(Column(BoardColumns(tasks, q), s), filtered, tasks);
  }

  /** With a specific status chosen, the other two columns are empty. */
  lemma SpecificStatusEmptiesOthers(tasks: seq<Task>, q: Query)
    requires q.statusFilter.Only?
    ensures forall s: Status :: s != q.statusFilter.value ==> Column(BoardColumns(tasks, q), s) == []
  {
    var filtered := FilteredTasks(tasks, q);
    forall s: Status | s != q.statusFilter.value
      ensures Column(BoardColumns(tasks, q), s) == []
    {
      SelectKeepsNone(filtered, (x: Task) => x.status == s);
    }
  }

  /** How many tasks in `ts` have status `s`, counted position by position. */
  function CountStatus(ts: seq<Task>, s: Status): nat {
    if |ts| == 0 then 0
    else (if ts[0].status == s then 1 else 0) + CountStatus(ts[1..], s)
  }

  /** A bucket holds as many tasks as the list has tasks of that status. */
  lemma {:induction false} BucketSize(ts: seq<Task>, s: Status)
    ensures |Bucket(ts, s)| == CountStatus(ts, s)
  {
    if |ts| > 0 {
      BucketSize(ts[1..], s);
    }
  }

  /** The header total and the three column counts. */
  datatype Summary = Summary(total: nat, pending: nat, inProgress: nat, completed: nat)

  /** What the page shows: `tasks.length` in the header, each column's length below. */
  function Summarize(tasks: seq<Task>, q: Query): (r: Summary)
    ensures r.total == |tasks|
    ensures r.pending + r.inProgress + r.completed == |FilteredTasks(tasks, q)|
    ensures r.pending + r.inProgress + r.completed <= r.total
    ensures r.pending == CountStatus(FilteredTasks(tasks, q), PENDING)
    ensures r.inProgress == CountStatus(FilteredTasks(tasks, q), IN_PROGRESS)
    ensures r.completed == CountStatus(FilteredTasks(tasks, q), COMPLETED)
  {
    var filtered := FilteredTasks(tasks, q);
    var c := BoardColumns(tasks, q);
    BucketSize(filtered, PENDING);
    BucketSize(filtered, IN_PROGRESS);
    BucketSize(filtered, COMPLETED);
    Summary(|tasks|, |c.pending|, |c.inProgress|, |c.completed|)
  }

  /** With a specific status chosen, the counts of the two other columns are zero. */
  lemma ChosenStatusCountsOnly(tasks: seq<Task>, q: Query)
    requires q.statusFilter.Only?
    ensures q.statusFilter.value != PENDING ==> Summarize(tasks, q).pending == 0
    ensures q.statusFilter.value != IN_PROGRESS ==> Summarize(tasks, q).inProgress == 0
    ensures q.statusFilter.value != COMPLETED ==> Summarize(tasks, q).completed == 0
  {
    var c := BoardColumns(tasks, q);
    SpecificStatusEmptiesOthers(tasks, q);
    assert Column(c, PENDING) == c.pending && Column(c, IN_PROGRESS) == c.inProgress && Column(c, COMPLETED) == c.completed;
  }
}
