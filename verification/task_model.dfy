/**
  The task record as the board page receives it from the task list endpoint,
  and the two enumerations it carries. The enumeration values travel as their
  upper-case names (`'PENDING'`, `'MEDIUM'`, ...), so each enumeration comes
  with its wire name and a parser that inverts it.
 */
module TaskModel {

  datatype Option<T> = None | Some(value: T)

  datatype Status = PENDING | IN_PROGRESS | COMPLETED

  datatype Priority = LOW | MEDIUM | HIGH

  /** A task as listed by the store. Dates are the JSON strings the page holds. */
  datatype Task = Task(
    id: string,
    title: string,
    description: Option<string>,
    priority: Priority,
    status: Status,
    dueDate: Option<string>,
    createdAt: string
  )

  /** The value of a filter drop-down: the `'ALL'` option or one enumeration value. */
  datatype Filter<T> = All | Only(value: T)

  /** True when the filter lets a value through: `filter === 'ALL' || x === filter`. */
  predicate Admits<T(==)>(f: Filter<T>, x: T) {
    f.All? || f.value == x
  }

  function StatusName(s: Status): string {
    match s
    case PENDING => "PENDING"
    case IN_PROGRESS => "IN_PROGRESS"
    case COMPLETED => "COMPLETED"
  }

  function PriorityName(p: Priority): string {
    match p
    case LOW => "LOW"
    case MEDIUM => "MEDIUM"
    case HIGH => "HIGH"
  }

  /** Reads a status name; any other string is not a status. */
  function ParseStatus(s: string): (r: Option<Status>)
    ensures r.Some? ==> StatusName(r.value) == s
  {
    if s == "PENDING" then Some(PENDING)
    else if s == "IN_PROGRESS" then Some(IN_PROGRESS)
    else if s == "COMPLETED" then Some(COMPLETED)
    else None
  }

  /** Reads a priority name; any other string is not a priority. */
  function ParsePriority(s: string): (r: Option<Priority>)
    ensures r.Some? ==> PriorityName(r.value) == s
  {
    if s == "LOW" then Some(LOW)
    else if s == "MEDIUM" then Some(MEDIUM)
    else if s == "HIGH" then Some(HIGH)
    else None
  }

  /** Status names round-trip, and a string parses exactly when it is a name. */
  lemma StatusNameRoundTrip(s: Status, text: string)
    ensures ParseStatus(StatusName(s)) == Some(s)
    ensures ParseStatus(text) == Some(s) <==> text == StatusName(s)
  {
  }

  /** Priority names round-trip, and a string parses exactly when it is a name. */
  lemma PriorityNameRoundTrip(p: Priority, text: string)
    ensures ParsePriority(PriorityName(p)) == Some(p)
    ensures ParsePriority(text) == Some(p) <==> text == PriorityName(p)
  {
  }

  /** The option value a status drop-down setting carries: `'ALL'` or a status name. */
  function StatusFilterName(f: Filter<Status>): string {
    match f
    case All => "ALL"
    case Only(s) => StatusName(s)
  }

  /** The option value a priority drop-down setting carries: `'ALL'` or a priority name. */
  function PriorityFilterName(f: Filter<Priority>): string {
    match f
    case All => "ALL"
    case Only(p) => PriorityName(p)
  }

  /** Reads the status drop-down's value: `'ALL'` or a status name; any other string is rejected. */
  function ParseStatusFilter(text: string): (r: Option<Filter<Status>>)
    ensures r.Some? ==> StatusFilterName(r.value) == text
  {
    if text == "ALL" then Some(All)
    else match ParseStatus(text)
      case Some(s) => Some(Only(s))
      case None => None
  }

  /** Reads the priority drop-down's value: `'ALL'` or a priority name; any other string is rejected. */
  function ParsePriorityFilter(text: string): (r: Option<Filter<Priority>>)
    ensures r.Some? ==> PriorityFilterName(r.value) == text
  {
    if text == "ALL" then Some(All)
    else match ParsePriority(text)
      case Some(p) => Some(Only(p))
      case None => None
  }

  /** Every status drop-down option reads back as the setting it stands for, and only it does. */
  lemma StatusFilterRoundTrip(f: Filter<Status>, text: string)
    ensures ParseStatusFilter(StatusFilterName(f)) == Some(f)
    ensures ParseStatusFilter(text) == Some(f) <==> text == StatusFilterName(f)
  {
    if f.Only? {
      StatusNameRoundTrip(f.value, StatusName(f.value));
    }
  }

  /** Every priority drop-down option reads back as the setting it stands for, and only it does. */
  lemma PriorityFilterRoundTrip(f: Filter<Priority>, text: string)
    ensures ParsePriorityFilter(PriorityFilterName(f)) == Some(f)
    ensures ParsePriorityFilter(text) == Some(f) <==> text == PriorityFilterName(f)
  {
    if f.Only? {
      PriorityNameRoundTrip(f.value, PriorityName(f.value));
    }
  }
}
