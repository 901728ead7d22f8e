/** The bug record the server returns, with its audit history and comment thread, and the
    filter record used to query a project's bugs. Priority and status are closed
    enumerations; timestamps are integers (milliseconds since the epoch). */
module BugTypes {
  import opened Common

  datatype Priority = Low | Medium | High | Critical

  datatype Status = Open | InProgress | Resolved | Closed | Pending

  /** The wire name of a priority, as the server sends it and as the edit form stages it. */
  function PriorityName(p: Priority): string {
    match p
    case Low => "low"
    case Medium => "medium"
    case High => "high"
    case Critical => "critical"
  }

  function ParsePriority(s: string): (r: Option<Priority>)
    ensures r.Some? ==> PriorityName(r.value) == s
  {
    if s == "low" then Some(Low)
    else if s == "medium" then Some(Medium)
    else if s == "high" then Some(High)
    else if s == "critical" then Some(Critical)
    else None
  }

  function StatusName(s: Status): string {
    match s
    case Open => "open"
    case InProgress => "in-progress"
    case Resolved => "resolved"
    case Closed => "closed"
    case Pending => "pending"
  }

  function ParseStatus(s: string): (r: Option<Status>)
    ensures r.Some? ==> StatusName(r.value) == s
  {
    if s == "open" then Some(Open)
    else if s == "in-progress" then Some(InProgress)
    else if s == "resolved" then Some(Resolved)
    else if s == "closed" then Some(Closed)
    else if s == "pending" then Some(Pending)
    else None
  }

  /** A priority is exactly one of the four names: parsing a name gives back the priority,
      so no two priorities share a name. */
  lemma PriorityRoundTrip(p: Priority)
    ensures ParsePriority(PriorityName(p)) == Some(p)
  {
  }

  /** A status is exactly one of the five names. */
  lemma StatusRoundTrip(s: Status)
    ensures ParseStatus(StatusName(s)) == Some(s)
  {
  }

  /** A user as embedded in a bug, a history entry or a comment. */
  datatype UserRef = UserRef(id: string, name: string, email: string)

  /** `project` is either a bare id or a populated object with id and name. */
  datatype ProjectRef = ProjectId(id: string) | ProjectObject(id: string, name: string)

  /** One audit record; `oldValue` and `newValue` are the server's values rendered as text. */
  datatype HistoryEntry = HistoryEntry(
    id: string,
    status: Option<string>,
    field: string,
    changedBy: UserRef,
    changedAt: int,
    oldValue: string,
    newValue: string,
    comment: Option<string>)

  datatype BugComment = BugComment(id: string, author: UserRef, content: string, createdAt: int)

  /** `assignedTo` may be absent, `reportedBy` is always present; `history` and `comments`
      keep the order the server gives them. */
  datatype Bug = Bug(
    id: string,
    title: string,
    description: string,
    priority: Priority,
    status: Status,
    assignedTo: Option<UserRef>,
    reportedBy: UserRef,
    project: ProjectRef,
    history: seq<HistoryEntry>,
    comments: seq<BugComment>,
    createdAt: int,
    updatedAt: int)

  datatype SortBy = ByCreatedAt | ByPriority | ByStatus | ByTitle

  datatype SortOrder = Asc | Desc

  /** Every filter is optional; an absent field places no constraint. */
  datatype BugFilters = BugFilters(
    project: Option<string>,
    status: Option<string>,
    priority: Option<string>,
    assignedTo: Option<string>,
    sortBy: Option<SortBy>,
    sortOrder: Option<SortOrder>,
    searchText: Option<string>)

  const NoFilters := BugFilters(None, None, None, None, None, None, None)
}
