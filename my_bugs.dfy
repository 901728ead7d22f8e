/** The "My Bugs" page: for every project the signed-in user can see, ask the server for the
    bugs assigned to that user, merge the answers (an answer that fails or carries no list
    counts as empty), and show them newest first. The per-project requests are modelled as
    a sequence of answers given by an oracle function, one per project in project order. */
module MyBugs {
  import opened Common
  import opened BugTypes
  import opened ProjectTypes
  import AuthContext
  import BreadcrumbContext

  /** What one `getBugs` call asks for. */
  datatype BugQuery = BugQuery(filters: BugFilters, limit: Option<nat>)

  /** One per-project answer: the response's `bugs` field, which may be missing. */
  type BugsAnswer = Outcome<Option<seq<Bug>>>

  datatype Effect =
    | GetAllProjects
    | GetBugs(query: BugQuery)
    | SetBreadcrumbs(items: seq<BreadcrumbContext.BreadcrumbItem>)

  /** The page's query for one project: bugs of that project assigned to the user. */
  function AssignedQuery(projectId: string, userId: string): BugQuery {
    BugQuery(NoFilters.(project := Some(projectId), assignedTo := Some(userId)), None)
  }

  /** What one answer adds to the merged list: a rejected request is caught and counts as
      an empty list, and so does a response without `bugs`. */
  function Contribution(answer: BugsAnswer): seq<Bug> {
    match answer
    case Err(_) => []
    case Ok(None) => []
    case Ok(Some(bugs)) => bugs
  }

  /** `responses.flatMap(r => r.data.bugs || [])`. */
  function Gather(answers: seq<BugsAnswer>): (r: seq<Bug>)
    ensures (forall i :: 0 <= i < |answers| ==> answers[i].Err?) ==> r == []
    ensures |answers| == 1 ==> r == Contribution(answers[0])
  {
    if answers == [] then []
    else
      assert forall i :: 0 <= i < |answers| - 1 ==> answers[1..][i] == answers[i + 1];
      Contribution(answers[0]) + Gather(answers[1..])
  }

  /** Merging is compatible with splitting the project list anywhere. */
  lemma {:induction false} GatherAppend(a: seq<BugsAnswer>, b: seq<BugsAnswer>)
    ensures Gather(a + b) == Gather(a) + Gather(b)
  {
    if a != [] {
      assert (a + b)[1..] == a[1..] + b;
      GatherAppend(a[1..], b);
    } else {
      assert a + b == b;
    }
  }

  /** A bug is in the merged list exactly when some successful answer carried it: failures
      add nothing and do not keep the other projects' bugs out. */
  lemma {:induction false} GatherMembership(answers: seq<BugsAnswer>, b: Bug)
    ensures b in Gather(answers) <==>
              exists i :: 0 <= i < |answers| && answers[i].Ok? && answers[i].value.Some?
                          && b in answers[i].value.value
  {
    if answers != [] {
      GatherMembership(answers[1..], b);
      if b in Gather(answers[1..]) {
        var i :| 0 <= i < |answers[1..]| && answers[1..][i].Ok? && answers[1..][i].value.Some?
                 && b in answers[1..][i].value.value;
        assert answers[i + 1] == answers[1..][i];
      }
      if exists i :: 0 <= i < |answers| && answers[i].Ok? && answers[i].value.Some?
                     && b in answers[i].value.value {
        var i :| 0 <= i < |answers| && answers[i].Ok? && answers[i].value.Some?
                 && b in answers[i].value.value;
        if i > 0 {
          assert answers[1..][i - 1] == answers[i];
        }
      }
    }
  }

  /** A failed answer can be dropped from the list without changing the merge. */
  lemma FailureContributesNothing(answers: seq<BugsAnswer>, i: nat)
    requires i < |answers| && answers[i].Err?
    ensures Gather(answers) == Gather(answers[..i] + answers[i + 1..])
  {
    assert answers == answers[..i] + ([answers[i]] + answers[i + 1..]);
    GatherAppend(answers[..i], [answers[i]] + answers[i + 1..]);
    GatherAppend([answers[i]], answers[i + 1..]);
    GatherAppend(answers[..i], answers[i + 1..]);
  }

  /** Ordered by creation time, newest first. */
  predicate NewestFirst(s: seq<Bug>) {
    forall i, j :: 0 <= i < j < |s| ==> s[i].createdAt >= s[j].createdAt
  }

  /** The bugs of `s` created at time `t`, in their order in `s`. */
  function CreatedAt(s: seq<Bug>, t: int): seq<Bug> {
    if s == [] then []
    else (if s[0].createdAt == t then [s[0]] else []) + CreatedAt(s[1..], t)
  }

  /** Places `b` in a newest-first list ahead of every bug that is not newer than it. */
  function InsertNewest(b: Bug, s: seq<Bug>): (r: seq<Bug>)
    ensures multiset(r) == multiset(s) + multiset{b}
  {
    if s == [] || b.createdAt >= s[0].createdAt then [b] + s
    else
      assert s == [s[0]] + s[1..];
      [s[0]] + InsertNewest(b, s[1..])
  }

  /** Inserting into a newest-first list keeps it newest first. */
  lemma {:induction false} InsertKeepsOrder(b: Bug, s: seq<Bug>)
    requires NewestFirst(s)
    ensures NewestFirst(InsertNewest(b, s))
  {
    if s == [] || b.createdAt >= s[0].createdAt {
      var r := [b] + s;
      forall i, j | 0 <= i < j < |r|
        ensures r[i].createdAt >= r[j].createdAt
      {
        assert r[j] == s[j - 1];
        if i > 0 {
          assert r[i] == s[i - 1];
        }
      }
    } else {
      var rest := InsertNewest(b, s[1..]);
      InsertKeepsOrder(b, s[1..]);
      forall k | 0 <= k < |rest|
        ensures s[0].createdAt >= rest[k].createdAt
      {
        assert rest[k] in multiset(rest);
        if rest[k] != b {
          assert rest[k] in multiset(s[1..]);
          var m :| 0 <= m < |s[1..]| && s[1..][m] == rest[k];
          assert s[m + 1] == rest[k];
        }
      }
      var r := [s[0]] + rest;
      forall i, j | 0 <= i < j < |r|
        ensures r[i].createdAt >= r[j].createdAt
      {
        assert r[j] == rest[j - 1];
        if i > 0 {
          assert r[i] == rest[i - 1];
        }
      }
    }
  }

  /** `array.sort((a, b) => b.createdAt - a.createdAt)`: a stable sort, newest first. */
  function SortNewestFirst(s: seq<Bug>): (r: seq<Bug>)
    ensures multiset(r) == multiset(s)
    ensures NewestFirst(r)
  {
    if s == [] then []
    else
      assert s == [s[0]] + s[1..];
      var sorted := SortNewestFirst(s[1..]);
      InsertKeepsOrder(s[0], sorted);
      InsertNewest(s[0], sorted)
  }

  /** Inserting `b` puts it ahead of every bug created at its own moment and keeps the
      order of the others. */
  lemma {:induction false} InsertKeepsTies(b: Bug, s: seq<Bug>, t: int)
    ensures CreatedAt(InsertNewest(b, s), t) ==
              (if b.createdAt == t then [b] else []) + CreatedAt(s, t)
  {
    var mine: seq<Bug> := if b.createdAt == t then [b] else [];
    if s == [] || b.createdAt >= s[0].createdAt {
      assert ([b] + s)[1..] == s;
    } else {
      var head: seq<Bug> := if s[0].createdAt == t then [s[0]] else [];
      var r := InsertNewest(b, s[1..]);
      InsertKeepsTies(b, s[1..], t);
      assert ([s[0]] + r)[1..] == r;
      assert CreatedAt([s[0]] + r, t) == head + (mine + CreatedAt(s[1..], t));
      assert CreatedAt(s, t) == head + CreatedAt(s[1..], t);
      if b.createdAt == t {
        assert head == [];
      }
    }
  }

  /** The sort is stable: bugs created at the same moment keep the order the merge gave
      them. Together with the ordering and the permutation this fixes the result. */
  lemma {:induction false} SortIsStable(s: seq<Bug>, t: int)
    ensures CreatedAt(SortNewestFirst(s), t) == CreatedAt(s, t)
  {
    if s != [] {
      SortIsStable(s[1..], t);
      InsertKeepsTies(s[0], SortNewestFirst(s[1..]), t);
    }
  }

  /** The bugs the page shows: all successful answers merged, newest first. */
  function MergedNewestFirst(answers: seq<BugsAnswer>): (r: seq<Bug>)
    ensures NewestFirst(r) && multiset(r) == multiset(Gather(answers))
    ensures |r| == |Gather(answers)|
  {
    assert |multiset(SortNewestFirst(Gather(answers)))| == |multiset(Gather(answers))|;
    SortNewestFirst(Gather(answers))
  }

  /** `bug` for exactly one bug, `bugs` otherwise (including none). */
  function BugNoun(count: nat): (r: string)
    ensures r == "bug" <==> count == 1
    ensures r == "bugs" <==> count != 1
  {
    "bug" + (if count != 1 then "s" else "")
  }

  const MyBugsCrumbs := [
    BreadcrumbContext.BreadcrumbItem("Dashboard", None, Some("🏠"),
                                     Some(BreadcrumbContext.Navigate("/dashboard"))),
    BreadcrumbContext.BreadcrumbItem("My Bugs", None, Some("🐛"), None) ]

  function Queries(projects: seq<Project>, userId: string): (r: seq<BugQuery>)
    ensures |r| == |projects|
    ensures forall i :: 0 <= i < |r| ==> r[i] == AssignedQuery(projects[i].id, userId)
  {
    seq(|projects|, i requires 0 <= i < |projects| => AssignedQuery(projects[i].id, userId))
  }

  function AskAll(queries: seq<BugQuery>, answer: BugQuery -> BugsAnswer): (r: seq<BugsAnswer>)
    ensures |r| == |queries|
    ensures forall i :: 0 <= i < |r| ==> r[i] == answer(queries[i])
  {
    seq(|queries|, i requires 0 <= i < |queries| => answer(queries[i]))
  }

  function Requests(queries: seq<BugQuery>): (r: seq<Effect>)
    ensures |r| == |queries|
    ensures forall i :: 0 <= i < |r| ==> r[i] == GetBugs(queries[i])
  {
    seq(|queries|, i requires 0 <= i < |queries| => GetBugs(queries[i]))
  }

  /** The page shows a bug exactly when the request for one of the user's projects was
      answered with a list holding it. */
  lemma ShownIffSomeProjectSentIt(projects: seq<Project>, userId: string,
                                  answer: BugQuery -> BugsAnswer, b: Bug)
    ensures b in MergedNewestFirst(AskAll(Queries(projects, userId), answer)) <==>
              exists i :: 0 <= i < |projects| && answer(AssignedQuery(projects[i].id, userId)).Ok?
                          && answer(AssignedQuery(projects[i].id, userId)).value.Some?
                          && b in answer(AssignedQuery(projects[i].id, userId)).value.value
  {
    var answers := AskAll(Queries(projects, userId), answer);
    var merged := MergedNewestFirst(answers);
    assert b in merged <==> b in multiset(Gather(answers));
    GatherMembership(answers, b);
    if b in merged {
      var i :| 0 <= i < |answers| && answers[i].Ok? && answers[i].value.Some?
               && b in answers[i].value.value;
      assert answers[i] == answer(AssignedQuery(projects[i].id, userId));
    }
    if exists i :: 0 <= i < |projects| && answer(AssignedQuery(projects[i].id, userId)).Ok?
                   && answer(AssignedQuery(projects[i].id, userId)).value.Some?
                   && b in answer(AssignedQuery(projects[i].id, userId)).value.value {
      var i :| 0 <= i < |projects| && answer(AssignedQuery(projects[i].id, userId)).Ok?
               && answer(AssignedQuery(projects[i].id, userId)).value.Some?
               && b in answer(AssignedQuery(projects[i].id, userId)).value.value;
      assert answers[i] == answer(AssignedQuery(projects[i].id, userId));
    }
  }

  class MyBugsPage {
    /** The signed-in user, from the session. */
    const user: Option<AuthContext.User>
    var bugs: seq<Bug>
    var loading: bool

    constructor(user: Option<AuthContext.User>)
      ensures this.user == user && bugs == [] && loading
    {
      this.user := user;
      bugs := [];
      loading := true;
    }

    /** `fetchMyBugs`. With nobody signed in it returns at once and changes nothing (so the
        page keeps loading). Otherwise it lists the projects, asks each one for the user's
        bugs, and shows the merge newest first; if the project list cannot be fetched the
        bugs already shown stay. Loading ends either way. */
    method FetchMyBugs(projects: Outcome<seq<Project>>, answer: BugQuery -> BugsAnswer)
      returns (effects: seq<Effect>)
      modifies this`bugs, this`loading
      ensures user.None? ==> effects == [] && bugs == old(bugs) && loading == old(loading)
      ensures user.Some? ==> !loading && |effects| >= 1 && effects[0] == GetAllProjects
      ensures user.Some? && projects.Err? ==> bugs == old(bugs) && effects == [GetAllProjects]
      ensures user.Some? && projects.Ok? ==>
                var queries := Queries(projects.value, user.value.id);
                bugs == MergedNewestFirst(AskAll(queries, answer))
                && effects == [GetAllProjects] + Requests(queries)
    {
      if user.None? {
        return [];
      }
      loading := true;
      effects := [GetAllProjects];
      if projects.Ok? {
        var queries := Queries(projects.value, user.value.id);
        effects := effects + Requests(queries);
        bugs := MergedNewestFirst(AskAll(queries, answer));
      }
      loading := false;
    }

    /** What the page does when it is shown: install its trail, then fetch. */
    method Mount(projects: Outcome<seq<Project>>, answer: BugQuery -> BugsAnswer)
      returns (effects: seq<Effect>)
      modifies this`bugs, this`loading
      ensures |effects| >= 1 && effects[0] == SetBreadcrumbs(MyBugsCrumbs)
      ensures user.None? ==> effects == [SetBreadcrumbs(MyBugsCrumbs)] && bugs == old(bugs)
      ensures user.Some? && projects.Ok? ==>
                bugs == MergedNewestFirst(AskAll(Queries(projects.value, user.value.id), answer))
    {
      var fetchEffects := FetchMyBugs(projects, answer);
      effects := [SetBreadcrumbs(MyBugsCrumbs)] + fetchEffects;
    }
  }
}
