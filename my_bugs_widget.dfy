/** The dashboard widget listing the user's most recent bugs: each project is asked for at
    most three of the user's bugs, newest first; the answers are merged as on the My Bugs
    page, sorted newest first and cut to five. Clicking a bug opens its project. */
module MyBugsWidget {
  import opened Common
  import opened BugTypes
  import opened ProjectTypes
  import AuthContext
  import opened MyBugs
  import BugDetail

  const PerProjectLimit: nat := 3
  const Shown: nat := 5

  /** The widget's query for one project. */
  function WidgetQuery(projectId: string, userId: string): (q: BugQuery)
    ensures q.filters.project == Some(projectId) && q.filters.assignedTo == Some(userId)
    ensures q.limit == Some(3) && q.filters.sortBy == Some(ByCreatedAt) && q.filters.sortOrder == Some(Desc)
    ensures q.filters.status.None? && q.filters.priority.None? && q.filters.searchText.None?
  {
    BugQuery(NoFilters.(project := Some(projectId), assignedTo := Some(userId),
                        sortBy := Some(ByCreatedAt), sortOrder := Some(Desc)),
             Some(PerProjectLimit))
  }

  function WidgetQueries(projects: seq<Project>, userId: string): (r: seq<BugQuery>)
    ensures |r| == |projects|
    ensures forall i :: 0 <= i < |r| ==> r[i] == WidgetQuery(projects[i].id, userId)
  {
    seq(|projects|, i requires 0 <= i < |projects| => WidgetQuery(projects[i].id, userId))
  }

  /** `list.slice(0, 5)`. */
  function FirstFive(s: seq<Bug>): (r: seq<Bug>)
    ensures |r| <= 5 && |r| <= |s| && r == s[..|r|]
    ensures |s| <= 5 ==> r == s
    ensures |s| > 5 ==> |r| == 5
  {
    if |s| <= Shown then s else s[..Shown]
  }

  /** The widget's list. */
  function TopFive(answers: seq<BugsAnswer>): (r: seq<Bug>)
    ensures |Gather(answers)| <= 5 ==> |r| == |Gather(answers)|
    ensures |Gather(answers)| > 5 ==> |r| == 5
  {
    FirstFive(MergedNewestFirst(answers))
  }

  /** The widget shows at most five bugs, they are the front of the page-wide newest-first
      merge, every one is a bug some project sent, and none of the bugs left out is newer
      than any shown. */
  lemma TopFiveIsNewestPrefix(answers: seq<BugsAnswer>)
    ensures |TopFive(answers)| <= 5
    ensures TopFive(answers) == MergedNewestFirst(answers)[..|TopFive(answers)|]
    ensures forall b :: b in TopFive(answers) ==> b in Gather(answers)
    ensures var all := MergedNewestFirst(answers);
            forall i, j :: 0 <= i < |TopFive(answers)| <= j < |all| ==>
                             all[i].createdAt >= all[j].createdAt
  {
    var all := MergedNewestFirst(answers);
    var top := TopFive(answers);
    forall b | b in top
      ensures b in Gather(answers)
    {
      assert b in multiset(all);
    }
  }

  /** The project a bug's row opens: the id of a populated project, or the bare id. Either
      way it is the route the bug's own page goes back to. */
  function NavigationTarget(b: Bug): (path: string)
    ensures path == BugDetail.ProjectPath(b.project.id)
  {
    match b.project
    case ProjectObject(id, _) => "/projects/" + id
    case ProjectId(id) => "/projects/" + id
  }

  /** Two rows open the same page exactly when their bugs belong to the same project, however
      each bug carries its project. */
  lemma SameTargetIffSameProject(a: Bug, b: Bug)
    ensures NavigationTarget(a) == NavigationTarget(b) <==> a.project.id == b.project.id
  {
    if NavigationTarget(a) == NavigationTarget(b) {
      assert NavigationTarget(a)[10..] == NavigationTarget(b)[10..];
    }
  }

  class Widget {
    /** The signed-in user, from the session. */
    const user: Option<AuthContext.User>
    var bugs: seq<Bug>
    var loading: bool

    constructor(user: Option<AuthContext.User>)
      ensures this.user == user && bugs == [] && loading
    {
      this.user := user;
      bugs := [];
      loading := true;
    }

    /** The widget's `fetchMyBugs`: nothing without a user; otherwise the merged answers to
        the limited queries, newest first, cut to five; the old list stays when the project
        list cannot be fetched. */
    method FetchMyBugs(projects: Outcome<seq<Project>>, answer: BugQuery -> BugsAnswer)
      returns (effects: seq<Effect>)
      modifies this`bugs, this`loading
      ensures user.None? ==> effects == [] && bugs == old(bugs) && loading == old(loading)
      ensures user.Some? ==> !loading && |effects| >= 1 && effects[0] == GetAllProjects
      ensures user.Some? ==> |bugs| <= 5 || bugs == old(bugs)
      ensures user.Some? && projects.Err? ==> bugs == old(bugs) && effects == [GetAllProjects]
      ensures user.Some? && projects.Ok? ==>
                var queries := WidgetQueries(projects.value, user.value.id);
                bugs == TopFive(AskAll(queries, answer))
                && effects == [GetAllProjects] + Requests(queries)
    {
      if user.None? {
        return [];
      }
      loading := true;
      effects := [GetAllProjects];
      if projects.Ok? {
        var queries := WidgetQueries(projects.value, user.value.id);
        effects := effects + Requests(queries);
        bugs := TopFive(AskAll(queries, answer));
      }
      loading := false;
    }
  }
}
