/** The bug detail page: it loads one bug and the project's members, shows the bug, and lets
    the user comment on it, change its priority and status (optionally explaining a status
    change), delete it and assign it to a member. Every server call is an oracle outcome
    passed in by the caller; what the page asks of the outside world (requests, navigation,
    notifications, alerts, the breadcrumb trail) is returned as a list of effects. */
module BugDetail {
  import opened Common
  import opened JsText
  import opened Messages
  import opened BugTypes
  import opened ProjectTypes
  import BreadcrumbContext
  import Breadcrumb

  /** What the page sends to the server when the user saves an edit. */
  datatype UpdateData = UpdateData(priority: string, status: string, statusComment: Option<string>)

  datatype Effect =
    | GetBug
    | GetProject
    | AddComment(text: string)
    | UpdateBug(data: UpdateData)
    | DeleteBug
    | AssignBug(userId: string)
    | Navigate(path: string)
    | ShowSuccess(message: string)
    | ShowError(message: string)
    | Alert(message: string)
    | SetBreadcrumbs(items: seq<BreadcrumbContext.BreadcrumbItem>)

  function ProjectPath(projectId: string): (path: string)
    ensures |path| == 10 + |projectId| && path[..10] == "/projects/" && path[10..] == projectId
  {
    "/projects/" + projectId
  }

  /** `editData.status !== bug?.status`: with no bug loaded the staged status is compared
      with `undefined` and so always counts as a change. */
  predicate StatusChanged(editStatus: string, bug: Option<Bug>) {
    bug.None? || editStatus != StatusName(bug.value.status)
  }

  /** The payload of an update: the staged priority and status, plus the status comment,
      untrimmed, when the status changed and the comment has a non-space character. */
  function UpdatePayload(editPriority: string, editStatus: string, bug: Option<Bug>,
                         statusComment: string): (p: UpdateData)
    ensures p.priority == editPriority && p.status == editStatus
    ensures p.statusComment.Some? <==> StatusChanged(editStatus, bug) && !AllSpace(statusComment)
    ensures p.statusComment.Some? ==> p.statusComment.value == statusComment
  {
    BlankIffAllSpace(statusComment);
    if StatusChanged(editStatus, bug) && Trim(statusComment) != "" then
      UpdateData(editPriority, editStatus, Some(statusComment))
    else
      UpdateData(editPriority, editStatus, None)
  }

  /** The status-comment box is drawn only on the page of a loaded bug (without one the page
      shows "Bug not found"), inside the edit form, and while the staged status differs from
      the bug's. */
  predicate StatusCommentVisible(isEditing: bool, editStatus: string, bug: Option<Bug>)
    ensures StatusCommentVisible(isEditing, editStatus, bug) ==>
              isEditing && bug.Some? && editStatus != StatusName(bug.value.status)
  {
    bug.Some? && isEditing && StatusChanged(editStatus, bug)
  }

  /** A status comment is sent only when the box that holds it is on screen (the Save
      button that sends the update is part of the edit form, so the page is editing), and
      an unchanged status never carries one, whatever was typed. */
  lemma CommentOnlyWithVisibleBox(editPriority: string, editStatus: string, b: Bug,
                                  statusComment: string)
    ensures UpdatePayload(editPriority, editStatus, Some(b), statusComment).statusComment.Some? ==>
              StatusCommentVisible(true, editStatus, Some(b))
    ensures editStatus == StatusName(b.status) ==>
              UpdatePayload(editPriority, editStatus, Some(b), statusComment).statusComment.None?
  {
  }

  /** `member.userId._id === bug.assignedTo?._id`. */
  predicate IsCurrentlyAssigned(m: Member, b: Bug)
    ensures b.assignedTo.None? ==> !IsCurrentlyAssigned(m, b)
  {
    b.assignedTo.Some? && m.user.id == b.assignedTo.value.id
  }

  /** A member's button in the assign dialog is enabled. */
  predicate CanSelectAssignee(isAssigning: bool, m: Member, b: Bug)
    ensures CanSelectAssignee(isAssigning, m, b) ==> !isAssigning
  {
    !(isAssigning || IsCurrentlyAssigned(m, b))
  }

  /** The assignee rule: while an assignment is in flight nobody can be picked; otherwise
      everybody can except the member holding the assignment, and an unassigned bug lets
      every member be picked. */
  lemma AssigneeRule(isAssigning: bool, m: Member, b: Bug)
    ensures isAssigning ==> !CanSelectAssignee(isAssigning, m, b)
    ensures b.assignedTo.Some? && m.user.id == b.assignedTo.value.id ==>
              !CanSelectAssignee(isAssigning, m, b)
    ensures !isAssigning && (b.assignedTo.None? || m.user.id != b.assignedTo.value.id) ==>
              CanSelectAssignee(isAssigning, m, b)
  {
  }

  /** The comment button is enabled only for a comment with a non-space character and when
      no comment is being sent. */
  predicate CanSubmitComment(newComment: string, isAddingComment: bool)
    ensures CanSubmitComment(newComment, isAddingComment) ==> newComment != "" && !isAddingComment
  {
    !(Trim(newComment) == "" || isAddingComment)
  }

  lemma CommentButtonRule(newComment: string, isAddingComment: bool)
    ensures CanSubmitComment(newComment, isAddingComment) <==>
              !isAddingComment && !AllSpace(newComment)
  {
    BlankIffAllSpace(newComment);
  }

  /** The trail the page installs once a bug is loaded: Dashboard, Projects, the project
      (its name when the bug carries a populated project, 'Project' otherwise) and the bug's
      title. */
  function BugCrumbs(projectId: string, b: Bug): (r: seq<BreadcrumbContext.BreadcrumbItem>)
    ensures |r| == 4
    ensures r[3].caption == b.title && r[3].href.None? && r[3].onClick.None?
    ensures r[0].onClick == Some(BreadcrumbContext.Navigate("/dashboard"))
    ensures r[1].onClick == Some(BreadcrumbContext.Navigate("/dashboard"))
    ensures r[2].onClick == Some(BreadcrumbContext.Navigate(ProjectPath(projectId)))
  {
    var projectLabel := match b.project
      case ProjectObject(_, name) => name
      case ProjectId(_) => "Project";
    [ BreadcrumbContext.BreadcrumbItem("Dashboard", None, Some("🏠"),
                                       Some(BreadcrumbContext.Navigate("/dashboard"))),
      BreadcrumbContext.BreadcrumbItem("Projects", None, Some("📁"),
                                       Some(BreadcrumbContext.Navigate("/dashboard"))),
      BreadcrumbContext.BreadcrumbItem(projectLabel, None, Some("📋"),
                                       Some(BreadcrumbContext.Navigate(ProjectPath(projectId)))),
      BreadcrumbContext.BreadcrumbItem(b.title, None, Some("🐛"), None) ]
  }

  /** In the bug page's trail the three ancestors are links and the bug itself is plain
      text. */
  lemma BugCrumbsClickable(projectId: string, b: Bug)
    ensures forall i :: 0 <= i < 3 ==> Breadcrumb.IsClickable(BugCrumbs(projectId, b), i)
    ensures !Breadcrumb.IsClickable(BugCrumbs(projectId, b), 3)
  {
  }

  const Gray := "bg-gray-100 text-gray-800"

  /** Badge colour of a priority name; anything else is gray. */
  function PriorityColor(priority: string): (r: string)
    ensures ParsePriority(priority).None? <==> r == Gray
  {
    if priority == "critical" then "bg-red-100 text-red-800"
    else if priority == "high" then "bg-orange-100 text-orange-800"
    else if priority == "medium" then "bg-yellow-100 text-yellow-800"
    else if priority == "low" then "bg-green-100 text-green-800"
    else Gray
  }

  /** Badge colour of a status name; 'closed' shares the gray of unknown names. */
  function StatusColor(status: string): (r: string)
    ensures ParseStatus(status).None? ==> r == Gray
    ensures r == Gray ==> ParseStatus(status).None? || status == "closed"
  {
    if status == "open" then "bg-blue-100 text-blue-800"
    else if status == "in-progress" then "bg-purple-100 text-purple-800"
    else if status == "resolved" then "bg-green-100 text-green-800"
    else if status == "closed" then Gray
    else if status == "pending" then "bg-yellow-100 text-yellow-800"
    else Gray
  }

  /** Badge colour of a member role. */
  function RoleColor(role: string): (r: string)
    ensures r == Gray <==> role != "admin" && role != "developer" && role != "tester"
  {
    if role == "admin" then "bg-red-100 text-red-800"
    else if role == "developer" then "bg-blue-100 text-blue-800"
    else if role == "tester" then "bg-green-100 text-green-800"
    else Gray
  }

  /** Different priorities get different colours, and so do different statuses. */
  lemma ColorsDistinguish(p: Priority, q: Priority, s: Status, t: Status)
    ensures p != q ==> PriorityColor(PriorityName(p)) != PriorityColor(PriorityName(q))
    ensures s != t ==> StatusColor(StatusName(s)) != StatusColor(StatusName(t))
  {
  }

  /** The success message of an assignment: the picked member's name, or `undefined` when
      the id is not among the loaded members. */
  function AssignedMessage(member: Option<Member>): (r: string)
    ensures |r| >= 30 && r[..29] == "Bug successfully assigned to " && r[|r| - 1] == '!'
    ensures member.Some? ==> r[29..|r| - 1] == member.value.user.name
  {
    "Bug successfully assigned to " + (match member
                                       case Some(m) => m.user.name
                                       case None => "undefined") + "!"
  }

  class BugDetailPage {
    const projectId: string
    const bugId: string
    var bug: Option<Bug>
    var loading: bool
    var newComment: string
    var isAddingComment: bool
    var isEditing: bool
    var editPriority: string
    var editStatus: string
    var isUpdating: bool
    var isDeleting: bool
    var showDeleteModal: bool
    var statusComment: string
    var showAssignModal: bool
    var isAssigning: bool
    var projectMembers: seq<Member>

    /** The initial state: loading, nothing staged, every dialog closed. */
    constructor(projectId: string, bugId: string)
      ensures this.projectId == projectId && this.bugId == bugId
      ensures bug.None? && loading && projectMembers == []
      ensures newComment == "" && statusComment == "" && editPriority == "" && editStatus == ""
      ensures !isAddingComment && !isEditing && !isUpdating && !isDeleting && !isAssigning
      ensures !showDeleteModal && !showAssignModal
    {
      this.projectId := projectId;
      this.bugId := bugId;
      bug := None;
      loading := true;
      newComment := "";
      isAddingComment := false;
      isEditing := false;
      editPriority := "";
      editStatus := "";
      isUpdating := false;
      isDeleting := false;
      showDeleteModal := false;
      statusComment := "";
      showAssignModal := false;
      isAssigning := false;
      projectMembers := [];
    }

    /** `fetchBug` followed by the effect that reacts to a newly set bug: on success the bug
        is stored, the staged edit values are reset to its priority and status and the
        trail is replaced; on failure the page goes back to the project. Loading ends
        either way. */
    method FetchBug(fetched: Outcome<Bug>) returns (effects: seq<Effect>)
      modifies this`bug, this`loading, this`editPriority, this`editStatus
      ensures !loading
      ensures fetched.Ok? ==> bug == Some(fetched.value)
                              && editPriority == PriorityName(fetched.value.priority)
                              && editStatus == StatusName(fetched.value.status)
                              && effects == [GetBug, SetBreadcrumbs(BugCrumbs(projectId, fetched.value))]
      ensures fetched.Err? ==> bug == old(bug) && editPriority == old(editPriority)
                               && editStatus == old(editStatus)
                               && effects == [GetBug, Navigate(ProjectPath(projectId))]
    {
      loading := true;
      effects := [GetBug];
      match fetched {
        case Ok(b) =>
          bug := Some(b);
          effects := effects + [SetBreadcrumbs(BugCrumbs(projectId, b))];
          editPriority := PriorityName(b.priority);
          editStatus := StatusName(b.status);
        case Err(_) =>
          effects := effects + [Navigate(ProjectPath(projectId))];
      }
      loading := false;
    }

    /** `fetchProjectMembers`: a missing member list counts as empty; a failure keeps the
        list already loaded. */
    method FetchProjectMembers(fetched: Outcome<Option<seq<Member>>>) returns (effects: seq<Effect>)
      modifies this`projectMembers
      ensures effects == [GetProject]
      ensures fetched.Ok? && fetched.value.Some? ==> projectMembers == fetched.value.value
      ensures fetched.Ok? && fetched.value.None? ==> projectMembers == []
      ensures fetched.Err? ==> projectMembers == old(projectMembers)
    {
      effects := [GetProject];
      if fetched.Ok? {
        projectMembers := fetched.value.GetOr([]);
      }
    }

    /** `handleAddComment`. A blank comment does nothing at all. Otherwise the comment is sent
        as typed; on success the box is cleared, the bug reloaded and a success notice shown;
        on failure the text stays and the server's message (or the fallback) is shown. */
    method HandleAddComment(posted: Outcome<Unit>, refetched: Outcome<Bug>)
      returns (effects: seq<Effect>)
      modifies this`bug, this`loading, this`editPriority, this`editStatus,
               this`newComment, this`isAddingComment
      ensures Blank(old(newComment)) ==>
                effects == [] && bug == old(bug) && loading == old(loading)
                && editPriority == old(editPriority) && editStatus == old(editStatus)
                && newComment == old(newComment) && isAddingComment == old(isAddingComment)
      ensures !Blank(old(newComment)) ==>
                !isAddingComment && |effects| >= 2 && effects[0] == AddComment(old(newComment))
      ensures !Blank(old(newComment)) && posted.Ok? ==>
                newComment == "" && !loading && |effects| == 4
                && effects[3] == ShowSuccess(BugCommented)
      ensures !Blank(old(newComment)) && posted.Ok? && refetched.Ok? ==>
                bug == Some(refetched.value)
                && editPriority == PriorityName(refetched.value.priority)
                && editStatus == StatusName(refetched.value.status)
                && effects[1..3] == [GetBug, SetBreadcrumbs(BugCrumbs(projectId, refetched.value))]
      ensures !Blank(old(newComment)) && posted.Ok? && refetched.Err? ==>
                bug == old(bug) && editPriority == old(editPriority) && editStatus == old(editStatus)
                && effects[1..3] == [GetBug, Navigate(ProjectPath(projectId))]
      ensures !Blank(old(newComment)) && posted.Err? ==>
                newComment == old(newComment) && bug == old(bug) && loading == old(loading)
                && editPriority == old(editPriority) && editStatus == old(editStatus)
                && effects == [AddComment(old(newComment)), ShowError(ErrorText(posted, BugCommentFailed))]
    {
      var text := newComment;
      if Blank(text) {
        return [];
      }
      isAddingComment := true;
      if posted.Ok? {
        newComment := "";
        var fetchEffects := FetchBug(refetched);
        effects := [AddComment(text)] + fetchEffects + [ShowSuccess(BugCommented)];
      } else {
        effects := [AddComment(text), ShowError(ErrorText(posted, BugCommentFailed))];
      }
      isAddingComment := false;
    }

    /** Flips edit mode; the staged values are not touched. */
    method ToggleEdit()
      modifies this`isEditing
      ensures isEditing == !old(isEditing)
    {
      isEditing := !isEditing;
    }

    /** `handleUpdateBug`. The payload is the staged values plus, when the status changed, a
        non-blank status comment. Success leaves edit mode, clears the status comment and
        reloads the bug; failure alerts and keeps edit mode and everything staged. */
    method HandleUpdateBug(updated: Outcome<Unit>, refetched: Outcome<Bug>)
      returns (effects: seq<Effect>)
      modifies this`bug, this`loading, this`editPriority, this`editStatus,
               this`isEditing, this`statusComment, this`isUpdating
      ensures !isUpdating
      ensures |effects| >= 1
      ensures effects[0] == UpdateBug(UpdatePayload(old(editPriority), old(editStatus), old(bug),
                                                    old(statusComment)))
      ensures updated.Ok? ==> !isEditing && statusComment == "" && !loading && |effects| == 3
      ensures updated.Ok? && refetched.Ok? ==>
                bug == Some(refetched.value)
                && editPriority == PriorityName(refetched.value.priority)
                && editStatus == StatusName(refetched.value.status)
                && effects[1..3] == [GetBug, SetBreadcrumbs(BugCrumbs(projectId, refetched.value))]
      ensures updated.Ok? && refetched.Err? ==>
                bug == old(bug) && editPriority == old(editPriority) && editStatus == old(editStatus)
                && effects[1..3] == [GetBug, Navigate(ProjectPath(projectId))]
      ensures updated.Err? ==> isEditing == old(isEditing) && statusComment == old(statusComment)
                               && editPriority == old(editPriority) && editStatus == old(editStatus)
                               && bug == old(bug) && loading == old(loading)
                               && effects == [effects[0], Alert("Failed to update bug")]
    {
      isUpdating := true;
      effects := [UpdateBug(UpdatePayload(editPriority, editStatus, bug, statusComment))];
      if updated.Ok? {
        isEditing := false;
        statusComment := "";
        var fetchEffects := FetchBug(refetched);
        effects := effects + fetchEffects;
      } else {
        effects := effects + [Alert("Failed to update bug")];
      }
      isUpdating := false;
    }

    /** `handleDeleteBug`: success returns to the project, failure alerts; either way the
        deletion is over and its dialog is closed. */
    method HandleDeleteBug(deleted: Outcome<Unit>) returns (effects: seq<Effect>)
      modifies this`isDeleting, this`showDeleteModal
      ensures !isDeleting && !showDeleteModal
      ensures deleted.Ok? ==> effects == [DeleteBug, Navigate(ProjectPath(projectId))]
      ensures deleted.Err? ==> effects == [DeleteBug, Alert("Failed to delete bug")]
    {
      isDeleting := true;
      effects := [DeleteBug];
      if deleted.Ok? {
        effects := effects + [Navigate(ProjectPath(projectId))];
      } else {
        effects := effects + [Alert("Failed to delete bug")];
      }
      isDeleting := false;
      showDeleteModal := false;
    }

    /** `handleAssignBug(assignedTo)`. The success notice names the first loaded member with
        that user id. Once the assignment succeeded the dialog closes whatever the reload
        does (a failed reload navigates to the project); a failed assignment keeps the dialog
        open and shows the server's message or the fallback. */
    method HandleAssignBug(assignedTo: string, assignment: Outcome<Unit>, refetched: Outcome<Bug>)
      returns (effects: seq<Effect>)
      modifies this`bug, this`loading, this`editPriority, this`editStatus,
               this`isAssigning, this`showAssignModal
      ensures !isAssigning
      ensures |effects| >= 2 && effects[0] == AssignBug(assignedTo)
      ensures assignment.Ok? ==>
                !showAssignModal && !loading && |effects| == 4
                && effects[3] == ShowSuccess(AssignedMessage(FindMember(projectMembers, Some(assignedTo))))
      ensures assignment.Ok? && refetched.Ok? ==>
                bug == Some(refetched.value)
                && editPriority == PriorityName(refetched.value.priority)
                && editStatus == StatusName(refetched.value.status)
                && effects[1..3] == [GetBug, SetBreadcrumbs(BugCrumbs(projectId, refetched.value))]
      ensures assignment.Ok? && refetched.Err? ==>
                bug == old(bug) && editPriority == old(editPriority) && editStatus == old(editStatus)
                && effects[1..3] == [GetBug, Navigate(ProjectPath(projectId))]
      ensures assignment.Err? ==>
                showAssignModal == old(showAssignModal) && bug == old(bug) && loading == old(loading)
                && editPriority == old(editPriority) && editStatus == old(editStatus)
                && effects == [AssignBug(assignedTo), ShowError(ErrorText(assignment, BugAssignFailed))]
    {
      isAssigning := true;
      var member := FindMember(projectMembers, Some(assignedTo));
      effects := [AssignBug(assignedTo)];
      if assignment.Ok? {
        var fetchEffects := FetchBug(refetched);
        effects := effects + fetchEffects + [ShowSuccess(AssignedMessage(member))];
        showAssignModal := false;
      } else {
        effects := effects + [ShowError(ErrorText(assignment, BugAssignFailed))];
      }
      isAssigning := false;
    }
  }
}
