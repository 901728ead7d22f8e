/** The project page: it loads one project, works out from the member list whether the
    signed-in user administers it, shows the admin-only controls accordingly, and lets an
    admin edit or delete the project. */
module ProjectDetail {
  import opened Common
  import opened BugTypes
  import opened ProjectTypes
  import AuthContext
  import BreadcrumbContext

  datatype Effect =
    | GetProject
    | UpdateProject(name: string, description: string)
    | DeleteProject
    | Navigate(path: string)
    | Alert(message: string)
    | SetBreadcrumbs(items: seq<BreadcrumbContext.BreadcrumbItem>)

  /** `currentUserMember`: the first membership of the signed-in user, if a project is
      loaded and a user is signed in. */
  function CurrentUserMember(project: Option<Project>, user: Option<AuthContext.User>): (r: Option<Member>)
    ensures r.Some? ==> project.Some? && user.Some? && r.value in project.value.members
                        && r.value.user.id == user.value.id
    ensures project.Some? && user.Some? && r.None? ==>
              forall m :: m in project.value.members ==> m.user.id != user.value.id
  {
    match project
    case None => None
    case Some(p) => FindMember(p.members, if user.Some? then Some(user.value.id) else None)
  }

  /** `currentUserMember?.role === 'admin'`. */
  predicate IsAdmin(project: Option<Project>, user: Option<AuthContext.User>)
    ensures IsAdmin(project, user) ==>
              project.Some? && user.Some?
              && exists m :: m in project.value.members && m.user.id == user.value.id && m.role == "admin"
  {
    var m := CurrentUserMember(project, user);
    m.Some? && m.value.role == "admin"
  }

  /** The signed-in user administers the project exactly when the FIRST of their
      memberships has the role 'admin': a later admin membership does not count. */
  lemma IsAdminIffFirstMembershipIsAdmin(p: Project, u: AuthContext.User)
    ensures IsAdmin(Some(p), Some(u)) <==>
              exists i :: 0 <= i < |p.members| && p.members[i].user.id == u.id
                          && p.members[i].role == "admin"
                          && forall j :: 0 <= j < i ==> p.members[j].user.id != u.id
  {
    var r := FindMember(p.members, Some(u.id));
    if r.Some? {
      var i :| 0 <= i < |p.members| && p.members[i] == r.value && Some(r.value.user.id) == Some(u.id)
               && forall j :: 0 <= j < i ==> Some(p.members[j].user.id) != Some(u.id);
      forall k | 0 <= k < |p.members| && p.members[k].user.id == u.id
                 && forall j :: 0 <= j < k ==> p.members[j].user.id != u.id
        ensures k == i
      {
      }
    }
  }

  /** Without a loaded project, without a signed-in user, or without a membership of that
      user, nobody is an admin. */
  lemma NoMembershipNoAdmin(project: Option<Project>, user: Option<AuthContext.User>)
    ensures project.None? ==> !IsAdmin(project, user)
    ensures user.None? ==> !IsAdmin(project, user)
    ensures project.Some? && user.Some?
              && (forall i :: 0 <= i < |project.value.members| ==>
                    project.value.members[i].user.id != user.value.id) ==>
              !IsAdmin(project, user)
  {
    if project.Some? && user.None? {
      assert forall i :: 0 <= i < |project.value.members| ==>
               Some(project.value.members[i].user.id) != None;
    }
  }

  /** Edit Project, Delete Project and Add Member are admin-only controls. */
  predicate ShowsAdminControls(project: Option<Project>, user: Option<AuthContext.User>)
    ensures ShowsAdminControls(project, user) ==> project.Some? && user.Some?
  {
    IsAdmin(project, user)
  }

  /** `isAdmin && member.userId._id !== user?._id`: an admin may remove anybody but
      themself. */
  predicate ShowsRemove(project: Option<Project>, user: Option<AuthContext.User>, m: Member)
    ensures ShowsRemove(project, user, m) ==> user.Some? && m.user.id != user.value.id
  {
    IsAdmin(project, user) && (user.None? || m.user.id != user.value.id)
  }

  /** The Remove button never appears on the signed-in user's own row, and never for a
      user who does not see the admin controls. */
  lemma RemoveNeverOnOwnRow(project: Option<Project>, u: AuthContext.User, m: Member)
    ensures m.user.id == u.id ==> !ShowsRemove(project, Some(u), m)
    ensures ShowsRemove(project, Some(u), m) ==> ShowsAdminControls(project, Some(u))
    ensures ShowsAdminControls(project, Some(u)) && m.user.id != u.id ==> ShowsRemove(project, Some(u), m)
  {
  }

  /** The trail of the project page: Dashboard and Projects as links, the project name as
      plain text. */
  function ProjectCrumbs(p: Project): (r: seq<BreadcrumbContext.BreadcrumbItem>)
    ensures |r| == 3 && r[2].caption == p.name && r[2].onClick.None? && r[2].href.None?
    ensures r[0].onClick.Some? && r[1].onClick.Some?
  {
    [ BreadcrumbContext.BreadcrumbItem("Dashboard", None, Some("🏠"),
                                       Some(BreadcrumbContext.Navigate("/dashboard"))),
      BreadcrumbContext.BreadcrumbItem("Projects", None, Some("📁"),
                                       Some(BreadcrumbContext.Navigate("/dashboard"))),
      BreadcrumbContext.BreadcrumbItem(p.name, None, Some("📋"), None) ]
  }

  class ProjectDetailPage {
    const projectId: string
    /** The signed-in user, from the session. */
    const user: Option<AuthContext.User>
    var project: Option<Project>
    var loading: bool
    var isEditModalOpen: bool
    var isDeleteModalOpen: bool
    var isEditing: bool

    constructor(projectId: string, user: Option<AuthContext.User>)
      ensures this.projectId == projectId && this.user == user
      ensures project.None? && loading && !isEditModalOpen && !isDeleteModalOpen && !isEditing
    {
      this.projectId := projectId;
      this.user := user;
      project := None;
      loading := true;
      isEditModalOpen := false;
      isDeleteModalOpen := false;
      isEditing := false;
    }

    /** `fetchProject` and the effect that follows a newly set project: success stores the
        project and installs its trail; failure goes back to the dashboard. */
    method FetchProject(fetched: Outcome<Project>) returns (effects: seq<Effect>)
      modifies this`project, this`loading
      ensures !loading
      ensures fetched.Ok? ==> project == Some(fetched.value)
                              && effects == [GetProject, SetBreadcrumbs(ProjectCrumbs(fetched.value))]
      ensures fetched.Err? ==> project == old(project) && effects == [GetProject, Navigate("/dashboard")]
    {
      loading := true;
      match fetched {
        case Ok(p) =>
          project := Some(p);
          effects := [GetProject, SetBreadcrumbs(ProjectCrumbs(p))];
        case Err(_) =>
          effects := [GetProject, Navigate("/dashboard")];
      }
      loading := false;
    }

    /** The Edit Project button, shown only to admins, opens the edit dialog. */
    method OpenEditModal()
      requires ShowsAdminControls(project, user)
      modifies this`isEditModalOpen
      ensures isEditModalOpen
    {
      isEditModalOpen := true;
    }

    /** The Delete Project button, shown only to admins, opens the confirmation. */
    method OpenDeleteModal()
      requires ShowsAdminControls(project, user)
      modifies this`isDeleteModalOpen
      ensures isDeleteModalOpen
    {
      isDeleteModalOpen := true;
    }

    /** `handleEditProject`: success replaces the project with the server's copy and closes
        the dialog; failure alerts with the server's message or the fallback and leaves the
        project and the dialog as they were. */
    method HandleEditProject(name: string, description: string, updated: Outcome<Project>)
      returns (effects: seq<Effect>)
      modifies this`project, this`isEditModalOpen, this`isEditing
      ensures !isEditing
      ensures updated.Ok? ==> project == Some(updated.value) && !isEditModalOpen
                              && effects == [UpdateProject(name, description)]
      ensures updated.Err? ==>
                project == old(project) && isEditModalOpen == old(isEditModalOpen)
                && effects == [UpdateProject(name, description),
                               Alert(ErrorText(updated, "Failed to update project"))]
    {
      isEditing := true;
      effects := [UpdateProject(name, description)];
      match updated {
        case Ok(p) =>
          project := Some(p);
          isEditModalOpen := false;
        case Err(_) =>
          effects := effects + [Alert(ErrorText(updated, "Failed to update project"))];
      }
      isEditing := false;
    }

    /** `handleDeleteProject`: success goes to the dashboard; failure alerts and leaves the
        confirmation open. */
    method HandleDeleteProject(deleted: Outcome<Unit>) returns (effects: seq<Effect>)
      ensures deleted.Ok? ==> effects == [DeleteProject, Navigate("/dashboard")]
      ensures deleted.Err? ==> effects == [DeleteProject, Alert(ErrorText(deleted, "Failed to delete project"))]
    {
      if deleted.Ok? {
        effects := [DeleteProject, Navigate("/dashboard")];
      } else {
        effects := [DeleteProject, Alert(ErrorText(deleted, "Failed to delete project"))];
      }
    }
  }
}
