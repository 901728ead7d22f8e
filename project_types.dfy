/** A project as the project page receives it: its creator and its member list, each member
    being a user with a role name ('admin', 'developer', 'tester', ...). */
module ProjectTypes {
  import opened Common
  import opened BugTypes

  datatype Member = Member(id: string, user: UserRef, role: string)

  datatype Project = Project(
    id: string,
    name: string,
    description: string,
    createdBy: UserRef,
    members: seq<Member>,
    createdAt: int,
    updatedAt: int)

  /** `members.find(m => m.userId._id === userId)`: the first member whose user has this id.
      A missing id (`undefined`) equals no user id, so it finds nothing. */
  function FindMember(members: seq<Member>, userId: Option<string>): (r: Option<Member>)
    ensures r.Some? <==> exists i :: 0 <= i < |members| && Some(members[i].user.id) == userId
    ensures r.Some? ==> exists i :: 0 <= i < |members| && members[i] == r.value
                                    && Some(r.value.user.id) == userId
                                    && forall j :: 0 <= j < i ==> Some(members[j].user.id) != userId
  {
    if members == [] then None
    else if Some(members[0].user.id) == userId then Some(members[0])
    else
      var r := FindMember(members[1..], userId);
      assert forall i :: 0 < i < |members| ==> members[i] == members[1..][i - 1];
      r
  }
}
