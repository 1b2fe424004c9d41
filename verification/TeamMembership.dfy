/** Membership steps: enrolment, revocation and roles. */
module TeamMembership {
  import opened Wrappers
  import opened TeamModel

  type Members = map<(string, string), Member>

  datatype RoleError = NotFound | LastAdmin

  /** `SELECT … WHERE team_id = … AND role = 'admin'`. Revoked admins are among them. */
  function Admins(members: Members, teamId: string): set<string> {
    set k | k in members && k.0 == teamId && members[k].role == Admin :: k.1
  }

  /** The role a new row would get: the requested one, or admin for a team without any. */
  function EffectiveRole(members: Members, teamId: string, role: Option<Role>): Role {
    if role.Some? then role.value else if |Admins(members, teamId)| == 0 then Admin else Plain
  }

  /** An existing row is reactivated and keeps its role. */
  function Add(members: Members, teamId: string, userId: string, role: Option<Role>): Members {
    var k := (teamId, userId);
    members[k := if k in members then members[k].(status := Active)
                 else Member(EffectiveRole(members, teamId, role), Active)]
  }

  function Revoke(members: Members, teamId: string, userId: string): Members {
    var k := (teamId, userId);
    if k in members then members[k := members[k].(status := Revoked)] else members
  }

  function SetRole(members: Members, teamId: string, userId: string, role: Role): Result<Members, RoleError> {
    var k := (teamId, userId);
    if k !in members then Failure(NotFound)
    else if members[k].role == Admin && role != Admin && |Admins(members, teamId) - {userId}| == 0 then Failure(LastAdmin)
    else Success(members[k := members[k].(role := role)])
  }

  datatype Change =
    | AddMember(teamId: string, userId: string, role: Option<Role>)
    | RevokeMember(teamId: string, userId: string)
    | SetMemberRole(teamId: string, userId: string, newRole: Role)

  /** A refused role change leaves the table alone. */
  function Apply(members: Members, c: Change): Members {
    match c
    case AddMember(t, u, r) => Add(members, t, u, r)
    case RevokeMember(t, u) => Revoke(members, t, u)
    case SetMemberRole(t, u, r) => var m := SetRole(members, t, u, r); if m.Success? then m.value else members
  }

  function ApplyAll(members: Members, cs: seq<Change>): Members
    decreases |cs|
  {
    if cs == [] then members else Apply(ApplyAll(members, cs[..|cs| - 1]), cs[|cs| - 1])
  }

  lemma AdminIn(members: Members, teamId: string, u: string)
    ensures u in Admins(members, teamId) <==> (teamId, u) in members && members[(teamId, u)].role == Admin
  {
    if (teamId, u) in members && members[(teamId, u)].role == Admin {
      assert (teamId, u).1 in Admins(members, teamId);
    }
  }

  // ---- what a change does, by the columns ----------------------------------

  /** Somebody else's row in the team, revoked or not, has the admin role. */
  ghost predicate AnotherAdmin(members: Members, teamId: string, userId: string) {
    exists k :: k in members && k.0 == teamId && k.1 != userId && members[k].role == Admin
  }

  /** The subject's row after a change; nobody else's changes. */
  ghost predicate Does(before: Members, c: Change, after: Members) {
    var k := (c.teamId, c.userId);
    && (forall j <- before | j != k :: j in after && after[j] == before[j])
    && (forall j <- after | j != k :: j in before)
    && match c
       case AddMember(t, u, role) =>
         && k in after && after[k].status == Active
         && after[k].role == if k in before then before[k].role else if role.Some? then role.value
                             else if AnotherAdmin(before, t, u) then Plain else Admin
       case RevokeMember(_, _) =>
         if k in before then k in after && after[k].status == Revoked && after[k].role == before[k].role else k !in after
       case SetMemberRole(t, u, role) =>
         if k !in before then k !in after
         else && k in after && after[k].status == before[k].status
              && after[k].role == if before[k].role == Admin && role == Plain && !AnotherAdmin(before, t, u) then Admin else role
  }

  lemma OthersAreAdmins(members: Members, teamId: string, userId: string)
    ensures AnotherAdmin(members, teamId, userId) <==> Admins(members, teamId) - {userId} != {}
  {
    if AnotherAdmin(members, teamId, userId) {
      var k :| k in members && k.0 == teamId && k.1 != userId && members[k].role == Admin;
      AdminIn(members, teamId, k.1);
      assert k.1 in Admins(members, teamId) - {userId};
    }
    if Admins(members, teamId) - {userId} != {} {
      var u :| u in Admins(members, teamId) - {userId};
      AdminIn(members, teamId, u);
    }
  }

  lemma AnyAdmin(members: Members, teamId: string)
    ensures |Admins(members, teamId)| == 0 <==> !exists k :: k in members && k.0 == teamId && members[k].role == Admin
  {
    if k :| k in members && k.0 == teamId && members[k].role == Admin {
      AdminIn(members, teamId, k.1);
    }
    if |Admins(members, teamId)| != 0 {
      assert Admins(members, teamId) != {};
      var u :| u in Admins(members, teamId);
      AdminIn(members, teamId, u);
    }
  }

  lemma AddDoes(members: Members, teamId: string, userId: string, role: Option<Role>)
    ensures Does(members, AddMember(teamId, userId, role), Add(members, teamId, userId, role))
  {
    OthersAreAdmins(members, teamId, userId);
    AdminIn(members, teamId, userId);
    hide Admins, AnotherAdmin;
    assert |Admins(members, teamId)| == 0 <==> Admins(members, teamId) == {};
    assert (teamId, userId) !in members ==> Admins(members, teamId) - {userId} == Admins(members, teamId);
  }

  lemma RevokeDoes(members: Members, teamId: string, userId: string)
    ensures Does(members, RevokeMember(teamId, userId), Revoke(members, teamId, userId))
  {}

  lemma SetRoleDoes(members: Members, teamId: string, userId: string, role: Role)
    ensures Does(members, SetMemberRole(teamId, userId, role), Apply(members, SetMemberRole(teamId, userId, role)))
  {
    OthersAreAdmins(members, teamId, userId);
    hide Admins, AnotherAdmin;
    assert |Admins(members, teamId) - {userId}| == 0 <==> Admins(members, teamId) - {userId} == {};
  }

  /** Every change does what its columns say. */
  lemma ChangeDoes(members: Members, c: Change)
    ensures Does(members, c, Apply(members, c))
  {
    hide Does, Add, Revoke, SetRole;
    match c
    case AddMember(t, u, role) => AddDoes(members, t, u, role);
    case RevokeMember(t, u) => RevokeDoes(members, t, u);
    case SetMemberRole(t, u, role) => SetRoleDoes(members, t, u, role);
  }

  /** A revoked member stays revoked until enrolled again, whatever else changes. */
  lemma {:induction false} RevokedUntilEnrolled(members: Members, cs: seq<Change>, teamId: string, userId: string)
    requires (teamId, userId) in members && members[(teamId, userId)].status == Revoked
    requires forall c <- cs :: c.AddMember? ==> c.teamId != teamId || c.userId != userId
    ensures (teamId, userId) in ApplyAll(members, cs) && ApplyAll(members, cs)[(teamId, userId)].status == Revoked
    decreases |cs|
  {
    if cs == [] {
    } else {
      var before, c := cs[..|cs| - 1], cs[|cs| - 1];
      assert c in cs && forall x <- before :: x in cs;
      RevokedUntilEnrolled(members, before, teamId, userId);
      ChangeDoes(ApplyAll(members, before), c);
    }
  }

  /** An admin other than the subject of the change stays one. */
  lemma OtherAdminStays(members: Members, c: Change, teamId: string, u: string)
    requires u in Admins(members, teamId)
    requires c.SetMemberRole? ==> c.userId != u || c.teamId != teamId || c.newRole == Admin
    ensures u in Admins(Apply(members, c), teamId)
  {
    AdminIn(members, teamId, u);
    AdminIn(Apply(members, c), teamId, u);
  }

  lemma ChangeKeepsAnAdmin(members: Members, c: Change, teamId: string)
    requires Admins(members, teamId) != {}
    ensures Admins(Apply(members, c), teamId) != {}
  {
    var u :| u in Admins(members, teamId);
    if c.SetMemberRole? && c.teamId == teamId && c.newRole != Admin {
      if SetRole(members, c.teamId, c.userId, c.newRole).Success? {
        AdminIn(members, teamId, c.userId);
        if c.userId in Admins(members, teamId) {
          var v :| v in Admins(members, teamId) - {c.userId};
          OtherAdminStays(members, c, teamId, v);
        } else {
          OtherAdminStays(members, c, teamId, u);
        }
      }
    } else {
      OtherAdminStays(members, c, teamId, u);
    }
  }

  /** A team that has an admin keeps one through every serial run of membership changes. */
  lemma {:induction false} AlwaysAnAdmin(members: Members, cs: seq<Change>, teamId: string)
    requires Admins(members, teamId) != {}
    ensures Admins(ApplyAll(members, cs), teamId) != {}
    decreases |cs|
  {
    if cs == [] {
    } else {
      AlwaysAnAdmin(members, cs[..|cs| - 1], teamId);
      ChangeKeepsAnAdmin(ApplyAll(members, cs[..|cs| - 1]), cs[|cs| - 1], teamId);
    }
  }

  /** Rows are never removed: whoever was a member still has a row. */
  lemma {:induction false} RowsStay(members: Members, cs: seq<Change>)
    ensures members.Keys <= ApplyAll(members, cs).Keys
    decreases |cs|
  {
    if cs == [] {
    } else {
      RowsStay(members, cs[..|cs| - 1]);
    }
  }

  /** The role that enrolment reports is the stored one if and only if the user is new, asks for the role they
      have, or names none, is no admin and finds the team with one: the conflict clause reactivates a row
      without touching its role. */
  lemma ReportedRoleIff(members: Members, teamId: string, userId: string, role: Option<Role>)
    ensures var k := (teamId, userId);
            Add(members, teamId, userId, role)[k].role == EffectiveRole(members, teamId, role)
            <==> k !in members || role == Some(members[k].role)
                 || (role.None? && members[k].role == Plain && Admins(members, teamId) != {})
  {
    AdminIn(members, teamId, userId);
    assert |Admins(members, teamId)| == 0 <==> Admins(members, teamId) == {};
  }

  /** A member who was revoked and is enrolled again as admin is reported as one and stored as none. */
  lemma ReportsAnotherRole(teamId: string, userId: string)
    ensures var members: Members := map[(teamId, userId) := Member(Plain, Revoked)];
            && EffectiveRole(members, teamId, Some(Admin)) == Admin
            && Add(members, teamId, userId, Some(Admin)) == map[(teamId, userId) := Member(Plain, Active)]
  {}
}
