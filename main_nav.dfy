/**
 * The side navigation of the main layout: one section whose entries depend on
 * the role of the user stored in the session.
 */
module MainNav {
  import opened Common
  import opened Users
  import opened AuthProvider

  /** The navigation entries. */
  datatype NavEntry = ProjectsEntry | SkillsEntry | SkillMatrixEntry | UsersEntry

  datatype Section = Section(items: seq<NavEntry>)

  const PublicRoutes: seq<NavEntry> := [ProjectsEntry]
  const PmRoutes: seq<NavEntry> := [SkillsEntry, SkillMatrixEntry]
  const AdminRoutes: seq<NavEntry> := [UsersEntry]

  /**
   * The sections for the role cell, which holds the raw role string of the
   * stored user or nothing.
   */
  function Sections(role: Option<string>): (r: seq<Section>)
    ensures |r| == 1
    ensures |r[0].items| >= 1 && r[0].items[0] == ProjectsEntry
    ensures UsersEntry in r[0].items <==> role == Some("Admin")
    ensures SkillsEntry in r[0].items <==> role == Some("Admin") || role == Some("Project Manager")
    ensures SkillMatrixEntry in r[0].items <==> role == Some("Admin") || role == Some("Project Manager")
    ensures forall i, j :: 0 <= i < j < |r[0].items| ==> r[0].items[i] != r[0].items[j]
  {
    [Section(
      if role == Some("Admin") then PublicRoutes + PmRoutes + AdminRoutes
      else if role == Some("Project Manager") then PublicRoutes + PmRoutes
      else PublicRoutes)]
  }

  /** The entries each role of the application sees, in order. */
  lemma SectionsByRole(role: Role)
    ensures role == Admin ==>
      Sections(Some(RoleName(role)))[0].items == [ProjectsEntry, SkillsEntry, SkillMatrixEntry, UsersEntry]
    ensures role == ProjectManager ==>
      Sections(Some(RoleName(role)))[0].items == [ProjectsEntry, SkillsEntry, SkillMatrixEntry]
    ensures role == Manager || role == Developper ==>
      Sections(Some(RoleName(role)))[0].items == [ProjectsEntry]
  {
  }

  /** Each role's entries extend, as a prefix, those of the role below it. */
  lemma SectionsArePrefixes()
    ensures Sections(None)[0].items <= Sections(Some("Project Manager"))[0].items
    ensures Sections(Some("Project Manager"))[0].items <= Sections(Some("Admin"))[0].items
  {
  }

  /**
   * The role cell after the effect runs: the role of the user stored under
   * 'me' when that text is non-empty and parses to a user. A parse exception
   * is taken to leave the cell unset.
   */
  function RoleFromSession(session: map<string, string>, parse: string -> Parsed): (role: Option<string>)
    ensures role.Some? <==>
      Truthy(Lookup(session, StorageUserKey))
      && parse(session[StorageUserKey]).Json? && parse(session[StorageUserKey]).user.Some?
    ensures role.Some? ==> role.value == RoleName(parse(session[StorageUserKey]).user.value.role)
  {
    var userData := Lookup(session, StorageUserKey);
    if Truthy(userData) then
      match parse(userData.value)
      case Json(Some(user)) => Some(RoleName(user.role))
      case _ => None
    else None
  }

  /**
   * After a sign-in stores the user under 'me', the navigation is the one for
   * that user's role, whether or not the session is still authenticated.
   */
  lemma SignedInUserNavigation(session: map<string, string>, user: User,
                               stringify: User -> string, parse: string -> Parsed)
    requires stringify(user) != ""
    requires parse(stringify(user)) == Json(Some(user))
    ensures Sections(RoleFromSession(session[StorageUserKey := stringify(user)], parse))
         == Sections(Some(RoleName(user.role)))
    ensures Sections(RoleFromSession(session[StorageUserKey := stringify(user)] - {TokenStorageKey}, parse))
         == Sections(Some(RoleName(user.role)))
  {
  }
}
