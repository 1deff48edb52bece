/** The navigation bar: the signed-in user's role selects one of two fixed,
    ordered link lists. Rendering, the router's active-link styling and the
    logout button are not part of this model. */
module Sidebar {
  import opened Common

  datatype Icon = BookOpen | Clock | FileText | Users

  /** One navigation entry: its route, its icon and its label. */
  datatype Link = Link(to: string, icon: Icon, text: string)

  const TeacherLinks: seq<Link> := [
    Link("/dashboard", BookOpen, "Dashboard"),
    Link("/syllabus", BookOpen, "Syllabus"),
    Link("/classes", Clock, "Classes"),
    Link("/documents", FileText, "Documents")
  ]

  const AdminLinks: seq<Link> := [
    Link("/dashboard", BookOpen, "Dashboard"),
    Link("/teachers", Users, "Manage Teachers")
  ]

  /** `user?.role === 'admin'`: false without a user, false for every other
      role, true for a user whose role is exactly "admin". */
  predicate IsAdmin(user: Option<User>)
    ensures user.None? ==> !IsAdmin(user)
    ensures user.Some? && user.value.role != "admin" ==> !IsAdmin(user)
    ensures user.Some? && user.value.role == "admin" ==> IsAdmin(user)
  {
    user.Some? && user.value.role == "admin"
  }

  /** The routes of a link list, in order (the React keys of the rendered list). */
  function Paths(links: seq<Link>): (paths: seq<string>)
    ensures |paths| == |links|
    ensures forall i :: 0 <= i < |links| ==> paths[i] == links[i].to
  {
    if links == [] then [] else [links[0].to] + Paths(links[1..])
  }

  /** `user?.role === 'admin' ? adminLinks : teacherLinks` */
  function Links(user: Option<User>): (links: seq<Link>)
    ensures links == AdminLinks <==> IsAdmin(user)
    ensures links == TeacherLinks <==> !IsAdmin(user)
  {
    if IsAdmin(user) then AdminLinks else TeacherLinks
  }

  /** The two link lists, route by route. */
  lemma LinkSetRoutes()
    ensures Paths(TeacherLinks) == ["/dashboard", "/syllabus", "/classes", "/documents"]
    ensures Paths(AdminLinks) == ["/dashboard", "/teachers"]
  {
  }

  /** No user, or a user whose role is anything but "admin", gets the teacher
      links: the selection never falls back to the admin set. */
  lemma FallbackIsTeacher(user: Option<User>)
    requires user.None? || user.value.role != "admin"
    ensures Paths(Links(user)) == ["/dashboard", "/syllabus", "/classes", "/documents"]
  {
  }

  /** Whatever the user, the first entry is the dashboard, the management
      page for teachers is offered exactly to an admin, and no route repeats. */
  lemma LinksShape(user: Option<User>)
    ensures |Links(user)| > 0 && Links(user)[0].to == "/dashboard"
    ensures "/teachers" in Paths(Links(user)) <==> IsAdmin(user)
    ensures Distinct(Paths(Links(user)))
  {
  }
}
