/** The breadcrumb trail the page layout shows for the current path. */
module Layout {

  datatype Crumb = Crumb(text: string, href: string, isActive: bool)

  const Dashboard := Crumb("Dashboard", "/", true)

  /** Exactly the last crumb is active, and the trail starts at the dashboard.
      The developers and projects pages add their own crumb; every other path
      shows the dashboard alone. */
  function GetBreadcrumbs(pathname: string): (crumbs: seq<Crumb>)
    ensures |crumbs| >= 1
    ensures crumbs[0].text == "Dashboard" && crumbs[0].href == "/"
    ensures forall i :: 0 <= i < |crumbs| ==> (crumbs[i].isActive <==> i == |crumbs| - 1)
    ensures pathname == "/developers" ==>
      crumbs == [Crumb("Dashboard", "/", false), Crumb("Desarrolladores", "/developers", true)]
    ensures pathname == "/projects" ==>
      crumbs == [Crumb("Dashboard", "/", false), Crumb("Proyectos", "/projects", true)]
    ensures pathname != "/developers" && pathname != "/projects" ==> crumbs == [Dashboard]
  {
    if pathname == "/" then [Dashboard]
    else if pathname == "/developers" then
      [Crumb("Dashboard", "/", false), Crumb("Desarrolladores", "/developers", true)]
    else if pathname == "/projects" then
      [Crumb("Dashboard", "/", false), Crumb("Proyectos", "/projects", true)]
    else [Dashboard]
  }

  /** An unknown path is shown like the root. */
  lemma UnknownPathIsRoot(pathname: string)
    requires pathname != "/developers" && pathname != "/projects"
    ensures GetBreadcrumbs(pathname) == GetBreadcrumbs("/")
  {
  }

  /** Each page's trail links back to the root through an inactive first crumb,
      except on a one-crumb trail, whose single crumb is the current page. */
  lemma FirstCrumbLinksUnlessAlone(pathname: string)
    ensures GetBreadcrumbs(pathname)[0].isActive <==> |GetBreadcrumbs(pathname)| == 1
  {
  }
}
