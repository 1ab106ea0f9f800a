/** The console's route table: which page each browser path shows, and whether
    that page is wrapped in the admin guard (`ProtectedRoute requireAdmin`).
    Paths are compared as given; the router's own normalisation is not modelled. */
module Routes {

  datatype Page = Login | Register | Dashboard | Products | Inquiries | Approvals | Settings

  /** What a path resolves to: a redirect, a page anyone may open, or a page behind the admin guard. */
  datatype Route = Redirect(to: string) | PublicPage(page: Page) | GuardedPage(page: Page)

  const Home: string := "/admin"

  const PublicPaths: seq<string> := ["/admin/login", "/admin/register"]

  const GuardedPaths: seq<string> :=
    ["/admin", "/admin/products", "/admin/inquiries", "/admin/approvals", "/admin/settings"]

  /** The route table, first match wins; `*` (any other path) redirects home. */
  function Resolve(path: string): (r: Route)
    ensures path == "/" ==> r == Redirect(Home)
    ensures r.Redirect? ==> r.to == Home
    ensures r.PublicPage? <==> path in PublicPaths
    ensures r.GuardedPage? <==> path in GuardedPaths
    ensures r.PublicPage? ==> r.page == Login || r.page == Register
  {
    if path == "/" then Redirect(Home)
    else if path == "/admin/login" then PublicPage(Login)
    else if path == "/admin/register" then PublicPage(Register)
    else if path == "/admin" then GuardedPage(Dashboard)
    else if path == "/admin/products" then GuardedPage(Products)
    else if path == "/admin/inquiries" then GuardedPage(Inquiries)
    else if path == "/admin/approvals" then GuardedPage(Approvals)
    else if path == "/admin/settings" then GuardedPage(Settings)
    else Redirect(Home)
  }

  /** The path each page is mounted at; resolving it shows that page, guarded unless it is
      the sign-in or the registration page. */
  function PathOf(p: Page): (path: string)
    ensures Resolve(path) == if p == Login || p == Register then PublicPage(p) else GuardedPage(p)
  {
    match p
    case Login => "/admin/login"
    case Register => "/admin/register"
    case Dashboard => "/admin"
    case Products => "/admin/products"
    case Inquiries => "/admin/inquiries"
    case Approvals => "/admin/approvals"
    case Settings => "/admin/settings"
  }

  /** Every redirect ends, after one step, on the guarded dashboard: there are no redirect chains or loops. */
  lemma RedirectsEndOnDashboard(path: string)
    requires Resolve(path).Redirect?
    ensures Resolve(Resolve(path).to) == GuardedPage(Dashboard)
  {
  }
}
