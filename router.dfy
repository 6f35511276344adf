/** The route table of src/Routes/Router.jsx: for every location path, the
    layout, the page and the guard component wrapped around the page. Paths
    are given already split into their segments (`/article/42` is
    `["article", "42"]`, `/` is `[]`). */
module Router {
  import opened Common

  /** The wrapper around a page: `PrivateAuth` admits only guests,
      `PrivateRoute` only signed-in users. There is no role guard. */
  datatype Guard = GuestOnly | Authenticated | Unguarded

  datatype Layout = AppLayout | PrivateLayout | AdminLayout | NoLayout

  datatype Page =
    | Home | AllArticles | ArticleDetails | Login | Register
    | AddArticle | Subscription | MyProfile | PremiumArticles | MyArticles
    | AdminDashboard | ManageUsers | ManageArticles | AddPublisher
    | NotFound

  /** What a location renders; `page` is None when a layout route matches
      without a child, so its outlet is empty. */
  datatype View = View(layout: Layout, page: Option<Page>, guard: Guard)

  /** A pattern segment: a literal, or a `:param` matching any non-empty segment. */
  datatype Segment = Lit(text: string) | Param

  datatype Route = Route(pattern: seq<Segment>, view: View)

  const Routes: seq<Route> := [
    Route([], View(AppLayout, Some(Home), Unguarded)),
    Route([Lit("all-articles")], View(AppLayout, Some(AllArticles), Unguarded)),
    Route([Lit("article"), Param], View(AppLayout, Some(ArticleDetails), Unguarded)),
    Route([Lit("login")], View(AppLayout, Some(Login), GuestOnly)),
    Route([Lit("register")], View(AppLayout, Some(Register), GuestOnly)),
    Route([Lit("user")], View(PrivateLayout, None, Unguarded)),
    Route([Lit("user"), Lit("add-article")], View(PrivateLayout, Some(AddArticle), Authenticated)),
    Route([Lit("user"), Lit("subscription")], View(PrivateLayout, Some(Subscription), Authenticated)),
    Route([Lit("user"), Lit("my-profile")], View(PrivateLayout, Some(MyProfile), Authenticated)),
    Route([Lit("user"), Lit("premium-articles")], View(PrivateLayout, Some(PremiumArticles), Authenticated)),
    Route([Lit("user"), Lit("my-articles")], View(PrivateLayout, Some(MyArticles), Authenticated)),
    Route([Lit("admin")], View(AdminLayout, None, Unguarded)),
    Route([Lit("admin"), Lit("dashboard")], View(AdminLayout, Some(AdminDashboard), Authenticated)),
    // the path is spelled "mange-users" in the table, and the sidebar links to that spelling
    Route([Lit("admin"), Lit("mange-users")], View(AdminLayout, Some(ManageUsers), Authenticated)),
    Route([Lit("admin"), Lit("manage-articles")], View(AdminLayout, Some(ManageArticles), Authenticated)),
    Route([Lit("admin"), Lit("publisher")], View(AdminLayout, Some(AddPublisher), Authenticated))
  ]

  /** The `*` route. */
  const NotFoundView := View(NoLayout, Some(NotFound), Unguarded)

  predicate SegmentMatches(s: Segment, part: string)
  {
    match s
    case Lit(text) => part == text
    case Param => part != ""
  }

  predicate Matches(pattern: seq<Segment>, path: seq<string>)
  {
    |pattern| == |path| && forall k :: 0 <= k < |path| ==> SegmentMatches(pattern[k], path[k])
  }

  /** The first route of `routes` whose pattern matches `path`. */
  function FirstMatch(routes: seq<Route>, path: seq<string>): (r: Option<nat>)
    ensures r.Some? ==> r.value < |routes| && Matches(routes[r.value].pattern, path)
                        && forall j :: 0 <= j < r.value ==> !Matches(routes[j].pattern, path)
    ensures r.None? <==> forall j :: 0 <= j < |routes| ==> !Matches(routes[j].pattern, path)
  {
    if |routes| == 0 then None
    else if Matches(routes[0].pattern, path) then Some(0)
    else match FirstMatch(routes[1..], path)
      case None => None
      case Some(i) => Some(i + 1)
  }

  /** The view a location renders: its matching route, else NotFound. */
  function Resolve(path: seq<string>): View
  {
    match FirstMatch(Routes, path)
    case Some(i) => Routes[i].view
    case None => NotFoundView
  }

  /** A location renders the view of a route matching it, or NotFound when no
      route matches. */
  lemma ResolveMeaning(path: seq<string>)
    ensures (exists j :: 0 <= j < |Routes| && Matches(Routes[j].pattern, path) && Resolve(path) == Routes[j].view)
            || ((forall j :: 0 <= j < |Routes| ==> !Matches(Routes[j].pattern, path)) && Resolve(path) == NotFoundView)
  {
  }

  /** Two patterns no path matches both: different lengths, or two literals
      that differ at the same position. */
  predicate Disjoint(p: seq<Segment>, q: seq<Segment>)
  {
    |p| != |q| || exists k | 0 <= k < |p| :: ClashAt(p, q, k)
  }

  predicate ClashAt(p: seq<Segment>, q: seq<Segment>, k: int)
  {
    0 <= k < |p| && k < |q| && p[k].Lit? && q[k].Lit? && p[k].text != q[k].text
  }

  lemma DisjointPatternsShareNoPath(p: seq<Segment>, q: seq<Segment>, path: seq<string>)
    requires Disjoint(p, q)
    ensures !(Matches(p, path) && Matches(q, path))
  {
  }

  /** Patterns `i` and `j` of the table differ in length or in a literal at
      one of the first two positions (no pattern is longer). */
  predicate DisjointAt(i: nat, j: nat)
    requires i < |Routes| && j < |Routes|
  {
    var p, q := Routes[i].pattern, Routes[j].pattern;
    |p| != |q| || ClashAt(p, q, 0) || ClashAt(p, q, 1)
  }

  // The 120 pairs of the table, in three blocks so that each proof stays small.
  lemma DisjointWithinFirstHalf()
    ensures forall i, j :: 0 <= i < j < 8 ==> DisjointAt(i, j)
  {
  }

  lemma DisjointAcrossHalves()
    ensures forall i, j :: 0 <= i < 8 <= j < |Routes| ==> DisjointAt(i, j)
  {
  }

  lemma DisjointWithinSecondHalf()
    ensures forall i, j :: 8 <= i < j < |Routes| ==> DisjointAt(i, j)
  {
  }

  /** No two routes of the table share a path, so the order of the table
      does not decide what a location renders. */
  lemma RoutesPairwiseDisjoint()
    ensures forall i, j :: 0 <= i < j < |Routes| ==> Disjoint(Routes[i].pattern, Routes[j].pattern)
  {
    DisjointWithinFirstHalf();
    DisjointAcrossHalves();
    DisjointWithinSecondHalf();
    forall i, j | 0 <= i < j < |Routes|
      ensures Disjoint(Routes[i].pattern, Routes[j].pattern)
    {
      assert DisjointAt(i, j);
    }
  }

  /** A location renders the view of any route that matches it. */
  lemma ResolveIsTheOnlyMatch(path: seq<string>, j: nat)
    requires j < |Routes| && Matches(Routes[j].pattern, path)
    ensures Resolve(path) == Routes[j].view
  {
    RoutesPairwiseDisjoint();
    var i := FirstMatch(Routes, path).value;
    if i < j {
      DisjointPatternsShareNoPath(Routes[i].pattern, Routes[j].pattern, path);
    }
  }

  /** The index of the route a location renders; NotFound has none. */
  lemma RouteOf(path: seq<string>) returns (j: nat)
    requires Resolve(path) != NotFoundView
    ensures j < |Routes| && Matches(Routes[j].pattern, path) && Resolve(path) == Routes[j].view
  {
    j := FirstMatch(Routes, path).value;
  }

  /** The paths wrapped in `PrivateRoute`: the five user pages and the four
      admin pages. */
  const ProtectedPaths: seq<seq<string>> := [
    ["user", "add-article"], ["user", "subscription"], ["user", "my-profile"],
    ["user", "premium-articles"], ["user", "my-articles"],
    ["admin", "dashboard"], ["admin", "mange-users"], ["admin", "manage-articles"], ["admin", "publisher"]
  ]

  /** The route of the i-th protected path, and back. */
  function ProtectedRoute(i: nat): (j: nat)
    requires i < |ProtectedPaths|
    ensures j < |Routes| && Matches(Routes[j].pattern, ProtectedPaths[i])
    ensures Routes[j].view.guard == Authenticated
  {
    if i < 5 then i + 6 else i + 7
  }

  function ProtectedIndex(j: nat): (i: nat)
    requires j < |Routes| && Routes[j].view.guard == Authenticated
    ensures i < |ProtectedPaths|
    ensures forall path :: Matches(Routes[j].pattern, path) ==> path == ProtectedPaths[i]
  {
    if j < 12 then j - 6 else j - 7
  }

  /** What the routes of the table render: never NotFound, and the
      guest-only guard only at /login and /register. */
  lemma ViewsOfTheTable()
    ensures forall j :: 0 <= j < |Routes| ==> Routes[j].view.page != Some(NotFound)
    ensures forall j :: 0 <= j < |Routes| && Routes[j].view.guard == GuestOnly ==> j == 3 || j == 4
  {
    forall j | 0 <= j < |Routes|
      ensures Routes[j].view.page != Some(NotFound)
      ensures Routes[j].view.guard == GuestOnly ==> j == 3 || j == 4
    {
    }
  }

  /** Only /login and /register are guest-only. */
  lemma GuestOnlyExactlyLoginAndRegister(path: seq<string>)
    ensures Resolve(path).guard == GuestOnly <==> path == ["login"] || path == ["register"]
  {
    if path == ["login"] {
      ResolveIsTheOnlyMatch(path, 3);
    } else if path == ["register"] {
      ResolveIsTheOnlyMatch(path, 4);
    } else if Resolve(path).guard == GuestOnly {
      var j := RouteOf(path);
      ViewsOfTheTable();
    }
  }

  /** Exactly the nine user and admin pages need a signed-in user, and the
      admin pages need nothing more than the user pages: the guard kinds
      have no role check. */
  lemma AuthenticatedExactlyProtectedPaths(path: seq<string>)
    ensures Resolve(path).guard == Authenticated <==> path in ProtectedPaths
  {
    if path in ProtectedPaths {
      var i :| 0 <= i < |ProtectedPaths| && ProtectedPaths[i] == path;
      var j := ProtectedRoute(i);
      ResolveIsTheOnlyMatch(path, j);
    } else if Resolve(path).guard == Authenticated {
      var j := RouteOf(path);
      var i := ProtectedIndex(j);
    }
  }

  /** The home page, the article list and an article's details are open to
      everyone. */
  lemma OpenPages(id: string)
    requires id != ""
    ensures Resolve([]) == View(AppLayout, Some(Home), Unguarded)
    ensures Resolve(["all-articles"]) == View(AppLayout, Some(AllArticles), Unguarded)
    ensures Resolve(["article", id]) == View(AppLayout, Some(ArticleDetails), Unguarded)
  {
    ResolveIsTheOnlyMatch([], 0);
    ResolveIsTheOnlyMatch(["all-articles"], 1);
    ResolveIsTheOnlyMatch(["article", id], 2);
  }

  /** NotFound renders exactly for the locations no route matches. */
  lemma NotFoundExactlyWhenUnmatched(path: seq<string>)
    ensures Resolve(path).page == Some(NotFound)
            <==> forall j :: 0 <= j < |Routes| ==> !Matches(Routes[j].pattern, path)
  {
    if FirstMatch(Routes, path).Some? {
      ViewsOfTheTable();
    }
  }

  /** Links elsewhere in the application whose target is not in the table:
      MyProfile's edit button goes to /update-profile and the home page's
      subscription prompt to /subscription; both render NotFound. */
  lemma DanglingLinksRenderNotFound()
    ensures Resolve(["update-profile"]) == NotFoundView
    ensures Resolve(["subscription"]) == NotFoundView
  {
    SingleSegmentUnmatched("update-profile");
    SingleSegmentUnmatched("subscription");
  }

  /** The top-level paths of the table. */
  const TopLevelSegments := ["all-articles", "login", "register", "user", "admin"]

  /** Every one-segment pattern is one of those literals. */
  lemma OneSegmentPatterns()
    ensures forall j :: 0 <= j < |Routes| && |Routes[j].pattern| == 1 ==>
              Routes[j].pattern[0].Lit? && Routes[j].pattern[0].text in TopLevelSegments
  {
    forall j | 0 <= j < |Routes| && |Routes[j].pattern| == 1
      ensures Routes[j].pattern[0].Lit? && Routes[j].pattern[0].text in TopLevelSegments
    {
    }
  }

  lemma SingleSegmentUnmatched(segment: string)
    requires segment !in TopLevelSegments
    ensures Resolve([segment]) == NotFoundView
  {
    OneSegmentPatterns();
    forall j | 0 <= j < |Routes|
      ensures !Matches(Routes[j].pattern, [segment])
    {
      if |Routes[j].pattern| == 1 {
        assert !SegmentMatches(Routes[j].pattern[0], [segment][0]);
      }
    }
    assert FirstMatch(Routes, [segment]).None?;
  }

}
