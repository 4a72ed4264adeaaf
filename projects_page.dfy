/** The project list of src/app/projects/page.tsx: it loads the list on
    mount, keeps the projects one of whose technology tags contains the
    search filter (ignoring case), and shows, in this order of precedence,
    a spinner, the error, an empty-result message or the grid of cards. */
module ProjectsPage {
  import opened Js
  import opened Entities
  import opened Http
  import opened Client

  const NoResultsMessage := "No se encontraron proyectos."

  /** `p.technologies ?? []` */
  function Tags(p: Project): seq<string> {
    GetOr(p.technologies, [])
  }

  /** `tech.toLowerCase().includes(filter.toLowerCase())` */
  predicate TagMatches(tech: string, filter: string) {
    Includes(ToLower(tech), ToLower(filter))
  }

  /** The list's test for one project: some tag matches. */
  predicate Shown(p: Project, filter: string) {
    exists i :: 0 <= i < |Tags(p)| && TagMatches(Tags(p)[i], filter)
  }

  /** `filtered` */
  function Filtered(projects: seq<Project>, filter: string): seq<Project> {
    Filter(projects, (p: Project) => Shown(p, filter))
  }

  /** `filtered` holds exactly the shown projects, each as often as in the
      store, and none of the others. */
  lemma FilteredExactly(projects: seq<Project>, filter: string, p: Project)
    ensures multiset(Filtered(projects, filter))[p] == if Shown(p, filter) then multiset(projects)[p] else 0
    ensures p in Filtered(projects, filter) <==> p in projects && Shown(p, filter)
  {
    FilterCount(projects, (q: Project) => Shown(q, filter), p);
    FilterMembership(projects, (q: Project) => Shown(q, filter), p);
  }

  /** `filtered` keeps the store's order. */
  lemma FilteredKeepsOrder(projects: seq<Project>, filter: string)
    ensures IsSubsequence(Filtered(projects, filter), projects)
  {
    FilterIsSubsequence(projects, (q: Project) => Shown(q, filter));
  }

  /** A project without tags, whether the field is missing or the list is
      empty, is never shown, not even for the empty filter. */
  lemma UntaggedNeverShown(p: Project, filter: string)
    requires p.technologies.None? || p.technologies == Some([])
    ensures !Shown(p, filter)
  {
  }

  /** With the empty filter the list shows exactly the projects that have at
      least one tag. */
  lemma EmptyFilterShowsTagged(p: Project)
    ensures Shown(p, "") <==> |Tags(p)| > 0
  {
    if |Tags(p)| > 0 {
      IncludesEmpty(ToLower(Tags(p)[0]));
      assert ToLower("") == "";
      assert TagMatches(Tags(p)[0], "");
    }
  }

  /** The filter ignores case: lowering it first changes nothing. */
  lemma FilterIgnoresCase(p: Project, filter: string)
    ensures Shown(p, ToLower(filter)) <==> Shown(p, filter)
  {
    ToLowerIdempotent(filter);
  }

  /** A project that carries only the given tags. */
  function TaggedProject(tags: seq<string>): Project {
    Project("", "", None, None, Some(tags), None, "", "")
  }

  /** Which of the tags `go`, `rust` and `ts` a filter that lowers to
      "go" matches. */
  lemma GoTagMatches(filter: string)
    requires ToLower(filter) == "go"
    ensures TagMatches("go", filter)
    ensures !TagMatches("rust", filter) && !TagMatches("ts", filter)
  {
    assert ToLower("go") == "go" by {
      assert LowerChar('g') == 'g' && LowerChar('o') == 'o';
    }
    assert ToLower("rust") == "rust" by {
      assert LowerChar('r') == 'r' && LowerChar('u') == 'u' && LowerChar('s') == 's' && LowerChar('t') == 't';
    }
    assert ToLower("ts") == "ts" by {
      assert LowerChar('t') == 't' && LowerChar('s') == 's';
    }
    PrefixIncluded("go", "go");
    assert forall i :: !PairAt("rust", 'g', 'o', i);
    NoPairNotIncluded("rust", "go");
    assert forall i :: !PairAt("ts", 'g', 'o', i);
    NoPairNotIncluded("ts", "go");
  }

  /** Of `go`, `rust, go` and `ts`, a filter that lowers to "go" keeps the
      first two, in order. */
  lemma GoFilterKeepsGo(filter: string)
    requires ToLower(filter) == "go"
    ensures Filtered([TaggedProject(["go"]), TaggedProject(["rust", "go"]), TaggedProject(["ts"])], filter) ==
      [TaggedProject(["go"]), TaggedProject(["rust", "go"])]
  {
    GoTagMatches(filter);
    var a, b, c := TaggedProject(["go"]), TaggedProject(["rust", "go"]), TaggedProject(["ts"]);
    assert Shown(a, filter) by {
      assert Tags(a)[0] == "go";
    }
    assert Shown(b, filter) by {
      assert Tags(b)[1] == "go";
    }
    assert !Shown(c, filter) by {
      assert Tags(c) == ["ts"];
    }
    var keep := (p: Project) => Shown(p, filter);
    assert [a, b, c][1..] == [b, c] && [b, c][1..] == [c] && [c][1..] == [];
    assert Filter([c], keep) == [];
    assert Filter([b, c], keep) == [b];
    assert Filter([a, b, c], keep) == [a, b];
  }

  /** The filters "go" and "GO" both keep `go` and `rust, go` out of `go`,
      `rust, go` and `ts`. */
  lemma GoScenario()
    ensures Filtered([TaggedProject(["go"]), TaggedProject(["rust", "go"]), TaggedProject(["ts"])], "go") ==
      [TaggedProject(["go"]), TaggedProject(["rust", "go"])]
    ensures Filtered([TaggedProject(["go"]), TaggedProject(["rust", "go"]), TaggedProject(["ts"])], "GO") ==
      [TaggedProject(["go"]), TaggedProject(["rust", "go"])]
  {
    assert ToLower("go") == "go" by {
      assert LowerChar('g') == 'g' && LowerChar('o') == 'o';
    }
    assert ToLower("GO") == "go" by {
      assert LowerChar('G') == 'g' && LowerChar('O') == 'o';
    }
    GoFilterKeepsGo("go");
    GoFilterKeepsGo("GO");
  }

  /** What the page renders. */
  datatype View = Spinner | ErrorAlert(message: string) | NoResults(notice: string) | Grid(cards: seq<Project>)

  /** The page's chain of early returns: loading wins over an error, an
      error over an empty result, and the grid shows the filtered list. */
  function Render(projects: seq<Project>, filter: string, loading: bool, error: Option<string>): (v: View)
    ensures v.Spinner? <==> loading
    ensures v.ErrorAlert? <==> !loading && Truthy(error)
    ensures v.ErrorAlert? ==> v.message == error.value
    ensures v.NoResults? <==> !loading && !Truthy(error) && Filtered(projects, filter) == []
    ensures v.NoResults? ==> v.notice == NoResultsMessage
    ensures v.Grid? ==> v.cards == Filtered(projects, filter) && v.cards != []
  {
    var filtered := Filtered(projects, filter);
    if loading then Spinner
    else if Truthy(error) then ErrorAlert(error.value)
    else if |filtered| == 0 then NoResults(NoResultsMessage)
    else Grid(filtered)
  }

  /** Every card in the grid is a project of the store that the filter
      shows, and every shown project of the store has its card. */
  lemma GridShowsExactlyMatches(projects: seq<Project>, filter: string, loading: bool, error: Option<string>, p: Project)
    requires Render(projects, filter, loading, error).Grid?
    ensures p in Render(projects, filter, loading, error).cards <==> p in projects && Shown(p, filter)
  {
    FilteredExactly(projects, filter, p);
  }

  /** The mount effect: one GET of the list. Success shows the response
      exactly; a failure shows the error over the list as it was, except that
      a 401 has the adapter reset the session (list and filter included) and
      ask for the entry route first. */
  method Mount(api: Api, res: Response<seq<Project>>)
    modifies api.projects, api.auth, api.router, api.network
    ensures !api.projects.loading
    ensures res.Ok? ==>
      api.projects.projects == res.data && api.projects.error == None &&
      api.projects.filter == old(api.projects.filter)
    ensures res.Fail? ==> api.projects.error == Some(FetchProjectsError)
    ensures res.Fail? && !Expires(res, ProjectsPath) ==>
      api.projects.projects == old(api.projects.projects) && api.projects.filter == old(api.projects.filter)
    ensures Expires(res, ProjectsPath) ==>
      api.projects.projects == [] && api.projects.filter == "" && api.auth.Cleared() &&
      api.router.log == old(api.router.log) + [Replace(EntryRoute)]
    ensures !Expires(res, ProjectsPath) ==> unchanged(api.auth, api.router)
    ensures api.network.sent == old(api.network.sent) + [Outgoing(Get, ProjectsPath, NoBody, api.cookies.token)]
  {
    api.projects.FetchAll(api, res);
  }
}
