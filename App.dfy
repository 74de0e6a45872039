/** The application shell: which page a route shows, and which module is
    imported on demand for a page. */
module App {
  import opened Wrappers

  const Scoring := "scoring"
  const Capture := "capture"
  const Parameters := "parameters"
  const NotFound := "view404"

  /** The names `page` can take. */
  const PageNames: set<string> := {Scoring, Capture, Parameters, NotFound}

  /** The pages a route may name directly. */
  predicate IsRoutable(name: string)
  {
    name == Scoring || name == Capture || name == Parameters
  }

  /** `_routePageChanged`: an absent or empty route shows the scoring page,
      a routable name shows itself, anything else the not-found page. */
  function RoutePage(page: Option<string>): (name: string)
    ensures name in PageNames
    ensures page.None? || page.value == "" ==> name == Scoring
    ensures page.Some? && IsRoutable(page.value) ==> name == page.value
    ensures page.Some? && page.value != "" && !IsRoutable(page.value) ==> name == NotFound
  {
    if page.None? || page.value == "" then Scoring
    else if page.value in [Scoring, Capture, Parameters] then page.value
    else NotFound
  }

  /** Routing a page name that routing produced gives that name back. */
  lemma RoutePageIsIdempotent(page: Option<string>)
    ensures RoutePage(Some(RoutePage(page))) == RoutePage(page)
  {
    var name := RoutePage(page);
    if name == NotFound {
      assert name !in [Scoring, Capture, Parameters] by {
        assert NotFound != Scoring && NotFound != Capture && NotFound != Parameters;
      }
    }
  }

  /** The page names are exactly the names routing leaves unchanged. */
  lemma RoutesToItselfIffPageName(name: string)
    ensures RoutePage(Some(name)) == name <==> name in PageNames
  {
    if name in PageNames && name !in [Scoring, Capture, Parameters] {
      assert name == NotFound;
      assert NotFound != Scoring && NotFound != Capture && NotFound != Parameters;
    }
  }

  /** `_pageChanged`: the module imported for a page; other names import
      nothing. */
  function PageModule(page: string): (module_: Option<string>)
    ensures module_.Some? <==> page in PageNames
  {
    if page == Scoring then Some("./ai-scoring.js")
    else if page == Capture then Some("./ai-capture.js")
    else if page == Parameters then Some("./ai-parameters.js")
    else if page == NotFound then Some("./ai-404.js")
    else None
  }

  /** Different pages import different modules. */
  lemma PageModulesAreDistinct(a: string, b: string)
    requires a in PageNames && b in PageNames && a != b
    ensures PageModule(a).Some? && PageModule(b).Some?
    ensures PageModule(a) != PageModule(b)
  {
  }

  /** Every route leads to a page that has a module. */
  lemma EveryRouteHasAModule(page: Option<string>)
    ensures PageModule(RoutePage(page)).Some?
  {
  }
}
