/** The single-expansion accordion of the selected-works grid (components/Projects.tsx).
    The only state is `expandedId`, an optional project id; every render decision of a
    card is an equality test between that id and the card's own id. */
module Projects {
  import opened Types

  /** The fixed project list (three cards). */
  const Works: seq<Project> := [
    Project("01", "Void Structures", "Film Score", "2023", "/assets/void_structures.png",
      "A minimalist sound design project for a sci-fi noir film. The objective was to create tension using silence and sub-bass frequencies, creating a sonic void that mirrors the protagonist's isolation."),
    Project("02", "Earthen", "Installation", "2024", "/assets/earthen.png",
      "An interactive audio installation that generates music in real-time based on soil moisture and plant growth data collected from a localized ecosystem."),
    Project("03", "Midnight Protocol", "Album Production", "2022", "/assets/midnight_protocol.png",
      "Experimental synth-pop album exploring the relationship between human emotion and digital interfaces. Featured in top 10 electronic albums of the year.")
  ]

  predicate DistinctIds(ps: seq<Project>) {
    forall i, j :: 0 <= i < j < |ps| ==> ps[i].id != ps[j].id
  }

  /** Clicking a card: collapse it when it is the expanded one, otherwise expand it
      (which also collapses whichever card was expanded before). */
  function ToggleProject(expanded: Option<string>, id: string): (r: Option<string>)
    ensures r.None? <==> expanded == Some(id)
    ensures r.Some? ==> r.value == id
  {
    if expanded == Some(id) then None else Some(id)
  }

  predicate IsExpanded(expanded: Option<string>, p: Project) {
    expanded == Some(p.id)
  }

  /** One card as seen by the user. */
  datatype Indicator = Plus | Minus
  datatype CardView = CardView(
    hoverLift: bool,     // whileHover lift and scale
    highlighted: bool,   // tinted overlay, colour image, gold title
    indicator: Indicator,
    detailsShown: bool)  // description paragraph and details link

  function RenderCard(expanded: Option<string>, p: Project): (v: CardView)
    ensures v.detailsShown <==> IsExpanded(expanded, p)
    ensures v.highlighted == v.detailsShown
    ensures v.hoverLift <==> !v.detailsShown
    ensures v.indicator == Minus <==> v.detailsShown
  {
    var open := expanded == Some(p.id);
    CardView(!open, open, if open then Minus else Plus, open)
  }

  /** Where a click lands inside a card. */
  datatype ClickTarget = CardBody | DetailsLink

  /** The card's click handler; the details link stops propagation, so the card never sees it. */
  function Click(expanded: Option<string>, p: Project, target: ClickTarget): (r: Option<string>)
    ensures target == DetailsLink ==> r == expanded
    ensures target == CardBody ==> (r == None <==> IsExpanded(expanded, p))
    ensures target == CardBody && r.Some? ==> r == Some(p.id)
  {
    match target
    case DetailsLink => expanded
    case CardBody => ToggleProject(expanded, p.id)
  }

  /** Number of cards of `ps` that render expanded: zero exactly when none of them is. */
  function ExpandedCount(expanded: Option<string>, ps: seq<Project>): (c: nat)
    ensures c <= |ps|
    ensures c == 0 <==> forall i :: 0 <= i < |ps| ==> !IsExpanded(expanded, ps[i])
  {
    if ps == [] then 0
    else
      assert forall i :: 0 <= i < |ps[1..]| ==> ps[1..][i] == ps[i + 1];
      (if IsExpanded(expanded, ps[0]) then 1 else 0) + ExpandedCount(expanded, ps[1..])
  }

  lemma WorksIdsDistinct()
    ensures DistinctIds(Works)
  {
  }

  /** Toggling twice from the collapsed state collapses again. */
  lemma ToggleTwiceFromNone(id: string)
    ensures ToggleProject(ToggleProject(None, id), id) == None
  {
  }

  /** Toggling the expanded card's own id twice restores it; toggling another id replaces it. */
  lemma ToggleReplaces(a: string, b: string)
    ensures a != b ==> ToggleProject(Some(a), b) == Some(b)
    ensures ToggleProject(ToggleProject(Some(a), a), a) == Some(a)
  {
  }

  /** When card ids are distinct, no more than one card ever renders expanded. */
  lemma {:induction false} AtMostOneExpanded(expanded: Option<string>, ps: seq<Project>)
    requires DistinctIds(ps)
    ensures ExpandedCount(expanded, ps) <= 1
    ensures ExpandedCount(expanded, ps) == 1 <==> exists p :: p in ps && IsExpanded(expanded, p)
  {
    if ps != [] {
      assert DistinctIds(ps[1..]) by {
        forall i, j | 0 <= i < j < |ps[1..]| ensures ps[1..][i].id != ps[1..][j].id {
          assert ps[1..][i] == ps[i + 1] && ps[1..][j] == ps[j + 1];
        }
      }
      AtMostOneExpanded(expanded, ps[1..]);
      if IsExpanded(expanded, ps[0]) {
        forall i | 0 <= i < |ps[1..]| ensures !IsExpanded(expanded, ps[1..][i]) {
          assert ps[1..][i] == ps[i + 1];
        }
      }
      forall p | p in ps[1..] ensures p in ps { }
      if exists p :: p in ps && IsExpanded(expanded, p) {
        var p :| p in ps && IsExpanded(expanded, p);
        if p != ps[0] {
          assert p in ps[1..];
        }
      }
    }
  }

  /** Clicking a card flips its own details and leaves every other card collapsed. */
  lemma ClickFlipsOnlyThatCard(expanded: Option<string>, p: Project, q: Project)
    requires p.id != q.id
    ensures RenderCard(Click(expanded, p, CardBody), p).detailsShown == !RenderCard(expanded, p).detailsShown
    ensures !RenderCard(Click(expanded, p, CardBody), q).detailsShown
  {
  }

  /** In the fixed grid, at most one card shows its description at a time. */
  lemma WorksShowAtMostOneDescription(expanded: Option<string>)
    ensures ExpandedCount(expanded, Works) <= 1
  {
    WorksIdsDistinct();
    AtMostOneExpanded(expanded, Works);
  }
}
