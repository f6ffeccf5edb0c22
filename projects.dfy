/**
 * The project cards of app.js: the static `projects` list (app.js:283-312)
 * and `renderProjects` (app.js:314-356), which empties `#projectsGrid` and
 * appends one card per project, in order.
 */
module Projects {
  import opened Wrappers

  /** One entry of the `projects` array. */
  datatype Project = Project(title: string, category: string, description: string, videoSrc: string, link: string)

  const AllProjects: seq<Project> := [
    Project("E-Commerce Platform", "Web App",
      "A complete online store solution with payment integration, inventory management, and customer analytics dashboard.",
      "", "#"),
    Project("Workflow Automation Tool", "Automation Tool",
      "Streamline business processes with automated task management, document processing, and report generation.",
      "", "#"),
    Project("Mobile Banking App", "Mobile App",
      "Secure mobile banking solution with biometric authentication, real-time transactions, and financial planning tools.",
      "", "#"),
    Project("Restaurant Management System", "Web App",
      "Comprehensive POS system with order management, inventory tracking, and customer loyalty program.",
      "", "#")
  ]

  /** A created DOM element: tag, `className`, `textContent`, attributes and children in order. */
  datatype Node = Node(tag: string, className: string, text: string, attributes: map<string, string>, children: seq<Node>)

  function Plain(tag: string, className: string, text: string): Node {
    Node(tag, className, text, map[], [])
  }

  /** `p.link || '#'`: an empty link falls back to `#`. */
  function LinkOr(link: string): (href: string)
    ensures link == "" ==> href == "#"
    ensures link != "" ==> href == link
  {
    if link == "" then "#" else link
  }

  /** The card built for one project, app.js:320-352. */
  function CardFor(p: Project): (card: Node)
    ensures card.tag == "div" && card.className == "project-card" && |card.children| == 5
    ensures card.children[0].className == "video-placeholder"
      && card.children[0].children == [Plain("div", "play-icon", "▶")]
    ensures card.children[1] == Plain("h3", "project-title", p.title)
    ensures card.children[2] == Plain("span", "category-tag", p.category)
    ensures card.children[3] == Plain("p", "project-description", p.description)
    ensures var link := card.children[4];
      && link.tag == "a" && link.className == "view-project-link" && link.text == "View Project →"
      && link.attributes == map["href" := LinkOr(p.link), "target" := "_blank"]
  {
    Node("div", "project-card", "", map[], [
      Node("div", "video-placeholder", "", map[], [Plain("div", "play-icon", "▶")]),
      Plain("h3", "project-title", p.title),
      Plain("span", "category-tag", p.category),
      Plain("p", "project-description", p.description),
      Node("a", "view-project-link", "View Project →", map["href" := LinkOr(p.link), "target" := "_blank"], [])
    ])
  }

  /** What a reader of the page learns from a card; the card shows no video, so `videoSrc` reads back empty. */
  function ReadCard(card: Node): Option<Project> {
    if && card.tag == "div" && card.className == "project-card" && |card.children| == 5
       && "href" in card.children[4].attributes
    then
      Some(Project(card.children[1].text, card.children[2].text, card.children[3].text, "",
                   card.children[4].attributes["href"]))
    else None
  }

  /** What a card shows of a project: everything but the video, with the link defaulted. */
  function Shown(p: Project): Project {
    p.(videoSrc := "", link := LinkOr(p.link))
  }

  /** A project's card reads back as the project it was built from, as shown. */
  lemma ReadCardOfCardFor(p: Project)
    ensures ReadCard(CardFor(p)) == Some(Shown(p))
  {
  }

  /** The cards of `projects`, one per project, in order. */
  function Cards(projects: seq<Project>): (cards: seq<Node>)
    ensures |cards| == |projects|
    ensures forall i :: 0 <= i < |projects| ==> cards[i] == CardFor(projects[i])
  {
    if projects == [] then [] else Cards(projects[..|projects| - 1]) + [CardFor(projects[|projects| - 1])]
  }

  /** Every card of the rendered list reads back as its project. */
  lemma CardsReadBack(projects: seq<Project>)
    ensures forall i :: 0 <= i < |projects| ==> ReadCard(Cards(projects)[i]) == Some(Shown(projects[i]))
  {
    forall i | 0 <= i < |projects| ensures ReadCard(Cards(projects)[i]) == Some(Shown(projects[i])) {
      ReadCardOfCardFor(projects[i]);
    }
  }

  /** A list without video sources and with every link set reads back from its cards unchanged. */
  lemma PlainProjectsReadBack(projects: seq<Project>)
    requires forall i :: 0 <= i < |projects| ==> projects[i].videoSrc == "" && projects[i].link != ""
    ensures forall i :: 0 <= i < |projects| ==> ReadCard(Cards(projects)[i]) == Some(projects[i])
  {
    CardsReadBack(projects);
  }

  /** The site's own list shows exactly its projects: no video source is set and every link is `#`. */
  lemma AllProjectsReadBack()
    ensures forall i :: 0 <= i < |AllProjects| ==> ReadCard(Cards(AllProjects)[i]) == Some(AllProjects[i])
  {
    PlainProjectsReadBack(AllProjects);
  }

  /** The `#projectsGrid` container. */
  class Container {
    var children: seq<Node>

    constructor (children: seq<Node>)
      ensures this.children == children
    {
      this.children := children;
    }
  }

  /**
   * `renderProjects()`: nothing when the page has no grid; otherwise the
   * grid is emptied and ends up holding exactly the cards of `projects`,
   * whatever it held before, so rendering again changes nothing.
   */
  method RenderProjects(grid: Container?, projects: seq<Project>)
    modifies grid
    ensures grid != null ==> grid.children == Cards(projects)
  {
    if grid == null {
      return;
    }
    grid.children := [];
    for i := 0 to |projects|
      invariant grid.children == Cards(projects[..i])
    {
      assert projects[..i + 1][..i] == projects[..i];
      grid.children := grid.children + [CardFor(projects[i])];
    }
    assert projects[..|projects|] == projects;
  }
}
