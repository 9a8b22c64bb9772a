/**
 * The projects grid (src/components/sections/Projects.tsx): each card shows a
 * category icon, at most three technology chips with a "+N more" badge, and
 * the project's optional links; "View Details" opens a modal for one project.
 */
module Projects {
  import opened Options

  datatype Icon = Brain | TrendingUp | Code | BarChart | Layers | Cpu

  /** `links.live` and `links.github` are optional strings. */
  datatype Links = Links(live: Option<string>, github: Option<string>)

  datatype Project = Project(
    title: string,
    technologies: seq<string>,
    category: string,
    period: string,
    links: Links)

  /** How many chips a card shows before the badge takes over. */
  const ChipLimit: nat := 3

  /** `technologies.slice(0, 3)`. */
  function ShownChips(technologies: seq<string>): (shown: seq<string>)
    ensures |shown| == if |technologies| < ChipLimit then |technologies| else ChipLimit
    ensures shown == technologies[..|shown|]
  {
    if |technologies| <= ChipLimit then technologies else technologies[..ChipLimit]
  }

  /** The "+N more" badge, present only when some technology has no chip. */
  function OverflowBadge(technologies: seq<string>): (badge: Option<nat>)
    ensures badge.Some? <==> |technologies| > ChipLimit
  {
    if |technologies| > ChipLimit then Some(|technologies| - ChipLimit) else None
  }

  /** The number the badge reports, zero when there is no badge. */
  function BadgeCount(badge: Option<nat>): nat
  {
    match badge
    case Some(n) => n
    case None => 0
  }

  /** Chips and badge together account for every technology exactly once. */
  lemma ChipsAndBadgeCoverAll(technologies: seq<string>)
    ensures |ShownChips(technologies)| + BadgeCount(OverflowBadge(technologies)) == |technologies|
    ensures OverflowBadge(technologies).Some? ==> technologies == ShownChips(technologies) + technologies[ChipLimit..]
  {
  }

  /** `categoryIcons`: one icon per category the page uses. */
  const CategoryIcons: map<string, Icon> := map[
    "Generative AI Capstone" := Brain,
    "Classical ML Capstone" := TrendingUp,
    "NLP Research Project" := Code,
    "Business Analytics" := BarChart,
    "Image Processing Capstone" := Layers,
    "Control Systems Research" := Cpu
  ]

  /** `categoryIcons[category] || <Code />`. */
  function CategoryIcon(category: string): (icon: Icon)
    ensures category in CategoryIcons ==> icon == CategoryIcons[category]
    ensures category !in CategoryIcons ==> icon == Code
  {
    if category in CategoryIcons then CategoryIcons[category] else Code
  }

  /** A link is rendered when it is present and, being a JavaScript string, non-empty. */
  function LinkShown(link: Option<string>): (b: bool)
    ensures !b <==> link == None || link == Some("")
  {
    link.Some? && link.value != ""
  }

  datatype CardView = CardView(icon: Icon, chips: seq<string>, badge: Option<nat>, liveDemo: bool, sourceCode: bool)

  function RenderCard(p: Project): (v: CardView)
    ensures v.icon == CategoryIcon(p.category)
    ensures v.chips == ShownChips(p.technologies) && v.badge == OverflowBadge(p.technologies)
    ensures v.liveDemo <==> LinkShown(p.links.live)
    ensures v.sourceCode <==> LinkShown(p.links.github)
  {
    CardView(CategoryIcon(p.category), ShownChips(p.technologies), OverflowBadge(p.technologies),
             LinkShown(p.links.live), LinkShown(p.links.github))
  }

  /** The details modal lists every technology and the links that exist. */
  datatype ModalView = ModalView(project: Project, chips: seq<string>, sourceCode: bool, liveDemo: bool)

  function RenderModal(selected: Option<Project>): (v: Option<ModalView>)
    ensures v.Some? <==> selected.Some?
    ensures v.Some? ==> v.value.project == selected.value && v.value.chips == selected.value.technologies
    ensures v.Some? ==> (v.value.sourceCode <==> LinkShown(selected.value.links.github))
    ensures v.Some? ==> (v.value.liveDemo <==> LinkShown(selected.value.links.live))
  {
    match selected
    case None => None
    case Some(p) => Some(ModalView(p, p.technologies, LinkShown(p.links.github), LinkShown(p.links.live)))
  }

  const Profile: string := "https://github.com/DevrajdasAdhikary"

  /** The six projects on the page. */
  const Catalogue: seq<Project> := [
    Project("Retrieval Augmented Generation using LLMs",
      ["LangChain", "ChromaDB", "HuggingFace", "BitsandBytes", "Google-Flan-T5-XXL", "PDF Processing"],
      "Generative AI Capstone", "July-August 2024", Links(None, Some(Profile))),
    Project("Decision Support Systems for Financial Markets",
      ["EGARCH Models", "Fama-French 3-factor", "NSEpy", "Python", "Econometric Analysis"],
      "Classical ML Capstone", "February-April 2024", Links(None, Some(Profile))),
    Project("EmoGenX - Emotion Generation System",
      ["GPT-2", "T5", "BART", "PyTorch", "Natural Language Processing", "Transformer Models"],
      "NLP Research Project", "November-December 2023", Links(None, Some(Profile))),
    Project("Customer Lifetime Value & Product Demand Forecasting",
      ["Multiple Linear Regression", "Polynomial Regression", "ARIMA Models", "Python", "Statistical Analysis"],
      "Business Analytics", "January-April 2023", Links(None, Some(Profile))),
    Project("TCDHE-SD Image Processing",
      ["MATLAB", "Image Processing", "Histogram Equalization", "Statistical Analysis"],
      "Image Processing Capstone", "October-December 2022", Links(None, Some(Profile))),
    Project("Reinforcement Learning Path Following Control",
      ["DDPG Algorithm", "Reinforcement Learning", "MATLAB", "Control Systems", "Path Planning"],
      "Control Systems Research", "August 2021", Links(None, Some(Profile)))
  ]

  /** Every project on the page has an icon of its own, shows three chips and a badge, and only a source link. */
  lemma CatalogueCards(k: nat)
    requires k < |Catalogue|
    ensures Catalogue[k].category in CategoryIcons
    ensures var v := RenderCard(Catalogue[k]);
      |v.chips| == ChipLimit && v.badge.Some? && v.sourceCode && !v.liveDemo
  {
  }

  class ProjectsSection {
    /** `selectedProject`: the project whose modal is open. */
    var selectedProject: Option<Project>

    constructor ()
      ensures selectedProject == None && RenderModal(selectedProject) == None
    {
      selectedProject := None;
    }

    /** "View Details" on a card. */
    method ViewDetails(p: Project)
      modifies this
      ensures selectedProject == Some(p)
      ensures RenderModal(selectedProject).Some? && RenderModal(selectedProject).value.project == p
    {
      selectedProject := Some(p);
    }

    /** The modal's close button. */
    method CloseDetails()
      modifies this
      ensures selectedProject == None && RenderModal(selectedProject) == None
    {
      selectedProject := None;
    }
  }
}
