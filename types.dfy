/**
  The shared vocabulary of frontend/lib/types.ts: the enumerations used as
  column values and request fields, the generation request, and the constant
  tables (curated topics, their icons, the rotating headlines).
  */
module Types {
  import opened Wrappers

  /** How a learning item came to exist (`source_type`). */
  datatype SourceType = TopicChoice | TeachMe | LearnMore | Adjacent

  function SourceTypeName(t: SourceType): string {
    match t
    case TopicChoice => "topic_choice"
    case TeachMe => "teach_me"
    case LearnMore => "learn_more"
    case Adjacent => "adjacent"
  }

  const SourceTypeNames: seq<string> := ["topic_choice", "teach_me", "learn_more", "adjacent"]

  /** Kind of a lesson-plan resource. */
  datatype ResourceType = Article | Video | Book | Course | Tool

  function ResourceTypeName(t: ResourceType): string {
    match t
    case Article => "article"
    case Video => "video"
    case Book => "book"
    case Course => "course"
    case Tool => "tool"
  }

  const ResourceTypeNames: seq<string> := ["article", "video", "book", "course", "tool"]

  /** The seven content shapes the generation endpoint can be asked for. */
  datatype GenerateType =
    | TopicOptions | LearnItem | LearnMoreItem | ExpandContent | LessonPlan | AdjacentOptions | ClarifyTopic

  function GenerateTypeName(t: GenerateType): string {
    match t
    case TopicOptions => "topic_options"
    case LearnItem => "learn_item"
    case LearnMoreItem => "learn_more"
    case ExpandContent => "expand_content"
    case LessonPlan => "lesson_plan"
    case AdjacentOptions => "adjacent_options"
    case ClarifyTopic => "clarify_topic"
  }

  const GenerateTypeNames: seq<string> :=
    ["topic_options", "learn_item", "learn_more", "expand_content", "lesson_plan", "adjacent_options", "clarify_topic"]

  function ParseGenerateType(s: string): (r: Option<GenerateType>)
    ensures r.Some? <==> s in GenerateTypeNames
    ensures r.Some? ==> GenerateTypeName(r.value) == s
  {
    if s == "topic_options" then Some(TopicOptions)
    else if s == "learn_item" then Some(LearnItem)
    else if s == "learn_more" then Some(LearnMoreItem)
    else if s == "expand_content" then Some(ExpandContent)
    else if s == "lesson_plan" then Some(LessonPlan)
    else if s == "adjacent_options" then Some(AdjacentOptions)
    else if s == "clarify_topic" then Some(ClarifyTopic)
    else None
  }

  /** `GenerateType` has exactly seven distinct wire names, and parsing a
      variant's name gives that variant back. */
  lemma GenerateTypeNamesExact(t: GenerateType)
    ensures |GenerateTypeNames| == 7
    ensures forall i, j :: 0 <= i < j < 7 ==> GenerateTypeNames[i] != GenerateTypeNames[j]
    ensures GenerateTypeName(t) in GenerateTypeNames
    ensures ParseGenerateType(GenerateTypeName(t)) == Some(t)
  {
  }

  /** The four source types and five resource kinds have distinct names. */
  lemma SourceTypeNamesDistinct(s: SourceType)
    ensures |SourceTypeNames| == 4 && SourceTypeName(s) in SourceTypeNames
    ensures forall i, j :: 0 <= i < j < 4 ==> SourceTypeNames[i] != SourceTypeNames[j]
  {
  }

  lemma ResourceTypeNamesDistinct(r: ResourceType)
    ensures |ResourceTypeNames| == 5 && ResourceTypeName(r) in ResourceTypeNames
    ensures forall i, j :: 0 <= i < j < 5 ==> ResourceTypeNames[i] != ResourceTypeNames[j]
  {
  }

  function ParseSourceType(s: string): (r: Option<SourceType>)
    ensures r.Some? <==> s in SourceTypeNames
    ensures r.Some? ==> SourceTypeName(r.value) == s
  {
    if s == "topic_choice" then Some(TopicChoice)
    else if s == "teach_me" then Some(TeachMe)
    else if s == "learn_more" then Some(LearnMore)
    else if s == "adjacent" then Some(Adjacent)
    else None
  }

  function ParseResourceType(s: string): (r: Option<ResourceType>)
    ensures r.Some? <==> s in ResourceTypeNames
    ensures r.Some? ==> ResourceTypeName(r.value) == s
  {
    if s == "article" then Some(Article)
    else if s == "video" then Some(Video)
    else if s == "book" then Some(Book)
    else if s == "course" then Some(Course)
    else if s == "tool" then Some(Tool)
    else None
  }

  /** `depth` preference. */
  datatype Depth = Concise | Deeper

  function DepthName(d: Depth): string {
    match d
    case Concise => "concise"
    case Deeper => "deeper"
  }

  function ParseDepth(s: string): (r: Option<Depth>)
    ensures r.Some? <==> s == "concise" || s == "deeper"
    ensures r.Some? ==> DepthName(r.value) == s
  {
    if s == "concise" then Some(Concise) else if s == "deeper" then Some(Deeper) else None
  }

  /** Stored theme preference (`user_prefs.theme`). */
  datatype ThemePref = LightTheme | DarkTheme | AutoTheme

  function ThemePrefName(t: ThemePref): string {
    match t
    case LightTheme => "light"
    case DarkTheme => "dark"
    case AutoTheme => "auto"
  }

  function ParseThemePref(s: string): (r: Option<ThemePref>)
    ensures r.Some? <==> s == "light" || s == "dark" || s == "auto"
    ensures r.Some? ==> ThemePrefName(r.value) == s
  {
    if s == "light" then Some(LightTheme)
    else if s == "dark" then Some(DarkTheme)
    else if s == "auto" then Some(AutoTheme)
    else None
  }

  /** `saved_items.item_type` */
  datatype SavedKind = SavedLearning | SavedLessonPlan

  function SavedKindName(k: SavedKind): string {
    match k
    case SavedLearning => "learning"
    case SavedLessonPlan => "lesson_plan"
  }

  function ParseSavedKind(s: string): (r: Option<SavedKind>)
    ensures r.Some? <==> s == "learning" || s == "lesson_plan"
    ensures r.Some? ==> SavedKindName(r.value) == s
  {
    if s == "learning" then Some(SavedLearning) else if s == "lesson_plan" then Some(SavedLessonPlan) else None
  }

  /** Every enumeration's name parses back to the same variant. */
  lemma EnumRoundTrips(s: SourceType, r: ResourceType, d: Depth, t: ThemePref, k: SavedKind)
    ensures ParseSourceType(SourceTypeName(s)) == Some(s)
    ensures ParseResourceType(ResourceTypeName(r)) == Some(r)
    ensures ParseDepth(DepthName(d)) == Some(d)
    ensures ParseThemePref(ThemePrefName(t)) == Some(t)
    ensures ParseSavedKind(SavedKindName(k)) == Some(k)
  {
  }

  /** A citation attached to a learning card. */
  datatype SourceLink = SourceLink(title: string, url: string)

  /** The body of a learning card. */
  datatype LearnContent = LearnContent(
    title: string,
    hook: string,
    bullets: seq<string>,
    example: string,
    microAction: string,
    quizQuestion: string,
    quizAnswer: string,
    sources: Option<seq<SourceLink>>)

  /** The longer read behind "expand". */
  datatype ExpandedContent = ExpandedContent(paragraphs: seq<string>, additionalBullets: Option<seq<string>>)

  datatype ResourceItem = ResourceItem(title: string, url: string, kind: ResourceType)

  datatype DayPlanItem = DayPlanItem(day: int, focus: string, activities: seq<string>)

  /** The content of a lesson plan: its goals, resources, exercises and daily plan. */
  datatype LessonPlanContent = LessonPlanContent(
    goals: seq<string>,
    resources: seq<ResourceItem>,
    exercises: seq<string>,
    dailyPlan: seq<DayPlanItem>)

  const CuratedTopics: seq<string> := [
    "Productivity", "Communication", "Leadership", "Psychology", "Sales",
    "Negotiation", "Writing", "Design", "Finance basics", "Health habits",
    "History", "Technology", "Career growth", "Entrepreneurship", "Decision-making"
  ]

  const RotatingHeadlines: seq<string> := [
    "What would you like to learn?",
    "How about a new topic today?",
    "Quick win or deeper dive?",
    "Pick your next insight",
    "Learn something in 60 seconds",
    "Ready for a fresh perspective?"
  ]

  /** Icon name per curated topic, plus the fallback under "default". */
  const TopicIcons: map<string, string> := map[
    "Productivity" := "Zap", "Communication" := "MessageSquare", "Leadership" := "Crown",
    "Psychology" := "Brain", "Sales" := "TrendingUp", "Negotiation" := "Handshake",
    "Writing" := "PenTool", "Design" := "Palette", "Finance basics" := "DollarSign",
    "Health habits" := "Heart", "History" := "BookOpen", "Technology" := "Cpu",
    "Career growth" := "Rocket", "Entrepreneurship" := "Lightbulb", "Decision-making" := "GitBranch",
    "default" := "Sparkles"
  ]

  predicate IsCurated(topic: string) {
    topic in CuratedTopics
  }

  /** Fifteen distinct curated topics and six headlines. */
  lemma ConstantTableSizes()
    ensures |CuratedTopics| == 15
    ensures forall i, j :: 0 <= i < j < |CuratedTopics| ==> CuratedTopics[i] != CuratedTopics[j]
    ensures |RotatingHeadlines| == 6
  {
  }

  /** Every curated topic has an icon, "default" maps to Sparkles, and there
      are no other keys. */
  lemma TopicIconsCoverCurated()
    ensures forall t :: t in CuratedTopics ==> t in TopicIcons
    ensures "default" in TopicIcons && TopicIcons["default"] == "Sparkles"
    ensures "default" !in CuratedTopics
    ensures TopicIcons.Keys == set t | t in CuratedTopics + ["default"]
  {
  }
}
