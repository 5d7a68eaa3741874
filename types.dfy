/** The data shapes of the lesson player: the catalogue records (lessons,
    modules, courses), the player's tab options and the tagged shapes of a
    dynamic lesson document. Optional fields are `Option`s; a JavaScript
    record keyed by badge name is an ordered list of entries, in the order
    `Object.entries` visits them. */
module Types {
  import opened Common

  datatype Lesson = Lesson(
    id: int,
    courseId: string,
    moduleId: int,
    title: string,
    releaseDate: Option<string>,  // absent for the paid course
    duration: Option<string>,     // `string | null`
    isLocked: bool)

  datatype Module = Module(id: int, courseId: string, title: string, lessons: seq<Lesson>)

  /** The tabs of the lesson player; each is shown (and keyed) by its label. */
  datatype TabOption =
    | CourseTab | VideoSummary | AudioSummary | MindMap | Flashcards
    | Infographic | Report | QuizTab | Slides
  {
    function Label(): string
    {
      match this
      case CourseTab => "Curso"
      case VideoSummary => "Resumo em Vídeo"
      case AudioSummary => "Resumo em Áudio"
      case MindMap => "Mapa Mental"
      case Flashcards => "Cartões Didáticos"
      case Infographic => "Infográfico"
      case Report => "Relatório"
      case QuizTab => "Teste"
      case Slides => "Slides"
    }
  }

  /** Different tab options have different labels, so a label identifies its tab. */
  lemma LabelsDistinct(a: TabOption, b: TabOption)
    ensures a.Label() == b.Label() ==> a == b
  {
  }

  datatype CourseStatus = Released | Blocked  // 'Liberado' | 'Bloqueado'

  datatype Course = Course(
    id: string,
    title: string,
    price: Option<string>,
    isFree: bool,
    description: string,
    moduleCount: int,
    lessonCount: int,
    status: CourseStatus)

  // --- dynamic lesson documents ---

  // `label` is a Dafny keyword, so the source's `label` fields are called `caption` here.
  datatype BadgeConfig = BadgeConfig(caption: string, icon: string, color: string, threshold: int)

  datatype GamificationConfig = GamificationConfig(
    pointsPerSection: int,
    badges: seq<(string, BadgeConfig)>)  // `Record<string, BadgeConfig>` in entry order

  datatype LessonMetadata = LessonMetadata(
    title: string,
    subtitle: string,
    totalSections: int,
    gamification: GamificationConfig)

  datatype CertificateInfo = CertificateInfo(title: string, text: string)

  datatype HeaderInfo = HeaderInfo(progressLabel: string, certificateInfo: CertificateInfo)

  /** An entry of a navigation grid: a jump to `target`, in tab `tab` if given. */
  datatype ContentItem = ContentItem(caption: string, icon: string, target: string, tab: Option<string>)

  datatype MediaKind = Audio | Video

  datatype MultimediaItem = MultimediaItem(
    id: string,
    kind: MediaKind,
    title: string,
    subtitle: string,
    url: string,
    buttonText: string)

  datatype CardKind = PlainCard | HighlightCard | TraitCard | AlertCard

  /** A card of a tab. Trait cards are headed by `name`, the others by `title`. */
  datatype CardContent = CardContent(
    id: string,
    kind: CardKind,
    title: Option<string>,
    name: Option<string>,
    subtitle: Option<string>,
    text: Option<string>,
    buttonText: Option<string>,
    style: Option<string>,
    archetype: Option<string>,
    icon: Option<string>,
    color: Option<string>,
    body: Option<string>,
    pain: Option<string>,
    power: Option<string>,
    story: Option<string>,
    deal: Option<string>,
    list: Option<seq<string>>,
    highlightBox: Option<string>)

  datatype TabData = TabData(id: string, caption: string, content: seq<CardContent>)

  datatype ExerciseContent = ExerciseContent(
    id: string,
    title: string,
    instructions: seq<string>,
    placeholder: string,
    buttonText: string)

  datatype QuizQuestion = QuizQuestion(id: int, question: string, options: seq<string>, correctAnswer: string)

  datatype SectionKind = Intro | Navigation | Multimedia | Tabs | Exercise | Quiz | Footer

  /** `content?: string[] | ExerciseContent` */
  datatype SectionContent = Paragraphs(paragraphs: seq<string>) | ExerciseRecord(exercise: ExerciseContent)

  /** `items?: ContentItem[] | MultimediaItem[]` */
  datatype SectionItems = NavigationItems(nav: seq<ContentItem>) | MediaItems(media: seq<MultimediaItem>)

  datatype Section = Section(
    id: string,
    kind: SectionKind,
    title: Option<string>,
    subtitle: Option<string>,
    content: Option<SectionContent>,
    items: Option<SectionItems>,
    tabs: Option<seq<TabData>>,
    questions: Option<seq<QuizQuestion>>)

  datatype LessonContent = LessonContent(metadata: LessonMetadata, header: HeaderInfo, sections: seq<Section>)
}
