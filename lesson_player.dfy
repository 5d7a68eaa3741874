/** The lesson player page: finding the current, next and previous lesson,
    deciding whether a lesson's content is unlocked, what a click on a lesson
    in the sidebar does (locked notice, login prompt or navigation), the
    single-open module accordion and the text shown for a tab. Release-date
    availability and date formatting belong to code outside this model and
    are given to the page as functions. */
module LessonPlayer {
  import opened Common
  import opened Types
  import Catalogue

  // ---------------------------------------------------------------------
  // Lesson lookup: `LESSONS.find(...)`

  /** `l.id === id`, and `l.courseId === course` when a course is given. */
  predicate Matches(l: Lesson, id: int, course: Option<string>)
  {
    l.id == id && (course.None? || l.courseId == course.value)
  }

  function LessonIndex(lessons: seq<Lesson>, id: int, course: Option<string>): (r: int)
    ensures -1 <= r < |lessons|
    ensures r == -1 <==> forall j :: 0 <= j < |lessons| ==> !Matches(lessons[j], id, course)
    ensures 0 <= r ==> Matches(lessons[r], id, course) && forall j :: 0 <= j < r ==> !Matches(lessons[j], id, course)
  {
    FindIndex(lessons, (l: Lesson) => Matches(l, id, course))
  }

  /** The first lesson matching `id` (and `course`, if given). */
  function FindLesson(lessons: seq<Lesson>, id: int, course: Option<string>): (r: Option<Lesson>)
    ensures r.None? <==> forall l :: l in lessons ==> !Matches(l, id, course)
    ensures r.Some? ==> r.value in lessons && Matches(r.value, id, course)
  {
    var i := LessonIndex(lessons, id, course);
    if i == -1 then None else Some(lessons[i])
  }

  /** `nextLesson`: the lesson numbered one more, in the same course. */
  function NextLesson(lessons: seq<Lesson>, current: Lesson): (r: Option<Lesson>)
    ensures r.Some? ==> r.value in lessons && r.value.id == current.id + 1 && r.value.courseId == current.courseId
    ensures r.None? <==> forall l :: l in lessons ==> !(l.id == current.id + 1 && l.courseId == current.courseId)
  {
    FindLesson(lessons, current.id + 1, Some(current.courseId))
  }

  /** `prevLesson`: the lesson numbered one less, in the same course. */
  function PrevLesson(lessons: seq<Lesson>, current: Lesson): (r: Option<Lesson>)
    ensures r.Some? ==> r.value in lessons && r.value.id == current.id - 1 && r.value.courseId == current.courseId
    ensures r.None? <==> forall l :: l in lessons ==> !(l.id == current.id - 1 && l.courseId == current.courseId)
  {
    FindLesson(lessons, current.id - 1, Some(current.courseId))
  }

  /** The last paid lesson has no next lesson, and the first paid lesson has
      no previous one, in a catalogue whose paid lessons are numbered from 101. */
  lemma FormationEnds(lessons: seq<Lesson>, first: Lesson, last: Lesson)
    requires first in lessons && last in lessons
    requires first.courseId == Catalogue.FormationId && last.courseId == Catalogue.FormationId
    requires forall l :: l in lessons && l.courseId == Catalogue.FormationId ==> first.id <= l.id <= last.id
    ensures NextLesson(lessons, last) == None && PrevLesson(lessons, first) == None
  {
  }

  // ---------------------------------------------------------------------
  // Access rules

  /** `isUnlocked`: only free-course lessons can be available. */
  predicate IsUnlocked(l: Lesson, available: Lesson -> bool)
  {
    if l.courseId == Catalogue.MinicourseId then available(l) else false
  }

  /** `isContentUnlocked`: free-course lessons when available, lesson 1 always, paid lessons never. */
  function IsContentUnlocked(l: Lesson, available: Lesson -> bool): (r: bool)
    ensures r ==> l.courseId == Catalogue.MinicourseId
    ensures l.courseId == Catalogue.MinicourseId && l.id == 1 ==> r
    ensures l.courseId == Catalogue.MinicourseId && l.id != 1 ==> (r <==> available(l))
  {
    l.courseId == Catalogue.MinicourseId && (l.id == 1 || IsUnlocked(l, available))
  }

  /** The row of tab buttons appears for unlocked content other than lesson 1. */
  function ShowTabStrip(l: Lesson, available: Lesson -> bool): (r: bool)
    ensures r <==> l.courseId == Catalogue.MinicourseId && l.id != 1 && available(l)
  {
    IsContentUnlocked(l, available) && l.id != 1
  }

  /** `targetLesson.releaseDate || ''` */
  function ReleaseText(l: Lesson): string
  {
    match l.releaseDate
    case Some(d) => d
    case None => ""
  }

  /** What a click on a lesson leads to. */
  datatype LessonChange = Ignored | LockedNotice(releaseText: string) | LoginPrompt | Navigate(lessonId: int)

  /** `handleLessonChange`'s decision. */
  function LessonChangeDecision(lessons: seq<Lesson>, id: int, available: Lesson -> bool,
                                formatDate: string -> string): (r: LessonChange)
    ensures FindLesson(lessons, id, None).None? <==> r == Ignored
    ensures var t := FindLesson(lessons, id, None);
      t.Some? && t.value.courseId == Catalogue.MinicourseId && !available(t.value) ==>
        r == LockedNotice(formatDate(ReleaseText(t.value)))
    ensures var t := FindLesson(lessons, id, None);
      t.Some? && t.value.courseId == Catalogue.FormationId ==> r == LoginPrompt
    ensures var t := FindLesson(lessons, id, None);
      (t.Some? && t.value.courseId != Catalogue.FormationId
       && (t.value.courseId == Catalogue.MinicourseId ==> available(t.value))) ==> r == Navigate(id)
    ensures r.Navigate? ==>
      (r.lessonId == id
       && exists l :: (l in lessons && l.id == id && l.courseId != Catalogue.FormationId
                       && (l.courseId == Catalogue.MinicourseId ==> available(l))))
  {
    match FindLesson(lessons, id, None)
    case None => Ignored
    case Some(target) =>
      if target.courseId == Catalogue.MinicourseId && !available(target) then LockedNotice(formatDate(ReleaseText(target)))
      else if target.courseId == Catalogue.FormationId then LoginPrompt
      else Navigate(id)
  }

  /** No two lessons share an id. */
  predicate UniqueIds(lessons: seq<Lesson>)
  {
    forall i, j :: 0 <= i < j < |lessons| ==> lessons[i].id != lessons[j].id
  }

  /** The catalogue's ids are unique: 1 to 4 for the free course, 101 upwards for the paid one. */
  lemma CatalogueIdsUnique(currentYear: string, raw: seq<Catalogue.RawModule>, formation: seq<Module>,
                           draw: int -> Catalogue.DrawnMinutes)
    requires Catalogue.ModulesBuilt(raw, formation, draw)
    ensures UniqueIds(Catalogue.Lessons(currentYear, formation))
  {
    Catalogue.FormationIdsConsecutive(raw, formation, draw);
    var paid := Catalogue.FlattenLessons(formation);
    var all := Catalogue.Lessons(currentYear, formation);
    var free := Catalogue.MinicourseModule(currentYear).lessons;
    assert |free| == 4;
    forall i, j | 0 <= i < j < |all|
      ensures all[i].id != all[j].id
    {
      if 4 <= j {
        assert all[j] == paid[j - 4];
        if 4 <= i {
          assert all[i] == paid[i - 4];
        }
      }
    }
  }

  /** With unique ids, two listed lessons with the same id are the same lesson. */
  lemma SameIdSameLesson(lessons: seq<Lesson>, a: Lesson, b: Lesson)
    requires UniqueIds(lessons) && a in lessons && b in lessons && a.id == b.id
    ensures a == b
  {
  }

  /** The paywall: from a paid lesson, "next" and "previous" open the login
      prompt and never navigate, when lesson ids are unique. */
  lemma PaidNeighboursAskForLogin(lessons: seq<Lesson>, current: Lesson, available: Lesson -> bool,
                                  formatDate: string -> string)
    requires UniqueIds(lessons) && current.courseId == Catalogue.FormationId
    ensures var n := NextLesson(lessons, current);
      n.Some? ==> LessonChangeDecision(lessons, n.value.id, available, formatDate) == LoginPrompt
    ensures var p := PrevLesson(lessons, current);
      p.Some? ==> LessonChangeDecision(lessons, p.value.id, available, formatDate) == LoginPrompt
  {
  }

  // ---------------------------------------------------------------------
  // What the page shows

  const LoginMessage: string := "Faça o login ou adquira a formação para acessar este conteúdo."

  /** The notice shown in place of locked content. */
  function LockedMessage(l: Lesson, formatDate: string -> string): (r: string)
    ensures l.courseId == Catalogue.MinicourseId ==> IsInfix(formatDate(ReleaseText(l)), r)
    ensures l.courseId != Catalogue.MinicourseId ==> r == LoginMessage
  {
    if l.courseId == Catalogue.MinicourseId then
      InfixOfConcat("A aula estará disponível em ", formatDate(ReleaseText(l)), ".");
      "A aula estará disponível em " + formatDate(ReleaseText(l)) + "."
    else LoginMessage
  }

  const PlaceholderHead: string := "\n      <p>Conteúdo para <strong>"
  const PlaceholderMiddle: string := "</strong> da aula <strong>"
  const PlaceholderTail: string :=
    "</strong> será adicionado em breve.</p>\n      <br/>\n      <p class=\"text-sm text-neutral-500\">Aguarde a atualização do material didático.</p>\n    "

  /** The text shown while a tab of a lesson has no material yet. */
  function Placeholder(caption: string, title: string): (r: string)
    ensures IsInfix(caption, r) && IsInfix(title, r)
  {
    PieceInfixes(PlaceholderHead, caption, PlaceholderMiddle, title, PlaceholderTail);
    PlaceholderHead + caption + PlaceholderMiddle + title + PlaceholderTail
  }

  /** The second and fourth of five concatenated pieces occur in the whole. */
  lemma PieceInfixes(a: string, b: string, c: string, d: string, e: string)
    ensures IsInfix(b, a + b + c + d + e) && IsInfix(d, a + b + c + d + e)
  {
    var h := a + b + c + d + e;
    assert h[|a|..] == b + (c + d + e);
    assert h[|a + b + c|..] == d + e;
  }

  /** `getDynamicContent`: the stored text for the lesson and tab when present
      and non-empty, otherwise a placeholder naming the tab and the lesson. */
  function DynamicContent(content: map<int, map<TabOption, string>>, lesson: Lesson, tab: TabOption): (r: string)
    ensures lesson.id in content && tab in content[lesson.id] && content[lesson.id][tab] != "" ==>
      r == content[lesson.id][tab]
    ensures !(lesson.id in content && tab in content[lesson.id] && content[lesson.id][tab] != "") ==>
      IsInfix(tab.Label(), r) && IsInfix(lesson.title, r)
  {
    if lesson.id in content && tab in content[lesson.id] && content[lesson.id][tab] != "" then
      content[lesson.id][tab]
    else
      Placeholder(tab.Label(), lesson.title)
  }

  /** The lesson number shown in a paid lesson's header. */
  function HeaderLessonNumber(l: Lesson): int
  {
    l.id - 100
  }

  /** In a built paid course, the k-th lesson (counting from 0) is shown as lesson k + 1. */
  lemma HeaderNumbersCount(raw: seq<Catalogue.RawModule>, mods: seq<Module>, draw: int -> Catalogue.DrawnMinutes, k: int)
    requires Catalogue.ModulesBuilt(raw, mods, draw)
    requires 0 <= k < |Catalogue.FlattenLessons(mods)|
    ensures HeaderLessonNumber(Catalogue.FlattenLessons(mods)[k]) == k + 1
  {
    Catalogue.FormationIdsConsecutive(raw, mods, draw);
  }

  /** `ALL_MODULES.filter(m => m.courseId === courseId)`: the sidebar's modules. */
  function CourseModules(mods: seq<Module>, courseId: string): (r: seq<Module>)
    ensures forall m :: m in r <==> m in mods && m.courseId == courseId
    ensures |r| <= |mods|
  {
    if |mods| == 0 then []
    else (if mods[0].courseId == courseId then [mods[0]] else []) + CourseModules(mods[1..], courseId)
  }

  /** The filter keeps a list of modules that all belong to the course as it is. */
  lemma {:induction false} CourseModulesKeepsAll(mods: seq<Module>, courseId: string)
    requires forall i :: 0 <= i < |mods| ==> mods[i].courseId == courseId
    ensures CourseModules(mods, courseId) == mods
  {
    if |mods| > 0 {
      CourseModulesKeepsAll(mods[1..], courseId);
      assert [mods[0]] + mods[1..] == mods;
    }
  }

  /** The filter drops a list of modules none of which belongs to the course. */
  lemma {:induction false} CourseModulesKeepsNone(mods: seq<Module>, courseId: string)
    requires forall i :: 0 <= i < |mods| ==> mods[i].courseId != courseId
    ensures CourseModules(mods, courseId) == []
  {
    if |mods| > 0 {
      CourseModulesKeepsNone(mods[1..], courseId);
    }
  }

  /** In the catalogue, the paid course's sidebar lists the paid modules in
      order, and the free course's is its single module. */
  lemma CatalogueCourseModules(currentYear: string, raw: seq<Catalogue.RawModule>, formation: seq<Module>,
                               draw: int -> Catalogue.DrawnMinutes)
    requires Catalogue.ModulesBuilt(raw, formation, draw)
    ensures CourseModules(Catalogue.AllModules(currentYear, formation), Catalogue.FormationId) == formation
    ensures CourseModules(Catalogue.AllModules(currentYear, formation), Catalogue.MinicourseId)
            == [Catalogue.MinicourseModule(currentYear)]
  {
    var all := Catalogue.AllModules(currentYear, formation);
    assert all[1..] == formation;
    forall i | 0 <= i < |formation|
      ensures formation[i].courseId == Catalogue.FormationId
    {
      assert Catalogue.BuiltModule(raw[i], formation[i], Catalogue.FirstFormationId + Catalogue.RawLessonCount(raw[..i]), draw);
    }
    CourseModulesKeepsAll(formation, Catalogue.FormationId);
    CourseModulesKeepsNone(formation, Catalogue.MinicourseId);
  }

  // ---------------------------------------------------------------------
  // The page's state and its handlers

  class PlayerPage {
    const lessons: seq<Lesson>
    const lessonId: int
    const available: Lesson -> bool
    const formatDate: string -> string
    var activeTab: TabOption
    var showLockedModal: Option<string>
    var showLoginModal: bool
    var expandedModuleId: Option<int>

    /** The page for route parameter `lessonId`. */
    constructor (lessons: seq<Lesson>, lessonId: int, available: Lesson -> bool, formatDate: string -> string)
      ensures this.lessons == lessons && this.lessonId == lessonId
      ensures this.available == available && this.formatDate == formatDate
      ensures activeTab == CourseTab && showLockedModal == None && !showLoginModal && expandedModuleId == None
    {
      this.lessons := lessons;
      this.lessonId := lessonId;
      this.available := available;
      this.formatDate := formatDate;
      activeTab := CourseTab;
      showLockedModal := None;
      showLoginModal := false;
      expandedModuleId := None;
    }

    function CurrentLesson(): Option<Lesson>
    {
      FindLesson(lessons, lessonId, None)
    }

    /** The load effect: an unknown lesson sends the visitor home; otherwise its
        module is expanded unless some module already is. */
    method OnLoad() returns (redirectHome: bool)
      modifies this`expandedModuleId
      ensures redirectHome <==> CurrentLesson().None?
      ensures CurrentLesson().None? ==> expandedModuleId == old(expandedModuleId)
      ensures CurrentLesson().Some? ==>
        expandedModuleId == if old(expandedModuleId) == None then Some(CurrentLesson().value.moduleId) else old(expandedModuleId)
    {
      var current := FindLesson(lessons, lessonId, None);
      if current.None? {
        return true;
      }
      if expandedModuleId == None {
        expandedModuleId := Some(current.value.moduleId);
      }
      return false;
    }

    /** The modals and the navigation after decision `d` has been carried out. */
    twostate predicate ChangeApplied(d: LessonChange, new navigateTo: Option<int>)
      reads this
    {
      && (d.LockedNotice? ==> showLockedModal == Some(d.releaseText) && showLoginModal == old(showLoginModal))
      && (d.LoginPrompt? ==> showLoginModal && showLockedModal == old(showLockedModal))
      && (d.Ignored? || d.Navigate? ==> showLockedModal == old(showLockedModal) && showLoginModal == old(showLoginModal))
      && (navigateTo.Some? <==> d.Navigate?)
      && (d.Navigate? ==> navigateTo == Some(d.lessonId))
    }

    /** `handleLessonChange`: returns the lesson to navigate to, if any. */
    method HandleLessonChange(id: int) returns (navigateTo: Option<int>)
      modifies this`showLockedModal, this`showLoginModal
      ensures ChangeApplied(LessonChangeDecision(lessons, id, available, formatDate), navigateTo)
    {
      var targetLesson := FindLesson(lessons, id, None);
      if targetLesson.None? {
        return None;
      }
      var target := targetLesson.value;
      if target.courseId == Catalogue.MinicourseId && !available(target) {
        showLockedModal := Some(formatDate(ReleaseText(target)));
        return None;
      }
      if target.courseId == Catalogue.FormationId {
        showLoginModal := true;
        return None;
      }
      return Some(id);
    }

    /** The header's "next" button: disabled without a next lesson, otherwise a lesson change. */
    method GoToNextLesson() returns (navigateTo: Option<int>)
      modifies this`showLockedModal, this`showLoginModal
      ensures var cur := CurrentLesson();
        cur.None? || NextLesson(lessons, cur.value).None? ==> navigateTo == None && unchanged(this)
      ensures var cur := CurrentLesson();
        cur.Some? && NextLesson(lessons, cur.value).Some? ==>
          ChangeApplied(LessonChangeDecision(lessons, NextLesson(lessons, cur.value).value.id, available, formatDate), navigateTo)
    {
      var cur := FindLesson(lessons, lessonId, None);
      if cur.None? {
        return None;
      }
      var next := NextLesson(lessons, cur.value);
      if next.None? {
        return None;
      }
      navigateTo := HandleLessonChange(next.value.id);
    }

    /** The header's "previous" button: disabled without a previous lesson, otherwise a lesson change. */
    method GoToPrevLesson() returns (navigateTo: Option<int>)
      modifies this`showLockedModal, this`showLoginModal
      ensures var cur := CurrentLesson();
        cur.None? || PrevLesson(lessons, cur.value).None? ==> navigateTo == None && unchanged(this)
      ensures var cur := CurrentLesson();
        cur.Some? && PrevLesson(lessons, cur.value).Some? ==>
          ChangeApplied(LessonChangeDecision(lessons, PrevLesson(lessons, cur.value).value.id, available, formatDate), navigateTo)
    {
      var cur := FindLesson(lessons, lessonId, None);
      if cur.None? {
        return None;
      }
      var prev := PrevLesson(lessons, cur.value);
      if prev.None? {
        return None;
      }
      navigateTo := HandleLessonChange(prev.value.id);
    }

    /** The sidebar accordion: at most one module is open. */
    method ToggleModule(modId: int)
      modifies this`expandedModuleId
      ensures expandedModuleId == Toggle(old(expandedModuleId), modId)
    {
      expandedModuleId := if expandedModuleId == Some(modId) then None else Some(modId);
    }

    method SelectTab(tab: TabOption)
      modifies this`activeTab
      ensures activeTab == tab
    {
      activeTab := tab;
    }

    /** The locked notice's close button. */
    method CloseLockedModal()
      modifies this`showLockedModal
      ensures showLockedModal == None
    {
      showLockedModal := None;
    }
  }
}
