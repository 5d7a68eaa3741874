/** The course catalogue: the free course's single module, the paid course's
    modules built from raw module data (numbering lessons from 101 and
    filling in missing durations), the flat lesson list used for routing and
    the two course records with their counts. */
module Catalogue {
  import opened Common
  import opened Types

  const MinicourseId: string := "minicourse"
  const FormationId: string := "formation"
  /** The first id handed out by the lesson counter. */
  const FirstFormationId: int := 101

  /** A minute count `getRandomDuration` can draw: `floor(random * 11 + 50)`. */
  type DrawnMinutes = m: int | 50 <= m <= 60 witness 50

  /** One lesson and one module of the raw paid-course data. */
  datatype RawLesson = RawLesson(titulo: string, duracao: Option<string>)
  datatype RawModule = RawModule(id: int, titulo: string, aulas: seq<RawLesson>)

  // ---------------------------------------------------------------------
  // Durations

  function Digit(d: int): char
    requires 0 <= d <= 9
  {
    ('0' as int + d) as char
  }

  function DigitValue(c: char): int
  {
    c as int - '0' as int
  }

  /** The minutes part of a `MM:SS` duration. */
  function MinutesOf(duration: string): int
    requires |duration| >= 2
  {
    DigitValue(duration[0]) * 10 + DigitValue(duration[1])
  }

  /** `getRandomDuration()` after the random draw `minutes`: the text `MM:00`. */
  function RandomDuration(minutes: DrawnMinutes): (r: string)
    ensures |r| == 5 && r[2..] == ":00"
    ensures '0' <= r[0] <= '9' && '0' <= r[1] <= '9'
    ensures MinutesOf(r) == minutes
  {
    [Digit(minutes / 10), Digit(minutes % 10)] + ":00"
  }

  /** The duration a paid lesson ends up with: none for the first three
      lessons of module 1, the raw one when present and non-empty, and a
      drawn `MM:00` otherwise. */
  function FinalDuration(moduleId: int, index: int, raw: Option<string>, minutes: DrawnMinutes): (r: Option<string>)
    ensures moduleId == 1 && index < 3 ==> r == None
    ensures !(moduleId == 1 && index < 3) && raw.Some? && raw.value != "" ==> r == raw
    ensures !(moduleId == 1 && index < 3) && (raw.None? || raw.value == "") ==>
      r == Some(RandomDuration(minutes))
      && |r.value| == 5 && r.value[2..] == ":00" && '0' <= r.value[0] <= '9' && '0' <= r.value[1] <= '9'
      && MinutesOf(r.value) == minutes
  {
    if moduleId == 1 && index < 3 then None
    else if raw.None? || raw.value == "" then Some(RandomDuration(minutes))
    else raw
  }

  // ---------------------------------------------------------------------
  // Building the paid course's modules

  /** The lesson record made for lesson `index` of `mod`, given the id the counter hands out. */
  function FormationLesson(mod: RawModule, index: int, id: int, minutes: DrawnMinutes): Lesson
    requires 0 <= index < |mod.aulas|
  {
    Lesson(id, FormationId, mod.id, mod.aulas[index].titulo, None,
           FinalDuration(mod.id, index, mod.aulas[index].duracao, minutes), true)
  }

  /** Number of raw lessons in the given modules. */
  function RawLessonCount(raw: seq<RawModule>): nat
  {
    if |raw| == 0 then 0 else RawLessonCount(raw[..|raw| - 1]) + |raw[|raw| - 1].aulas|
  }

  /** `m` is the module built from `raw`, its lessons numbered from `firstId`,
      `draw(id)` being the minutes drawn for the lesson that gets `id`. */
  ghost predicate BuiltModule(raw: RawModule, m: Module, firstId: int, draw: int -> DrawnMinutes)
  {
    && m.id == raw.id && m.courseId == FormationId && m.title == raw.titulo
    && |m.lessons| == |raw.aulas|
    && forall j :: 0 <= j < |raw.aulas| ==> m.lessons[j] == FormationLesson(raw, j, firstId + j, draw(firstId + j))
  }

  /** `mods` is what the construction makes of `raw`. */
  ghost predicate ModulesBuilt(raw: seq<RawModule>, mods: seq<Module>, draw: int -> DrawnMinutes)
  {
    && |mods| == |raw|
    && forall i :: 0 <= i < |raw| ==> BuiltModule(raw[i], mods[i], FirstFormationId + RawLessonCount(raw[..i]), draw)
  }

  /** The inner `aulas.map`, taking ids from the counter starting at `firstId`. */
  method BuildLessons(mod: RawModule, firstId: int, draw: int -> DrawnMinutes) returns (lessons: seq<Lesson>, nextId: int)
    ensures |lessons| == |mod.aulas| && nextId == firstId + |mod.aulas|
    ensures forall j :: 0 <= j < |mod.aulas| ==> lessons[j] == FormationLesson(mod, j, firstId + j, draw(firstId + j))
  {
    lessons := [];
    var counter := firstId;
    var index := 0;
    while index < |mod.aulas|
      invariant 0 <= index <= |mod.aulas|
      invariant |lessons| == index && counter == firstId + index
      invariant forall j :: 0 <= j < index ==> lessons[j] == FormationLesson(mod, j, firstId + j, draw(firstId + j))
    {
      var aula := mod.aulas[index];
      var finalDuration := aula.duracao;
      if mod.id == 1 && index < 3 {
        finalDuration := None;
      } else if finalDuration.None? || finalDuration.value == "" {
        finalDuration := Some(RandomDuration(draw(counter)));
      }
      lessons := lessons + [Lesson(counter, FormationId, mod.id, aula.titulo, None, finalDuration, true)];
      counter := counter + 1;
      index := index + 1;
    }
    nextId := counter;
  }

  /** `FORMATION_MODULES`: the outer `map` over the raw modules, sharing one
      lesson counter that starts at 101. */
  method BuildFormationModules(raw: seq<RawModule>, draw: int -> DrawnMinutes) returns (modules: seq<Module>)
    ensures ModulesBuilt(raw, modules, draw)
  {
    modules := [];
    var lessonIdCounter := FirstFormationId;
    var i := 0;
    while i < |raw|
      invariant 0 <= i <= |raw|
      invariant |modules| == i
      invariant lessonIdCounter == FirstFormationId + RawLessonCount(raw[..i])
      invariant forall k :: 0 <= k < i ==>
        BuiltModule(raw[k], modules[k], FirstFormationId + RawLessonCount(raw[..k]), draw)
    {
      var lessons, next := BuildLessons(raw[i], lessonIdCounter, draw);
      var built := Module(raw[i].id, FormationId, raw[i].titulo, lessons);
      assert BuiltModule(raw[i], built, lessonIdCounter, draw);
      assert raw[..i + 1][..i] == raw[..i];
      assert RawLessonCount(raw[..i + 1]) == RawLessonCount(raw[..i]) + |raw[i].aulas|;
      ghost var was := modules;
      modules := modules + [built];
      assert forall k :: 0 <= k < i ==> modules[k] == was[k];
      lessonIdCounter := next;
      i := i + 1;
    }
  }

  // ---------------------------------------------------------------------
  // Flattening and counting

  /** `flatMap(m => m.lessons)` */
  function FlattenLessons(mods: seq<Module>): seq<Lesson>
  {
    if |mods| == 0 then [] else FlattenLessons(mods[..|mods| - 1]) + mods[|mods| - 1].lessons
  }

  /** `reduce((acc, m) => acc + m.lessons.length, 0)` */
  function SumLessonCounts(mods: seq<Module>): int
  {
    if |mods| == 0 then 0 else SumLessonCounts(mods[..|mods| - 1]) + |mods[|mods| - 1].lessons|
  }

  lemma {:induction false} FlattenLessonsAppend(a: seq<Module>, b: seq<Module>)
    ensures FlattenLessons(a + b) == FlattenLessons(a) + FlattenLessons(b)
    decreases |b|
  {
    if |b| == 0 {
      assert a + b == a;
    } else {
      var init := b[..|b| - 1];
      assert (a + b)[..|a + b| - 1] == a + init;
      assert (a + b)[|a + b| - 1] == b[|b| - 1];
      FlattenLessonsAppend(a, init);
    }
  }

  /** The summed lesson count is the length of the flattened list. */
  lemma {:induction false} SumIsFlattenedLength(mods: seq<Module>)
    ensures SumLessonCounts(mods) == |FlattenLessons(mods)|
  {
    if |mods| > 0 {
      SumIsFlattenedLength(mods[..|mods| - 1]);
    }
  }

  /** Building keeps the number of lessons: one lesson per raw lesson. */
  lemma {:induction false} BuiltLessonCount(raw: seq<RawModule>, mods: seq<Module>, draw: int -> DrawnMinutes, n: nat)
    requires ModulesBuilt(raw, mods, draw) && n <= |raw|
    ensures |FlattenLessons(mods[..n])| == RawLessonCount(raw[..n])
    ensures forall k :: 0 <= k < |FlattenLessons(mods[..n])| ==> FlattenLessons(mods[..n])[k].id == FirstFormationId + k
  {
    if n > 0 {
      BuiltLessonCount(raw, mods, draw, n - 1);
      assert mods[..n][..n - 1] == mods[..n - 1];
      assert raw[..n][..n - 1] == raw[..n - 1];
      var before := FlattenLessons(mods[..n - 1]);
      var offset := RawLessonCount(raw[..n - 1]);
      assert FlattenLessons(mods[..n]) == before + mods[n - 1].lessons;
      assert BuiltModule(raw[n - 1], mods[n - 1], FirstFormationId + offset, draw);
      forall k | 0 <= k < |FlattenLessons(mods[..n])|
        ensures FlattenLessons(mods[..n])[k].id == FirstFormationId + k
      {
        if k >= |before| {
          var j := k - |before|;
          assert FlattenLessons(mods[..n])[k] == mods[n - 1].lessons[j];
        }
      }
    }
  }

  /** Paid lessons are numbered 101, 102, ... in module order and then lesson order. */
  lemma FormationIdsConsecutive(raw: seq<RawModule>, mods: seq<Module>, draw: int -> DrawnMinutes)
    requires ModulesBuilt(raw, mods, draw)
    ensures |FlattenLessons(mods)| == RawLessonCount(raw)
    ensures forall k :: 0 <= k < |FlattenLessons(mods)| ==> FlattenLessons(mods)[k].id == FirstFormationId + k
  {
    BuiltLessonCount(raw, mods, draw, |raw|);
    assert mods[..|raw|] == mods;
    assert raw[..|raw|] == raw;
  }

  /** Every paid lesson belongs to the paid course, is locked and has no release date;
      its module id and title come from the raw data. */
  lemma FormationLessonsShape(raw: seq<RawModule>, mods: seq<Module>, draw: int -> DrawnMinutes)
    requires ModulesBuilt(raw, mods, draw)
    ensures forall i, j :: 0 <= i < |mods| && 0 <= j < |mods[i].lessons| ==>
      var l := mods[i].lessons[j];
      && l.courseId == FormationId && l.isLocked && l.releaseDate == None
      && l.moduleId == mods[i].id == raw[i].id && l.title == raw[i].aulas[j].titulo
  {
  }

  // ---------------------------------------------------------------------
  // The catalogue

  /** The free course's module; release dates depend on the current year. */
  function MinicourseModule(currentYear: string): Module
  {
    Module(1, MinicourseId, "Minicurso Gratuito", [
      Lesson(1, MinicourseId, 1, "Aula 1 - Introdução", Some("2023-01-01T00:00:00"), Some("60:00"), false),
      Lesson(2, MinicourseId, 1, "Quais doenças nascem das emoções?", Some(currentYear + "-12-03T20:00:00"), Some("60:00"), true),
      Lesson(3, MinicourseId, 1, "Análise corporal ao vivo", Some(currentYear + "-12-05T20:00:00"), Some("60:00"), true),
      Lesson(4, MinicourseId, 1, "Como viver de leitura corporal?", Some(currentYear + "-12-07T20:00:00"), Some("60:00"), true)
    ])
  }

  /** `ALL_MODULES` */
  function AllModules(currentYear: string, formation: seq<Module>): seq<Module>
  {
    [MinicourseModule(currentYear)] + formation
  }

  /** `LESSONS`: the free course's lessons, then the paid course's in module order. */
  function Lessons(currentYear: string, formation: seq<Module>): (r: seq<Lesson>)
    ensures r == MinicourseModule(currentYear).lessons + FlattenLessons(formation)
  {
    FlattenLessonsAppend([MinicourseModule(currentYear)], formation);
    assert FlattenLessons([MinicourseModule(currentYear)]) == MinicourseModule(currentYear).lessons by {
      assert [MinicourseModule(currentYear)][..0] == [];
    }
    FlattenLessons(AllModules(currentYear, formation))
  }

  /** `COURSES` */
  function Courses(formation: seq<Module>): seq<Course>
  {
    [ Course(MinicourseId, "Minicurso Terapeuta Analista Corporal", None, true,
             "Introdução completa aos fundamentos da análise corporal.", 1, 4, Released),
      Course(FormationId, "Formação Terapeuta Analista Corporal", Some("R$ 1997"), false,
             "A formação definitiva para quem deseja viver de terapia.",
             |formation|, SumLessonCounts(formation), Blocked) ]
  }

  /** The free course's stated counts match its module; the paid course's
      counts are its number of modules and the number of lessons built. */
  lemma CourseCounts(currentYear: string, raw: seq<RawModule>, formation: seq<Module>, draw: int -> DrawnMinutes)
    requires ModulesBuilt(raw, formation, draw)
    ensures Courses(formation)[0].moduleCount == 1
    ensures Courses(formation)[0].lessonCount == |MinicourseModule(currentYear).lessons|
    ensures Courses(formation)[1].moduleCount == |raw|
    ensures Courses(formation)[1].lessonCount == |FlattenLessons(formation)| == RawLessonCount(raw)
  {
    SumIsFlattenedLength(formation);
    FormationIdsConsecutive(raw, formation, draw);
  }
}
