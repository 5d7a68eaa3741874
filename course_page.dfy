/** The hard-coded first lesson of the free course: completion marks that
    flip, a stored point total moved by 50 per flip, three fixed badges, the
    per-tab activity lists that drive "next activity", and the single open
    exercise. */
module CoursePage {
  import opened Common

  const PointsPerActivity: int := 50

  const Iniciante: string := "iniciante"
  const Explorador: string := "explorador"
  const Mestre: string := "mestre"

  /** The activities of each tab, in the order "next activity" visits them. */
  const ActivityMap: map<string, seq<string>> := map[
    "proposito" := ["curar", "ajudar", "remunerado"],
    "principios" := ["principios"],
    "pilares" := ["observacao", "escuta", "interpretacao"],
    "sinais" := ["sinais"],
    "exercicios" := ["exercicio1", "exercicio2"]
  ]

  function Max(a: int, b: int): int
  {
    if a >= b then a else b
  }

  /** The point total after a flip: +50 when marking, -50 clamped at 0 when unmarking. */
  function PointsAfterToggle(points: int, wasCompleted: bool): (r: int)
    ensures !wasCompleted ==> r == points + PointsPerActivity
    ensures wasCompleted && points >= PointsPerActivity ==> r == points - PointsPerActivity
    ensures wasCompleted && points < PointsPerActivity ==> r == 0
    ensures points >= 0 ==> r >= 0
  {
    if !wasCompleted then points + PointsPerActivity else Max(0, points - PointsPerActivity)
  }

  /** Appends `key` when `earned` and not yet present. */
  function AddBadge(badges: seq<string>, key: string, earned: bool): seq<string>
  {
    if earned && key !in badges then badges + [key] else badges
  }

  /** `checkBadges`: "iniciante" from 3 completions, "explorador" from 6,
      "mestre" at exactly 8; none removed, none repeated. */
  function CourseBadges(badges: seq<string>, count: int): (r: seq<string>)
    ensures |badges| <= |r| && r[..|badges|] == badges
    ensures Iniciante in r <==> Iniciante in badges || count >= 3
    ensures Explorador in r <==> Explorador in badges || count >= 6
    ensures Mestre in r <==> Mestre in badges || count == 8
    ensures forall k :: k in r ==> k in badges || k == Iniciante || k == Explorador || k == Mestre
    ensures NoDuplicates(badges) ==> NoDuplicates(r)
  {
    AddBadge(AddBadge(AddBadge(badges, Iniciante, count >= 3), Explorador, count >= 6), Mestre, count == 8)
  }

  /** The component's persisted state. */
  datatype CourseState = CourseState(completed: map<string, bool>, points: int, badges: seq<string>)

  /** Nothing stored yet. */
  const Fresh: CourseState := CourseState(map[], 0, [])

  /** `toggleSection`: flips the entry; marking adds points and re-evaluates
      badges on the new map, unmarking takes the points back. */
  function Toggled(s: CourseState, id: string): (r: CourseState)
    ensures r.completed == s.completed[id := !IsMarked(s.completed, id)]
    ensures r.points == PointsAfterToggle(s.points, IsMarked(s.completed, id))
    ensures IsMarked(s.completed, id) ==> r.badges == s.badges
    ensures !IsMarked(s.completed, id) ==> r.badges == CourseBadges(s.badges, CountTrue(r.completed))
  {
    var was := IsMarked(s.completed, id);
    var m := s.completed[id := !was];
    CourseState(m, PointsAfterToggle(s.points, was), if !was then CourseBadges(s.badges, CountTrue(m)) else s.badges)
  }

  /** The stored points agree with the completion map. */
  predicate PointsConsistent(s: CourseState)
  {
    s.points == PointsPerActivity * CountTrue(s.completed)
  }

  /** A flip keeps points equal to 50 per completed activity. */
  lemma ToggleKeepsPoints(s: CourseState, id: string)
    requires PointsConsistent(s)
    ensures PointsConsistent(Toggled(s, id))
  {
    if IsMarked(s.completed, id) {
      CountAfterUnmark(s.completed, id);
    } else {
      CountAfterMark(s.completed, id);
    }
  }

  function ApplyToggles(s: CourseState, ids: seq<string>): CourseState
    decreases |ids|
  {
    if |ids| == 0 then s else ApplyToggles(Toggled(s, ids[0]), ids[1..])
  }

  /** Any sequence of flips keeps points equal to 50 per completed activity. */
  lemma {:induction false} TogglesKeepPoints(s: CourseState, ids: seq<string>)
    requires PointsConsistent(s)
    ensures PointsConsistent(ApplyToggles(s, ids))
    decreases |ids|
  {
    if |ids| > 0 {
      ToggleKeepsPoints(s, ids[0]);
      TogglesKeepPoints(Toggled(s, ids[0]), ids[1..]);
    }
  }

  /** From an empty store, points are always 50 per completed activity. */
  lemma FreshStartKeepsPoints(ids: seq<string>)
    ensures PointsConsistent(ApplyToggles(Fresh, ids))
  {
    assert TrueKeys(Fresh.completed) == {};
    TogglesKeepPoints(Fresh, ids);
  }

  /** A completion button is disabled once its activity is complete. */
  predicate ButtonEnabled(completed: map<string, bool>, id: string)
  {
    !IsMarked(completed, id)
  }

  /** A click on a completion button: a disabled button ignores it. */
  function Click(s: CourseState, id: string): CourseState
  {
    if ButtonEnabled(s.completed, id) then Toggled(s, id) else s
  }

  /** A click through the buttons only ever marks: it sets the entry to true
      and adds exactly 50 points, or changes nothing. */
  lemma ClickOnlyMarks(s: CourseState, id: string)
    ensures var r := Click(s, id);
      if IsMarked(s.completed, id) then r == s
      else r.completed == s.completed[id := true] && r.points == s.points + PointsPerActivity
  {
  }

  function ApplyClicks(s: CourseState, ids: seq<string>): CourseState
    decreases |ids|
  {
    if |ids| == 0 then s else ApplyClicks(Click(s, ids[0]), ids[1..])
  }

  /** Through the buttons, a completed activity stays completed and earned
      badges stay, in order. */
  lemma {:induction false} ClicksMonotone(s: CourseState, ids: seq<string>)
    ensures var r := ApplyClicks(s, ids);
      && (forall k :: IsMarked(s.completed, k) ==> IsMarked(r.completed, k))
      && |s.badges| <= |r.badges| && r.badges[..|s.badges|] == s.badges
    decreases |ids|
  {
    if |ids| > 0 {
      var next := Click(s, ids[0]);
      ClicksMonotone(next, ids[1..]);
      var r := ApplyClicks(s, ids);
      assert r == ApplyClicks(next, ids[1..]);
      assert next.badges[..|s.badges|] == s.badges;
      assert r.badges[..|next.badges|][..|s.badges|] == r.badges[..|s.badges|];
    }
  }

  /** `handleGoToNext`: the activity after `currentId` in the tab's list. */
  function NextActivity(currentId: string, tabId: string): (r: Option<string>)
    ensures tabId !in ActivityMap ==> r == None
    ensures tabId in ActivityMap && currentId !in ActivityMap[tabId] ==> r == Some(ActivityMap[tabId][0])
    ensures tabId in ActivityMap ==>
      var acts := ActivityMap[tabId];
      forall i :: (0 <= i < |acts| && acts[i] == currentId
                   && forall j :: 0 <= j < i ==> acts[j] != currentId) ==>
        r == if i + 1 < |acts| then Some(acts[i + 1]) else None
  {
    if tabId !in ActivityMap then None
    else
      var acts := ActivityMap[tabId];
      var nextIndex := IndexOf(acts, currentId) + 1;
      if nextIndex < |acts| then Some(acts[nextIndex]) else None
  }

  /** The "next activity" button: shown on a completed activity that is not
      the last of its tab's list (an activity missing from the list counts as
      not last, since its index is -1). */
  function ShowNextButton(completed: map<string, bool>, id: string, activities: seq<string>): (r: bool)
    ensures r <==> (IsMarked(completed, id) && |activities| > 0
                    && (id !in activities || exists i :: 0 <= i < |activities| - 1 && activities[i] == id))
  {
    IsMarked(completed, id) && IndexOf(activities, id) < |activities| - 1
  }

  /** The last activity of a tab never offers "next", and "next" from it leads nowhere. */
  lemma LastActivityHasNoNext(completed: map<string, bool>, tabId: string)
    requires tabId in ActivityMap
    ensures var acts := ActivityMap[tabId];
      !ShowNextButton(completed, acts[|acts| - 1], acts) && NextActivity(acts[|acts| - 1], tabId) == None
  {
  }

  class CourseProgress {
    var completedSections: map<string, bool>
    var userPoints: int
    var badges: seq<string>
    var expandedExercise: Option<string>

    /** Starts from the stored map, point total and badge list. */
    constructor (savedCompleted: map<string, bool>, savedPoints: int, savedBadges: seq<string>)
      ensures completedSections == savedCompleted && userPoints == savedPoints && badges == savedBadges
      ensures expandedExercise == None
    {
      completedSections := savedCompleted;
      userPoints := savedPoints;
      badges := savedBadges;
      expandedExercise := None;
    }

    function State(): CourseState
      reads this
    {
      CourseState(completedSections, userPoints, badges)
    }

    /** `toggleSection` on the component's state. */
    method ToggleSection(sectionId: string)
      modifies this`completedSections, this`userPoints, this`badges
      ensures State() == Toggled(old(State()), sectionId)
      ensures PointsConsistent(old(State())) ==> PointsConsistent(State())
    {
      var prev := completedSections;
      var wasCompleted := sectionId in prev && prev[sectionId];
      var newState := prev[sectionId := !wasCompleted];
      if !wasCompleted {
        userPoints := userPoints + PointsPerActivity;
        CheckBadges(newState);
      } else {
        userPoints := Max(0, userPoints - PointsPerActivity);
      }
      completedSections := newState;
      if PointsConsistent(old(State())) {
        ToggleKeepsPoints(old(State()), sectionId);
      }
    }

    /** `checkBadges`: pushes the newly earned fixed badges onto a copy of the list. */
    method CheckBadges(sections: map<string, bool>)
      modifies this`badges
      ensures badges == CourseBadges(old(badges), CountTrue(sections))
    {
      var newBadges := badges;
      var completedCount := CountTrue(sections);
      if completedCount >= 3 && Iniciante !in newBadges {
        newBadges := newBadges + [Iniciante];
      }
      if completedCount >= 6 && Explorador !in newBadges {
        newBadges := newBadges + [Explorador];
      }
      if completedCount == 8 && Mestre !in newBadges {
        newBadges := newBadges + [Mestre];
      }
      badges := newBadges;
    }

    /** The "+"/"−" button of an exercise: at most one exercise is open. */
    method ToggleExercise(exerciseId: string)
      modifies this`expandedExercise
      ensures expandedExercise == Toggle(old(expandedExercise), exerciseId)
    {
      expandedExercise := if expandedExercise == Some(exerciseId) then None else Some(exerciseId);
    }
  }
}
