/** The progress and gamification state machine of a lesson page rendered
    from a lesson document: completion marks, points, badges, the active tab,
    the open exercise, quiz answers and the quiz result, together with the
    "go to next activity" sequencer over the document's completable items. */
module DynamicLesson {
  import opened Common
  import opened Types

  /** Multimedia items are filed under this pseudo-tab in the flattened order. */
  const IntroTab: string := "intro"
  /** The element id of the rendered exercise section. */
  const ExercisesSectionId: string := "exercises-section"

  // ---------------------------------------------------------------------
  // Looking up sections: `data.sections.find(s => s.type === kind)`

  /** Index of the first section of the given kind, or -1. */
  function FirstSectionIndex(sections: seq<Section>, kind: SectionKind): (r: int)
    ensures -1 <= r < |sections|
    ensures r == -1 <==> forall j :: 0 <= j < |sections| ==> sections[j].kind != kind
    ensures 0 <= r ==> sections[r].kind == kind && forall j :: 0 <= j < r ==> sections[j].kind != kind
  {
    FindIndex(sections, (s: Section) => s.kind == kind)
  }

  function FindSection(sections: seq<Section>, kind: SectionKind): (r: Option<Section>)
    ensures r.Some? ==> r.value.kind == kind && r.value in sections
  {
    var i := FirstSectionIndex(sections, kind);
    if i == -1 then None else Some(sections[i])
  }

  // ---------------------------------------------------------------------
  // The flattened order of completable items

  datatype NavEntry = NavEntry(id: string, tabId: string)

  /** Multimedia items, each under the pseudo-tab `intro`. */
  function MediaEntries(items: seq<MultimediaItem>): (r: seq<NavEntry>)
  {
    if |items| == 0 then []
    else MediaEntries(items[..|items| - 1]) + [NavEntry(items[|items| - 1].id, IntroTab)]
  }

  /** The cards of one tab, each under that tab's id. */
  function CardEntries(cards: seq<CardContent>, tabId: string): (r: seq<NavEntry>)
  {
    if |cards| == 0 then []
    else CardEntries(cards[..|cards| - 1], tabId) + [NavEntry(cards[|cards| - 1].id, tabId)]
  }

  /** Every card of every tab, tab by tab in declaration order. */
  function TabEntries(tabs: seq<TabData>): (r: seq<NavEntry>)
  {
    if |tabs| == 0 then []
    else TabEntries(tabs[..|tabs| - 1]) + CardEntries(tabs[|tabs| - 1].content, tabs[|tabs| - 1].id)
  }

  /** The items of the first multimedia section, if it has multimedia items. */
  function MultimediaPart(sections: seq<Section>): seq<NavEntry>
  {
    match FindSection(sections, Multimedia)
    case Some(s) =>
      (match s.items
       case Some(MediaItems(media)) => MediaEntries(media)
       case _ => [])
    case None => []
  }

  /** The cards of the first tabs section. */
  function TabsPart(sections: seq<Section>): seq<NavEntry>
  {
    match FindSection(sections, Tabs)
    case Some(s) =>
      (match s.tabs
       case Some(tabs) => TabEntries(tabs)
       case None => [])
    case None => []
  }

  /** The order "next activity" follows: first multimedia section's items,
      then every card of every tab of the first tabs section. */
  function Flatten(sections: seq<Section>): seq<NavEntry>
  {
    MultimediaPart(sections) + TabsPart(sections)
  }

  /** The entry is a multimedia item of the first multimedia section, filed under `intro`. */
  ghost predicate ListedAsMedia(sections: seq<Section>, e: NavEntry)
  {
    var s := FindSection(sections, Multimedia);
    && s.Some? && s.value.items.Some? && s.value.items.value.MediaItems?
    && e.tabId == IntroTab
    && exists m :: m in s.value.items.value.media && m.id == e.id
  }

  /** The entry is a card of a tab of the first tabs section, filed under that tab. */
  ghost predicate ListedInTab(sections: seq<Section>, e: NavEntry)
  {
    var s := FindSection(sections, Tabs);
    && s.Some? && s.value.tabs.Some?
    && InSomeTab(s.value.tabs.value, e)
  }

  ghost predicate InSomeTab(tabs: seq<TabData>, e: NavEntry)
  {
    exists t :: t in tabs && t.id == e.tabId && exists c :: c in t.content && c.id == e.id
  }

  lemma {:induction false} MediaEntriesMembers(items: seq<MultimediaItem>, e: NavEntry)
    ensures e in MediaEntries(items) <==> e.tabId == IntroTab && exists m :: m in items && m.id == e.id
  {
    if |items| > 0 {
      var init := items[..|items| - 1];
      MediaEntriesMembers(init, e);
      assert items == init + [items[|items| - 1]];
      if e in MediaEntries(items) && e !in MediaEntries(init) {
        assert items[|items| - 1] in items;
      }
      if e.tabId == IntroTab && exists m :: m in items && m.id == e.id {
        var m :| m in items && m.id == e.id;
        if m !in init {
          assert m == items[|items| - 1];
        }
      }
    }
  }

  /** One entry per multimedia item, at the item's position, under the intro tab. */
  lemma {:induction false} MediaEntriesPositions(items: seq<MultimediaItem>)
    ensures |MediaEntries(items)| == |items|
    ensures forall k :: 0 <= k < |items| ==> MediaEntries(items)[k] == NavEntry(items[k].id, IntroTab)
  {
    if |items| > 0 {
      var init := items[..|items| - 1];
      MediaEntriesPositions(init);
      assert forall k :: 0 <= k < |init| ==> init[k] == items[k];
    }
  }

  /** One entry per card, at the card's position, under the tab's id. */
  lemma {:induction false} CardEntriesPositions(cards: seq<CardContent>, tabId: string)
    ensures |CardEntries(cards, tabId)| == |cards|
    ensures forall k :: 0 <= k < |cards| ==> CardEntries(cards, tabId)[k] == NavEntry(cards[k].id, tabId)
  {
    if |cards| > 0 {
      var init := cards[..|cards| - 1];
      CardEntriesPositions(init, tabId);
      assert forall k :: 0 <= k < |init| ==> init[k] == cards[k];
    }
  }

  lemma {:induction false} CardEntriesMembers(cards: seq<CardContent>, tabId: string, e: NavEntry)
    ensures e in CardEntries(cards, tabId) <==> e.tabId == tabId && exists c :: c in cards && c.id == e.id
  {
    if |cards| > 0 {
      var init := cards[..|cards| - 1];
      CardEntriesMembers(init, tabId, e);
      assert cards == init + [cards[|cards| - 1]];
      if e in CardEntries(cards, tabId) && e !in CardEntries(init, tabId) {
        assert cards[|cards| - 1] in cards;
      }
      if e.tabId == tabId && exists c :: c in cards && c.id == e.id {
        var c :| c in cards && c.id == e.id;
        if c !in init {
          assert c == cards[|cards| - 1];
        }
      }
    }
  }

  lemma {:induction false} TabEntriesMembers(tabs: seq<TabData>, e: NavEntry)
    ensures e in TabEntries(tabs) <==> InSomeTab(tabs, e)
  {
    if |tabs| > 0 {
      var init, last := tabs[..|tabs| - 1], tabs[|tabs| - 1];
      TabEntriesMembers(init, e);
      CardEntriesMembers(last.content, last.id, e);
      assert tabs == init + [last];
      if e in TabEntries(tabs) && e !in TabEntries(init) {
        assert last in tabs;
      }
      if InSomeTab(tabs, e) {
        var t :| t in tabs && t.id == e.tabId && exists c :: c in t.content && c.id == e.id;
        if t !in init {
          assert t == last;
        }
      }
    }
  }

  /** Exactly the multimedia items of the first multimedia section (under
      `intro`) and the cards of the first tabs section (under their tab) are
      in the flattened order. */
  lemma FlattenMembers(sections: seq<Section>, e: NavEntry)
    ensures e in Flatten(sections) <==> ListedAsMedia(sections, e) || ListedInTab(sections, e)
  {
    var m := FindSection(sections, Multimedia);
    if m.Some? && m.value.items.Some? && m.value.items.value.MediaItems? {
      MediaEntriesMembers(m.value.items.value.media, e);
    }
    var t := FindSection(sections, Tabs);
    if t.Some? && t.value.tabs.Some? {
      TabEntriesMembers(t.value.tabs.value, e);
    }
  }

  /** The multimedia `forEach`: one entry per item, under `intro`. */
  method PushMedia(items: seq<MultimediaItem>) returns (entries: seq<NavEntry>)
    ensures entries == MediaEntries(items)
  {
    entries := [];
    var i := 0;
    while i < |items|
      invariant 0 <= i <= |items|
      invariant entries == MediaEntries(items[..i])
    {
      assert items[..i + 1][..i] == items[..i];
      entries := entries + [NavEntry(items[i].id, IntroTab)];
      i := i + 1;
    }
    assert items[..|items|] == items;
  }

  /** The inner `forEach` over one tab's cards, pushing onto `entries`. */
  method PushCards(entries: seq<NavEntry>, cards: seq<CardContent>, tabId: string) returns (result: seq<NavEntry>)
    ensures result == entries + CardEntries(cards, tabId)
  {
    result := entries;
    var c := 0;
    while c < |cards|
      invariant 0 <= c <= |cards|
      invariant result == entries + CardEntries(cards[..c], tabId)
    {
      assert cards[..c + 1][..c] == cards[..c];
      result := result + [NavEntry(cards[c].id, tabId)];
      c := c + 1;
    }
    assert cards[..|cards|] == cards;
  }

  /** The outer `forEach` over the tabs. */
  method PushTabs(entries: seq<NavEntry>, tabs: seq<TabData>) returns (result: seq<NavEntry>)
    ensures result == entries + TabEntries(tabs)
  {
    result := entries;
    var t := 0;
    while t < |tabs|
      invariant 0 <= t <= |tabs|
      invariant result == entries + TabEntries(tabs[..t])
    {
      assert tabs[..t + 1][..t] == tabs[..t];
      result := PushCards(result, tabs[t].content, tabs[t].id);
      t := t + 1;
    }
    assert tabs[..|tabs|] == tabs;
  }

  /** `handleGoToNext`'s construction of `allItems`. */
  method BuildOrder(sections: seq<Section>) returns (allItems: seq<NavEntry>)
    ensures allItems == Flatten(sections)
  {
    allItems := [];
    var multimedia := FindSection(sections, Multimedia);
    if multimedia.Some? && multimedia.value.items.Some? && multimedia.value.items.value.MediaItems? {
      allItems := PushMedia(multimedia.value.items.value.media);
    }
    var tabsSection := FindSection(sections, Tabs);
    if tabsSection.Some? && tabsSection.value.tabs.Some? {
      allItems := PushTabs(allItems, tabsSection.value.tabs.value);
    }
  }

  // ---------------------------------------------------------------------
  // Resolving the next jump target

  /** `allItems.findIndex(i => i.id === currentId)` */
  function IndexOfId(order: seq<NavEntry>, id: string): (r: int)
    ensures -1 <= r < |order|
    ensures r == -1 <==> forall j :: 0 <= j < |order| ==> order[j].id != id
    ensures 0 <= r ==> order[r].id == id && forall j :: 0 <= j < r ==> order[j].id != id
  {
    FindIndex(order, (e: NavEntry) => e.id == id)
  }

  /** The first exercise section holds an exercise record (an object with an `id`). */
  predicate HasExerciseTarget(sections: seq<Section>)
  {
    var s := FindSection(sections, Exercise);
    s.Some? && s.value.content.Some? && s.value.content.value.ExerciseRecord?
  }

  /** A scroll target, with the tab to switch to if any. */
  datatype Jump = Jump(target: string, tab: Option<string>)

  /** Where "go to next activity" leads from `currentId`. */
  function NextTarget(sections: seq<Section>, currentId: string): (r: Option<Jump>)
    // found at index i and not last: the entry after it, with its tab
    ensures var order := Flatten(sections);
      forall i :: (0 <= i < |order| - 1 && order[i].id == currentId
                   && forall j :: 0 <= j < i ==> order[j].id != currentId) ==>
        r == Some(Jump(order[i + 1].id, Some(order[i + 1].tabId)))
    // unknown or last: the exercise section (no tab) when it holds a record, else nothing
    ensures var order := Flatten(sections);
      (forall i :: 0 <= i < |order| - 1 ==> order[i].id != currentId) ==>
        r == (if HasExerciseTarget(sections) then Some(Jump(ExercisesSectionId, None)) else None)
  {
    var order := Flatten(sections);
    var i := IndexOfId(order, currentId);
    if i != -1 && i < |order| - 1 then Some(Jump(order[i + 1].id, Some(order[i + 1].tabId)))
    else if HasExerciseTarget(sections) then Some(Jump(ExercisesSectionId, None))
    else None
  }

  /** `tabId && tabId !== activeTab` (an empty tab id is falsy). */
  predicate SwitchesTab(activeTab: string, tab: Option<string>)
  {
    tab.Some? && tab.value != "" && tab.value != activeTab
  }

  /** A pending scroll-and-highlight of `target`; `deferred` when it must wait for a tab switch. */
  datatype Focus = Focus(target: string, deferred: bool)

  /** A jump that names a tab leads to an entry of the flattened order filed
      under that tab; a jump without a tab is the fall-back to the exercise
      section, which therefore never switches tab. */
  lemma NextTargetTab(sections: seq<Section>, currentId: string, activeTab: string)
    ensures var r := NextTarget(sections, currentId);
      r.Some? && r.value.tab.Some? ==> NavEntry(r.value.target, r.value.tab.value) in Flatten(sections)
    ensures var r := NextTarget(sections, currentId);
      r.Some? && r.value.tab.None? ==>
        r.value.target == ExercisesSectionId && !SwitchesTab(activeTab, r.value.tab)
  {
  }

  // ---------------------------------------------------------------------
  // Badges: the effect that appends every newly reached badge

  /** Appends `key` when its threshold is reached and it is not yet present. */
  function AwardOne(badges: seq<string>, key: string, threshold: int, count: int): seq<string>
  {
    if count >= threshold && key !in badges then badges + [key] else badges
  }

  /** The badge list after visiting the badge configuration entries in order. */
  function AwardBadges(current: seq<string>, config: seq<(string, BadgeConfig)>, count: int): (r: seq<string>)
    ensures |current| <= |r| && r[..|current|] == current
  {
    if |config| == 0 then current
    else
      var last := config[|config| - 1];
      AwardOne(AwardBadges(current, config[..|config| - 1], count), last.0, last.1.threshold, count)
  }

  /** Every badge whose threshold is reached is present afterwards. */
  lemma {:induction false} AwardBadgesEarnsAll(current: seq<string>, config: seq<(string, BadgeConfig)>, count: int)
    ensures forall e :: e in config && e.1.threshold <= count ==> e.0 in AwardBadges(current, config, count)
  {
    if |config| > 0 {
      var init, last := config[..|config| - 1], config[|config| - 1];
      AwardBadgesEarnsAll(current, init, count);
      assert config == init + [last];
      var prev := AwardBadges(current, init, count);
      forall e | e in config && e.1.threshold <= count
        ensures e.0 in AwardBadges(current, config, count)
      {
        if e in init {
          assert e.0 in prev;
        } else {
          assert e == last;
        }
      }
    }
  }

  /** Nothing is added except keys of the configuration whose threshold is reached. */
  lemma {:induction false} AwardBadgesOnlyEarned(current: seq<string>, config: seq<(string, BadgeConfig)>, count: int)
    ensures forall k :: k in AwardBadges(current, config, count) ==>
      k in current || exists e :: e in config && e.0 == k && e.1.threshold <= count
  {
    if |config| > 0 {
      var init, last := config[..|config| - 1], config[|config| - 1];
      AwardBadgesOnlyEarned(current, init, count);
      assert config == init + [last];
      forall k | k in AwardBadges(current, config, count)
        ensures k in current || exists e :: e in config && e.0 == k && e.1.threshold <= count
      {
        if k !in AwardBadges(current, init, count) {
          assert last in config && last.0 == k;
        } else if k !in current {
          var e :| e in init && e.0 == k && e.1.threshold <= count;
          assert e in config;
        }
      }
    }
  }

  /** No badge is listed twice, given that none was before. */
  lemma {:induction false} AwardBadgesNoDuplicates(current: seq<string>, config: seq<(string, BadgeConfig)>, count: int)
    requires NoDuplicates(current)
    ensures NoDuplicates(AwardBadges(current, config, count))
  {
    if |config| > 0 {
      AwardBadgesNoDuplicates(current, config[..|config| - 1], count);
    }
  }

  /** The badge effect's loop over `Object.entries(badgeConfig)`, pushing into a copy. */
  method CollectBadges(current: seq<string>, config: seq<(string, BadgeConfig)>, count: int)
    returns (newBadges: seq<string>, hasChanges: bool)
    ensures newBadges == AwardBadges(current, config, count)
    ensures hasChanges <==> newBadges != current
  {
    newBadges := current;
    hasChanges := false;
    var i := 0;
    while i < |config|
      invariant 0 <= i <= |config|
      invariant newBadges == AwardBadges(current, config[..i], count)
      invariant hasChanges <==> |newBadges| > |current|
    {
      assert config[..i + 1][..i] == config[..i];
      var (key, badge) := config[i];
      if count >= badge.threshold && key !in newBadges {
        newBadges := newBadges + [key];
        hasChanges := true;
      }
      i := i + 1;
    }
    assert config[..|config|] == config;
  }

  // ---------------------------------------------------------------------
  // Quiz scoring

  /** The selected option of `q` equals its correct answer (a missing answer never does). */
  predicate AnsweredCorrectly(q: QuizQuestion, answers: map<int, string>)
  {
    q.id in answers && answers[q.id] == q.correctAnswer
  }

  /** Number of questions answered correctly. */
  function Score(questions: seq<QuizQuestion>, answers: map<int, string>): (r: nat)
    ensures r <= |questions|
  {
    if |questions| == 0 then 0
    else Score(questions[..|questions| - 1], answers)
         + (if AnsweredCorrectly(questions[|questions| - 1], answers) then 1 else 0)
  }

  /** Full marks exactly when every question is answered correctly. */
  lemma {:induction false} ScorePerfect(questions: seq<QuizQuestion>, answers: map<int, string>)
    ensures Score(questions, answers) == |questions|
      <==> forall i :: 0 <= i < |questions| ==> AnsweredCorrectly(questions[i], answers)
  {
    if |questions| > 0 {
      var init := questions[..|questions| - 1];
      ScorePerfect(init, answers);
      if forall i :: 0 <= i < |questions| ==> AnsweredCorrectly(questions[i], answers) {
        assert forall i :: 0 <= i < |init| ==> init[i] == questions[i];
      }
      if Score(questions, answers) == |questions| {
        assert Score(init, answers) == |init|;
        forall i | 0 <= i < |questions| ensures AnsweredCorrectly(questions[i], answers) {
          if i < |init| { assert init[i] == questions[i]; }
        }
      }
    }
  }

  /** The score counts only the given answers: answering a question not in the quiz changes nothing. */
  lemma {:induction false} ScoreIgnoresOtherAnswers(questions: seq<QuizQuestion>, answers: map<int, string>, qid: int, option: string)
    requires forall i :: 0 <= i < |questions| ==> questions[i].id != qid
    ensures Score(questions, answers[qid := option]) == Score(questions, answers)
  {
    if |questions| > 0 {
      ScoreIgnoresOtherAnswers(questions[..|questions| - 1], answers, qid, option);
    }
  }

  /** `handleQuizSubmit`'s loop that increments `score`. */
  method ScoreQuiz(questions: seq<QuizQuestion>, answers: map<int, string>) returns (score: nat)
    ensures score == Score(questions, answers)
    ensures score <= |questions|
  {
    score := 0;
    var i := 0;
    while i < |questions|
      invariant 0 <= i <= |questions|
      invariant score == Score(questions[..i], answers)
    {
      assert questions[..i + 1][..i] == questions[..i];
      var q := questions[i];
      if q.id in answers && answers[q.id] == q.correctAnswer {
        score := score + 1;
      }
      i := i + 1;
    }
    assert questions[..|questions|] == questions;
  }

  /** The result message `Você acertou {correct} de {total} questões!`. */
  datatype QuizScore = QuizScore(correct: nat, total: nat)

  // ---------------------------------------------------------------------
  // The component's state and its handlers

  class LessonProgress {
    const data: LessonContent
    var completedSections: map<string, bool>
    var badges: seq<string>
    var activeTab: string
    var expandedExercise: Option<string>
    var quizAnswers: map<int, string>
    var quizResult: Option<QuizScore>

    /** Starts from the stored completion map and badge list (empty when nothing was stored). */
    constructor (data: LessonContent, savedCompleted: map<string, bool>, savedBadges: seq<string>)
      ensures this.data == data
      ensures completedSections == savedCompleted && badges == savedBadges
      ensures activeTab == "" && expandedExercise == None
      ensures quizAnswers == map[] && quizResult == None
    {
      this.data := data;
      completedSections := savedCompleted;
      badges := savedBadges;
      activeTab := "";
      expandedExercise := None;
      quizAnswers := map[];
      quizResult := None;
    }

    function CompletedCount(): nat
      reads this
    {
      CountTrue(completedSections)
    }

    function PointsPerSection(): int
    {
      data.metadata.gamification.pointsPerSection
    }

    /** `completedCount * pointsPerSection`, derived rather than stored. */
    function UserPoints(): int
      reads this
    {
      CompletedCount() * PointsPerSection()
    }

    /** The effect that selects the first tab of the first tabs section while no tab is active. */
    method InitActiveTab()
      modifies this`activeTab
      ensures var s := FindSection(data.sections, Tabs);
        activeTab ==
          if old(activeTab) == "" && s.Some? && s.value.tabs.Some? && |s.value.tabs.value| > 0
          then s.value.tabs.value[0].id
          else old(activeTab)
    {
      var tabsSection := FindSection(data.sections, Tabs);
      if tabsSection.Some? && tabsSection.value.tabs.Some? && |tabsSection.value.tabs.value| > 0 && activeTab == "" {
        activeTab := tabsSection.value.tabs.value[0].id;
      }
    }

    /** Marks an item complete; an item already complete stays as it is. */
    method ToggleSection(sectionId: string)
      modifies this`completedSections
      ensures IsMarked(old(completedSections), sectionId) ==> completedSections == old(completedSections)
      ensures !IsMarked(old(completedSections), sectionId) ==>
        completedSections == old(completedSections)[sectionId := true]
      ensures IsMarked(completedSections, sectionId)
      ensures forall k :: k != sectionId ==>
        (k in completedSections <==> k in old(completedSections))
        && (k in completedSections ==> completedSections[k] == old(completedSections)[k])
      ensures CompletedCount() == old(CompletedCount()) + (if IsMarked(old(completedSections), sectionId) then 0 else 1)
      ensures UserPoints() == old(UserPoints()) + (if IsMarked(old(completedSections), sectionId) then 0 else PointsPerSection())
    {
      if sectionId in completedSections && completedSections[sectionId] {
        return;
      }
      CountAfterMark(completedSections, sectionId);
      completedSections := completedSections[sectionId := true];
    }

    /** The badge effect: appends each configured badge whose threshold the count reaches. */
    method EvaluateBadges()
      modifies this`badges
      ensures badges == AwardBadges(old(badges), data.metadata.gamification.badges, CompletedCount())
    {
      var newBadges, hasChanges := CollectBadges(badges, data.metadata.gamification.badges, CompletedCount());
      if hasChanges {
        badges := newBadges;
      }
    }

    /** `scrollToSection`: switches tab when a different, non-empty tab is named,
        and returns the element to bring into view (after the switch, if any). */
    method ScrollToSection(sectionId: string, tabId: Option<string>) returns (focus: Focus)
      modifies this`activeTab
      ensures SwitchesTab(old(activeTab), tabId) ==> activeTab == tabId.value
      ensures !SwitchesTab(old(activeTab), tabId) ==> activeTab == old(activeTab)
      ensures focus == Focus(sectionId, SwitchesTab(old(activeTab), tabId))
    {
      if tabId.Some? && tabId.value != "" && tabId.value != activeTab {
        activeTab := tabId.value;
        focus := Focus(sectionId, true);
      } else {
        focus := Focus(sectionId, false);
      }
    }

    /** `handleGoToNext`: follows the flattened order, falling back to the exercise section. */
    method GoToNext(currentId: string) returns (focus: Option<Focus>)
      modifies this`activeTab
      ensures var next := NextTarget(data.sections, currentId);
        && (next.None? ==> focus == None && activeTab == old(activeTab))
        && (next.Some? ==>
              focus == Some(Focus(next.value.target, SwitchesTab(old(activeTab), next.value.tab)))
              && activeTab == if SwitchesTab(old(activeTab), next.value.tab) then next.value.tab.value else old(activeTab))
    {
      var allItems := BuildOrder(data.sections);
      var currentIndex := IndexOfId(allItems, currentId);
      if currentIndex != -1 && currentIndex < |allItems| - 1 {
        var nextItem := allItems[currentIndex + 1];
        var f := ScrollToSection(nextItem.id, Some(nextItem.tabId));
        focus := Some(f);
      } else if HasExerciseTarget(data.sections) {
        var f := ScrollToSection(ExercisesSectionId, None);
        focus := Some(f);
      } else {
        focus := None;
      }
    }

    /** The tab strip's `onValueChange`. */
    method SelectTab(tabId: string)
      modifies this`activeTab
      ensures activeTab == tabId
    {
      activeTab := tabId;
    }

    /** `handleQuizSubmit`: scores the current answers afresh; without a quiz nothing changes. */
    method SubmitQuiz()
      modifies this`quizResult
      ensures var q := FindSection(data.sections, Quiz);
        && (q.None? || q.value.questions.None? ==> quizResult == old(quizResult))
        && (q.Some? && q.value.questions.Some? ==>
              quizResult == Some(QuizScore(Score(q.value.questions.value, quizAnswers), |q.value.questions.value|)))
    {
      var quizSection := FindSection(data.sections, Quiz);
      if quizSection.None? || quizSection.value.questions.None? {
        return;
      }
      var questions := quizSection.value.questions.value;
      var score := ScoreQuiz(questions, quizAnswers);
      quizResult := Some(QuizScore(score, |questions|));
    }

    /** Clicking an option records it as that question's answer and touches no other answer. */
    method SelectAnswer(questionId: int, option: string)
      modifies this`quizAnswers
      ensures quizAnswers == old(quizAnswers)[questionId := option]
    {
      quizAnswers := quizAnswers[questionId := option];
    }

    /** Clicking the exercise header opens it, or closes it when it is the open one. */
    method ToggleExercise(exerciseId: string)
      modifies this`expandedExercise
      ensures expandedExercise == Toggle(old(expandedExercise), exerciseId)
    {
      expandedExercise := if expandedExercise == Some(exerciseId) then None else Some(exerciseId);
    }
  }
}
