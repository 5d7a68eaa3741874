# Lesson player of the "Terapeuta Analista Corporal" course site

This project models the core of a course web site. Its parts:

- **Catalogue.** A free four-lesson minicourse and a paid formation course. The paid lessons are built from raw module data. Their ids count up from 101. Missing durations are filled with a random 50–60 minute value.
- **Lesson player page.** It finds the current, next and previous lesson and decides whether content is unlocked. A click on a lesson shows a locked notice or a login prompt, or navigates. The page also has a one-open-at-a-time module accordion and shows each tab's text, or a placeholder.
- **The first lesson's page.** Completion marks that flip, a stored point total moved by 50 per flip, three fixed badges, per-tab "next activity" lists, and one open exercise at a time.
- **The data-driven lesson page.** It reads a lesson document. Its navigation order is the multimedia items, then the tab cards, each filed under a tab. The page derives the completion count and points from the completion map, awards badges at configurable thresholds and scores the quiz. "Go to next" jumps to the next item, switching tab when needed, and falls back to the exercise section.

Modules:

- `Common`: option type, completion counting, `indexOf`, the toggle of a single open entry, and substring search.
- `Types`: the records of `types.ts`.
- `Catalogue`: `data/lessons.ts`.
- `LessonPlayer`: `pages/LessonPlayer.tsx`.
- `CoursePage`: `components/CoursePageContent.tsx`.
- `DynamicLesson`: `components/DynamicLessonContent.tsx`.

State the components hold and update becomes a class:

- `LessonPlayer.PlayerPage`;
- `CoursePage.CourseProgress`;
- `DynamicLesson.LessonProgress`.

Each of these classes has methods whose `ensures` give the new state in terms of specification functions. Lemmas prove the properties of those functions. Loops in the source are methods with loop invariants:

- the order-building loops (`BuildOrder` and its helpers);
- the badge loop (`CollectBadges`);
- the quiz score loop (`ScoreQuiz`);
- building the paid modules (`BuildFormationModules`).

Behaviour of the code worth knowing:

- There is no normaliser for older document shapes: `types.ts` requires `metadata` and `header`.
- With no next item, "go to next" falls back to the exercise section.
- The "mestre" badge needs exactly 8 completions (`=== 8`).

JavaScript semantics that the model spells out:

- A missing map key reads as `false`.
- An empty string counts as "no tab", and an empty duration or stored text counts as absent.
- `Object.entries` of the badge record is an ordered list of key/config pairs.

## Model

| member | source | states |
|---|---|---|
| Common.TrueKeys | components/DynamicLessonContent.tsx:42 | exactly the keys whose entry is true are counted |
| Common.CountAfterMark | components/DynamicLessonContent.tsx:81-84 | marking an entry raises the completed count by one, or by nothing if it was already marked |
| Common.CountAfterUnmark | components/CoursePageContent.tsx:48-60 | unmarking an entry lowers the completed count by one, or by nothing if it was not marked |
| Common.FindIndex | components/DynamicLessonContent.tsx:133 | the first index whose element satisfies the test, and -1 exactly when none does |
| Common.IndexOf | components/CoursePageContent.tsx:66 | the first index holding the element, and -1 exactly when it is absent |
| Common.Toggle | components/CoursePageContent.tsx:494 | clicking the open entry closes it; any other click opens only that entry |
| Types.LabelsDistinct | types.ts:18-28 | the nine tab labels are pairwise different, so a label identifies its tab |
| DynamicLesson.FirstSectionIndex | components/DynamicLessonContent.tsx:116 | the first section of the given type, or -1 when there is none |
| DynamicLesson.FindSection | components/DynamicLessonContent.tsx:124 | a found section has the requested type and belongs to the document |
| DynamicLesson.MediaEntriesMembers | components/DynamicLessonContent.tsx:116-121 | an entry comes from the multimedia items iff it carries a multimedia item's id and the intro tab |
| DynamicLesson.MediaEntriesPositions | components/DynamicLessonContent.tsx:117-121 | one entry per multimedia item, at the item's position, with its id under the intro tab |
| DynamicLesson.CardEntriesPositions | components/DynamicLessonContent.tsx:127-129 | one entry per card, at the card's position, with its id under the tab's id |
| DynamicLesson.CardEntriesMembers | components/DynamicLessonContent.tsx:127-129 | an entry comes from a tab's cards iff it carries a card's id and that tab's id |
| DynamicLesson.TabEntriesMembers | components/DynamicLessonContent.tsx:124-131 | an entry comes from the tabs iff some tab lists a card with that id under that tab |
| DynamicLesson.FlattenMembers | components/DynamicLessonContent.tsx:113-131 | the flattened order holds exactly the first multimedia section's items and the first tabs section's cards, each with its tab |
| DynamicLesson.PushMedia | components/DynamicLessonContent.tsx:117-121 | the push loop appends the multimedia items in order under the intro tab |
| DynamicLesson.PushCards | components/DynamicLessonContent.tsx:127-129 | the push loop appends a tab's cards in order under that tab |
| DynamicLesson.PushTabs | components/DynamicLessonContent.tsx:125-131 | the nested loops append every tab's cards in tab order |
| DynamicLesson.BuildOrder | components/DynamicLessonContent.tsx:113-131 | the built list equals the flattened order: multimedia items, then tab cards |
| DynamicLesson.IndexOfId | components/DynamicLessonContent.tsx:133 | the first position with the id, or -1 when no entry has it |
| DynamicLesson.NextTarget | components/DynamicLessonContent.tsx:133-148 | found before the last position: the next entry with its tab; otherwise the exercise section when it holds an exercise record, else nothing |
| DynamicLesson.NextTargetTab | components/DynamicLessonContent.tsx:133-148 | a jump naming a tab lands on an entry filed under that tab; a jump without a tab goes to the exercise section and never switches tab |
| DynamicLesson.AwardBadges | components/DynamicLessonContent.tsx:53-68 | badges already earned are kept, in order, as a prefix |
| DynamicLesson.AwardBadgesEarnsAll | components/DynamicLessonContent.tsx:58-63 | every configured badge whose threshold the count reaches ends up in the list |
| DynamicLesson.AwardBadgesOnlyEarned | components/DynamicLessonContent.tsx:58-63 | every listed badge was there before or has its threshold reached |
| DynamicLesson.AwardBadgesNoDuplicates | components/DynamicLessonContent.tsx:59 | a duplicate-free list stays duplicate-free |
| DynamicLesson.CollectBadges | components/DynamicLessonContent.tsx:53-68 | the loop computes the awarded list; `hasChanges` is set iff something was appended |
| DynamicLesson.Score | components/DynamicLessonContent.tsx:165-170 | the score never exceeds the number of questions |
| DynamicLesson.ScorePerfect | components/DynamicLessonContent.tsx:165-171 | full marks iff every question's selected option is its correct answer |
| DynamicLesson.ScoreIgnoresOtherAnswers | components/DynamicLessonContent.tsx:165-170 | an answer to a question that is not in the quiz does not change the score |
| DynamicLesson.ScoreQuiz | components/DynamicLessonContent.tsx:165-170 | the counting loop yields the number of correctly answered questions |
| DynamicLesson.LessonProgress.constructor | components/DynamicLessonContent.tsx:18-31 | starts from the stored completions and badges, with no tab, no open exercise, no answers and no result |
| DynamicLesson.LessonProgress.InitActiveTab | components/DynamicLessonContent.tsx:34-39 | while no tab is active, the first tab of the first tabs section becomes active; otherwise nothing changes |
| DynamicLesson.LessonProgress.ToggleSection | components/DynamicLessonContent.tsx:81-84 | an item becomes marked and stays marked; other entries are untouched; count and points rise by one item's worth only if it was not marked |
| DynamicLesson.LessonProgress.EvaluateBadges | components/DynamicLessonContent.tsx:53-68 | the badge list becomes the awarded list for the current count |
| DynamicLesson.LessonProgress.ScrollToSection | components/DynamicLessonContent.tsx:86-105 | a different, non-empty tab becomes active and the focus waits for the switch; otherwise the tab stays and the focus is immediate |
| DynamicLesson.LessonProgress.GoToNext | components/DynamicLessonContent.tsx:107-149 | the focus and the active tab follow the next target; without a target nothing changes |
| DynamicLesson.LessonProgress.SelectTab | components/DynamicLessonContent.tsx:332 | the chosen tab becomes active |
| DynamicLesson.LessonProgress.SubmitQuiz | components/DynamicLessonContent.tsx:161-172 | without a quiz nothing changes; otherwise the result is the score out of the number of questions |
| DynamicLesson.LessonProgress.SelectAnswer | components/DynamicLessonContent.tsx:549 | the option becomes that question's answer and no other answer changes |
| DynamicLesson.LessonProgress.ToggleExercise | components/DynamicLessonContent.tsx:490 | at most one exercise is open; clicking the open one closes it |
| CoursePage.PointsAfterToggle | components/CoursePageContent.tsx:51-57 | marking adds 50; unmarking takes 50 away, clamped at 0; points never go negative |
| CoursePage.CourseBadges | components/CoursePageContent.tsx:84-99 | earlier badges kept in order; "iniciante" iff already there or 3 or more, "explorador" iff there or 6 or more, "mestre" iff there or exactly 8; nothing else added; no duplicates introduced |
| CoursePage.Toggled | components/CoursePageContent.tsx:48-60 | the entry flips and the points move by the toggle rule; marking re-awards the fixed badges at the new map's count; unmarking leaves the badges alone |
| CoursePage.ToggleKeepsPoints | components/CoursePageContent.tsx:48-60 | a flip keeps the stored points equal to 50 per completed activity |
| CoursePage.TogglesKeepPoints | components/CoursePageContent.tsx:48-60 | any sequence of flips keeps the points equal to 50 per completed activity |
| CoursePage.FreshStartKeepsPoints | components/CoursePageContent.tsx:14-21 | starting from an empty store, the points always equal 50 per completed activity |
| CoursePage.ClickOnlyMarks | components/CoursePageContent.tsx:235-239 | a disabled button ignores the click; an enabled one marks the activity and adds exactly 50 |
| CoursePage.ClicksMonotone | components/CoursePageContent.tsx:235-239 | through the buttons, completed activities stay completed and earned badges stay, in order |
| CoursePage.NextActivity | components/CoursePageContent.tsx:62-81 | an unknown tab leads nowhere; an unlisted activity leads to the tab's first; otherwise the activity after the first occurrence, or nothing after the last |
| CoursePage.ShowNextButton | components/CoursePageContent.tsx:241-243 | shown iff the activity is completed and is not the last of its tab's list (an unlisted one counts as not last) |
| CoursePage.LastActivityHasNoNext | components/CoursePageContent.tsx:36-42 | the last activity of every tab offers no "next" and "next" from it leads nowhere |
| CoursePage.CourseProgress.constructor | components/CoursePageContent.tsx:14-33 | starts from the stored completions, points and badges with no exercise open |
| CoursePage.CourseProgress.ToggleSection | components/CoursePageContent.tsx:48-60 | the new state is the flip of the old one, and it keeps points consistent with completions |
| CoursePage.CourseProgress.CheckBadges | components/CoursePageContent.tsx:84-99 | the badge list becomes the fixed-badge award for the given map's count |
| CoursePage.CourseProgress.ToggleExercise | components/CoursePageContent.tsx:494 | at most one exercise is open; clicking the open one closes it |
| Catalogue.RandomDuration | data/lessons.ts:6-9 | a five-character `MM:00` text whose two minute characters are digits spelling the drawn 50–60 value |
| Catalogue.FinalDuration | data/lessons.ts:569-579 | module 1's first three lessons get no duration; any other lesson keeps a non-empty given duration, or else gets the drawn value's `MM:00` text |
| Catalogue.BuildLessons | data/lessons.ts:567-589 | one lesson per raw entry, numbered consecutively from the counter, which ends past the last one |
| Catalogue.BuildFormationModules | data/lessons.ts:563-590 | every raw module becomes a paid module whose lessons continue the numbering from 101 |
| Catalogue.FlattenLessonsAppend | data/lessons.ts:596 | flattening distributes over concatenation of module lists |
| Catalogue.SumIsFlattenedLength | data/lessons.ts:614 | the summed per-module lesson counts equal the number of flattened lessons |
| Catalogue.BuiltLessonCount | data/lessons.ts:563-590 | after any number of raw modules, the paid lessons are as many as the raw ones and numbered 101, 102, … |
| Catalogue.FormationIdsConsecutive | data/lessons.ts:581 | the k-th paid lesson has id 101 + k, and there are as many as raw lessons |
| Catalogue.FormationLessonsShape | data/lessons.ts:581-588 | every paid lesson is in the paid course, locked, undated, with its module's id and its raw title |
| Catalogue.Lessons | data/lessons.ts:593-596 | the lesson list is the minicourse's lessons followed by the paid modules' lessons in order |
| Catalogue.CourseCounts | data/lessons.ts:598-618 | the course cards count 1 module and the minicourse's lessons, and the paid course's modules and lessons |
| LessonPlayer.LessonIndex | pages/LessonPlayer.tsx:23 | the first matching position, or -1 exactly when no lesson matches |
| LessonPlayer.FindLesson | pages/LessonPlayer.tsx:53 | nothing found iff no lesson matches; a found lesson is listed and matches |
| LessonPlayer.NextLesson | pages/LessonPlayer.tsx:46 | the listed lesson numbered one more in the same course, or nothing iff there is none |
| LessonPlayer.PrevLesson | pages/LessonPlayer.tsx:47 | the listed lesson numbered one less in the same course, or nothing iff there is none |
| LessonPlayer.FormationEnds | pages/LessonPlayer.tsx:46-47 | the last paid lesson has no next one and the first has no previous one |
| LessonPlayer.IsContentUnlocked | pages/LessonPlayer.tsx:38-43 | paid content is never unlocked; lesson 1 always is; any other free lesson iff it is available |
| LessonPlayer.ShowTabStrip | pages/LessonPlayer.tsx:239 | the tab buttons appear iff the lesson is a free lesson other than 1 and available |
| LessonPlayer.LessonChangeDecision | pages/LessonPlayer.tsx:52-73 | unknown id: ignored; unavailable free lesson: locked notice with its formatted date; paid lesson: login prompt; any other listed lesson: navigation to its id, and navigation only then |
| LessonPlayer.CatalogueIdsUnique | data/lessons.ts:563-596 | no two lessons of the built catalogue share an id |
| LessonPlayer.SameIdSameLesson | pages/LessonPlayer.tsx:53 | with unique ids, a lookup by id finds the lesson with that id |
| LessonPlayer.PaidNeighboursAskForLogin | pages/LessonPlayer.tsx:63-67 | from a paid lesson, "next" and "previous" always end in the login prompt |
| LessonPlayer.LockedMessage | pages/LessonPlayer.tsx:98-100 | a free lesson's notice contains its formatted release date; a paid lesson's is the login message |
| LessonPlayer.Placeholder | pages/LessonPlayer.tsx:84-88 | the placeholder names the tab and the lesson title |
| LessonPlayer.DynamicContent | pages/LessonPlayer.tsx:79-89 | stored, non-empty text for the lesson and tab is shown as is; otherwise a placeholder naming the tab and the lesson |
| LessonPlayer.HeaderNumbersCount | pages/LessonPlayer.tsx:379 | in the built catalogue, the header shows the k-th paid lesson as lesson k + 1 |
| LessonPlayer.CourseModules | pages/LessonPlayer.tsx:50 | exactly the modules of the given course |
| LessonPlayer.CourseModulesKeepsAll | pages/LessonPlayer.tsx:50 | filtering modules that all belong to the course returns the list unchanged, in order |
| LessonPlayer.CourseModulesKeepsNone | pages/LessonPlayer.tsx:50 | filtering modules none of which belongs to the course returns nothing |
| LessonPlayer.CatalogueCourseModules | pages/LessonPlayer.tsx:195-308 | in the built catalogue, the paid sidebar lists exactly the paid modules in order, and the free course's list is its single module |
| LessonPlayer.PlayerPage.constructor | pages/LessonPlayer.tsx:14-20 | the course tab is active, no modal is open and no module is expanded |
| LessonPlayer.PlayerPage.OnLoad | pages/LessonPlayer.tsx:27-34 | an unknown lesson redirects home; otherwise its module is expanded unless one already is |
| LessonPlayer.PlayerPage.HandleLessonChange | pages/LessonPlayer.tsx:52-73 | opens the modal the decision names, or navigates to the lesson when it is reachable |
| LessonPlayer.PlayerPage.GoToNextLesson | pages/LessonPlayer.tsx:396-397 | disabled without a next lesson; otherwise a lesson change to it |
| LessonPlayer.PlayerPage.GoToPrevLesson | pages/LessonPlayer.tsx:389-390 | disabled without a previous lesson; otherwise a lesson change to it |
| LessonPlayer.PlayerPage.ToggleModule | pages/LessonPlayer.tsx:75-77 | at most one module is expanded; clicking the expanded one collapses it |
| LessonPlayer.PlayerPage.SelectTab | pages/LessonPlayer.tsx:247 | the chosen tab becomes active |
| LessonPlayer.PlayerPage.CloseLockedModal | pages/LessonPlayer.tsx:278 | the locked notice closes |

## Left out

- Browser storage (`localStorage`): stored values are constructor parameters. JSON parsing and `Number(saved)` are not modelled, and neither are the effects that write state back.
- The route parameter is given as an integer. `Number(lessonId)` on text and its NaN case are not modelled.
- The progress percentage is floating-point division and is not modelled.
- Scrolling, the highlight class and the timers that remove it are not modelled. A scroll becomes a returned `Focus` value that records whether it waits for a tab switch. The first lesson's "next activity" returns the activity id rather than scrolling to its card.
- Navigation is a returned value: the lesson id (the route `/aula/<id>`) or a redirect home.
- `Math.random` becomes a parameter `draw` giving each lesson's minutes in 50–60. The current year is a parameter.
- `isLessonAvailable` and `formatReleaseDate` are given as function parameters. `constants.ts` is not part of this model.
- The large text literals are not reproduced: the HTML of `LESSON_CONTENT` and the formation's raw module list. Content is a parameter, and the paid catalogue is proved for any raw module list.
- Rendering, icons and styling are not modelled. Only the conditions that show or enable a control are.
- The quiz result message is kept as the pair (correct, total) rather than the Portuguese sentence.
- In the data-driven page, `handleGoToNext` has a second parameter it never reads; it is omitted.
- A multimedia section whose items are navigation items contributes nothing to the flattened order. The source would push entries with undefined ids.
- React's batching of state updates is not modelled; each handler is one atomic step.
- The header, the login modal and the home page are not part of this model.
- `DynamicLesson.FindSection`: its contract states only kind and membership. That it is the first such section is stated by `DynamicLesson.FirstSectionIndex`, which it uses.
