# auto-path: the template learning-path generator in Dafny

This project models `MockLLMProvider` from auto-path, a small web application.
The application takes a learner's intake profile: a goal, a current level, hours per week,
preferred formats, an optional deadline and optional topics. From it the provider:

- asks between two and five follow-up questions;
- builds a multi-week study plan of weeks, days and tasks, with three
  resources and two or three assessments.

The project also models the validation shapes of `src/lib/schemas.ts` as
datatypes and predicates.

Modules:

- `Text`: helpers the templates rely on. They are decimal rendering of a natural number (`${n}`),
  ASCII lower-casing, and substring search (`includes`) with its meaning as
  an existential over positions.
- `Ordered`: sequences strictly increasing by a key. The main lemma says two such
  sequences with the same members are equal. The generator appends optional items in a
  fixed order, so "which items are present" plus "in key order" pins down the
  exact list.
- `Schemas`: the intake, the follow-up question union, the answers and the plan
  shapes, with the intake's field constraints and the question parser.
- `MockProvider`: the generator.
  - Follow-ups and tasks are built by methods with conditional appends, as in the source.
  - The days of a week and the weeks of a plan are built by methods with loops.
  - Themes, milestones, topics and resources are functions.
  - Each method is proved against a declarative predicate: `FollowupsSpec`,
    `TasksSpec`, `DaysSpec`, `AssessmentsSpec` and `PlanSpec`.
- `Properties`: what the generator promises, proved about those predicates.
  - The week count is between 4 and 12.
  - Each day has 1 to 3 tasks, and each task's topic names its week and its day.
  - The fallback task never appears for a valid intake.
  - The follow-ups have the right shape and order.
  - The assessments fall inside the plan.
  - Both results are determined by their inputs: any two outputs meeting the
    predicate are equal. The follow-up answers therefore cannot change the plan.

Modelling choices:

- `timeCommitment` is an integer.
  - The week count follows JavaScript for every integer: `40 / 0` is
    `Infinity`, which the `min` caps at 12, and a negative budget gives 4.
- `time_est` is kept exactly, as a whole number of tenths of an hour. It is the
  nearest integer to `10t / days`, with halves rounded up, as `Math.round` does.
- The deadline is given already parsed: absent or empty, unparsable, or a
  millisecond timestamp. The current time is a parameter.
- The source's class has no fields, so its methods become module-level members.
- The schema keys `type` and `label` are Dafny keywords and appear as `kind` and `labelText`.

Behaviour of the source worth knowing, all of it modelled as written:

- `generateWeekTheme` and `generateMilestones` use their templated fallbacks only for
  week numbers below 1, which `generatePlan` never passes. Both index their tables with
  `min(weekNum - 1, len - 1)`, and no table entry is empty (`WeekTheme`, `Milestones`).
- `generateFollowups` reads `Date.now()`, so the question list depends on the
  intake and the current time (`FollowupsDeterministic`).
- The comment at `src/lib/mock-provider.ts:163` says practice is always included. The code adds
  it only when `hands-on` is preferred, and the model does the same.

The week labels have one property the source may not intend. A 4-week plan puts
its first two assessments in the same week ("Week 2" twice). `AssessmentsWithinPlan`
states this: assessment weeks are strictly increasing exactly when the plan has more than 4 weeks.

## Model

| member | source | states |
|---|---|---|
| Text.NatToString | src/lib/mock-provider.ts:179-189 | the decimal rendering used in the topic templates is a non-empty string of digits with no leading zero except for 0 |
| Text.DigitsValueOfNatToString | src/lib/mock-provider.ts:179-189 | reading the rendered digits back gives the number, so the rendering loses nothing |
| Text.NatToStringInjective | src/lib/mock-provider.ts:179-189 | different week or day numbers give different rendered text |
| Text.Includes | src/lib/mock-provider.ts:42 | `includes` is true exactly when the pattern occurs at some position of the string |
| Text.ToLower | src/lib/mock-provider.ts:42 | lower-casing keeps the length, leaves no upper-case ASCII letter, maps each upper-case letter to its lower-case form and changes nothing else |
| Text.ToLowerIdempotent | src/lib/mock-provider.ts:42 | lower-casing an already lower-cased goal changes nothing |
| Text.LowerKeepsMatch | src/lib/mock-provider.ts:42 | a lower-case keyword present in the goal is still found after the goal is lower-cased |
| Schemas.IntakeIssues | src/lib/schemas.ts:4-13 | the intake is valid exactly when no field fails; a field is reported exactly when its constraint fails (goal at least 10 characters, level one of three, hours in [1,40], formats non-empty and known); fields are reported in schema order |
| Schemas.ValidIntakeHasKnownFormat | src/lib/schemas.ts:10 | a valid intake names at least one of the four known formats |
| Schemas.ParseQuestion | src/lib/schemas.ts:16-40 | a question validates exactly when its tag is one of the three and a select question has options; the id, prompt and tag are preserved, select options are kept and free-text options are dropped |
| Schemas.EncodeQuestion | src/lib/schemas.ts:16-40 | the emitted object carries the variant's tag and has options exactly for the select kinds; validating it gives back the question |
| MockProvider.WantsFrontend | src/lib/mock-provider.ts:42 | true exactly when "web" or "frontend" occurs somewhere in the lower-cased goal |
| MockProvider.WantsBackend | src/lib/mock-provider.ts:51 | true exactly when "backend" or "api" occurs somewhere in the lower-cased goal |
| MockProvider.TightDeadline | src/lib/mock-provider.ts:61 | only a given, parsable deadline can be tight, and it is tight exactly when it falls less than 7,776,000,000 ms (90 days) after now |
| MockProvider.GenerateFollowups | src/lib/mock-provider.ts:7-72 | the list starts with the experience question, which interpolates the level, and the learning-style question; each conditional question is present exactly when its condition holds; nothing else is added; questions appear in the order experience, learning_style, frontend_focus, backend_focus, priority |
| MockProvider.FollowupQuestionsOrdered | src/lib/mock-provider.ts:12-70 | whatever conditions hold, the assembled list is in the fixed question order |
| MockProvider.FollowupQuestionsMembers | src/lib/mock-provider.ts:39-70 | the assembled list contains each conditional question exactly when its flag is set, after the two base questions |
| MockProvider.CeilDiv | src/lib/mock-provider.ts:82 | `Math.ceil(a / b)` is the least c with a <= c * b |
| MockProvider.WeeksNeeded | src/lib/mock-provider.ts:82 | the week count is between 4 and 12 for every integer budget |
| MockProvider.DaysPerWeek | src/lib/mock-provider.ts:133 | 5 days a week exactly when t > 7, and 3 exactly when t <= 7 |
| MockProvider.TimeEstimateTenths | src/lib/mock-provider.ts:133-138 | the daily estimate in tenths is within half a tenth of 10t / days, with halves rounded up |
| MockProvider.WeekTheme | src/lib/mock-provider.ts:102-117 | from week 1 the theme is the table entry at min(weekNum - 1, 9), so every week from the tenth is "Portfolio and Next Steps"; the `Advanced ${goal} Topics` theme is used exactly when weekNum < 1 |
| MockProvider.ThemesNonEmpty | src/lib/mock-provider.ts:103-116 | no table theme is empty, so the fallback never replaces an entry of the table |
| MockProvider.Milestones | src/lib/mock-provider.ts:119-130 | every week has two milestones, taken from the table at min(weekNum - 1, 4) from week 1 on; from week 5 on they are the fifth pair; the templated pair is used only below week 1 |
| MockProvider.GenerateTasksForDay | src/lib/mock-provider.ts:143-177 | Read is present iff article or documentation is preferred, Watch iff video, Practice iff hands-on, and Study iff none of these; every task is one of these four; they appear in the order Read, Watch, Practice |
| MockProvider.DayTasksOrdered | src/lib/mock-provider.ts:143-177 | the chosen tasks, or the fallback alone, are in the order Read, Watch, Practice |
| MockProvider.DayTasksMembers | src/lib/mock-provider.ts:143-177 | each task is present exactly when its format flag is set, and the fallback exactly when none is |
| MockProvider.GenerateDaysForWeek | src/lib/mock-provider.ts:132-141 | a week has `ceil(t / 7) > 1 ? 5 : 3` days numbered from 1, each with the rounded estimate and the task list for its week and day number |
| MockProvider.GenerateResources | src/lib/mock-provider.ts:191-209 | three resources, "Official Documentation" (docs), "Video Course Series" (video) and "Community Tutorial" (article), whose distinct kinds are exactly the schema's three, so every one validates |
| MockProvider.GenerateAssessments | src/lib/mock-provider.ts:211-231 | "Week 2", then "Week ceil(w / 2)", then "Week w" exactly when w > 6, each with its rubric |
| MockProvider.GeneratePlan | src/lib/mock-provider.ts:77-100 | the plan has WeeksNeeded(t) weeks; week k + 1 has its number, the table theme and milestones, the weekly budget and the days of that week; the resources are the fixed three and the assessments are those for WeeksNeeded(t); the plan validates |
| Properties.WeeksNeededExamples | src/lib/mock-provider.ts:82 | t = 8 gives 5 weeks, 1 gives 12, 40 gives 4, 5 gives 8, 6 gives 7, 7 gives 6 |
| Properties.WeeksNeededCoversForty | src/lib/mock-provider.ts:82 | unless capped at 12, the weeks together cover 40 hours; unless raised to 4, one week fewer does not |
| Properties.WeeksNeededAntitone | src/lib/mock-provider.ts:82 | a larger weekly budget never gives more weeks |
| Properties.LongPlanIff | src/lib/mock-provider.ts:82 | for t >= 1 the plan runs past 6 weeks exactly when t <= 6 |
| Properties.WeeklyEstimateNearBudget | src/lib/mock-provider.ts:133-138 | the days' estimates add up to the weekly budget to within half a tenth per day |
| Properties.TopicNumbersReadBack | src/lib/mock-provider.ts:179-189 | each reading, video and practice topic starts "Week " followed by the week number, and the day number follows a fixed middle part; both read back from the text |
| Properties.TopicsInjective | src/lib/mock-provider.ts:179-189 | two topics of the same kind are equal only for the same week and day |
| Properties.TaskListBounds | src/lib/mock-provider.ts:143-177 | every day has between one and three tasks |
| Properties.ValidIntakeNeverFallsBack | src/lib/mock-provider.ts:171-176 | for a schema-valid intake the Study fallback never appears and some Read, Watch or Practice task does |
| Properties.TasksDeterministic | src/lib/mock-provider.ts:143-177 | the task list is determined by the week, the day and the intake |
| Properties.FollowupQuestionsLength | src/lib/mock-provider.ts:69-71 | the list has two entries plus one for each condition that holds |
| Properties.FollowupsAreAssembled | src/lib/mock-provider.ts:69-71 | any list meeting the follow-up description is the base pair followed by the applicable conditional questions in order |
| Properties.FollowupsShape | src/lib/mock-provider.ts:12-70 | 2 to 5 questions, 2 plus the number of conditions that hold; the first is experience (single select), the second learning_style (multi select); ids are distinct |
| Properties.FollowupsDeterministic | src/lib/mock-provider.ts:7-72 | the same intake and the same current time always give the same questions |
| Properties.GoalKeywordExamples | src/lib/mock-provider.ts:42-51 | "Learn backend APIs" gets the backend question; "Master Web Development" gets the frontend one despite the capital W |
| Properties.KeywordsIgnoreCase | src/lib/mock-provider.ts:42-51 | a goal and its lower-cased form get the same frontend and backend decisions |
| Properties.TightDeadlineMonotone | src/lib/mock-provider.ts:61 | a tight deadline stays tight later on, and so does any earlier deadline; a missing or unparsable one is never tight |
| Properties.DeadlineExamples | src/lib/mock-provider.ts:61 | a deadline 30 days out adds the free-text priority question; no list meets the description for both that intake and one with a deadline 120 days out |
| Properties.LabelWeekOfWeekLabel | src/lib/mock-provider.ts:218 | a "Week n" label reads back as week n |
| Properties.AssessmentsWithinPlan | src/lib/mock-provider.ts:211-231 | for w >= 4 every assessment names a week in [2, w]; the weeks never go backwards, and they strictly increase exactly when w > 4 |
| Properties.PlanWeeks | src/lib/mock-provider.ts:84-93 | 4 to 12 weeks numbered 1, 2, ... in order, each at the weekly budget, with the table theme and two milestones |
| Properties.PlanDays | src/lib/mock-provider.ts:132-141 | every week has 5 days when t > 7 and 3 otherwise; days are numbered from 1 and have 1 to 3 tasks |
| Properties.PlanNeverFallsBack | src/lib/mock-provider.ts:171-176 | no day of a plan for a valid intake uses the Study fallback |
| Properties.PlanAssessments | src/lib/mock-provider.ts:223-228 | for t >= 1 there are 3 assessments exactly when t <= 6 and 2 exactly when t > 6, and each names a week of the plan |
| Properties.DaysDeterministic | src/lib/mock-provider.ts:136-140 | the days of a week are determined by the week number and the intake |
| Properties.WeekDeterministic | src/lib/mock-provider.ts:86-92 | a week is determined by its number and the intake |
| Properties.AssessmentsDeterministic | src/lib/mock-provider.ts:211-231 | the assessments are determined by the week count |
| Properties.ResourcesIndependentOfIntake | src/lib/mock-provider.ts:191-209 | the resources are the same for every intake |
| Properties.PlanDeterministic | src/lib/mock-provider.ts:77-100 | the plan is determined by the intake alone, so the follow-up answers cannot change it |

## Left out

- `src/lib/openai-provider.ts` is not part of this model: it calls a remote language model and falls back to static data, so its result is not a function of its inputs.
- The HTTP routes and the page components are not part of this model: they are request glue and user interface.
- The simulated `setTimeout` delays and the `async` wrapping of both entry points are dropped; the results are returned directly.
- Fractional hour budgets: `timeCommitment` is an integer, so the model does not cover a budget such as 7.5 hours, which the schema accepts.
- Date parsing and `Date.now()`: the deadline arrives already parsed into a millisecond timestamp (or absent, or unparsable), and the current time is a parameter.
- `toLowerCase` is modelled for ASCII letters only; other characters are left unchanged. The goal's length counts characters, not UTF-16 code units.
- Zod's URL check on resource URLs is library behaviour and is not modelled; `ValidPlan` checks only the resource kinds.
- The detail of Zod's error reports (messages, paths, several issues per field) is reduced to the list of failing fields.
- The prompt and option texts are copied, but nothing is proved about them beyond the question ids, the variant kinds and the interpolated level.
- `ReadingTopic`, `VideoTopic`, `PracticeTopic` and `GenerateAssessments` take natural numbers; the source is only ever called with positive ones.
- `specificTopics` and the follow-up answers are accepted but play no part in the output, as in the source.
