/**
 * The deterministic template generator (src/lib/mock-provider.ts): follow-up
 * questions chosen from the intake, and a multi-week plan whose length,
 * themes, days and tasks follow from the weekly hour budget and the
 * preferred formats. The class has no fields, so its methods become
 * module-level members; the simulated delays are dropped and the current
 * time is a parameter.
 */
module MockProvider {
  import opened Text
  import opened Ordered
  import opened Schemas

  function Min(a: int, b: int): int { if a <= b then a else b }
  function Max(a: int, b: int): int { if a >= b then a else b }

  // ================================================================ Follow-ups

  /** 90 days in milliseconds, the "tight deadline" horizon. */
  const NinetyDaysMs: int := 90 * 24 * 60 * 60 * 1000

  function ExperienceQuestion(level: string): Question {
    SingleSelect(
      "experience",
      "You mentioned you're at a " + level + " level. Which of these best describes your experience?",
      ["Complete beginner - never touched this topic",
       "Some theoretical knowledge but no hands-on experience",
       "Built small projects or tutorials",
       "Professional experience in related areas"])
  }

  const LearningStyleQuestion: Question :=
    MultiSelect(
      "learning_style",
      "What learning approaches work best for you?",
      ["Step-by-step tutorials", "Project-based learning", "Reading documentation",
       "Video courses", "Interactive coding exercises", "Group discussions or forums"])

  const FrontendQuestion: Question :=
    MultiSelect(
      "frontend_focus",
      "Which frontend technologies are you most interested in?",
      ["React", "Vue", "Angular", "Vanilla JavaScript", "TypeScript"])

  const BackendQuestion: Question :=
    SingleSelect(
      "backend_focus",
      "What type of backend development interests you most?",
      ["REST APIs", "GraphQL", "Microservices", "Database design", "DevOps"])

  const PriorityQuestion: Question :=
    FreeText("priority", "Given your timeline, what's most important to focus on first?")

  const ConditionalQuestions: seq<Question> := [FrontendQuestion, BackendQuestion, PriorityQuestion]

  /** The lower-cased goal mentions "web" or "frontend" somewhere. */
  function WantsFrontend(goal: string): (r: bool)
    ensures r <==> exists i :: OccursAt(ToLower(goal), "web", i) || OccursAt(ToLower(goal), "frontend", i)
  {
    Includes(ToLower(goal), "web") || Includes(ToLower(goal), "frontend")
  }

  /** The lower-cased goal mentions "backend" or "api" somewhere. */
  function WantsBackend(goal: string): (r: bool)
    ensures r <==> exists i :: OccursAt(ToLower(goal), "backend", i) || OccursAt(ToLower(goal), "api", i)
  {
    Includes(ToLower(goal), "backend") || Includes(ToLower(goal), "api")
  }

  /**
   * A deadline is tight when it is given, parses, and falls before now plus
   * 90 days; a missing or unparsable deadline never is.
   */
  function TightDeadline(deadline: Deadline, now: int): (tight: bool)
    ensures tight ==> deadline.At?
    ensures deadline.At? ==> (tight <==> deadline.epochMs - now < 7776000000)
  {
    deadline.At? && deadline.epochMs < now + NinetyDaysMs
  }

  /** The order in which the generator lists questions, by id. */
  function QuestionRank(q: Question): int {
    if q.id == "experience" then 0
    else if q.id == "learning_style" then 1
    else if q.id == "frontend_focus" then 2
    else if q.id == "backend_focus" then 3
    else 4
  }

  /**
   * What the follow-up list is: the two base questions first, then exactly
   * the conditional questions whose condition holds, in the fixed order
   * frontend_focus, backend_focus, priority.
   */
  ghost predicate FollowupsSpec(qs: seq<Question>, intake: Intake, now: int) {
    && |qs| >= 2
    && qs[0] == ExperienceQuestion(intake.currentLevel)
    && qs[1] == LearningStyleQuestion
    && (FrontendQuestion in qs <==> WantsFrontend(intake.goal))
    && (BackendQuestion in qs <==> WantsBackend(intake.goal))
    && (PriorityQuestion in qs <==> TightDeadline(intake.deadline, now))
    && (forall k :: 2 <= k < |qs| ==> qs[k] in ConditionalQuestions)
    && IncreasingBy(qs, QuestionRank)
  }

  method GenerateFollowups(intake: Intake, now: int) returns (payload: FollowupsPayload)
    ensures FollowupsSpec(payload.questions, intake, now)
  {
    var frontend := WantsFrontend(intake.goal);
    var backend := WantsBackend(intake.goal);
    var priority := TightDeadline(intake.deadline, now);
    var baseQuestions := [ExperienceQuestion(intake.currentLevel), LearningStyleQuestion];
    var goalSpecific: seq<Question> := [];
    if frontend {
      goalSpecific := goalSpecific + [FrontendQuestion];
    }
    if backend {
      goalSpecific := goalSpecific + [BackendQuestion];
    }
    if priority {
      goalSpecific := goalSpecific + [PriorityQuestion];
    }
    payload := FollowupsPayload(baseQuestions + goalSpecific);
    assert payload.questions == FollowupQuestions(intake.currentLevel, frontend, backend, priority);
    FollowupQuestionsOrdered(intake.currentLevel, frontend, backend, priority);
    FollowupQuestionsMembers(intake.currentLevel, frontend, backend, priority);
  }

  /**
   * The base questions followed by the conditional ones whose flag is set: the
   * closed form GenerateFollowups is proved against, used by the uniqueness proofs.
   */
  function FollowupQuestions(level: string, frontend: bool, backend: bool, priority: bool): seq<Question> {
    [ExperienceQuestion(level), LearningStyleQuestion]
    + (if frontend then [FrontendQuestion] else [])
    + (if backend then [BackendQuestion] else [])
    + (if priority then [PriorityQuestion] else [])
  }

  /** The ranks of the five questions. */
  lemma QuestionRanks(level: string)
    ensures QuestionRank(ExperienceQuestion(level)) == 0
    ensures QuestionRank(LearningStyleQuestion) == 1
    ensures QuestionRank(FrontendQuestion) == 2
    ensures QuestionRank(BackendQuestion) == 3
    ensures QuestionRank(PriorityQuestion) == 4
  {
  }

  lemma FollowupQuestionsOrdered(level: string, frontend: bool, backend: bool, priority: bool)
    ensures IncreasingBy(FollowupQuestions(level, frontend, backend, priority), QuestionRank)
  {
    QuestionRanks(level);
    var s0 := [ExperienceQuestion(level), LearningStyleQuestion];
    OptionalAppendsIncreasing(s0, FrontendQuestion, frontend, BackendQuestion, backend,
                              PriorityQuestion, priority, QuestionRank);
  }

  lemma FollowupQuestionsMembers(level: string, frontend: bool, backend: bool, priority: bool)
    ensures var qs := FollowupQuestions(level, frontend, backend, priority);
      && |qs| >= 2 && qs[0] == ExperienceQuestion(level) && qs[1] == LearningStyleQuestion
      && (FrontendQuestion in qs <==> frontend)
      && (BackendQuestion in qs <==> backend)
      && (PriorityQuestion in qs <==> priority)
      && (forall k :: 2 <= k < |qs| ==> qs[k] in ConditionalQuestions)
  {
    QuestionRanks(level);
    var qs := FollowupQuestions(level, frontend, backend, priority);
    var tail := qs[2..];
    assert qs == [ExperienceQuestion(level), LearningStyleQuestion] + tail;
    assert forall q :: q in tail ==> q in ConditionalQuestions;
  }

  // ================================================================ Plan arithmetic

  /** The ceiling of a / b for a positive divisor: the least c with a <= c * b. */
  function CeilDiv(a: int, b: int): (c: int)
    requires b > 0
    ensures (c - 1) * b < a <= c * b
  {
    assert -a == b * ((-a) / b) + (-a) % b;
    -((-a) / b)
  }

  /**
   * The ceiling of 40 / t, raised to at least 4 and capped at 12. For t == 0
   * JavaScript divides to Infinity, which the cap turns into 12.
   */
  function WeeksNeeded(t: int): (w: int)
    ensures 4 <= w <= 12
  {
    if t == 0 then 12
    else Max(4, Min(12, if t > 0 then CeilDiv(40, t) else CeilDiv(-40, -t)))
  }

  /** Five study days when the budget needs more than one 7-hour block, three otherwise. */
  function DaysPerWeek(t: int): (days: int)
    ensures days == 5 <==> t > 7
    ensures days == 3 <==> t <= 7
  {
    var c := CeilDiv(t, 7);
    assert (c - 1) * 7 < t <= c * 7;
    if c > 1 then 5 else 3
  }

  /**
   * The hours per day rounded to one decimal, kept as a whole number of
   * tenths: the nearest integer to 10t / days, halves rounded up.
   */
  function TimeEstimateTenths(t: int): (r: int)
    ensures var d := DaysPerWeek(t); 2 * r * d - d <= 20 * t < 2 * r * d + d
  {
    var d := DaysPerWeek(t);
    var q := (20 * t + d) / (2 * d);
    assert 20 * t + d == (2 * d) * q + (20 * t + d) % (2 * d);
    q
  }

  // ================================================================ Week themes and milestones

  const Themes: seq<string> := [
    "Foundations and Setup",
    "Core Concepts",
    "Hands-on Practice",
    "Building Your First Project",
    "Advanced Techniques",
    "Best Practices",
    "Performance and Optimization",
    "Testing and Deployment",
    "Real-world Applications",
    "Portfolio and Next Steps"
  ]

  /**
   * The table entry for the week, the last one for every week past the table,
   * falling back to the templated theme when the entry is missing or empty.
   * No entry is empty, so the templated theme is used exactly below week 1.
   */
  function WeekTheme(weekNum: int, goal: string): (theme: string)
    ensures weekNum >= 1 ==> theme == Themes[Min(weekNum - 1, 9)]
    ensures weekNum >= 10 ==> theme == "Portfolio and Next Steps"
    ensures theme == "Advanced " + goal + " Topics" <==> weekNum < 1
  {
    var i := Min(weekNum - 1, |Themes| - 1);
    var fallback := "Advanced " + goal + " Topics";
    assert fallback[|fallback| - 3..] == "ics";
    if 0 <= i then
      ThemesNonEmpty(i);
      if Themes[i] != "" then Themes[i] else fallback
    else fallback
  }

  /** No theme is empty, and none ends the way the templated theme does. */
  lemma ThemesNonEmpty(i: int)
    requires 0 <= i < |Themes|
    ensures Themes[i] != "" && |Themes[i]| >= 3 && Themes[i][|Themes[i]| - 3..] != "ics"
  {
    if i == 0 { assert Themes[0][|Themes[0]| - 3..] == "tup"; }
    else if i == 1 { assert Themes[1][|Themes[1]| - 3..] == "pts"; }
    else if i == 2 { assert Themes[2][|Themes[2]| - 3..] == "ice"; }
    else if i == 3 { assert Themes[3][|Themes[3]| - 3..] == "ect"; }
    else if i == 4 { assert Themes[4][|Themes[4]| - 3..] == "ues"; }
    else if i == 5 { assert Themes[5][|Themes[5]| - 3..] == "ces"; }
    else if i == 6 { assert Themes[6][|Themes[6]| - 3..] == "ion"; }
    else if i == 7 { assert Themes[7][|Themes[7]| - 3..] == "ent"; }
    else if i == 8 { assert Themes[8][|Themes[8]| - 3..] == "ons"; }
    else { assert Themes[9][|Themes[9]| - 3..] == "eps"; }
  }

  function BaseMilestones(goal: string): seq<seq<string>> {
    [
      ["Complete environment setup", "Understand basic " + goal + " concepts"],
      ["Build first simple example", "Grasp fundamental patterns"],
      ["Complete guided tutorial", "Implement core features"],
      ["Finish first independent project", "Apply learned concepts"],
      ["Master advanced techniques", "Optimize your solutions"]
    ]
  }

  /**
   * The milestone pair for the week, the fifth pair for every week past the
   * table; a pair is never falsy, so the templated pair is used only below week 1.
   */
  function Milestones(weekNum: int, goal: string): (ms: seq<string>)
    ensures |ms| == 2
    ensures weekNum >= 1 ==> ms == BaseMilestones(goal)[Min(weekNum - 1, 4)]
    ensures weekNum >= 5 ==> ms == ["Master advanced techniques", "Optimize your solutions"]
    ensures weekNum < 1 ==> ms == ["Advanced " + goal + " milestone", "Portfolio project progress"]
  {
    var i := Min(weekNum - 1, |BaseMilestones(goal)| - 1);
    if 0 <= i then BaseMilestones(goal)[i]
    else ["Advanced " + goal + " milestone", "Portfolio project progress"]
  }

  // ================================================================ Tasks

  function ReadingTopic(weekNum: nat, dayNum: nat): string {
    "Week " + NatToString(weekNum) + " concepts - Day " + NatToString(dayNum) + " fundamentals"
  }

  function VideoTopic(weekNum: nat, dayNum: nat): string {
    "Week " + NatToString(weekNum) + " tutorial series - Episode " + NatToString(dayNum)
  }

  function PracticeTopic(weekNum: nat, dayNum: nat): string {
    "Week " + NatToString(weekNum) + " exercises - Set " + NatToString(dayNum)
  }

  function ReadTask(weekNum: nat, dayNum: nat): Task {
    Task("Read: " + ReadingTopic(weekNum, dayNum), Some("Course documentation or recommended articles"), None)
  }

  function WatchTask(weekNum: nat, dayNum: nat): Task {
    Task("Watch: " + VideoTopic(weekNum, dayNum), Some("Video tutorial series"), None)
  }

  function PracticeTask(weekNum: nat, dayNum: nat): Task {
    Task("Practice: " + PracticeTopic(weekNum, dayNum), None, Some("Working code examples"))
  }

  /** The fallback task, used only when no format matches. */
  function StudyTask(goal: string): Task {
    Task("Study: " + goal + " fundamentals", None, Some("Notes and practice exercises"))
  }

  predicate WantsReading(formats: seq<string>) {
    "article" in formats || "documentation" in formats
  }

  predicate WantsVideo(formats: seq<string>) {
    "video" in formats
  }

  predicate WantsPractice(formats: seq<string>) {
    "hands-on" in formats
  }

  /** The order Read, Watch, Practice, told apart by the first letter of the title. */
  function TaskRank(t: Task): int {
    if |t.title| == 0 then 3
    else if t.title[0] == 'R' then 0
    else if t.title[0] == 'W' then 1
    else if t.title[0] == 'P' then 2
    else 3
  }

  /**
   * What a day's task list is: a Read task iff an article or documentation
   * format is preferred, a Watch task iff video, a Practice task iff hands-on,
   * the Study fallback iff none of these, nothing else, in that order.
   */
  ghost predicate TasksSpec(tasks: seq<Task>, weekNum: nat, dayNum: nat, intake: Intake) {
    var f := intake.preferredFormat;
    && (ReadTask(weekNum, dayNum) in tasks <==> WantsReading(f))
    && (WatchTask(weekNum, dayNum) in tasks <==> WantsVideo(f))
    && (PracticeTask(weekNum, dayNum) in tasks <==> WantsPractice(f))
    && (StudyTask(intake.goal) in tasks <==> !WantsReading(f) && !WantsVideo(f) && !WantsPractice(f))
    && (forall t :: t in tasks ==>
          t == ReadTask(weekNum, dayNum) || t == WatchTask(weekNum, dayNum)
          || t == PracticeTask(weekNum, dayNum) || t == StudyTask(intake.goal))
    && IncreasingBy(tasks, TaskRank)
  }

  method GenerateTasksForDay(weekNum: nat, dayNum: nat, intake: Intake) returns (tasks: seq<Task>)
    ensures TasksSpec(tasks, weekNum, dayNum, intake)
  {
    var formats := intake.preferredFormat;
    var read, video, practice := WantsReading(formats), WantsVideo(formats), WantsPractice(formats);
    tasks := [];
    if read {
      tasks := tasks + [ReadTask(weekNum, dayNum)];
    }
    if video {
      tasks := tasks + [WatchTask(weekNum, dayNum)];
    }
    if practice {
      tasks := tasks + [PracticeTask(weekNum, dayNum)];
    }
    if |tasks| == 0 {
      tasks := [StudyTask(intake.goal)];
    }
    assert tasks == DayTasks(weekNum, dayNum, intake.goal, read, video, practice);
    DayTasksOrdered(weekNum, dayNum, intake.goal, read, video, practice);
    DayTasksMembers(weekNum, dayNum, intake.goal, read, video, practice);
  }

  /**
   * The tasks whose flag is set, in the order Read, Watch, Practice, or the
   * Study task alone: the closed form GenerateTasksForDay is proved against.
   */
  function DayTasks(weekNum: nat, dayNum: nat, goal: string, read: bool, video: bool, practice: bool): seq<Task> {
    var chosen := (if read then [ReadTask(weekNum, dayNum)] else [])
                  + (if video then [WatchTask(weekNum, dayNum)] else [])
                  + (if practice then [PracticeTask(weekNum, dayNum)] else []);
    if |chosen| > 0 then chosen else [StudyTask(goal)]
  }

  lemma TaskRanks(weekNum: nat, dayNum: nat, goal: string)
    ensures TaskRank(ReadTask(weekNum, dayNum)) == 0
    ensures TaskRank(WatchTask(weekNum, dayNum)) == 1
    ensures TaskRank(PracticeTask(weekNum, dayNum)) == 2
    ensures TaskRank(StudyTask(goal)) == 3
  {
  }

  lemma DayTasksOrdered(weekNum: nat, dayNum: nat, goal: string, read: bool, video: bool, practice: bool)
    ensures IncreasingBy(DayTasks(weekNum, dayNum, goal, read, video, practice), TaskRank)
  {
    TaskRanks(weekNum, dayNum, goal);
    var s0: seq<Task> := if read then [ReadTask(weekNum, dayNum)] else [];
    var s1 := s0 + (if video then [WatchTask(weekNum, dayNum)] else []);
    if video { AppendIncreasing(s0, WatchTask(weekNum, dayNum), TaskRank); }
    assert forall k :: 0 <= k < |s1| ==> TaskRank(s1[k]) <= 1;
    if practice { AppendIncreasing(s1, PracticeTask(weekNum, dayNum), TaskRank); }
    assert IncreasingBy([StudyTask(goal)], TaskRank);
  }

  lemma DayTasksMembers(weekNum: nat, dayNum: nat, goal: string, read: bool, video: bool, practice: bool)
    ensures var ts := DayTasks(weekNum, dayNum, goal, read, video, practice);
      && (ReadTask(weekNum, dayNum) in ts <==> read)
      && (WatchTask(weekNum, dayNum) in ts <==> video)
      && (PracticeTask(weekNum, dayNum) in ts <==> practice)
      && (StudyTask(goal) in ts <==> !read && !video && !practice)
      && (forall t :: t in ts ==>
            t == ReadTask(weekNum, dayNum) || t == WatchTask(weekNum, dayNum)
            || t == PracticeTask(weekNum, dayNum) || t == StudyTask(goal))
  {
    TaskRanks(weekNum, dayNum, goal);
  }

  // ================================================================ Days

  /** Day k + 1 of a week: its number, its time estimate and its tasks. */
  ghost predicate DaySpec(d: Day, weekNum: nat, k: nat, intake: Intake) {
    && d.day == k + 1
    && d.timeEstTenths == TimeEstimateTenths(intake.timeCommitment)
    && TasksSpec(d.tasks, weekNum, k + 1, intake)
  }

  ghost predicate DaysSpec(days: seq<Day>, weekNum: nat, intake: Intake) {
    && |days| == DaysPerWeek(intake.timeCommitment)
    && forall k :: 0 <= k < |days| ==> DaySpec(days[k], weekNum, k, intake)
  }

  method GenerateDaysForWeek(weekNum: nat, intake: Intake) returns (days: seq<Day>)
    ensures DaysSpec(days, weekNum, intake)
  {
    var n := DaysPerWeek(intake.timeCommitment);
    var estimate := TimeEstimateTenths(intake.timeCommitment);
    days := [];
    var i := 0;
    while i < n
      invariant 0 <= i <= n
      invariant |days| == i
      invariant forall k :: 0 <= k < i ==> DaySpec(days[k], weekNum, k, intake)
    {
      var tasks := GenerateTasksForDay(weekNum, i + 1, intake);
      days := days + [Day(i + 1, estimate, tasks)];
      i := i + 1;
    }
  }

  // ================================================================ Resources and assessments

  /** The same three resources whatever the intake. */
  function GenerateResources(intake: Intake): (rs: seq<Resource>)
    ensures |rs| == 3
    ensures forall r :: r in rs ==> ValidResource(r)
    ensures forall i, j :: 0 <= i < j < |rs| ==> rs[i].kind != rs[j].kind
    ensures forall k :: k in ResourceKinds <==> exists i :: 0 <= i < |rs| && rs[i].kind == k
    ensures rs[0].labelText == "Official Documentation" && rs[0].kind == "docs"
    ensures rs[1].labelText == "Video Course Series" && rs[1].kind == "video"
    ensures rs[2].labelText == "Community Tutorial" && rs[2].kind == "article"
  {
    var list := [
      Resource("Official Documentation", "docs", "https://docs.example.com"),
      Resource("Video Course Series", "video", "https://courses.example.com"),
      Resource("Community Tutorial", "article", "https://tutorial.example.com")
    ];
    assert list[0].kind == "docs" && list[1].kind == "video" && list[2].kind == "article";
    assert forall k :: k in ResourceKinds <==> k == "video" || k == "article" || k == "docs";
    list
  }

  const BasicsRubric: string := "Complete basic exercises and demonstrate understanding of core concepts"
  const ProjectRubric: string := "Build and present a functional project using learned skills"
  const PortfolioRubric: string := "Portfolio project review and demonstration of advanced techniques"

  function WeekLabel(n: nat): string {
    "Week " + NatToString(n)
  }

  /** Week 2, the week halfway through rounded up, and the last week when the plan runs past 6 weeks. */
  ghost predicate AssessmentsSpec(a: seq<Assessment>, weeksNeeded: nat) {
    && |a| == (if weeksNeeded > 6 then 3 else 2)
    && a[0] == Assessment(WeekLabel(2), BasicsRubric)
    && a[1] == Assessment(WeekLabel(CeilDiv(weeksNeeded, 2)), ProjectRubric)
    && (weeksNeeded > 6 ==> a[2] == Assessment(WeekLabel(weeksNeeded), PortfolioRubric))
  }

  method GenerateAssessments(weeksNeeded: nat) returns (assessments: seq<Assessment>)
    ensures AssessmentsSpec(assessments, weeksNeeded)
  {
    assessments := [
      Assessment(WeekLabel(2), BasicsRubric),
      Assessment(WeekLabel(CeilDiv(weeksNeeded, 2)), ProjectRubric)
    ];
    if weeksNeeded > 6 {
      assessments := assessments + [Assessment(WeekLabel(weeksNeeded), PortfolioRubric)];
    }
  }

  // ================================================================ Plan

  /** Week number weekNum of the plan. */
  ghost predicate WeekSpec(w: Week, weekNum: nat, intake: Intake) {
    && w.week == weekNum
    && w.theme == WeekTheme(weekNum, intake.goal)
    && w.hoursPlanned == intake.timeCommitment
    && w.milestones == Milestones(weekNum, intake.goal)
    && DaysSpec(w.days, weekNum, intake)
  }

  /** The plan for an intake; the follow-up answers play no part in it. */
  ghost predicate PlanSpec(plan: Plan, intake: Intake) {
    var n := WeeksNeeded(intake.timeCommitment);
    && |plan.weeks| == n
    && (forall k :: 0 <= k < n ==> WeekSpec(plan.weeks[k], k + 1, intake))
    && plan.resources == GenerateResources(intake)
    && AssessmentsSpec(plan.assessments, n)
  }

  method GeneratePlan(intake: Intake, followupAnswers: FollowupAnswers) returns (plan: Plan)
    ensures PlanSpec(plan, intake)
    ensures ValidPlan(plan)
  {
    var weeksNeeded := WeeksNeeded(intake.timeCommitment);
    var weeks: seq<Week> := [];
    var weekNum := 1;
    while weekNum <= weeksNeeded
      invariant 1 <= weekNum <= weeksNeeded + 1
      invariant |weeks| == weekNum - 1
      invariant forall k :: 0 <= k < |weeks| ==> WeekSpec(weeks[k], k + 1, intake)
    {
      var days := GenerateDaysForWeek(weekNum, intake);
      weeks := weeks + [Week(weekNum, WeekTheme(weekNum, intake.goal), intake.timeCommitment,
                             Milestones(weekNum, intake.goal), days)];
      weekNum := weekNum + 1;
    }
    var assessments := GenerateAssessments(weeksNeeded);
    plan := Plan(weeks, GenerateResources(intake), assessments);
  }
}
