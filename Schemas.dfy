/**
 * The request and response shapes of the learning-path generator and the
 * constraints its validation schemas put on them (src/lib/schemas.ts).
 * Field names follow the schemas; `type` and `label` are Dafny keywords and become `kind` and `labelText`.
 */
module Schemas {

  datatype Option<T> = None | Some(value: T)

  // ---------------------------------------------------------------- Intake

  /**
   * The `deadline` field as the follow-up generator sees it.
   * NoDeadline: the field is absent or the empty string (both falsy).
   * Unparsable: a non-empty string for which `new Date` gives an invalid date,
   * so every comparison with it is false.
   * At(epochMs): a string that parses to this many milliseconds since the epoch.
   */
  datatype Deadline = NoDeadline | Unparsable | At(epochMs: int)

  datatype Intake = Intake(
    goal: string,
    currentLevel: string,
    timeCommitment: int,         // hours per week
    preferredFormat: seq<string>,
    deadline: Deadline,
    specificTopics: Option<string>)

  const Levels: seq<string> := ["beginner", "intermediate", "advanced"]
  const Formats: seq<string> := ["video", "article", "hands-on", "documentation"]

  /** The fields of an intake that carry a constraint, in schema order. */
  datatype IntakeField = Goal | CurrentLevel | TimeCommitment | PreferredFormat

  predicate FieldValid(intake: Intake, field: IntakeField) {
    match field
    case Goal => |intake.goal| >= 10
    case CurrentLevel => intake.currentLevel in Levels
    case TimeCommitment => 1 <= intake.timeCommitment <= 40
    case PreferredFormat =>
      |intake.preferredFormat| >= 1 && forall f :: f in intake.preferredFormat ==> f in Formats
  }

  predicate ValidIntake(intake: Intake) {
    && FieldValid(intake, Goal)
    && FieldValid(intake, CurrentLevel)
    && FieldValid(intake, TimeCommitment)
    && FieldValid(intake, PreferredFormat)
  }

  /**
   * The fields a safe parse of the intake reports as failing, in schema order;
   * the parse succeeds exactly when the list is empty.
   */
  function IntakeIssues(intake: Intake): (issues: seq<IntakeField>)
    ensures issues == [] <==> ValidIntake(intake)
    ensures forall f :: f in issues <==> !FieldValid(intake, f)
    ensures forall i, j :: 0 <= i < j < |issues| ==> FieldOrder(issues[i]) < FieldOrder(issues[j])
  {
    (if FieldValid(intake, Goal) then [] else [Goal])
    + (if FieldValid(intake, CurrentLevel) then [] else [CurrentLevel])
    + (if FieldValid(intake, TimeCommitment) then [] else [TimeCommitment])
    + (if FieldValid(intake, PreferredFormat) then [] else [PreferredFormat])
  }

  function FieldOrder(f: IntakeField): nat {
    match f
    case Goal => 0
    case CurrentLevel => 1
    case TimeCommitment => 2
    case PreferredFormat => 3
  }

  /** A valid intake names at least one of the four known formats. */
  lemma ValidIntakeHasKnownFormat(intake: Intake)
    requires ValidIntake(intake)
    ensures exists f :: f in Formats && f in intake.preferredFormat
  {
    assert intake.preferredFormat[0] in intake.preferredFormat;
  }

  // ---------------------------------------------------------------- Follow-up questions

  /** The discriminated union on `type`: only the select kinds carry options. */
  datatype Question =
    | SingleSelect(id: string, prompt: string, options: seq<string>)
    | MultiSelect(id: string, prompt: string, options: seq<string>)
    | FreeText(id: string, prompt: string)

  datatype FollowupsPayload = FollowupsPayload(questions: seq<Question>)

  /** A question object before validation: `type` is any string and `options` may be missing. */
  datatype RawQuestion = RawQuestion(id: string, prompt: string, kind: string, options: Option<seq<string>>)

  function TypeTag(q: Question): string {
    match q
    case SingleSelect(_, _, _) => "single_select"
    case MultiSelect(_, _, _) => "multi_select"
    case FreeText(_, _) => "free_text"
  }

  /** The object the generator emits for a question; validating it gives the question back. */
  function EncodeQuestion(q: Question): (raw: RawQuestion)
    ensures raw.kind == TypeTag(q)
    ensures raw.options.Some? <==> !q.FreeText?
    ensures ParseQuestion(raw) == Some(q)
  {
    match q
    case SingleSelect(id, prompt, options) => RawQuestion(id, prompt, "single_select", Some(options))
    case MultiSelect(id, prompt, options) => RawQuestion(id, prompt, "multi_select", Some(options))
    case FreeText(id, prompt) => RawQuestion(id, prompt, "free_text", None)
  }

  /**
   * Validation against the discriminated union: the `type` tag picks the
   * variant, a select variant needs `options`, and a free-text question
   * drops any `options` it was given (unknown keys are stripped).
   */
  function ParseQuestion(raw: RawQuestion): (r: Option<Question>)
    ensures r.Some? <==>
      (raw.kind in ["single_select", "multi_select", "free_text"]
       && (raw.kind != "free_text" ==> raw.options.Some?))
    ensures r.Some? ==>
      r.value.id == raw.id && r.value.prompt == raw.prompt && TypeTag(r.value) == raw.kind
    ensures r.Some? && !r.value.FreeText? ==> raw.options == Some(r.value.options)
  {
    if raw.kind == "single_select" then
      (if raw.options.Some? then Some(SingleSelect(raw.id, raw.prompt, raw.options.value)) else None)
    else if raw.kind == "multi_select" then
      (if raw.options.Some? then Some(MultiSelect(raw.id, raw.prompt, raw.options.value)) else None)
    else if raw.kind == "free_text" then
      Some(FreeText(raw.id, raw.prompt))
    else None
  }

  // ---------------------------------------------------------------- Follow-up answers

  /** An answer is a single string or a list of strings; nothing ties it to the questions asked. */
  datatype AnswerValue = Text(text: string) | Choices(choices: seq<string>)

  datatype FollowupAnswer = FollowupAnswer(questionId: string, answer: AnswerValue)

  datatype FollowupAnswers = FollowupAnswers(answers: seq<FollowupAnswer>)

  // ---------------------------------------------------------------- Plan

  datatype Task = Task(title: string, resource: Option<string>, deliverable: Option<string>)

  /** `time_est` is kept as a whole number of tenths of an hour. */
  datatype Day = Day(day: int, timeEstTenths: int, tasks: seq<Task>)

  datatype Week = Week(week: int, theme: string, hoursPlanned: int, milestones: seq<string>, days: seq<Day>)

  datatype Resource = Resource(labelText: string, kind: string, url: string)

  datatype Assessment = Assessment(when: string, rubric: string)

  datatype Plan = Plan(weeks: seq<Week>, resources: seq<Resource>, assessments: seq<Assessment>)

  const ResourceKinds: seq<string> := ["video", "article", "docs"]

  predicate ValidResource(r: Resource) {
    r.kind in ResourceKinds
  }

  /** The constraints the plan schema adds beyond the shape the datatypes already fix. */
  predicate ValidPlan(p: Plan) {
    forall r :: r in p.resources ==> ValidResource(r)
  }
}
