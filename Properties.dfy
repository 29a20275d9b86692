/**
 * What the generator promises, proved about the specifications its methods
 * meet: the week count and its arithmetic, the theme and milestone tables,
 * the shape of each day's tasks and of the follow-up list, where the
 * assessments fall, and that both results are determined by their inputs.
 */
module Properties {
  import opened Text
  import opened Ordered
  import opened Schemas
  import opened MockProvider

  function Indicator(b: bool): nat { if b then 1 else 0 }

  // ================================================================ Week count

  lemma WeeksNeededExamples()
    ensures WeeksNeeded(8) == 5 && WeeksNeeded(1) == 12 && WeeksNeeded(40) == 4
    ensures WeeksNeeded(5) == 8 && WeeksNeeded(6) == 7 && WeeksNeeded(7) == 6
  {
  }

  /**
   * Unless capped at 12, w weeks of t hours cover 40 hours; unless raised to
   * the floor of 4, w - 1 weeks do not.
   */
  lemma WeeksNeededCoversForty(t: int)
    requires t >= 1
    ensures var w := WeeksNeeded(t); (w == 12 || 40 <= w * t) && (w == 4 || (w - 1) * t < 40)
  {
    var c := CeilDiv(40, t);
    var w := WeeksNeeded(t);
    if w != 12 {
      assert w >= c;
      MulMonotone(c, w, t);
    }
    if w != 4 {
      assert w <= c;
      MulMonotone(w - 1, c - 1, t);
    }
  }

  lemma MulMonotone(a: int, b: int, t: int)
    requires a <= b && t >= 0
    ensures a * t <= b * t
  {
    assert b * t - a * t == (b - a) * t;
  }

  /** More hours per week never lengthens the plan. */
  lemma WeeksNeededAntitone(t1: int, t2: int)
    requires 1 <= t1 <= t2
    ensures WeeksNeeded(t2) <= WeeksNeeded(t1)
  {
    var c1, c2 := CeilDiv(40, t1), CeilDiv(40, t2);
    assert 40 <= c1 * t1;
    assert c1 >= 1;
    MulMonotone(t1, t2, c1);
    assert 40 <= c1 * t2;
    if c2 > c1 {
      MulMonotone(c1, c2 - 1, t2);
      assert false;
    }
  }

  /** A plan runs past 6 weeks exactly when the budget is at most 6 hours a week. */
  lemma LongPlanIff(t: int)
    requires t >= 1
    ensures WeeksNeeded(t) > 6 <==> t <= 6
  {
    var c := CeilDiv(40, t);
    if t <= 6 {
      MulMonotone(t, 6, c);
      assert c >= 7;
    } else {
      MulMonotone(7, t, 6);
      assert 6 * t >= 42;
      assert c <= 6;
    }
  }

  /** The days of a week together are estimated at the weekly budget, to within half a day's rounding each. */
  lemma WeeklyEstimateNearBudget(t: int)
    ensures var d := DaysPerWeek(t); var r := TimeEstimateTenths(t);
      -d <= 2 * (d * r) - 20 * t <= d
  {
  }

  // ================================================================ Tasks

  /**
   * Each topic names its week right after "Week " and its day after a fixed
   * middle part, so both numbers can be read back from the text.
   */
  lemma TopicNumbersReadBack(weekNum: nat, dayNum: nat)
    ensures var s, w := ReadingTopic(weekNum, dayNum), NatToString(weekNum);
      && 5 + |w| + 16 <= |s| && s[..5] == "Week "
      && LeadingDigits(s[5..]) == w && LeadingDigits(s[5 + |w| + 16..]) == NatToString(dayNum)
    ensures var s, w := VideoTopic(weekNum, dayNum), NatToString(weekNum);
      && 5 + |w| + 27 <= |s| && s[..5] == "Week "
      && LeadingDigits(s[5..]) == w && LeadingDigits(s[5 + |w| + 27..]) == NatToString(dayNum)
    ensures var s, w := PracticeTopic(weekNum, dayNum), NatToString(weekNum);
      && 5 + |w| + 17 <= |s| && s[..5] == "Week "
      && LeadingDigits(s[5..]) == w && LeadingDigits(s[5 + |w| + 17..]) == NatToString(dayNum)
  {
    var w, d := NatToString(weekNum), NatToString(dayNum);
    ReadBackTwoNumbers("Week ", w, " concepts - Day ", d, " fundamentals");
    ReadBackTwoNumbersAtEnd("Week ", w, " tutorial series - Episode ", d);
    ReadBackTwoNumbersAtEnd("Week ", w, " exercises - Set ", d);
  }

  /** Different (week, day) pairs get different topics, so no two days of a plan share a task. */
  lemma TopicsInjective(w1: nat, d1: nat, w2: nat, d2: nat)
    ensures ReadingTopic(w1, d1) == ReadingTopic(w2, d2) ==> w1 == w2 && d1 == d2
    ensures VideoTopic(w1, d1) == VideoTopic(w2, d2) ==> w1 == w2 && d1 == d2
    ensures PracticeTopic(w1, d1) == PracticeTopic(w2, d2) ==> w1 == w2 && d1 == d2
  {
    TopicNumbersReadBack(w1, d1);
    TopicNumbersReadBack(w2, d2);
    if ReadingTopic(w1, d1) == ReadingTopic(w2, d2) {
      NatToStringInjective(w1, w2);
      NatToStringInjective(d1, d2);
    }
    if VideoTopic(w1, d1) == VideoTopic(w2, d2) {
      NatToStringInjective(w1, w2);
      NatToStringInjective(d1, d2);
    }
    if PracticeTopic(w1, d1) == PracticeTopic(w2, d2) {
      NatToStringInjective(w1, w2);
      NatToStringInjective(d1, d2);
    }
  }

  /** A day has between one and three tasks. */
  lemma TaskListBounds(tasks: seq<Task>, weekNum: nat, dayNum: nat, intake: Intake)
    requires TasksSpec(tasks, weekNum, dayNum, intake)
    ensures 1 <= |tasks| <= 3
  {
    TaskRanks(weekNum, dayNum, intake.goal);
    var f := intake.preferredFormat;
    if !WantsReading(f) && !WantsVideo(f) && !WantsPractice(f) {
      BoundedKeysLength(tasks, TaskRank, 3, 3);
    } else {
      BoundedKeysLength(tasks, TaskRank, 0, 2);
    }
  }

  /** For a schema-valid intake the Study fallback never appears. */
  lemma ValidIntakeNeverFallsBack(tasks: seq<Task>, weekNum: nat, dayNum: nat, intake: Intake)
    requires ValidIntake(intake)
    requires TasksSpec(tasks, weekNum, dayNum, intake)
    ensures StudyTask(intake.goal) !in tasks
    ensures exists t :: t in tasks && TaskRank(t) < 3
  {
    ValidIntakeHasKnownFormat(intake);
    TaskRanks(weekNum, dayNum, intake.goal);
    var f := intake.preferredFormat;
    if WantsReading(f) {
      assert ReadTask(weekNum, dayNum) in tasks;
    } else if WantsVideo(f) {
      assert WatchTask(weekNum, dayNum) in tasks;
    } else {
      assert PracticeTask(weekNum, dayNum) in tasks;
    }
  }

  /** The task list of a day is determined by the week, the day and the intake. */
  lemma TasksDeterministic(a: seq<Task>, b: seq<Task>, weekNum: nat, dayNum: nat, intake: Intake)
    requires TasksSpec(a, weekNum, dayNum, intake) && TasksSpec(b, weekNum, dayNum, intake)
    ensures a == b
  {
    UniqueByMembers(a, b, TaskRank);
  }

  // ================================================================ Follow-ups

  lemma FollowupQuestionsLength(level: string, frontend: bool, backend: bool, priority: bool)
    ensures |FollowupQuestions(level, frontend, backend, priority)|
            == 2 + Indicator(frontend) + Indicator(backend) + Indicator(priority)
  {
  }

  /** Every list meeting the description is the assembled list for the intake's three conditions. */
  lemma FollowupsAreAssembled(qs: seq<Question>, intake: Intake, now: int)
    requires FollowupsSpec(qs, intake, now)
    ensures qs == FollowupQuestions(intake.currentLevel, WantsFrontend(intake.goal),
                                    WantsBackend(intake.goal), TightDeadline(intake.deadline, now))
  {
    var fe, be, pe := WantsFrontend(intake.goal), WantsBackend(intake.goal), TightDeadline(intake.deadline, now);
    var e := FollowupQuestions(intake.currentLevel, fe, be, pe);
    FollowupQuestionsOrdered(intake.currentLevel, fe, be, pe);
    FollowupQuestionsMembers(intake.currentLevel, fe, be, pe);
    forall x ensures x in qs <==> x in e {
      if x in qs {
        var k :| 0 <= k < |qs| && qs[k] == x;
        if k >= 2 {
          assert x in ConditionalQuestions;
        }
      }
      if x in e {
        var k :| 0 <= k < |e| && e[k] == x;
        if k >= 2 {
          assert x in ConditionalQuestions;
        }
      }
    }
    UniqueByMembers(qs, e, QuestionRank);
  }

  /**
   * The list is the two base questions followed by exactly the conditional
   * questions that apply, so it has 2 + (number of conditions that hold)
   * entries, between 2 and 5, with distinct ids.
   */
  lemma FollowupsShape(qs: seq<Question>, intake: Intake, now: int)
    requires FollowupsSpec(qs, intake, now)
    ensures |qs| == 2 + Indicator(WantsFrontend(intake.goal)) + Indicator(WantsBackend(intake.goal))
                      + Indicator(TightDeadline(intake.deadline, now))
    ensures 2 <= |qs| <= 5
    ensures qs[0].id == "experience" && qs[0].SingleSelect?
    ensures qs[1].id == "learning_style" && qs[1].MultiSelect?
    ensures forall i, j :: 0 <= i < j < |qs| ==> qs[i].id != qs[j].id
  {
    FollowupsAreAssembled(qs, intake, now);
    FollowupQuestionsLength(intake.currentLevel, WantsFrontend(intake.goal),
                            WantsBackend(intake.goal), TightDeadline(intake.deadline, now));
  }

  /** The same intake and the same "now" always give the same questions. */
  lemma FollowupsDeterministic(a: seq<Question>, b: seq<Question>, intake: Intake, now: int)
    requires FollowupsSpec(a, intake, now) && FollowupsSpec(b, intake, now)
    ensures a == b
  {
    FollowupsAreAssembled(a, intake, now);
    FollowupsAreAssembled(b, intake, now);
  }

  /** Goals that mention a backend or the web, in any letter case, get the matching question. */
  lemma GoalKeywordExamples()
    ensures WantsBackend("Learn backend APIs")
    ensures WantsFrontend("Master Web Development")
  {
    assert OccursAt("Learn backend APIs", "backend", 6);
    LowerKeepsMatch("Learn backend APIs", "backend", 6);
    LowerKeepsMatchUpper("Master Web Development", 7);
  }

  lemma LowerKeepsMatchUpper(s: string, i: int)
    requires 0 <= i && i + 3 <= |s| && s[i..i + 3] == "Web"
    ensures Includes(ToLower(s), "web")
  {
    var t := ToLower(s);
    assert s[i] == s[i..i + 3][0] == 'W';
    assert s[i + 1] == s[i..i + 3][1] == 'e';
    assert s[i + 2] == s[i..i + 3][2] == 'b';
    assert t[i] == 'w' && t[i + 1] == 'e' && t[i + 2] == 'b';
    assert t[i..i + 3] == "web";
    assert OccursAt(t, "web", i);
  }

  /** The keyword checks ignore letter case: a goal and its lower-cased form get the same questions. */
  lemma KeywordsIgnoreCase(goal: string)
    ensures WantsFrontend(ToLower(goal)) == WantsFrontend(goal)
    ensures WantsBackend(ToLower(goal)) == WantsBackend(goal)
  {
    ToLowerIdempotent(goal);
  }

  /** A deadline that is tight stays tight as time passes, and so does any earlier deadline. */
  lemma TightDeadlineMonotone(ms1: int, ms2: int, now1: int, now2: int)
    requires ms2 <= ms1 && now1 <= now2
    ensures TightDeadline(At(ms1), now1) ==> TightDeadline(At(ms2), now2)
    ensures !TightDeadline(NoDeadline, now1) && !TightDeadline(Unparsable, now1)
  {
  }

  /** A deadline 30 days out adds the free-text priority question; one 120 days out does not. */
  lemma DeadlineExamples(qs: seq<Question>, goal: string, now: int)
    requires FollowupsSpec(qs, Intake(goal, "beginner", 5, ["video"], At(now + 30 * 24 * 60 * 60 * 1000), None), now)
    ensures PriorityQuestion in qs && PriorityQuestion.FreeText?
    ensures !FollowupsSpec(qs, Intake(goal, "beginner", 5, ["video"], At(now + 120 * 24 * 60 * 60 * 1000), None), now)
  {
  }

  // ================================================================ Assessments

  /** The week number a "Week n" label names. */
  function LabelWeek(s: string): Option<nat> {
    if |s| > 5 && s[..5] == "Week " && AllDigits(s[5..]) then Some(DigitsValue(s[5..])) else None
  }

  lemma LabelWeekOfWeekLabel(n: nat)
    ensures LabelWeek(WeekLabel(n)) == Some(n)
  {
    var s := WeekLabel(n);
    assert s[5..] == NatToString(n);
    DigitsValueOfNatToString(n);
  }

  /**
   * Every assessment of a plan of w >= 4 weeks names a week of the plan, the
   * weeks never go backwards, and they are strictly increasing except that a
   * four-week plan puts its first two assessments both in week 2.
   */
  lemma AssessmentsWithinPlan(a: seq<Assessment>, w: nat)
    requires 4 <= w
    requires AssessmentsSpec(a, w)
    ensures forall i :: 0 <= i < |a| ==> LabelWeek(a[i].when).Some? && 2 <= LabelWeek(a[i].when).value <= w
    ensures forall i, j :: 0 <= i < j < |a| ==> LabelWeek(a[i].when).value <= LabelWeek(a[j].when).value
    ensures (forall i, j :: 0 <= i < j < |a| ==> LabelWeek(a[i].when).value < LabelWeek(a[j].when).value)
            <==> w > 4
  {
    var h := CeilDiv(w, 2);
    assert 2 <= h <= w;
    assert h < w;
    LabelWeekOfWeekLabel(2);
    LabelWeekOfWeekLabel(h);
    LabelWeekOfWeekLabel(w);
    assert h == 2 <==> w == 4;
  }

  // ================================================================ Plans

  /** Weeks are numbered 1..n with n in [4, 12], each planned at the weekly budget, with table themes. */
  lemma PlanWeeks(plan: Plan, intake: Intake)
    requires PlanSpec(plan, intake)
    ensures 4 <= |plan.weeks| <= 12
    ensures forall k :: 0 <= k < |plan.weeks| ==>
      && plan.weeks[k].week == k + 1
      && plan.weeks[k].hoursPlanned == intake.timeCommitment
      && plan.weeks[k].theme == Themes[Min(k, 9)]
      && |plan.weeks[k].milestones| == 2
  {
    forall k | 0 <= k < |plan.weeks|
      ensures plan.weeks[k].theme == Themes[Min(k, 9)] && |plan.weeks[k].milestones| == 2
    {
      assert WeekSpec(plan.weeks[k], k + 1, intake);
    }
  }

  /** Every week has 5 days when the budget exceeds 7 hours and 3 otherwise, and every day has 1 to 3 tasks. */
  lemma PlanDays(plan: Plan, intake: Intake)
    requires PlanSpec(plan, intake)
    ensures forall k :: 0 <= k < |plan.weeks| ==>
      |plan.weeks[k].days| == (if intake.timeCommitment > 7 then 5 else 3)
    ensures forall k, j :: 0 <= k < |plan.weeks| && 0 <= j < |plan.weeks[k].days| ==>
      plan.weeks[k].days[j].day == j + 1 && 1 <= |plan.weeks[k].days[j].tasks| <= 3
  {
    forall k, j | 0 <= k < |plan.weeks| && 0 <= j < |plan.weeks[k].days|
      ensures plan.weeks[k].days[j].day == j + 1 && 1 <= |plan.weeks[k].days[j].tasks| <= 3
    {
      assert WeekSpec(plan.weeks[k], k + 1, intake);
      assert DaySpec(plan.weeks[k].days[j], k + 1, j, intake);
      TaskListBounds(plan.weeks[k].days[j].tasks, k + 1, j + 1, intake);
    }
  }

  /** No day of a plan for a schema-valid intake falls back to the Study task. */
  lemma PlanNeverFallsBack(plan: Plan, intake: Intake)
    requires ValidIntake(intake)
    requires PlanSpec(plan, intake)
    ensures forall k, j :: 0 <= k < |plan.weeks| && 0 <= j < |plan.weeks[k].days| ==>
      StudyTask(intake.goal) !in plan.weeks[k].days[j].tasks
  {
    forall k, j | 0 <= k < |plan.weeks| && 0 <= j < |plan.weeks[k].days|
      ensures StudyTask(intake.goal) !in plan.weeks[k].days[j].tasks
    {
      assert WeekSpec(plan.weeks[k], k + 1, intake);
      assert DaySpec(plan.weeks[k].days[j], k + 1, j, intake);
      ValidIntakeNeverFallsBack(plan.weeks[k].days[j].tasks, k + 1, j + 1, intake);
    }
  }

  /** A third assessment is added exactly when the budget is at most 6 hours a week. */
  lemma PlanAssessments(plan: Plan, intake: Intake)
    requires PlanSpec(plan, intake)
    requires intake.timeCommitment >= 1
    ensures |plan.assessments| == 3 <==> intake.timeCommitment <= 6
    ensures |plan.assessments| == 2 <==> intake.timeCommitment > 6
    ensures forall i :: 0 <= i < |plan.assessments| ==>
      LabelWeek(plan.assessments[i].when).Some?
      && 1 <= LabelWeek(plan.assessments[i].when).value <= |plan.weeks|
  {
    LongPlanIff(intake.timeCommitment);
    AssessmentsWithinPlan(plan.assessments, |plan.weeks|);
  }

  lemma DaysDeterministic(a: seq<Day>, b: seq<Day>, weekNum: nat, intake: Intake)
    requires DaysSpec(a, weekNum, intake) && DaysSpec(b, weekNum, intake)
    ensures a == b
  {
    forall k | 0 <= k < |a| ensures a[k] == b[k] {
      assert DaySpec(a[k], weekNum, k, intake) && DaySpec(b[k], weekNum, k, intake);
      TasksDeterministic(a[k].tasks, b[k].tasks, weekNum, k + 1, intake);
    }
  }

  lemma WeekDeterministic(a: Week, b: Week, weekNum: nat, intake: Intake)
    requires WeekSpec(a, weekNum, intake) && WeekSpec(b, weekNum, intake)
    ensures a == b
  {
    DaysDeterministic(a.days, b.days, weekNum, intake);
  }

  lemma AssessmentsDeterministic(a: seq<Assessment>, b: seq<Assessment>, weeksNeeded: nat)
    requires AssessmentsSpec(a, weeksNeeded) && AssessmentsSpec(b, weeksNeeded)
    ensures a == b
  {
    if weeksNeeded > 6 {
      assert a == [a[0], a[1], a[2]] && b == [b[0], b[1], b[2]];
    } else {
      assert a == [a[0], a[1]] && b == [b[0], b[1]];
    }
  }

  /** The plan is a function of the intake alone: the follow-up answers cannot change it. */
  lemma PlanDeterministic(a: Plan, b: Plan, intake: Intake)
    requires PlanSpec(a, intake) && PlanSpec(b, intake)
    ensures a == b
  {
    forall k | 0 <= k < |a.weeks| ensures a.weeks[k] == b.weeks[k] {
      WeekDeterministic(a.weeks[k], b.weeks[k], k + 1, intake);
    }
    AssessmentsDeterministic(a.assessments, b.assessments, WeeksNeeded(intake.timeCommitment));
  }

  // ================================================================ Resources

  /** The resources are the same three whatever the intake. */
  lemma ResourcesIndependentOfIntake(a: Intake, b: Intake)
    ensures GenerateResources(a) == GenerateResources(b)
  {
  }
}
