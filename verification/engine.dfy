/**
 The recommendation rule engine of the treatment plan generator: from one
 submitted health profile it derives the BMI result and the ordered list of
 recommendations that the page shows. Each recommendation belongs to one of six
 sections: Weight, Sleep, Exercise and Stress are the labels the page puts on
 those messages, and Preventive and Diet are the headings the remaining
 messages appear under. The engine keeps no state: the plan is a
 function of the profile alone.
 */
module Engine {
  import opened Wrappers
  import opened Text

  /**
   The fields of the submitted form that some rule reads. Height is in
   centimetres and weight in kilograms; the exercise and junk-food answers
   are the strings the select boxes return.
   */
  datatype Profile = Profile(
    age: int,
    height: real,
    weight: real,
    occupation: string,
    sleepHours: int,
    exerciseFrequency: string,
    junkFood: string,
    medicalConditions: string,
    familyHistory: string,
    mentalHealth: string)

  /** What the form's widgets guarantee about a profile before the engine sees it. */
  predicate FromForm(p: Profile) {
    && 1 <= p.age <= 120
    && 50.0 <= p.height <= 250.0
    && 1.0 <= p.weight <= 500.0
    && 1 <= p.sleepHours <= 12
    && p.exerciseFrequency in ["Regularly", "Occasionally", "Never"]
    && p.junkFood in ["High", "Moderate", "Low"]
  }

  datatype BmiCategory = Underweight | NormalWeight | Overweight | Obese

  datatype BmiResult = BmiResult(value: real, category: BmiCategory)

  /** The label or heading each recommendation is shown with, in page order. */
  datatype Section = Weight | Sleep | Exercise | Stress | Preventive | Diet

  /** One rule per block of the engine, in the order the blocks run. */
  datatype Rule =
    | WeightRule | SleepRule | ExerciseRule | StressRule
    | AgeRule | DiabetesRule | HypertensionRule | HeartRule | MentalHealthRule
    | JunkFoodRule | GeneralDietRule

  /** The messages the engine can emit; the stress message carries the occupation it quotes. */
  datatype Message =
    | GainWeight | LoseWeight | SeeProviderAboutWeight
    | SleepTooShort | SleepTooLong | SleepInRange
    | StartExercising | ExerciseMoreConsistently | KeepExercising
    | ManageStress(occupation: string)
    | AgeCheckups | DiabetesCare | HypertensionCare | HeartScreening | MentalHealthSupport
    | CutProcessedFood | KeepModeratingJunkFood | KeepLowJunkFood
    | BalancedDiet

  datatype Recommendation = Recommendation(section: Section, message: Message)

  datatype Plan = Plan(bmi: Option<BmiResult>, recommendations: seq<Recommendation>)

  /** The rule whose block emits a message. */
  function RuleOf(m: Message): Rule {
    match m
    case GainWeight | LoseWeight | SeeProviderAboutWeight => WeightRule
    case SleepTooShort | SleepTooLong | SleepInRange => SleepRule
    case StartExercising | ExerciseMoreConsistently | KeepExercising => ExerciseRule
    case ManageStress(_) => StressRule
    case AgeCheckups => AgeRule
    case DiabetesCare => DiabetesRule
    case HypertensionCare => HypertensionRule
    case HeartScreening => HeartRule
    case MentalHealthSupport => MentalHealthRule
    case CutProcessedFood | KeepModeratingJunkFood | KeepLowJunkFood => JunkFoodRule
    case BalancedDiet => GeneralDietRule
  }

  /** The position of a rule's block in the engine. */
  function Rank(r: Rule): nat {
    match r
    case WeightRule => 0
    case SleepRule => 1
    case ExerciseRule => 2
    case StressRule => 3
    case AgeRule => 4
    case DiabetesRule => 5
    case HypertensionRule => 6
    case HeartRule => 7
    case MentalHealthRule => 8
    case JunkFoodRule => 9
    case GeneralDietRule => 10
  }

  /** The section (label or heading) a rule's message is shown with. */
  function SectionOf(r: Rule): Section {
    match r
    case WeightRule => Weight
    case SleepRule => Sleep
    case ExerciseRule => Exercise
    case StressRule => Stress
    case AgeRule | DiabetesRule | HypertensionRule | HeartRule | MentalHealthRule => Preventive
    case JunkFoodRule | GeneralDietRule => Diet
  }

  /** The position of a section on the page. */
  function SectionOrder(s: Section): nat {
    match s
    case Weight => 0
    case Sleep => 1
    case Exercise => 2
    case Stress => 3
    case Preventive => 4
    case Diet => 5
  }

  /** Rules in a later block never belong to an earlier section. */
  lemma SectionFollowsRank(a: Rule, b: Rule)
    requires Rank(a) <= Rank(b)
    ensures SectionOrder(SectionOf(a)) <= SectionOrder(SectionOf(b))
  {
  }

  /** A message together with the section its rule shows it under. */
  function Tag(m: Message): Recommendation {
    Recommendation(SectionOf(RuleOf(m)), m)
  }

  function RankOf(rec: Recommendation): nat {
    Rank(RuleOf(rec.message))
  }

  // ----- BMI -----

  /**
   weight / (height/100)², computed only when both measurements are positive;
   otherwise the BMI part of the plan is omitted.
   */
  function Bmi(height: real, weight: real): (r: Option<real>)
    ensures r.Some? <==> height > 0.0 && weight > 0.0
    ensures r.Some? ==> r.value > 0.0
    ensures r.Some? ==> r.value * ((height / 100.0) * (height / 100.0)) == weight
  {
    if height > 0.0 && weight > 0.0 then
      var metres := height / 100.0;
      Some(weight / (metres * metres))
    else None
  }

  /** The category of a BMI value; each category owns exactly one interval. */
  function Classify(bmi: real): (c: BmiCategory)
    ensures c == Underweight <==> bmi < 18.5
    ensures c == NormalWeight <==> 18.5 <= bmi < 25.0
    ensures c == Overweight <==> 25.0 <= bmi < 30.0
    ensures c == Obese <==> 30.0 <= bmi
  {
    if bmi < 18.5 then Underweight
    else if 18.5 <= bmi < 25.0 then NormalWeight
    else if 25.0 <= bmi < 30.0 then Overweight
    else Obese
  }

  function Severity(c: BmiCategory): nat {
    match c
    case Underweight => 0
    case NormalWeight => 1
    case Overweight => 2
    case Obese => 3
  }

  /** A larger BMI never falls in a lower category. */
  lemma ClassifyMonotone(a: real, b: real)
    requires a <= b
    ensures Severity(Classify(a)) <= Severity(Classify(b))
  {
  }

  /** Each threshold belongs to the category above it. */
  lemma ClassifyBoundaries()
    ensures Classify(18.5) == NormalWeight
    ensures Classify(25.0) == Overweight
    ensures Classify(30.0) == Obese
  {
  }

  /** The BMI part of the plan. */
  function BmiOf(p: Profile): (r: Option<BmiResult>)
    ensures r.Some? <==> p.height > 0.0 && p.weight > 0.0
    ensures r.Some? ==> Bmi(p.height, p.weight) == Some(r.value.value)
    ensures r.Some? ==> r.value.category == Classify(r.value.value)
  {
    match Bmi(p.height, p.weight)
    case None => None
    case Some(v) => Some(BmiResult(v, Classify(v)))
  }

  /**
   The weight recommendation, decided on the BMI value by its own chain of
   comparisons: none exactly for a normal weight, otherwise the message that
   matches the category.
   */
  function WeightAdvice(bmi: real): (r: Option<Message>)
    ensures r.Some? ==> RuleOf(r.value) == WeightRule
    ensures r.None? <==> Classify(bmi) == NormalWeight
    ensures r == Some(GainWeight) <==> Classify(bmi) == Underweight
    ensures r == Some(LoseWeight) <==> Classify(bmi) == Overweight
    ensures r == Some(SeeProviderAboutWeight) <==> Classify(bmi) == Obese
  {
    if bmi < 18.5 then Some(GainWeight)
    else if 25.0 <= bmi < 30.0 then Some(LoseWeight)
    else if bmi >= 30.0 then Some(SeeProviderAboutWeight)
    else None
  }

  /** The weight block: silent when no BMI was computed, otherwise the advice for the BMI. */
  function WeightDecision(p: Profile): (r: Option<Message>)
    ensures r.Some? ==> RuleOf(r.value) == WeightRule
    ensures r.Some? <==> BmiOf(p).Some? && BmiOf(p).value.category != NormalWeight
  {
    var bmi := BmiOf(p);
    if bmi.Some? then WeightAdvice(bmi.value.value) else None
  }

  // ----- Lifestyle -----

  /** Sleep below 6 hours is too short, above 9 hours too long, anything else in range. */
  function SleepAdvice(hours: int): (m: Message)
    ensures RuleOf(m) == SleepRule
    ensures m == SleepTooShort <==> hours < 6
    ensures m == SleepTooLong <==> hours > 9
    ensures m == SleepInRange <==> 6 <= hours <= 9
  {
    if hours < 6 then SleepTooShort
    else if hours > 9 then SleepTooLong
    else SleepInRange
  }

  /** Any answer other than "Never" or "Occasionally" is treated as "Regularly". */
  function ExerciseAdvice(frequency: string): (m: Message)
    ensures RuleOf(m) == ExerciseRule
    ensures m == StartExercising <==> frequency == "Never"
    ensures m == ExerciseMoreConsistently <==> frequency == "Occasionally"
    ensures m == KeepExercising <==> frequency != "Never" && frequency != "Occasionally"
  {
    if frequency == "Never" then StartExercising
    else if frequency == "Occasionally" then ExerciseMoreConsistently
    else KeepExercising
  }

  /** Any answer other than "High" or "Moderate" is treated as "Low". */
  function JunkFoodAdvice(level: string): (m: Message)
    ensures RuleOf(m) == JunkFoodRule
    ensures m == CutProcessedFood <==> level == "High"
    ensures m == KeepModeratingJunkFood <==> level == "Moderate"
    ensures m == KeepLowJunkFood <==> level != "High" && level != "Moderate"
  {
    if level == "High" then CutProcessedFood
    else if level == "Moderate" then KeepModeratingJunkFood
    else KeepLowJunkFood
  }

  // ----- Preventive -----

  predicate CheckupAge(age: int) {
    age > 40
  }

  /** The conditions text, folded to lower case, contains "diabetes". */
  predicate MentionsDiabetes(conditions: string) {
    conditions != "" && Find(Lower(conditions), "diabetes") != -1
  }

  /** The conditions text, folded, contains "hypertension" or "high blood pressure". */
  predicate MentionsHypertension(conditions: string) {
    conditions != ""
    && (Find(Lower(conditions), "hypertension") != -1
        || Find(Lower(conditions), "high blood pressure") != -1)
  }

  /** The family history, folded, contains "heart" or "cardiac". */
  predicate MentionsHeartDisease(history: string) {
    history != ""
    && (Find(Lower(history), "heart") != -1 || Find(Lower(history), "cardiac") != -1)
  }

  /** Any non-empty answer about mental health, whatever it says. */
  predicate ReportsMentalHealth(answer: string) {
    answer != ""
  }

  /**
   The keyword rules are plain case-insensitive containment: the guard on an
   empty text never changes the answer, and folding the text first makes the
   rules blind to ASCII case.
   */
  lemma KeywordRulesAreContainment(text: string)
    ensures MentionsDiabetes(text) <==> exists i :: OccursAt(Lower(text), "diabetes", i)
    ensures MentionsHypertension(text) <==>
      (exists i :: OccursAt(Lower(text), "hypertension", i))
      || (exists i :: OccursAt(Lower(text), "high blood pressure", i))
    ensures MentionsHeartDisease(text) <==>
      (exists i :: OccursAt(Lower(text), "heart", i))
      || (exists i :: OccursAt(Lower(text), "cardiac", i))
  {
    if text == "" {
      assert Lower(text) == "";
    }
  }

  /** Two texts that agree letter by letter up to ASCII case trigger the same keyword rules. */
  lemma KeywordRulesIgnoreCase(a: string, b: string)
    requires EqualIgnoringCase(a, b)
    ensures MentionsDiabetes(a) == MentionsDiabetes(b)
    ensures MentionsHypertension(a) == MentionsHypertension(b)
    ensures MentionsHeartDisease(a) == MentionsHeartDisease(b)
  {
    LowerEqualIffIgnoringCase(a, b);
    assert |a| == |Lower(a)| == |b|;
  }

  /** The slot of a rule that emits its one message only when it fires. */
  function When(fires: bool, m: Message): (r: Option<Message>)
    ensures r.Some? <==> fires
    ensures r.Some? ==> r.value == m
  {
    if fires then Some(m) else None
  }

  // ----- The plan -----

  /** Slot k holds only a message of the rule of rank `base + k`. */
  predicate Ranked(slots: seq<Option<Message>>, base: nat) {
    forall k :: 0 <= k < |slots| && slots[k].Some? ==> Rank(RuleOf(slots[k].value)) == base + k
  }

  /** What the block of rank k emits for a profile, if anything. */
  function Decision(p: Profile, k: nat): (d: Option<Message>)
    requires k < 11
    ensures d.Some? ==> Rank(RuleOf(d.value)) == k
  {
    match k
    case 0 => WeightDecision(p)
    case 1 => Some(SleepAdvice(p.sleepHours))
    case 2 => Some(ExerciseAdvice(p.exerciseFrequency))
    case 3 => Some(ManageStress(p.occupation))
    case 4 => When(CheckupAge(p.age), AgeCheckups)
    case 5 => When(MentionsDiabetes(p.medicalConditions), DiabetesCare)
    case 6 => When(MentionsHypertension(p.medicalConditions), HypertensionCare)
    case 7 => When(MentionsHeartDisease(p.familyHistory), HeartScreening)
    case 8 => When(ReportsMentalHealth(p.mentalHealth), MentalHealthSupport)
    case 9 => Some(JunkFoodAdvice(p.junkFood))
    case 10 => Some(BalancedDiet)
  }

  /** What each block of the engine emits, in the order the blocks run. */
  function Slots(p: Profile): (slots: seq<Option<Message>>)
    ensures |slots| == 11
    ensures Ranked(slots, 0)
  {
    seq(11, k requires 0 <= k < 11 => Decision(p, k))
  }

  /** The emitted messages, in slot order, each under its section. */
  function Collect(slots: seq<Option<Message>>): (recs: seq<Recommendation>)
    ensures |recs| <= |slots|
    ensures forall i :: 0 <= i < |recs| ==> recs[i] == Tag(recs[i].message)
  {
    if slots == [] then []
    else (if slots[0].Some? then [Tag(slots[0].value)] else []) + Collect(slots[1..])
  }

  /** The treatment plan for one profile. */
  function GeneratePlan(p: Profile): (plan: Plan)
    ensures plan.bmi.Some? <==> p.height > 0.0 && p.weight > 0.0
    ensures |plan.recommendations| <= 11
  {
    Plan(BmiOf(p), Collect(Slots(p)))
  }

  /**
   Recommendations come out in the order the engine's blocks run, each block
   contributing at most one, and each under the section of its rule.
   */
  lemma PlanOrdered(p: Profile)
    ensures StrictlyOrdered(GeneratePlan(p).recommendations)
    ensures forall i :: 0 <= i < |GeneratePlan(p).recommendations| ==>
      GeneratePlan(p).recommendations[i] == Tag(GeneratePlan(p).recommendations[i].message)
  {
    CollectRanks(Slots(p), 0);
  }

  // ----- Order and counting -----

  /** Every later recommendation comes from a later block. */
  predicate StrictlyOrdered(recs: seq<Recommendation>) {
    forall i, j :: 0 <= i < j < |recs| ==> RankOf(recs[i]) < RankOf(recs[j])
  }

  /** How many recommendations a rule contributed. */
  function CountRule(recs: seq<Recommendation>, r: Rule): nat {
    if recs == [] then 0
    else (if RuleOf(recs[0].message) == r then 1 else 0) + CountRule(recs[1..], r)
  }

  lemma {:induction false} CountAppend(a: seq<Recommendation>, b: seq<Recommendation>, r: Rule)
    ensures CountRule(a + b, r) == CountRule(a, r) + CountRule(b, r)
  {
    if a != [] {
      assert (a + b)[0] == a[0];
      assert (a + b)[1..] == a[1..] + b;
      CountAppend(a[1..], b, r);
    } else {
      assert a + b == b;
    }
  }

  lemma RankedTail(slots: seq<Option<Message>>, base: nat)
    requires slots != [] && Ranked(slots, base)
    ensures Ranked(slots[1..], base + 1)
  {
    var tail := slots[1..];
    forall k | 0 <= k < |tail| && tail[k].Some?
      ensures Rank(RuleOf(tail[k].value)) == base + 1 + k
    {
      assert tail[k] == slots[k + 1];
    }
  }

  /** Collecting ranked slots keeps their order: ranks strictly increase and stay in range. */
  lemma {:induction false} CollectRanks(slots: seq<Option<Message>>, base: nat)
    requires Ranked(slots, base)
    ensures StrictlyOrdered(Collect(slots))
    ensures forall i :: 0 <= i < |Collect(slots)| ==>
      base <= RankOf(Collect(slots)[i]) < base + |slots|
  {
    if slots != [] {
      RankedTail(slots, base);
      CollectRanks(slots[1..], base + 1);
    }
  }

  /** A rule contributes one recommendation exactly when its slot is filled. */
  lemma {:induction false} CollectCount(slots: seq<Option<Message>>, base: nat, r: Rule)
    requires Ranked(slots, base)
    ensures CountRule(Collect(slots), r) ==
      if base <= Rank(r) < base + |slots| && slots[Rank(r) - base].Some? then 1 else 0
  {
    if slots != [] {
      var tail := slots[1..];
      var head: seq<Recommendation> := if slots[0].Some? then [Tag(slots[0].value)] else [];
      RankedTail(slots, base);
      CollectCount(tail, base + 1, r);
      CountAppend(head, Collect(tail), r);
      assert Collect(slots) == head + Collect(tail);
      if Rank(r) == base {
        if slots[0].Some? {
          RankInjective(RuleOf(slots[0].value), r);
        }
        assert CountRule(head, r) == if slots[0].Some? then 1 else 0;
      } else {
        assert CountRule(head, r) == 0;
        if base < Rank(r) < base + |slots| {
          assert slots[Rank(r) - base] == tail[Rank(r) - (base + 1)];
        }
      }
    }
  }

  lemma {:induction false} CollectMember(slots: seq<Option<Message>>, m: Message)
    ensures Tag(m) in Collect(slots) <==> Some(m) in slots
  {
    if slots != [] {
      CollectMember(slots[1..], m);
      assert slots == [slots[0]] + slots[1..];
    }
  }

  lemma RankInjective(a: Rule, b: Rule)
    requires Rank(a) == Rank(b)
    ensures a == b
  {
  }

  /** A message can only sit in the slot of its own rule. */
  lemma {:induction false} SlotMember(slots: seq<Option<Message>>, base: nat, m: Message)
    requires Ranked(slots, base)
    ensures Some(m) in slots <==>
      base <= Rank(RuleOf(m)) < base + |slots| && slots[Rank(RuleOf(m)) - base] == Some(m)
  {
    if Some(m) in slots {
      var k :| 0 <= k < |slots| && slots[k] == Some(m);
      assert Rank(RuleOf(m)) == base + k;
    }
  }

  /**
   Collecting eleven ranked slots: rule r contributes one recommendation when
   its slot is filled and none otherwise, and a message of rule r is emitted,
   under its section, exactly when r's slot holds it.
   */
  lemma CollectSlot(slots: seq<Option<Message>>, r: Rule)
    requires |slots| == 11 && Ranked(slots, 0)
    ensures CountRule(Collect(slots), r) == if slots[Rank(r)].Some? then 1 else 0
    ensures forall m :: RuleOf(m) == r ==> (Tag(m) in Collect(slots) <==> slots[Rank(r)] == Some(m))
  {
    CollectCount(slots, 0, r);
    forall m | RuleOf(m) == r ensures Tag(m) in Collect(slots) <==> slots[Rank(r)] == Some(m) {
      CollectMember(slots, m);
      SlotMember(slots, 0, m);
    }
  }

  /** A filled slot: its rule contributes exactly that message and no other. */
  lemma FilledSlot(slots: seq<Option<Message>>, m: Message)
    requires |slots| == 11 && Ranked(slots, 0)
    requires slots[Rank(RuleOf(m))] == Some(m)
    ensures CountRule(Collect(slots), RuleOf(m)) == 1
    ensures forall n :: RuleOf(n) == RuleOf(m) ==> (Tag(n) in Collect(slots) <==> n == m)
  {
    CollectSlot(slots, RuleOf(m));
  }

  /** A slot that only a firing rule fills: the message is emitted once exactly when the rule fires. */
  lemma GuardedSlot(slots: seq<Option<Message>>, fires: bool, m: Message)
    requires |slots| == 11 && Ranked(slots, 0)
    requires slots[Rank(RuleOf(m))] == When(fires, m)
    ensures CountRule(Collect(slots), RuleOf(m)) == if fires then 1 else 0
    ensures Tag(m) in Collect(slots) <==> fires
  {
    CollectSlot(slots, RuleOf(m));
  }

  /** The exercise slot, whatever its context: one message, chosen by the answer alone. */
  lemma ExerciseSlot(slots: seq<Option<Message>>, frequency: string)
    requires |slots| == 11 && Ranked(slots, 0)
    requires slots[Rank(ExerciseRule)] == Some(ExerciseAdvice(frequency))
    ensures CountRule(Collect(slots), ExerciseRule) == 1
    ensures Tag(StartExercising) in Collect(slots) <==> frequency == "Never"
    ensures Tag(ExerciseMoreConsistently) in Collect(slots) <==> frequency == "Occasionally"
    ensures Tag(KeepExercising) in Collect(slots) <==> frequency != "Never" && frequency != "Occasionally"
  {
    FilledSlot(slots, ExerciseAdvice(frequency));
  }

  /** The junk-food slot, whatever its context: one message, chosen by the answer alone. */
  lemma JunkFoodSlot(slots: seq<Option<Message>>, level: string)
    requires |slots| == 11 && Ranked(slots, 0)
    requires slots[Rank(JunkFoodRule)] == Some(JunkFoodAdvice(level))
    ensures CountRule(Collect(slots), JunkFoodRule) == 1
    ensures Tag(CutProcessedFood) in Collect(slots) <==> level == "High"
    ensures Tag(KeepModeratingJunkFood) in Collect(slots) <==> level == "Moderate"
    ensures Tag(KeepLowJunkFood) in Collect(slots) <==> level != "High" && level != "Moderate"
  {
    FilledSlot(slots, JunkFoodAdvice(level));
  }

  // ----- What the plan contains, rule by rule -----

  /**
   BMI is reported exactly when both measurements are positive; a weight
   recommendation appears exactly when the category is not normal weight, and
   it is the message for that category.
   */
  lemma PlanWeight(p: Profile)
    ensures GeneratePlan(p).bmi.Some? <==> p.height > 0.0 && p.weight > 0.0
    ensures CountRule(GeneratePlan(p).recommendations, WeightRule) ==
      if GeneratePlan(p).bmi.Some? && GeneratePlan(p).bmi.value.category != NormalWeight then 1 else 0
    ensures Recommendation(Weight, GainWeight) in GeneratePlan(p).recommendations <==>
      GeneratePlan(p).bmi.Some? && GeneratePlan(p).bmi.value.category == Underweight
    ensures Recommendation(Weight, LoseWeight) in GeneratePlan(p).recommendations <==>
      GeneratePlan(p).bmi.Some? && GeneratePlan(p).bmi.value.category == Overweight
    ensures Recommendation(Weight, SeeProviderAboutWeight) in GeneratePlan(p).recommendations <==>
      GeneratePlan(p).bmi.Some? && GeneratePlan(p).bmi.value.category == Obese
  {
    CollectSlot(Slots(p), WeightRule);
  }

  /**
   Exactly one sleep recommendation: too short below 6 hours, too long above
   9 hours, in range otherwise.
   */
  lemma PlanSleep(p: Profile)
    ensures CountRule(GeneratePlan(p).recommendations, SleepRule) == 1
    ensures Recommendation(Sleep, SleepTooShort) in GeneratePlan(p).recommendations <==> p.sleepHours < 6
    ensures Recommendation(Sleep, SleepTooLong) in GeneratePlan(p).recommendations <==> p.sleepHours > 9
    ensures Recommendation(Sleep, SleepInRange) in GeneratePlan(p).recommendations <==> 6 <= p.sleepHours <= 9
  {
    FilledSlot(Slots(p), SleepAdvice(p.sleepHours));
  }

  /**
   Exactly one exercise recommendation, chosen by the answer; an answer other
   than "Never" or "Occasionally" gets the message for regular exercise.
   */
  lemma PlanExercise(p: Profile)
    ensures CountRule(GeneratePlan(p).recommendations, ExerciseRule) == 1
    ensures Recommendation(Exercise, StartExercising) in GeneratePlan(p).recommendations <==>
      p.exerciseFrequency == "Never"
    ensures Recommendation(Exercise, ExerciseMoreConsistently) in GeneratePlan(p).recommendations <==>
      p.exerciseFrequency == "Occasionally"
    ensures Recommendation(Exercise, KeepExercising) in GeneratePlan(p).recommendations <==>
      p.exerciseFrequency != "Never" && p.exerciseFrequency != "Occasionally"
  {
    ExerciseSlot(Slots(p), p.exerciseFrequency);
  }

  /** Exactly one stress recommendation, quoting the occupation as given, even when empty. */
  lemma PlanStress(p: Profile)
    ensures CountRule(GeneratePlan(p).recommendations, StressRule) == 1
    ensures Recommendation(Stress, ManageStress(p.occupation)) in GeneratePlan(p).recommendations
  {
    FilledSlot(Slots(p), ManageStress(p.occupation));
  }

  /** The check-up recommendation appears once when the age is over 40, and never otherwise. */
  lemma PlanAgeCheckup(p: Profile)
    ensures CountRule(GeneratePlan(p).recommendations, AgeRule) == if p.age > 40 then 1 else 0
    ensures Recommendation(Preventive, AgeCheckups) in GeneratePlan(p).recommendations <==> p.age > 40
  {
    GuardedSlot(Slots(p), CheckupAge(p.age), AgeCheckups);
  }

  /** The diabetes recommendation appears once exactly when the conditions mention diabetes. */
  lemma PlanDiabetes(p: Profile)
    ensures CountRule(GeneratePlan(p).recommendations, DiabetesRule) == if MentionsDiabetes(p.medicalConditions) then 1 else 0
    ensures Recommendation(Preventive, DiabetesCare) in GeneratePlan(p).recommendations <==> MentionsDiabetes(p.medicalConditions)
  {
    GuardedSlot(Slots(p), MentionsDiabetes(p.medicalConditions), DiabetesCare);
  }

  /** The hypertension recommendation appears once exactly when the conditions mention hypertension or high blood pressure. */
  lemma PlanHypertension(p: Profile)
    ensures CountRule(GeneratePlan(p).recommendations, HypertensionRule) == if MentionsHypertension(p.medicalConditions) then 1 else 0
    ensures Recommendation(Preventive, HypertensionCare) in GeneratePlan(p).recommendations <==> MentionsHypertension(p.medicalConditions)
  {
    GuardedSlot(Slots(p), MentionsHypertension(p.medicalConditions), HypertensionCare);
  }

  /** The cardiovascular recommendation appears once exactly when the family history mentions the heart. */
  lemma PlanHeart(p: Profile)
    ensures CountRule(GeneratePlan(p).recommendations, HeartRule) == if MentionsHeartDisease(p.familyHistory) then 1 else 0
    ensures Recommendation(Preventive, HeartScreening) in GeneratePlan(p).recommendations <==> MentionsHeartDisease(p.familyHistory)
  {
    GuardedSlot(Slots(p), MentionsHeartDisease(p.familyHistory), HeartScreening);
  }

  /** The mental-health recommendation appears once exactly when the mental-health answer is not empty. */
  lemma PlanMentalHealth(p: Profile)
    ensures CountRule(GeneratePlan(p).recommendations, MentalHealthRule) == if p.mentalHealth != "" then 1 else 0
    ensures Recommendation(Preventive, MentalHealthSupport) in GeneratePlan(p).recommendations <==> p.mentalHealth != ""
  {
    GuardedSlot(Slots(p), ReportsMentalHealth(p.mentalHealth), MentalHealthSupport);
  }

  /**
   Exactly one junk-food recommendation, chosen by the answer; an answer other
   than "High" or "Moderate" gets the message for a low intake.
   */
  lemma PlanJunkFood(p: Profile)
    ensures CountRule(GeneratePlan(p).recommendations, JunkFoodRule) == 1
    ensures Recommendation(Diet, CutProcessedFood) in GeneratePlan(p).recommendations <==>
      p.junkFood == "High"
    ensures Recommendation(Diet, KeepModeratingJunkFood) in GeneratePlan(p).recommendations <==>
      p.junkFood == "Moderate"
    ensures Recommendation(Diet, KeepLowJunkFood) in GeneratePlan(p).recommendations <==>
      p.junkFood != "High" && p.junkFood != "Moderate"
  {
    JunkFoodSlot(Slots(p), p.junkFood);
  }

  /** The general diet recommendation appears exactly once, whatever the profile. */
  lemma PlanGeneralDiet(p: Profile)
    ensures CountRule(GeneratePlan(p).recommendations, GeneralDietRule) == 1
    ensures Recommendation(Diet, BalancedDiet) in GeneratePlan(p).recommendations
  {
    FilledSlot(Slots(p), BalancedDiet);
  }

  /**
   The preventive rules do not exclude one another: the plan holds one
   preventive recommendation per condition that holds, whatever the others do.
   */
  lemma PreventiveRulesCombine(p: Profile)
    ensures CountRule(GeneratePlan(p).recommendations, AgeRule) + CountRule(GeneratePlan(p).recommendations, DiabetesRule)
      + CountRule(GeneratePlan(p).recommendations, HypertensionRule) + CountRule(GeneratePlan(p).recommendations, HeartRule)
      + CountRule(GeneratePlan(p).recommendations, MentalHealthRule) ==
      (if p.age > 40 then 1 else 0)
      + (if MentionsDiabetes(p.medicalConditions) then 1 else 0)
      + (if MentionsHypertension(p.medicalConditions) then 1 else 0)
      + (if MentionsHeartDisease(p.familyHistory) then 1 else 0)
      + (if p.mentalHealth != "" then 1 else 0)
  {
    PlanAgeCheckup(p);
    PlanDiabetes(p);
    PlanHypertension(p);
    PlanHeart(p);
    PlanMentalHealth(p);
  }

  /**
   A profile on which every preventive rule fires: over 40, conditions that
   mention both diabetes and hypertension, a family history of heart
   disease and a mental-health answer.
   */
  function HighRiskAdult(): Profile {
    Profile(41, 170.0, 70.0, "nurse", 7, "Regularly", "Low",
      "diabetes, hypertension", "heart disease", "anxiety")
  }

  /** One text can trigger the diabetes and the hypertension rules at once. */
  lemma BothConditionsMatch()
    ensures MentionsDiabetes("diabetes, hypertension")
    ensures MentionsHypertension("diabetes, hypertension")
  {
    LowerKeepsLowerCase("diabetes, hypertension");
    DiabetesAtStart();
    HypertensionAfterDiabetes();
  }

  /** Where "diabetes" sits in that text. */
  lemma DiabetesAtStart()
    ensures OccursAt("diabetes, hypertension", "diabetes", 0)
  {
  }

  /** Where "hypertension" sits in that text. */
  lemma HypertensionAfterDiabetes()
    ensures OccursAt("diabetes, hypertension", "hypertension", 10)
  {
  }

  /** "heart disease" triggers the heart rule. */
  lemma HeartDiseaseMatches()
    ensures MentionsHeartDisease("heart disease")
  {
    LowerKeepsLowerCase("heart disease");
    assert OccursAt(Lower("heart disease"), "heart", 0);
  }

  /** All five preventive messages appear together, each once, for that profile. */
  lemma HighRiskAdultGetsAllPreventive()
    ensures CountRule(GeneratePlan(HighRiskAdult()).recommendations, AgeRule) == 1
    ensures CountRule(GeneratePlan(HighRiskAdult()).recommendations, DiabetesRule) == 1
    ensures CountRule(GeneratePlan(HighRiskAdult()).recommendations, HypertensionRule) == 1
    ensures CountRule(GeneratePlan(HighRiskAdult()).recommendations, HeartRule) == 1
    ensures CountRule(GeneratePlan(HighRiskAdult()).recommendations, MentalHealthRule) == 1
  {
    var p := HighRiskAdult();
    BothConditionsMatch();
    HeartDiseaseMatches();
    PlanAgeCheckup(p);
    PlanDiabetes(p);
    PlanHypertension(p);
    PlanHeart(p);
    PlanMentalHealth(p);
  }

  /** The sections appear in page order: Weight, Sleep, Exercise, Stress, Preventive, Diet. */
  lemma PlanSectionsInPageOrder(p: Profile)
    ensures forall i, j :: 0 <= i < j < |GeneratePlan(p).recommendations| ==>
      SectionOrder(GeneratePlan(p).recommendations[i].section)
        <= SectionOrder(GeneratePlan(p).recommendations[j].section)
  {
    var recs := GeneratePlan(p).recommendations;
    PlanOrdered(p);
    forall i, j | 0 <= i < j < |recs|
      ensures SectionOrder(recs[i].section) <= SectionOrder(recs[j].section)
    {
      SectionFollowsRank(RuleOf(recs[i].message), RuleOf(recs[j].message));
    }
  }

  // ----- Inputs the form admits, and worked examples -----

  /**
   Within the form's ranges the BMI part is always present, and the sleep
   answers 1-5, 6-9 and 10-12 get the short, in-range and long messages.
   */
  lemma PlanFromForm(p: Profile)
    requires FromForm(p)
    ensures GeneratePlan(p).bmi.Some?
    ensures Recommendation(Sleep, SleepTooShort) in GeneratePlan(p).recommendations <==> p.sleepHours <= 5
    ensures Recommendation(Sleep, SleepInRange) in GeneratePlan(p).recommendations <==> 6 <= p.sleepHours <= 9
    ensures Recommendation(Sleep, SleepTooLong) in GeneratePlan(p).recommendations <==> 10 <= p.sleepHours
  {
    PlanSleep(p);
  }

  lemma LowerKeepsLowerCase(s: string)
    requires forall i :: 0 <= i < |s| ==> !IsUpper(s[i])
    ensures Lower(s) == s
  {
  }

  /** The diabetes rule ignores ASCII case. */
  lemma DiabetesMatchesAnyCase()
    ensures MentionsDiabetes("Type 2 Diabetes")
  {
    assert Lower("Type 2 Diabetes") == "type 2 diabetes";
    assert OccursAt(Lower("Type 2 Diabetes"), "diabetes", 7);
  }

  /** The diabetes rule also matches the word inside a longer word. */
  lemma DiabetesMatchesInsideWord()
    ensures MentionsDiabetes("prediabetes")
  {
    LowerKeepsLowerCase("prediabetes");
    assert OccursAt(Lower("prediabetes"), "diabetes", 3);
  }

  /** The diabetes rule matches neither an empty text nor a text that holds only a prefix of the keyword. */
  lemma DiabetesNeedsFullKeyword()
    ensures !MentionsDiabetes("")
    ensures !MentionsDiabetes("prediabetic")
  {
    LowerKeepsLowerCase("prediabetic");
    assert "diabetes"[7] == 's';
    MissingCharNoOccurrence("prediabetic", "diabetes", 's');
  }

  /** The hypertension rule matches its second phrase in any ASCII case. */
  lemma HypertensionMatchesPhrase()
    ensures MentionsHypertension("High Blood Pressure")
  {
    assert Lower("High Blood Pressure") == "high blood pressure";
    assert OccursAt(Lower("High Blood Pressure"), "high blood pressure", 0);
  }

  /** The heart rule matches "cardiac" as well as "heart", and not an unrelated disease. */
  lemma HeartRuleExamples()
    ensures MentionsHeartDisease("father: cardiac arrest")
    ensures !MentionsHeartDisease("cancer")
  {
    LowerKeepsLowerCase("father: cardiac arrest");
    assert OccursAt(Lower("father: cardiac arrest"), "cardiac", 8);
    LowerKeepsLowerCase("cancer");
    assert "heart"[0] == 'h' && "cardiac"[3] == 'd';
    MissingCharNoOccurrence("cancer", "heart", 'h');
    MissingCharNoOccurrence("cancer", "cardiac", 'd');
  }

  // ----- A worked example -----

  /** Collecting two runs of slots one after the other yields their recommendations one after the other. */
  lemma {:induction false} CollectAppend(a: seq<Option<Message>>, b: seq<Option<Message>>)
    ensures Collect(a + b) == Collect(a) + Collect(b)
  {
    if a == [] {
      assert a + b == b;
    } else {
      assert (a + b)[0] == a[0];
      assert (a + b)[1..] == a[1..] + b;
      CollectAppend(a[1..], b);
    }
  }

  /** The first four slots with the weight slot empty. */
  lemma CollectLifestyle(sleep: Message, exercise: Message, stress: Message)
    ensures Collect([None, Some(sleep), Some(exercise), Some(stress)]) == [Tag(sleep), Tag(exercise), Tag(stress)]
  {
    var s := [None, Some(sleep), Some(exercise), Some(stress)];
    assert Collect(s[3..]) == [Tag(stress)] + Collect(s[4..]);
    assert Collect(s[2..]) == [Tag(exercise)] + Collect(s[3..]);
    assert Collect(s[1..]) == [Tag(sleep)] + Collect(s[2..]);
  }

  /** The last seven slots with no preventive rule firing. */
  lemma CollectDietOnly(junkFood: Message)
    ensures Collect([None, None, None, None, None, Some(junkFood), Some(BalancedDiet)]) == [Tag(junkFood), Tag(BalancedDiet)]
  {
    var s := [None, None, None, None, None, Some(junkFood), Some(BalancedDiet)];
    assert Collect(s[6..]) == [Tag(BalancedDiet)] + Collect(s[7..]);
    assert Collect(s[5..]) == [Tag(junkFood)] + Collect(s[6..]);
    assert Collect(s[4..]) == Collect(s[5..]);
    assert Collect(s[3..]) == Collect(s[4..]);
    assert Collect(s[2..]) == Collect(s[3..]);
    assert Collect(s[1..]) == Collect(s[2..]);
  }

  /** Collecting a layout where only the four lifestyle slots and the general diet slot are filled. */
  lemma CollectLifestyleOnly(sleep: Message, exercise: Message, stress: Message, junkFood: Message)
    ensures Collect([None, Some(sleep), Some(exercise), Some(stress), None, None, None, None, None,
      Some(junkFood), Some(BalancedDiet)]) ==
      [Tag(sleep), Tag(exercise), Tag(stress), Tag(junkFood), Tag(BalancedDiet)]
  {
    var a := [None, Some(sleep), Some(exercise), Some(stress)];
    var b := [None, None, None, None, None, Some(junkFood), Some(BalancedDiet)];
    CollectAppend(a, b);
    CollectLifestyle(sleep, exercise, stress);
    CollectDietOnly(junkFood);
    assert a + b == [None, Some(sleep), Some(exercise), Some(stress), None, None, None, None, None,
      Some(junkFood), Some(BalancedDiet)];
  }

  /** A 30-year-old, 170 cm and 70 kg, sleeping 7 hours, exercising regularly, eating little junk food and reporting nothing else. */
  function HealthyAdult(occupation: string): Profile {
    Profile(30, 170.0, 70.0, occupation, 7, "Regularly", "Low", "", "", "")
  }

  /** Only the sleep, exercise, stress, junk-food and general diet blocks emit for that profile. */
  lemma HealthyAdultSlots(occupation: string)
    ensures Slots(HealthyAdult(occupation)) ==
      [None, Some(SleepInRange), Some(KeepExercising), Some(ManageStress(occupation)),
       None, None, None, None, None, Some(KeepLowJunkFood), Some(BalancedDiet)]
  {
    var p := HealthyAdult(occupation);
    assert Bmi(170.0, 70.0) == Some(70.0 / (1.7 * 1.7));
    assert Classify(70.0 / (1.7 * 1.7)) == NormalWeight;
    assert Decision(p, 0) == None;
    assert Decision(p, 2) == Some(KeepExercising);
    assert Decision(p, 9) == Some(KeepLowJunkFood);
  }

  /**
   The plan for that profile: a BMI of normal weight, no weight advice, and
   only the five messages every plan has, in page order.
   */
  lemma HealthyAdultExample(occupation: string)
    ensures GeneratePlan(HealthyAdult(occupation)).bmi == Some(BmiResult(70.0 / (1.7 * 1.7), NormalWeight))
    ensures GeneratePlan(HealthyAdult(occupation)).recommendations == [
        Recommendation(Sleep, SleepInRange),
        Recommendation(Exercise, KeepExercising),
        Recommendation(Stress, ManageStress(occupation)),
        Recommendation(Diet, KeepLowJunkFood),
        Recommendation(Diet, BalancedDiet)]
  {
    HealthyAdultSlots(occupation);
    assert Bmi(170.0, 70.0) == Some(70.0 / (1.7 * 1.7));
    CollectLifestyleOnly(SleepInRange, KeepExercising, ManageStress(occupation), KeepLowJunkFood);
  }
}
