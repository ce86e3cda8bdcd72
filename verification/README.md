# Treatment plan rule engine

A Dafny model of the recommendation engine of the treatment plan generator
(`treatment_plan_app.py`). Once the health form is submitted, the engine reads
one profile and produces two things:

- the BMI, with its category, when height and weight are positive;
- the ordered list of recommendations the page shows. Each belongs to one of six
  sections: Weight, Sleep, Exercise and Stress are the labels the page puts on
  those messages, and Preventive and Diet are the headings ("Preventive Measures",
  "Food Recommendations") the remaining messages appear under.

The model also covers the plain-text export: the name of the download file, and
the header that is the whole of the exported text.

The engine keeps no state, so the model is pure: datatypes, functions and lemmas.

- `wrappers.dfy` defines `Option`.
- `text.dfy` (module `Text`) holds the string operations the rules use:
  - ASCII lower-casing, for `str.lower`;
  - substring search returning the first index or -1, for `str.find`;
  - replacing one character, for `str.replace`.
- `engine.dfy` (module `Engine`) maps a `Profile` to a `Plan`.
  - Each `if` block of the engine is one rule, with a rank: its position in the page.
  - `Decision(p, k)` is what the block of rank k emits, if anything.
  - `Slots(p)` lists the eleven decisions in page order.
  - `Collect` keeps the filled slots, each tagged with its section.
  - The generic lemmas about `Collect` give three facts per rule, stated rule by
    rule in the `Plan*` lemmas:
    - the order of the output;
    - how many recommendations the rule contributes (`CountRule`);
    - which of its messages appear.
- `export.dfy` (module `Export`) builds the file name and the header. It also
  defines `ParseHeader`, which reads a header back, so the header can be shown
  to hold only the name and the date.

Messages are identifiers, not HTML. The stress message carries the occupation it
quotes, because that is the only text the engine inserts into a message.

The keyword rules are plain containment in the lower-cased text, not word
matching. "prediabetic" does not contain "diabetes", so the diabetes rule does
not fire on it (`Engine.DiabetesNeedsFullKeyword`); "prediabetes" does, so it
fires (`Engine.DiabetesMatchesInsideWord`).

## Model

| member | source | states |
|---|---|---|
| Text.LowerChar | treatment_plan_app.py:346-352 | an upper-case ASCII letter becomes its lower-case letter ('A'..'Z' to 'a'..'z'); every other character is kept |
| Text.Lower | treatment_plan_app.py:346-352 | same length; each upper-case ASCII letter becomes its lower-case letter and every other character is kept, so no upper-case letter remains |
| Text.LowerEqualIffIgnoringCase | treatment_plan_app.py:346-352 | two texts fold to the same text exactly when they agree letter by letter up to ASCII case |
| Text.Find | treatment_plan_app.py:346-352 | -1 exactly when the keyword occurs nowhere; otherwise an index where it occurs, with no earlier occurrence |
| Text.FindFrom | treatment_plan_app.py:346-352 | the first occurrence at or after a start index, or -1 when there is none from there on |
| Text.ReplaceChar | treatment_plan_app.py:391 | same length; each occurrence of the character is replaced and every other character is kept |
| Text.ReplaceCharRemoves | treatment_plan_app.py:391 | after replacing a character by a different one, it no longer occurs |
| Text.ReplaceCharAbsent | treatment_plan_app.py:391 | replacing a character that does not occur changes nothing |
| Engine.Bmi | treatment_plan_app.py:279-280 | a value exactly when height and weight are both positive; the value is positive, and times (height/100)² gives the weight back |
| Engine.Classify | treatment_plan_app.py:284-299 | Underweight below 18.5, Normal weight on [18.5, 25), Overweight on [25, 30), Obese from 30, each category exactly on its interval |
| Engine.ClassifyBoundaries | treatment_plan_app.py:284-299 | 18.5 is Normal weight, 25 is Overweight, 30 is Obese |
| Engine.ClassifyMonotone | treatment_plan_app.py:284-299 | a larger BMI never falls in a lower category |
| Engine.BmiOf | treatment_plan_app.py:279-299 | the BMI part of the plan is present exactly when both measurements are positive, and carries the category of its value |
| Engine.WeightAdvice | treatment_plan_app.py:309-314 | the weight block's own chain of comparisons yields no message exactly for Normal weight, and otherwise the message of the category |
| Engine.WeightDecision | treatment_plan_app.py:279-314 | a weight message exactly when a BMI exists and its category is not Normal weight |
| Engine.SleepAdvice | treatment_plan_app.py:320-325 | too short exactly below 6 hours, too long exactly above 9, in range exactly on 6-9 |
| Engine.ExerciseAdvice | treatment_plan_app.py:328-333 | "Never" and "Occasionally" get their own messages; every other answer gets the regular-exercise message |
| Engine.JunkFoodAdvice | treatment_plan_app.py:362-367 | "High" and "Moderate" get their own messages; every other answer gets the low-intake message |
| Engine.KeywordRulesAreContainment | treatment_plan_app.py:346-353 | each keyword rule holds exactly when the lower-cased text contains one of its keywords; the empty-text guard changes nothing |
| Engine.KeywordRulesIgnoreCase | treatment_plan_app.py:346-353 | two texts that agree letter by letter up to ASCII case trigger the same keyword rules |
| Engine.When | treatment_plan_app.py:342-356 | a guarded block emits its message exactly when its condition holds |
| Engine.Decision | treatment_plan_app.py:279-370 | the block of rank k only ever emits a message of the rule of rank k |
| Engine.Slots | treatment_plan_app.py:279-370 | eleven decisions, one per block, each in the slot of its block |
| Engine.Collect | treatment_plan_app.py:279-370 | no more recommendations than slots, each shown under the section of its rule (one per filled slot is `CollectCount`) |
| Engine.GeneratePlan | treatment_plan_app.py:279-370 | BMI is reported exactly when height and weight are positive; at most eleven recommendations |
| Engine.CollectRanks | treatment_plan_app.py:279-370 | collecting ranked slots gives strictly increasing block ranks |
| Engine.CollectCount | treatment_plan_app.py:279-370 | a rule contributes one recommendation when its slot is filled and none otherwise |
| Engine.CollectSlot | treatment_plan_app.py:279-370 | a message of a rule appears exactly when the rule's slot holds that message |
| Engine.PlanOrdered | treatment_plan_app.py:279-370 | recommendations come out in the order the blocks run, at most one per block, each under its rule's section |
| Engine.PlanSectionsInPageOrder | treatment_plan_app.py:316-370 | sections never go backwards: Weight, Sleep, Exercise, Stress, Preventive, Diet |
| Engine.PlanWeight | treatment_plan_app.py:279-314 | BMI present exactly for positive measurements; one weight message exactly when the category is not Normal weight, and it is the message of that category |
| Engine.PlanSleep | treatment_plan_app.py:320-325 | exactly one sleep message: too short iff below 6 hours, too long iff above 9, in range iff 6-9 |
| Engine.ExerciseSlot | treatment_plan_app.py:328-333 | in any ranked layout, one exercise message, chosen by the answer alone |
| Engine.PlanExercise | treatment_plan_app.py:328-333 | exactly one exercise message; "Never" and "Occasionally" get theirs, any other answer the regular one |
| Engine.PlanStress | treatment_plan_app.py:336 | exactly one stress message, quoting the occupation as given, even when it is empty |
| Engine.PlanAgeCheckup | treatment_plan_app.py:342-343 | the check-up message appears, once, exactly when the age is over 40 |
| Engine.PlanDiabetes | treatment_plan_app.py:346-347 | the diabetes message appears, once, exactly when the conditions mention diabetes |
| Engine.PlanHypertension | treatment_plan_app.py:349-350 | the hypertension message appears, once, exactly when the conditions mention hypertension or high blood pressure |
| Engine.PlanHeart | treatment_plan_app.py:352-353 | the cardiovascular message appears, once, exactly when the family history mentions heart or cardiac |
| Engine.PlanMentalHealth | treatment_plan_app.py:355-356 | the mental-health message appears, once, exactly when the answer is not empty |
| Engine.PreventiveRulesCombine | treatment_plan_app.py:342-356 | the number of preventive recommendations is the number of preventive conditions that hold, each counted on its own |
| Engine.BothConditionsMatch | treatment_plan_app.py:346-350 | one conditions text, "diabetes, hypertension", triggers both the diabetes and the hypertension rules |
| Engine.HeartDiseaseMatches | treatment_plan_app.py:352 | "heart disease" triggers the heart rule |
| Engine.HighRiskAdultGetsAllPreventive | treatment_plan_app.py:342-356 | for a 41-year-old with diabetes and hypertension, a family history of heart disease and a mental-health answer, all five preventive messages appear, each once |
| Engine.JunkFoodSlot | treatment_plan_app.py:362-367 | in any ranked layout, one junk-food message, chosen by the answer alone |
| Engine.PlanJunkFood | treatment_plan_app.py:362-367 | exactly one junk-food message; "High" and "Moderate" get theirs, any other answer the low-intake one |
| Engine.PlanGeneralDiet | treatment_plan_app.py:370 | the general diet message appears exactly once for every profile |
| Engine.PlanFromForm | treatment_plan_app.py:224-239 | within the form's ranges the BMI is always reported, and sleep of 1-5, 6-9 and 10-12 hours gets the short, in-range and long messages |
| Engine.DiabetesMatchesAnyCase | treatment_plan_app.py:346 | "Type 2 Diabetes" triggers the diabetes rule |
| Engine.DiabetesMatchesInsideWord | treatment_plan_app.py:346 | "prediabetes" triggers the diabetes rule |
| Engine.DiabetesNeedsFullKeyword | treatment_plan_app.py:346 | neither the empty text nor "prediabetic", which holds only a prefix of the keyword, triggers the diabetes rule |
| Engine.HypertensionMatchesPhrase | treatment_plan_app.py:349 | "High Blood Pressure" triggers the hypertension rule |
| Engine.HeartRuleExamples | treatment_plan_app.py:352 | "father: cardiac arrest" triggers the heart rule and "cancer" does not |
| Engine.CollectAppend | treatment_plan_app.py:279-370 | collecting two runs of slots one after the other gives their recommendations one after the other |
| Engine.HealthyAdultSlots | treatment_plan_app.py:279-370 | for a healthy 30-year-old only the sleep, exercise, stress, junk-food and general diet blocks emit |
| Engine.HealthyAdultExample | treatment_plan_app.py:279-370 | that profile gets a Normal-weight BMI of 70/1.7² and exactly the sleep, exercise, stress, junk-food and general diet messages, in page order |
| Export.FileName | treatment_plan_app.py:391 | length of prefix + name + suffix; no space; starts with "treatment_plan_", ends with ".txt"; the middle is the name with each space turned into '_' |
| Export.FileNameKeepsSpacelessName | treatment_plan_app.py:391 | a name without spaces appears in its file name unchanged |
| Export.Header | treatment_plan_app.py:383 | the header's length is that of its fixed text plus the name and the date |
| Export.ParseHeader | treatment_plan_app.py:383 | whatever it reads back rebuilds the text it was given |
| Export.HeaderRoundTrip | treatment_plan_app.py:383 | the header of a single-line name and a date reads back as exactly that name and date, so it carries nothing else |

## Left out

- Page layout, CSS and HTML markup: messages are identifiers, not the HTML the page writes.
- The form widgets: the model takes the submitted values as a `Profile`. The widgets' bounds and option lists are the predicate `FromForm`, which only `Engine.PlanFromForm` assumes. `GeneratePlan` takes any profile, since the engine itself handles non-positive measurements.
- The fields no rule reads: gender, allergies, surgeries, medications, recent illnesses and the menstrual-cycle answer.
- The greeting, the BMI display (its one-decimal formatting and icon) and the disclaimer: they are output only.
- Engine.Bmi: computed over exact reals, so IEEE rounding of values very close to 18.5, 25 or 30 is not captured.
- Text.Lower: folds only the ASCII letters A-Z, not full Unicode lower-casing.
- Export.Header: the generation date is a parameter, because reading the clock is outside the model.
- The download button itself.
- Export.HeaderRoundTrip: assumes the name has no line break, because with one the header is ambiguous.
- The unused table and numeric library imports.
