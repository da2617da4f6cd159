# CampusFit decision logic in Dafny

CampusFit is a Django web application in which learners sign up, are matched
with approved fitness mentors, book 30-minute sessions with them, award them
points after a session, follow their progress and receive generated diet
plans. This project models the decision logic inside its request handlers,
separated from the ORM, the templates and authentication:

- **Records** (`models.dfy`, module `Models`): users, learners, mentors,
  bookings, diet plans and chat messages, their choice sets and the defaults a
  new record starts with. Mentor status (`pending`/`approved`/`rejected`) and
  booking status (`confirmed`/`completed`) are enumerations, so a record can
  hold no other value; a booking's duration is a `nat`. Learner and diet-plan
  goals share one list of six goals.
- **Booking and awarding** (`scheduler.dfy`, module `Scheduler`): the class
  `Directory` holds the booking table as a sequence and the mentor table as a
  map, and updates them in place. `BookSession` rejects a missing mentor (an unhandled
  lookup exception in the view, an error value here), then
  a start before `now`, then a slot that meets an existing booking of the same
  mentor (half-open intervals), and otherwise appends exactly one booking.
  `AwardPoints` marks the booking completed, records the points on it and adds
  them to the mentor's counter. The object invariant says that no two
  bookings of one mentor overlap; both methods keep it.
- **Ranking** (`ranking.dfy`, module `Ranking`): the dashboard's keyword
  fallback recommendation, the leaderboard and the mentor profile list.
- **Time-based views** (`sessions.dfy`, module `Sessions`): the booking page's
  upcoming/past split, the dashboard and progress-tracker totals, and a
  booking's chat history in timestamp order.
- **Safety quiz** (`safety_quiz.dfy`, module `SafetyQuiz`): scoring a
  mentor's answers in a loop and recording whether they passed.
- **Signup validation** (`forms.dfy`, module `Forms`): models the hooks of
  app/forms.py, the full-name, e-mail-domain and password-confirmation hooks shared by the
  learner and mentor signup forms.
- **Diet plans** (`diet.dfy`, module `Diet`): the meal-plan generator with its
  random choices given as indices into the fixed food lists.

Support modules: `Outcomes` (Option and Result), `Text` (ASCII case folding,
substring search, Python's `str.title()` and the last part of `str.split`)
and `Querysets` (filter, a stable `order_by` on an integer key, and slicing).

Times are whole minutes (`int`): a start is a whole minute, and `now` is the
current time rounded up to the minute, so `start < now`, `end >= now` and
`end < now` decide as they do on the clock. A booking's end is `start + duration`. A
booking's id is its position in the booking table, which only grows. Where the
form code tests a value for truth, a missing value and the empty string are
both the empty string.

The model follows the code where it is more permissive than the intended design of the scheduler:

- A start equal to `now` is accepted (the code tests `start < now`).
- There is no zero-duration error: every proposal is 30 minutes long.
- Booking does not check that the mentor is approved, only that the mentor
  exists.
- Awarding has no "already awarded" guard, and the points are any integer the
  column holds, so a negative award lowers a mentor's counter.

## Model

| member | source | states |
|---|---|---|
| `Models.ParseGoal` | app/models.py:12-16 | a stored goal value maps back to the goal with that key, and a value no goal has is refused |
| `Models.ParseGoalKey` | app/models.py:12-16 | every goal's stored value parses back to that goal |
| `Models.GoalChoicesAgree` | app/models.py:48 | diet plans use the learner goal list: six goals, every goal listed once, pairwise distinct stored values |
| `Models.NewMentor` | app/models.py:30-33 | a new mentor is pending with 0 points and both the first-aid and quiz flags false |
| `Models.NewBooking` | app/models.py:41-43 | a new booking is confirmed, lasts 30 minutes and has 0 points awarded |
| `Forms.CleanFullName` | app/forms.py:16-20 | a name is accepted, unchanged, exactly when it has at least 4 characters |
| `Forms.EmailDomain` | app/forms.py:25 | the domain contains no `@`, is the text after the last `@`, and is the whole address when there is no `@` |
| `Forms.CleanEmail` | app/forms.py:22-28 | an address is accepted, unchanged, exactly when it is empty or its domain is one of the six allowed ones |
| `Forms.CleanEmailByDomain` | app/forms.py:24-27 | for any text before the last `@`, even text holding another `@`, the domain is what follows that `@`, and the address is accepted exactly when that domain is one of the six allowed ones |
| `Forms.CleanPasswords` | app/forms.py:30-44 | the mismatch error is added exactly when both passwords are non-empty and differ; the strength error exactly when the password is non-empty and weak |
| `Forms.SignUpAccepted` | app/forms.py:16-44 | a submission passes the three hooks exactly when the name is long enough, the e-mail allowed or empty, and the passwords match or one is missing; the mentor form (lines 54-80) has the same hooks |
| `Diet.TargetsFor` | app/ai_diet_utils.py:9-17 | weight_loss gives 1500-1800 kcal, muscle_gain 2500-2800 kcal, and exactly every other goal 2000-2200 kcal, each with its own focus |
| `Diet.ProteinsFor` | app/ai_diet_utils.py:20-23 | exactly the preference "vegetarian" selects the vegetarian list, any other value the non-vegetarian one |
| `Diet.GenerateSmartDietPlan` | app/ai_diet_utils.py:3-44 | the plan's calories and focus are those of the goal; its title is the goal title-cased with underscores as spaces and its preference the title-cased preference; the second snack and the tip are the same fixed texts for every input |
| `Diet.BreakfastNames` | app/ai_diet_utils.py:36 | the breakfast line names its carb, its fat and its protein |
| `Diet.FirstSnackNames` | app/ai_diet_utils.py:37 | the first snack names its fruit and its fat |
| `Diet.LunchNames` | app/ai_diet_utils.py:38 | the lunch line names its carb, its protein and its vegetable |
| `Diet.DinnerNames` | app/ai_diet_utils.py:40 | the dinner line names its protein and its vegetable |
| `Diet.MealsUseTheirItems` | app/ai_diet_utils.py:25-41 | breakfast, lunch and dinner use the first, second and third protein of the preferred list, and each meal names the items picked for it from the fixed lists |
| `Diet.MealsIgnoreGoal` | app/ai_diet_utils.py:31-42 | two plans for different goals differ at most in title, calories and focus |
| `Diet.GoalTitleAt` | app/ai_diet_utils.py:32 | the title is the goal with `_` turned into a space, each letter upper-cased at the start of a word and lower-cased inside one |
| `Text.TitleAt` | app/ai_diet_utils.py:33 | `str.title()`: a letter becomes upper case when the character before it is not a letter, lower case otherwise |
| `Scheduler.ConflictingBookings` | app/views.py:217-223 | the conflict query returns only bookings of the same mentor that meet the slot, and every such booking |
| `Scheduler.ConflictsIffTaken` | app/views.py:217-224 | the conflict query is non-empty exactly when some booking of the mentor meets the slot |
| `Scheduler.ProposeBooking` | app/views.py:207-228 | a missing mentor is refused first; then exactly a start before `now` is a past-date error; then exactly an overlap with one of the mentor's bookings (start < new end and end > new start) is a conflict; otherwise the new booking is (learner, mentor, start, 30 minutes, confirmed, 0 points) |
| `Scheduler.ProposalKeepsScheduleDisjoint` | app/views.py:217-228 | appending an accepted booking keeps every mentor's bookings pairwise non-overlapping |
| `Scheduler.OnlyOwnBookingsMatter` | app/views.py:219-223 | the decision is the same when only the mentor's own bookings are considered |
| `Scheduler.SameSlotTwiceConflicts` | app/views.py:217-228 | once a slot is booked, proposing it again for the same mentor is a conflict |
| `Scheduler.BackToBack` | app/views.py:211-224 | a slot starting exactly when a booking ends is accepted; one starting a minute earlier conflicts |
| `Scheduler.Award` | app/views.py:236-243 | the award succeeds exactly for an existing booking of that learner; the booking becomes completed with the points recorded, its mentor's counter rises by exactly the points, and nothing else changes |
| `Scheduler.AwardKeepsValid` | app/views.py:238-243 | an award keeps every booking linked to its mentor and the schedules non-overlapping |
| `Scheduler.AwardTwice` | app/views.py:236-243 | a second award on the same booking is not refused: it overwrites the recorded points and adds to the mentor's counter again |
| `Scheduler.AwardedToUpdate` | app/views.py:238-240 | replacing one booking changes a mentor's recorded points by the difference of the old and new booking |
| `Scheduler.AwardBalance` | app/views.py:238-243 | if a mentor's counter equalled the points recorded on their bookings, it still does after an award exactly when the booking had no points recorded before or is another mentor's |
| `Scheduler.Directory.BookSession` | app/views.py:202-231 | the table grows by exactly the accepted booking, or is unchanged with the error; the mentors are unchanged and no two bookings of a mentor overlap |
| `Scheduler.Directory.AwardPoints` | app/views.py:234-245 | the tables become exactly the award's result, or are unchanged when the booking is not the learner's |
| `Ranking.TopByPointsOrdered` | app/views.py:158-161 | ordering by points descending and keeping k keeps min(k, n) candidates, taken from the input, in non-increasing order of points |
| `Ranking.TopByPointsComplete` | app/views.py:158-161 | a candidate left out means k mentors were kept, each with at least as many points |
| `Ranking.FallbackRecommendationSpec` | app/views.py:153-161 | at most 3 mentors, none listed more often than in the input, each approved with a specialization containing the goal (underscores as spaces, any case), by non-increasing points, and no better-scoring suitable mentor left out |
| `Ranking.LeaderboardSpec` | app/views.py:254 | at most 10 approved mentors, none listed more often than in the input, by non-increasing points, and no approved mentor with more points left out |
| `Ranking.MentorProfiles` | app/views.py:249 | exactly the approved mentors, each as often as in the input, by non-increasing points |
| `Sessions.BookingPagePartition` | app/views.py:191-197 | every booking of the viewer is in exactly one list: upcoming if it ends at or after now, past otherwise |
| `Sessions.BookingPageOrder` | app/views.py:193-197 | upcoming sessions are listed by ascending start, past ones by descending start |
| `Sessions.UpcomingAndEndedCoverAll` | app/views.py:163-165 | the dashboard's upcoming count plus the tracker's ended count is the number of the learner's bookings |
| `Sessions.TotalsAgreeWhenStatusFollowsTime` | app/views.py:167-174 | the tracker (by end time) and the dashboard (by status) report the same count and points when status is completed exactly for ended bookings |
| `Sessions.TotalsCanDisagree` | app/views.py:260-266 | an ended but never-awarded booking counts for the tracker and not for the dashboard |
| `Sessions.ChatHistory` | app/models.py:63-64 | a booking's chat holds exactly its messages, each as often as it was sent, in non-decreasing timestamp order |
| `SafetyQuiz.ScoreFull` | app/views.py:303-308 | the score is at most the number of questions and equals it exactly when every answer is right |
| `SafetyQuiz.ScoreQuiz` | app/views.py:303-308 | the loop's score is the number of matching answers to {q1: b, q2: a, q3: c}, at most 3, and the quiz is passed exactly when all three match |
| `SafetyQuiz.TakeSafetyQuiz` | app/views.py:300-311 | a mentor who already passed is left unchanged; otherwise only the quiz flag changes, and it is set exactly when all answers are right |

## Left out

- The TF-IDF/cosine-similarity recommendation: it needs a text-mining library and floating point; only the keyword fallback is modelled. The primary path also keeps at most three mentors.
- The ORM, raw SQL for end times, and the database: tables are a sequence and a map, end times are `start + duration`.
- Date parsing and time zones: start and `now` are integer minutes.
- Authentication, login/logout and the role dispatch after login, redirects, templates and flash messages.
- The check that only learners may book and that only the booking's learner may award: the learner id is a parameter, and the award's lookup by (id, learner) is modelled.
- The quiz view's redirects for non-mentors and for GET requests; `TakeSafetyQuiz` models a mentor's POST.
- Django's own field validation (required fields, maximum lengths, e-mail syntax, whitespace stripping), duplicate-e-mail detection, and the password-strength validators, whose messages are a parameter.
- The concurrent-request race between the conflict check and the insert: the model is sequential. The same holds for awards: the view's read-modify-write of the mentor's counter can lose an update when two awards to one mentor run at once.
- Random choice in the diet generator: the chosen indices are parameters.
- Non-ASCII text: case folding, `icontains` and `str.title()` treat only ASCII letters as having case.
- Ties in `order_by`: the database may return equal-points mentors or equal-start bookings in any order; the model uses one stable order.
- The websocket chat relay (`app/consumers.py`), URL routing, admin registration and bootstrap scripts.
- Scheduler.Award: takes the points as an integer; the view's `int()` of the posted value raises on a missing or non-numeric value before anything is saved, and that failure is not modelled. Points and counters are unbounded integers here, while the source stores them in database integer columns (32- or 64-bit by backend) and raises when a value is out of range. The source saves the booking and the mentor separately, so a failure of the second save (an overflowing counter) leaves the booking completed with its points and the counter unchanged; the model commits both or neither.
- Diet.GenerateSmartDietPlan: takes the preference as a string; a form posted without a preference passes `None`, which makes the source's `title()` call raise, and that failure is not modelled.
- Scheduler.ProposeBooking: the missing-mentor error stands for the `DoesNotExist` exception the view leaves unhandled; the model reports it as a value and changes nothing, as the exception does.
- The display labels of the goal choices: only the stored keys are modelled.
- Message creation time: a message's timestamp is given, not taken from the clock, and is a clock value of full resolution; ties between equal timestamps keep sending order here, while the database may return them in any order.
