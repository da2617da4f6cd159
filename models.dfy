/**
 * The records of the fitness-mentoring application: users, learners,
 * mentors, bookings, diet plans and chat messages, with their choice sets
 * and the values a freshly created record starts with.
 *
 * Records refer to each other by id. A learner and a mentor are keyed by
 * their user's id (a one-to-one primary key); a booking is identified by its
 * position in the booking table, and times are whole minutes.
 */
module Models {
  import opened Outcomes

  type UserId = nat

  /** User.role: null/blank for accounts made outside signup (staff, superuser). */
  datatype Role = LearnerRole | MentorRole

  datatype User = User(
    id: UserId,
    username: string,
    email: string,
    fullName: string,
    role: Option<Role>,
    isStaff: bool)

  /** The six fitness goals a learner may pick; the same set is used by diet plans. */
  datatype Goal = WeightLoss | MuscleGain | Stamina | Flexibility | Sports | Rehabilitation
  {
    /** The value stored in the database. */
    function Key(): string
    {
      match this
      case WeightLoss => "weight_loss"
      case MuscleGain => "muscle_gain"
      case Stamina => "stamina"
      case Flexibility => "flexibility"
      case Sports => "sports"
      case Rehabilitation => "rehabilitation"
    }
  }

  /** Learner.GOAL_CHOICES, in declaration order. */
  const LearnerGoalChoices: seq<Goal> :=
    [WeightLoss, MuscleGain, Stamina, Flexibility, Sports, Rehabilitation]

  /** DietPlan.GOAL_CHOICES is defined as Learner.GOAL_CHOICES. */
  const DietPlanGoalChoices: seq<Goal> := LearnerGoalChoices

  /** The goal whose stored value is `key`, if any. */
  function ParseGoal(key: string): (r: Option<Goal>)
    ensures r.Some? ==> r.value.Key() == key
    ensures r.None? ==> forall g: Goal :: g.Key() != key
  {
    if key == "weight_loss" then Some(WeightLoss)
    else if key == "muscle_gain" then Some(MuscleGain)
    else if key == "stamina" then Some(Stamina)
    else if key == "flexibility" then Some(Flexibility)
    else if key == "sports" then Some(Sports)
    else if key == "rehabilitation" then Some(Rehabilitation)
    else None
  }

  /** The two goal choice lists are one list: six distinct goals, every goal listed, keys pairwise distinct. */
  lemma GoalChoicesAgree()
    ensures DietPlanGoalChoices == LearnerGoalChoices
    ensures |LearnerGoalChoices| == 6
    ensures forall g: Goal :: g in LearnerGoalChoices
    ensures forall i, j :: 0 <= i < j < |LearnerGoalChoices| ==>
      LearnerGoalChoices[i].Key() != LearnerGoalChoices[j].Key()
  {
    forall g: Goal ensures g in LearnerGoalChoices {
      match g
      case WeightLoss => assert LearnerGoalChoices[0] == g;
      case MuscleGain => assert LearnerGoalChoices[1] == g;
      case Stamina => assert LearnerGoalChoices[2] == g;
      case Flexibility => assert LearnerGoalChoices[3] == g;
      case Sports => assert LearnerGoalChoices[4] == g;
      case Rehabilitation => assert LearnerGoalChoices[5] == g;
    }
  }

  /** Parsing a goal's stored value gives the goal back. */
  lemma ParseGoalKey(g: Goal)
    ensures ParseGoal(g.Key()) == Some(g)
  {
  }

  /**
   * A learner profile. The goal is kept as the stored string: the signup view
   * creates the record without checking it against the choices.
   */
  datatype Learner = Learner(user: UserId, rollNumber: string, goal: string)

  datatype MentorStatus = Pending | Approved | Rejected

  datatype Mentor = Mentor(
    user: UserId,
    specialization: string,
    experience: nat,
    bio: string,
    applicationText: string,
    formCheckVideoUrl: string,
    hasFirstAidCertification: bool,
    passedSafetyQuiz: bool,
    status: MentorStatus,
    points: int)

  /** A mentor record created with only its required fields: every defaulted field takes its default. */
  function NewMentor(user: UserId, specialization: string, experience: nat, bio: string,
                     applicationText: string, formCheckVideoUrl: string): (m: Mentor)
    ensures m.status == Pending && m.points == 0
    ensures !m.hasFirstAidCertification && !m.passedSafetyQuiz
    ensures m.user == user && m.specialization == specialization && m.experience == experience
    ensures m.bio == bio && m.applicationText == applicationText && m.formCheckVideoUrl == formCheckVideoUrl
  {
    Mentor(user, specialization, experience, bio, applicationText, formCheckVideoUrl,
           false, false, Pending, 0)
  }

  datatype BookingStatus = Confirmed | Completed

  /** Default length of a session in minutes. */
  const DefaultDuration: nat := 30

  /** A session of `learner` with `mentor` starting at minute `start`. */
  datatype Booking = Booking(
    learner: UserId,
    mentor: UserId,
    start: int,
    duration: nat,
    status: BookingStatus,
    pointsAwarded: int)
  {
    /** The derived end of the session: its start plus its duration. */
    function End(): int { start + duration }
  }

  /** A booking created with learner, mentor and start only: confirmed, 30 minutes, no points. */
  function NewBooking(learner: UserId, mentor: UserId, start: int): (b: Booking)
    ensures b.status == Confirmed && b.duration == 30 && b.pointsAwarded == 0
    ensures b.learner == learner && b.mentor == mentor && b.start == start
    ensures b.start <= b.End()
  {
    Booking(learner, mentor, start, DefaultDuration, Confirmed, 0)
  }

  /** An entry of the static diet-plan catalogue. */
  datatype DietPlan = DietPlan(goal: string, title: string, description: string, content: string)

  /** A chat message of one booking; `timestamp` is the clock value at which it was created. */
  datatype Message = Message(booking: nat, sender: UserId, receiver: UserId, content: string, timestamp: int)
}
