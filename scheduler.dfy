/**
 * Booking a session with a mentor and awarding points for it.
 *
 * The booking and mentor tables are the state of a `Directory` object; the
 * decisions the two views make are pure functions of that state, and the
 * methods commit them. A booking's id is its position in the table, since
 * bookings are never deleted.
 */
module Scheduler {
  import opened Outcomes
  import opened Models

  /** Every proposed session is 30 minutes long. */
  const SlotMinutes: int := 30

  datatype BookingError = MentorNotFound | PastDate | SlotConflict

  datatype AwardError = BookingNotFound

  /** A booking's half-open interval [start, End()) meets the half-open interval [start, end). */
  predicate Overlaps(b: Booking, start: int, end: int)
  {
    b.start < end && b.End() > start
  }

  /** The conflict query: the bookings of `mentor` that meet [start, end), in table order. */
  function ConflictingBookings(bookings: seq<Booking>, mentor: UserId, start: int, end: int): (r: seq<Booking>)
    ensures forall b :: b in r ==> b in bookings && b.mentor == mentor && Overlaps(b, start, end)
    ensures forall i :: 0 <= i < |bookings| ==>
      (bookings[i].mentor == mentor && Overlaps(bookings[i], start, end) ==> bookings[i] in r)
  {
    if bookings == [] then []
    else
      var rest := ConflictingBookings(bookings[1..], mentor, start, end);
      assert forall i :: 1 <= i < |bookings| ==> bookings[i] == bookings[1..][i - 1];
      if bookings[0].mentor == mentor && Overlaps(bookings[0], start, end) then [bookings[0]] + rest else rest
  }

  /** Some booking of `mentor` meets the interval [start, end). */
  ghost predicate Taken(bookings: seq<Booking>, mentor: UserId, start: int, end: int)
  {
    exists i :: 0 <= i < |bookings| && bookings[i].mentor == mentor && Overlaps(bookings[i], start, end)
  }

  /** The conflict query finds something exactly when the slot is taken. */
  lemma ConflictsIffTaken(bookings: seq<Booking>, mentor: UserId, start: int, end: int)
    ensures |ConflictingBookings(bookings, mentor, start, end)| > 0 <==> Taken(bookings, mentor, start, end)
  {
    var c := ConflictingBookings(bookings, mentor, start, end);
    if |c| > 0 {
      assert c[0] in bookings;
      var i :| 0 <= i < |bookings| && bookings[i] == c[0];
    }
  }

  /**
   * The decision of the booking view: the mentor must exist, then the
   * start must not lie before `now`, then no booking of the mentor may meet
   * the new 30-minute slot. On success, the booking to insert.
   */
  function ProposeBooking(bookings: seq<Booking>, mentors: map<UserId, Mentor>,
                          learner: UserId, mentor: UserId, start: int, now: int): (r: Result<Booking, BookingError>)
    ensures r == Err(MentorNotFound) <==> mentor !in mentors
    ensures r == Err(PastDate) <==> mentor in mentors && start < now
    ensures r == Err(SlotConflict) <==> mentor in mentors && start >= now && Taken(bookings, mentor, start, start + SlotMinutes)
    ensures r.Ok? ==> r.value == NewBooking(learner, mentor, start)
  {
    if mentor !in mentors then Err(MentorNotFound)
    else if start < now then Err(PastDate)
    else if ConflictsIffTaken(bookings, mentor, start, start + SlotMinutes);
      |ConflictingBookings(bookings, mentor, start, start + SlotMinutes)| > 0 then Err(SlotConflict)
    else Ok(NewBooking(learner, mentor, start))
  }

  /** No two bookings of the same mentor overlap. */
  ghost predicate NoOverlap(bookings: seq<Booking>)
  {
    forall i, j :: 0 <= i < j < |bookings| && bookings[i].mentor == bookings[j].mentor
      ==> !Overlaps(bookings[i], bookings[j].start, bookings[j].End())
  }

  /** The bookings of one mentor, in table order. */
  function BookingsOf(bookings: seq<Booking>, mentor: UserId): (r: seq<Booking>)
    ensures forall b :: b in r <==> b in bookings && b.mentor == mentor
  {
    if bookings == [] then []
    else
      var rest := BookingsOf(bookings[1..], mentor);
      assert bookings == [bookings[0]] + bookings[1..];
      if bookings[0].mentor == mentor then [bookings[0]] + rest else rest
  }

  /** The two tables: bookings (indexed by booking id) and mentors (by user id). */
  datatype Store = Store(bookings: seq<Booking>, mentors: map<UserId, Mentor>)
  {
    /** Every booking refers to an existing mentor. */
    predicate Linked()
    {
      forall i :: 0 <= i < |bookings| ==> bookings[i].mentor in mentors
    }

    ghost predicate Valid()
    {
      Linked() && NoOverlap(bookings)
    }
  }

  /** An accepted booking keeps the mentor's schedule free of overlaps. */
  lemma ProposalKeepsScheduleDisjoint(bookings: seq<Booking>, mentors: map<UserId, Mentor>,
                                      learner: UserId, mentor: UserId, start: int, now: int)
    requires NoOverlap(bookings)
    requires ProposeBooking(bookings, mentors, learner, mentor, start, now).Ok?
    ensures NoOverlap(bookings + [ProposeBooking(bookings, mentors, learner, mentor, start, now).value])
  {
    var b := NewBooking(learner, mentor, start);
    var s := bookings + [b];
    forall i, j | 0 <= i < j < |s| && s[i].mentor == s[j].mentor
      ensures !Overlaps(s[i], s[j].start, s[j].End())
    {
      if j == |bookings| {
        assert s[i] == bookings[i];
      }
    }
  }

  /** Bookings of other mentors never decide a proposal: only the mentor's own schedule matters. */
  lemma OnlyOwnBookingsMatter(bookings: seq<Booking>, mentors: map<UserId, Mentor>,
                              learner: UserId, mentor: UserId, start: int, now: int)
    ensures ProposeBooking(bookings, mentors, learner, mentor, start, now)
         == ProposeBooking(BookingsOf(bookings, mentor), mentors, learner, mentor, start, now)
  {
    var own := BookingsOf(bookings, mentor);
    var end := start + SlotMinutes;
    if Taken(bookings, mentor, start, end) {
      var i :| 0 <= i < |bookings| && bookings[i].mentor == mentor && Overlaps(bookings[i], start, end);
      assert bookings[i] in own;
      var k :| 0 <= k < |own| && own[k] == bookings[i];
      assert Taken(own, mentor, start, end);
    }
    if Taken(own, mentor, start, end) {
      var k :| 0 <= k < |own| && own[k].mentor == mentor && Overlaps(own[k], start, end);
      assert own[k] in bookings;
      var i :| 0 <= i < |bookings| && bookings[i] == own[k];
      assert Taken(bookings, mentor, start, end);
    }
  }

  /** Once a slot is booked, proposing the same slot again for the same mentor is a conflict. */
  lemma SameSlotTwiceConflicts(bookings: seq<Booking>, mentors: map<UserId, Mentor>,
                               learner: UserId, other: UserId, mentor: UserId, start: int, now: int)
    requires ProposeBooking(bookings, mentors, learner, mentor, start, now).Ok?
    ensures var b := ProposeBooking(bookings, mentors, learner, mentor, start, now).value;
      ProposeBooking(bookings + [b], mentors, other, mentor, start, now) == Err(SlotConflict)
  {
    var b := NewBooking(learner, mentor, start);
    var s := bookings + [b];
    assert s[|bookings|] == b;
    assert Taken(s, mentor, start, start + SlotMinutes);
  }

  /**
   * Around an existing booking [at, at + 30) of the mentor: a slot starting
   * exactly at its end is free (half-open intervals), one starting a minute
   * earlier conflicts.
   */
  lemma BackToBack(mentors: map<UserId, Mentor>, learner: UserId, mentor: UserId, at: int, now: int)
    requires mentor in mentors && now <= at
    ensures var booked := [NewBooking(learner, mentor, at)];
      && ProposeBooking(booked, mentors, learner, mentor, at + SlotMinutes, now).Ok?
      && ProposeBooking(booked, mentors, learner, mentor, at + SlotMinutes - 1, now) == Err(SlotConflict)
  {
    var booked := [NewBooking(learner, mentor, at)];
    assert Overlaps(booked[0], at + SlotMinutes - 1, at + 2 * SlotMinutes - 1);
  }

  /**
   * The award view's update: the booking becomes completed with `points`
   * recorded on it, and its mentor's counter grows by `points`. The booking
   * must exist and belong to `learner`; nothing guards against a booking that
   * was already awarded.
   */
  function Award(s: Store, id: nat, learner: UserId, points: int): (r: Result<Store, AwardError>)
    requires s.Linked()
    ensures r.Ok? <==> id < |s.bookings| && s.bookings[id].learner == learner
    ensures r.Err? ==> r.error == BookingNotFound
    ensures r.Ok? ==>
      var b, t := s.bookings[id], r.value;
      && |t.bookings| == |s.bookings|
      && t.bookings[id].status == Completed && t.bookings[id].pointsAwarded == points
      && t.bookings[id] == b.(status := t.bookings[id].status, pointsAwarded := t.bookings[id].pointsAwarded)
      && (forall j :: 0 <= j < |s.bookings| && j != id ==> t.bookings[j] == s.bookings[j])
      && t.mentors.Keys == s.mentors.Keys
      && t.mentors[b.mentor].points == s.mentors[b.mentor].points + points
      && t.mentors[b.mentor] == s.mentors[b.mentor].(points := t.mentors[b.mentor].points)
      && (forall m :: m in s.mentors && m != b.mentor ==> t.mentors[m] == s.mentors[m])
  {
    if id < |s.bookings| && s.bookings[id].learner == learner then
      var b := s.bookings[id];
      var mentor := s.mentors[b.mentor];
      Ok(Store(s.bookings[id := b.(status := Completed, pointsAwarded := points)],
               s.mentors[b.mentor := mentor.(points := mentor.points + points)]))
    else Err(BookingNotFound)
  }

  /** Awarding changes no booking's time or mentor, so the tables stay valid. */
  lemma AwardKeepsValid(s: Store, id: nat, learner: UserId, points: int)
    requires s.Valid()
    requires Award(s, id, learner, points).Ok?
    ensures Award(s, id, learner, points).value.Valid()
  {
    var t := Award(s, id, learner, points).value;
    forall i, j | 0 <= i < j < |t.bookings| && t.bookings[i].mentor == t.bookings[j].mentor
      ensures !Overlaps(t.bookings[i], t.bookings[j].start, t.bookings[j].End())
    {
      assert s.bookings[i].mentor == s.bookings[j].mentor;
    }
  }

  /**
   * Awarding twice is not refused: the second award overwrites the points
   * recorded on the booking and adds to the mentor's counter again.
   */
  lemma AwardTwice(s: Store, id: nat, learner: UserId, p: int, q: int)
    requires s.Linked()
    requires Award(s, id, learner, p).Ok?
    ensures var once := Award(s, id, learner, p).value;
      && once.Linked()
      && Award(once, id, learner, q).Ok?
      && var twice := Award(once, id, learner, q).value;
         var m := s.bookings[id].mentor;
         && twice.bookings[id].pointsAwarded == q
         && twice.bookings[id].status == Completed
         && twice.mentors[m].points == s.mentors[m].points + p + q
  {
    var once := Award(s, id, learner, p).value;
    assert forall i :: 0 <= i < |once.bookings| ==> once.bookings[i].mentor == s.bookings[i].mentor;
  }

  /** The points recorded on the bookings of `mentor`. */
  function AwardedTo(bookings: seq<Booking>, mentor: UserId): int
  {
    if bookings == [] then 0
    else (if bookings[0].mentor == mentor then bookings[0].pointsAwarded else 0) + AwardedTo(bookings[1..], mentor)
  }

  /** Replacing one booking changes a mentor's recorded total by the difference of the two. */
  lemma {:induction false} AwardedToUpdate(bookings: seq<Booking>, id: nat, nb: Booking, mentor: UserId)
    requires id < |bookings|
    ensures AwardedTo(bookings[id := nb], mentor)
         == AwardedTo(bookings, mentor)
            - (if bookings[id].mentor == mentor then bookings[id].pointsAwarded else 0)
            + (if nb.mentor == mentor then nb.pointsAwarded else 0)
  {
    if id > 0 {
      assert bookings[id := nb][1..] == bookings[1..][id - 1 := nb];
      AwardedToUpdate(bookings[1..], id - 1, nb, mentor);
    } else {
      assert bookings[id := nb][1..] == bookings[1..];
    }
  }

  /** A mentor's counter equals the points recorded on their bookings. */
  ghost predicate Balanced(s: Store, mentor: UserId)
  {
    mentor in s.mentors && s.mentors[mentor].points == AwardedTo(s.bookings, mentor)
  }

  /**
   * An award keeps every mentor's counter equal to the points recorded on
   * their bookings exactly when the booking had no points recorded before;
   * a repeated award breaks that balance.
   */
  lemma AwardBalance(s: Store, id: nat, learner: UserId, points: int, mentor: UserId)
    requires s.Linked() && Balanced(s, mentor)
    requires Award(s, id, learner, points).Ok?
    ensures var t := Award(s, id, learner, points).value;
      Balanced(t, mentor) <==> s.bookings[id].mentor != mentor || s.bookings[id].pointsAwarded == 0
  {
    var t := Award(s, id, learner, points).value;
    assert t.bookings == s.bookings[id := t.bookings[id]];
    AwardedToUpdate(s.bookings, id, t.bookings[id], mentor);
  }

  /** The booking and mentor tables, updated in place by the two views. */
  class Directory {
    var bookings: seq<Booking>
    var mentors: map<UserId, Mentor>

    function State(): Store
      reads this
    {
      Store(bookings, mentors)
    }

    ghost predicate Valid()
      reads this
    {
      State().Valid()
    }

    /** An empty booking table over the given mentors. */
    constructor (mentors: map<UserId, Mentor>)
      ensures Valid()
      ensures bookings == [] && this.mentors == mentors
    {
      bookings := [];
      this.mentors := mentors;
    }

    /** book_session_view: decide the proposal and, when it is accepted, append exactly that booking. */
    method BookSession(learner: UserId, mentor: UserId, start: int, now: int) returns (r: Result<nat, BookingError>)
      requires Valid()
      modifies this
      ensures Valid()
      ensures mentors == old(mentors)
      ensures match ProposeBooking(old(bookings), old(mentors), learner, mentor, start, now)
        case Ok(b) => r == Ok(|old(bookings)|) && bookings == old(bookings) + [b]
        case Err(e) => r == Err(e) && bookings == old(bookings)
    {
      var decision := ProposeBooking(bookings, mentors, learner, mentor, start, now);
      match decision
      case Ok(b) =>
        ProposalKeepsScheduleDisjoint(bookings, mentors, learner, mentor, start, now);
        r := Ok(|bookings|);
        bookings := bookings + [b];
      case Err(e) =>
        r := Err(e);
    }

    /** award_points_view: record the award on the booking and add it to its mentor's counter (the view's two saves, both succeeding). */
    method AwardPoints(id: nat, learner: UserId, points: int) returns (r: Result<(), AwardError>)
      requires Valid()
      modifies this
      ensures Valid()
      ensures match Award(old(State()), id, learner, points)
        case Ok(t) => r.Ok? && State() == t
        case Err(e) => r == Err(e) && State() == old(State())
    {
      var outcome := Award(State(), id, learner, points);
      match outcome
      case Ok(t) =>
        AwardKeepsValid(State(), id, learner, points);
        bookings, mentors := t.bookings, t.mentors;
        r := Ok(());
      case Err(e) =>
        r := Err(e);
    }
  }
}
