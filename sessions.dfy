/**
 * The time-based views over bookings and messages: the booking page's split
 * into upcoming and past sessions, the session totals of the learner
 * dashboard and the progress tracker, and a booking's chat history.
 *
 * A booking's end is derived as its start plus its duration; `now` is the
 * current minute.
 */
module Sessions {
  import opened Models
  import opened Querysets

  /** Whose bookings a page lists: the booking page branches on the user's role. */
  datatype Viewer = AsLearner(learner: UserId) | AsMentor(mentor: UserId)

  predicate Owns(v: Viewer, b: Booking)
  {
    match v
    case AsLearner(l) => b.learner == l
    case AsMentor(m) => b.mentor == m
  }

  function StartKey(b: Booking): int { b.start }

  function LatestFirstKey(b: Booking): int { -b.start }

  /** Sessions that have not ended yet (end >= now), earliest start first. */
  function Upcoming(bookings: seq<Booking>, v: Viewer, now: int): seq<Booking>
  {
    SortBy(Filter(bookings, b => Owns(v, b) && b.End() >= now), StartKey)
  }

  /** Sessions that have ended (end < now), latest start first. */
  function Past(bookings: seq<Booking>, v: Viewer, now: int): seq<Booking>
  {
    SortBy(Filter(bookings, b => Owns(v, b) && b.End() < now), LatestFirstKey)
  }

  /**
   * Together the two lists hold each of the viewer's bookings exactly once:
   * upcoming the ones ending at or after `now`, past the ones ending before.
   */
  lemma BookingPagePartition(bookings: seq<Booking>, v: Viewer, now: int)
    ensures var up, past := Upcoming(bookings, v, now), Past(bookings, v, now);
      && multiset(up) + multiset(past) == multiset(Filter(bookings, b => Owns(v, b)))
      && (forall b :: b in up ==> Owns(v, b) && b.End() >= now)
      && (forall b :: b in past ==> Owns(v, b) && b.End() < now)
  {
    var own := Filter(bookings, b => Owns(v, b));
    var ps := (b: Booking) => b.End() >= now;
    var qs := (b: Booking) => b.End() < now;
    FilterSplit(own, ps, qs);
    FilterOfFilter(bookings, b => Owns(v, b), ps, b => Owns(v, b) && b.End() >= now);
    FilterOfFilter(bookings, b => Owns(v, b), qs, b => Owns(v, b) && b.End() < now);
  }

  /** Upcoming sessions are listed by ascending start, past ones by descending start. */
  lemma BookingPageOrder(bookings: seq<Booking>, v: Viewer, now: int)
    ensures var up, past := Upcoming(bookings, v, now), Past(bookings, v, now);
      && (forall i, j :: 0 <= i < j < |up| ==> up[i].start <= up[j].start)
      && (forall i, j :: 0 <= i < j < |past| ==> past[i].start >= past[j].start)
  {
    var past := Past(bookings, v, now);
    assert forall i, j :: 0 <= i < j < |past| ==> LatestFirstKey(past[i]) <= LatestFirstKey(past[j]);
  }

  /** Filtering twice is filtering once by both conditions. */
  lemma {:induction false} FilterOfFilter(s: seq<Booking>, p: Booking -> bool, q: Booking -> bool, pq: Booking -> bool)
    requires forall b :: pq(b) == (p(b) && q(b))
    ensures Filter(Filter(s, p), q) == Filter(s, pq)
  {
    if s != [] {
      FilterOfFilter(s[1..], p, q, pq);
    }
  }

  /** The sum of the points recorded on `bookings`; an empty aggregate counts as 0. */
  function PointsAwarded(bookings: seq<Booking>): int
  {
    if bookings == [] then 0 else bookings[0].pointsAwarded + PointsAwarded(bookings[1..])
  }

  datatype Progress = Progress(sessionCount: nat, totalPoints: int)

  /** The progress tracker: the learner's sessions that have ended (by time), and their points. */
  function ProgressTotals(bookings: seq<Booking>, learner: UserId, now: int): Progress
  {
    var done := Filter(bookings, (b: Booking) => b.learner == learner && b.End() < now);
    Progress(|done|, PointsAwarded(done))
  }

  datatype DashboardCounts = DashboardCounts(upcoming: nat, completed: nat, pointsGiven: int)

  /**
   * The learner dashboard: sessions not yet ended (by time), and sessions
   * marked completed (by status) with the points given for them.
   */
  function DashboardTotals(bookings: seq<Booking>, learner: UserId, now: int): DashboardCounts
  {
    var completed := Filter(bookings, (b: Booking) => b.learner == learner && b.status == Completed);
    DashboardCounts(
      |Filter(bookings, (b: Booking) => b.learner == learner && b.End() >= now)|,
      |completed|,
      PointsAwarded(completed))
  }

  /** The dashboard's upcoming count and the tracker's session count split the learner's bookings between them. */
  lemma UpcomingAndEndedCoverAll(bookings: seq<Booking>, learner: UserId, now: int)
    ensures DashboardTotals(bookings, learner, now).upcoming + ProgressTotals(bookings, learner, now).sessionCount
         == |Filter(bookings, (b: Booking) => b.learner == learner)|
  {
    var own := Filter(bookings, (b: Booking) => b.learner == learner);
    var ps := (b: Booking) => b.End() >= now;
    var qs := (b: Booking) => b.End() < now;
    FilterSplit(own, ps, qs);
    FilterOfFilter(bookings, (b: Booking) => b.learner == learner, ps, (b: Booking) => b.learner == learner && b.End() >= now);
    FilterOfFilter(bookings, (b: Booking) => b.learner == learner, qs, (b: Booking) => b.learner == learner && b.End() < now);
  }

  /**
   * The two views count "completed" on different bases, by time and by
   * status; they agree whenever every one of the learner's bookings is
   * marked completed exactly when it has ended.
   */
  lemma TotalsAgreeWhenStatusFollowsTime(bookings: seq<Booking>, learner: UserId, now: int)
    requires forall i :: 0 <= i < |bookings| && bookings[i].learner == learner ==>
      (bookings[i].status == Completed <==> bookings[i].End() < now)
    ensures ProgressTotals(bookings, learner, now)
         == Progress(DashboardTotals(bookings, learner, now).completed, DashboardTotals(bookings, learner, now).pointsGiven)
  {
    FilterCongruent(bookings, (b: Booking) => b.learner == learner && b.End() < now,
                              (b: Booking) => b.learner == learner && b.status == Completed);
  }

  /** A session that has ended but was never awarded counts for the tracker and not for the dashboard. */
  lemma TotalsCanDisagree(learner: UserId, mentor: UserId, start: int)
    ensures var bookings := [NewBooking(learner, mentor, start)];
      var now := start + 31;
      && ProgressTotals(bookings, learner, now).sessionCount == 1
      && DashboardTotals(bookings, learner, now).completed == 0
  {
    var bookings := [NewBooking(learner, mentor, start)];
    assert bookings[1..] == [];
  }

  function Timestamp(m: Message): int { m.timestamp }

  /** The chat page: the booking's messages, oldest first (the model's default ordering by timestamp). */
  function ChatHistory(messages: seq<Message>, booking: nat): (r: seq<Message>)
    ensures forall m :: m in r <==> m in messages && m.booking == booking
    ensures multiset(r) == multiset(Filter(messages, (m: Message) => m.booking == booking))
    ensures forall i, j :: 0 <= i < j < |r| ==> r[i].timestamp <= r[j].timestamp
  {
    var r := SortBy(Filter(messages, (m: Message) => m.booking == booking), Timestamp);
    assert forall i, j :: 0 <= i < j < |r| ==> Timestamp(r[i]) <= Timestamp(r[j]);
    r
  }
}
