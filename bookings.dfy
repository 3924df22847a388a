/**
 * The bookings page: a list of bookings whose status the owner confirms or cancels, split
 * into upcoming and past bookings by comparing each date with the current time.
 *
 * Dates and the current time are integer timestamps (milliseconds); statuses are the
 * strings the page compares against.
 */
module Bookings {

  datatype Person = Person(name: string, email: string, phone: string)

  datatype Booking = Booking(id: int, person: Person, service: string, date: int, status: string)

  const Pending := "Pending"
  const Confirmed := "Confirmed"
  const Cancelled := "Cancelled"

  /**
   * The `map` inside confirmBooking and cancelBooking: every booking whose id is `id` gets
   * `status`, every other booking is kept as it is.
   */
  function SetStatus(bs: seq<Booking>, id: int, status: string): (r: seq<Booking>)
    ensures |r| == |bs|
  {
    if bs == [] then []
    else [if bs[0].id == id then bs[0].(status := status) else bs[0]] + SetStatus(bs[1..], id, status)
  }

  lemma {:induction false} SetStatusAt(bs: seq<Booking>, id: int, status: string, i: int)
    requires 0 <= i < |bs|
    ensures SetStatus(bs, id, status)[i] == if bs[i].id == id then bs[i].(status := status) else bs[i]
    decreases |bs|
  {
    if i > 0 {
      SetStatusAt(bs[1..], id, status, i - 1);
    }
  }

  /**
   * Confirming or cancelling keeps the length and the order of the list, changes nothing but
   * the status, gives every booking with the id the new status whatever it had before, and
   * leaves the bookings with another id alone.
   */
  lemma SetStatusSpec(bs: seq<Booking>, id: int, status: string)
    ensures |SetStatus(bs, id, status)| == |bs|
    ensures forall i :: 0 <= i < |bs| ==>
              SetStatus(bs, id, status)[i] == bs[i].(status := SetStatus(bs, id, status)[i].status)
    ensures forall i :: 0 <= i < |bs| && bs[i].id == id ==> SetStatus(bs, id, status)[i].status == status
    ensures forall i :: 0 <= i < |bs| && bs[i].id != id ==> SetStatus(bs, id, status)[i] == bs[i]
  {
    forall i | 0 <= i < |bs|
      ensures SetStatus(bs, id, status)[i] == if bs[i].id == id then bs[i].(status := status) else bs[i]
    {
      SetStatusAt(bs, id, status, i);
    }
  }

  /** An id that no booking has leaves the list unchanged. */
  lemma {:induction false} SetStatusAbsent(bs: seq<Booking>, id: int, status: string)
    requires forall b :: b in bs ==> b.id != id
    ensures SetStatus(bs, id, status) == bs
  {
    if bs != [] {
      SetStatusAbsent(bs[1..], id, status);
    }
  }

  /** The later of two status changes to the same id wins: the page has no guard on the prior status. */
  lemma {:induction false} LastStatusWins(bs: seq<Booking>, id: int, first: string, second: string)
    ensures SetStatus(SetStatus(bs, id, first), id, second) == SetStatus(bs, id, second)
  {
    if bs != [] {
      LastStatusWins(bs[1..], id, first, second);
    }
  }

  /** Confirming (or cancelling) twice is the same as doing it once. */
  lemma SetStatusIdempotent(bs: seq<Booking>, id: int, status: string)
    ensures SetStatus(SetStatus(bs, id, status), id, status) == SetStatus(bs, id, status)
  {
    LastStatusWins(bs, id, status, status);
  }

  // ---------------------------------------------------------------- the upcoming/past split

  /** The bookings dated at or after `now`, in list order. */
  function Upcoming(bs: seq<Booking>, now: int): (r: seq<Booking>)
    ensures forall b :: b in r <==> b in bs && b.date >= now
  {
    if bs == [] then []
    else (if bs[0].date >= now then [bs[0]] else []) + Upcoming(bs[1..], now)
  }

  /** The bookings dated before `now`, in list order. */
  function Past(bs: seq<Booking>, now: int): (r: seq<Booking>)
    ensures forall b :: b in r <==> b in bs && b.date < now
  {
    if bs == [] then []
    else (if bs[0].date < now then [bs[0]] else []) + Past(bs[1..], now)
  }

  /**
   * `s` is an interleaving of `a` and `b`: every element of `s` is taken, in order, from the
   * front of exactly one of the two.
   */
  ghost predicate Interleaving(s: seq<Booking>, a: seq<Booking>, b: seq<Booking>)
    decreases |s|
  {
    if s == [] then a == [] && b == []
    else
      || (a != [] && a[0] == s[0] && Interleaving(s[1..], a[1..], b))
      || (b != [] && b[0] == s[0] && Interleaving(s[1..], a, b[1..]))
  }

  /** Upcoming and Past each take their bookings from the front of the list, in order. */
  lemma {:induction false} PartitionInterleaves(bs: seq<Booking>, now: int)
    ensures Interleaving(bs, Upcoming(bs, now), Past(bs, now))
  {
    if bs != [] {
      var up, past := Upcoming(bs[1..], now), Past(bs[1..], now);
      PartitionInterleaves(bs[1..], now);
      if bs[0].date >= now {
        assert Upcoming(bs, now) == [bs[0]] + up && Past(bs, now) == past;
        assert ([bs[0]] + up)[0] == bs[0] && ([bs[0]] + up)[1..] == up;
      } else {
        assert Upcoming(bs, now) == up && Past(bs, now) == [bs[0]] + past;
        assert ([bs[0]] + past)[0] == bs[0] && ([bs[0]] + past)[1..] == past;
      }
    }
  }

  /** Together Upcoming and Past hold every booking exactly as often as the list does. */
  lemma {:induction false} PartitionCounts(bs: seq<Booking>, now: int)
    ensures multiset(Upcoming(bs, now)) + multiset(Past(bs, now)) == multiset(bs)
  {
    if bs != [] {
      var up, past := Upcoming(bs[1..], now), Past(bs[1..], now);
      PartitionCounts(bs[1..], now);
      assert bs == [bs[0]] + bs[1..];
      assert multiset(bs) == multiset{bs[0]} + multiset(bs[1..]);
      if bs[0].date >= now {
        assert Upcoming(bs, now) == [bs[0]] + up;
        assert multiset(Upcoming(bs, now)) == multiset{bs[0]} + multiset(up);
        assert Past(bs, now) == past;
      } else {
        assert Past(bs, now) == [bs[0]] + past;
        assert multiset(Past(bs, now)) == multiset{bs[0]} + multiset(past);
        assert Upcoming(bs, now) == up;
      }
    }
  }

  /**
   * The two lists split the bookings: together they hold every booking exactly as often as
   * the list does, each keeps the list's relative order, and their lengths add up.
   */
  lemma PartitionSplits(bs: seq<Booking>, now: int)
    ensures Interleaving(bs, Upcoming(bs, now), Past(bs, now))
    ensures multiset(Upcoming(bs, now)) + multiset(Past(bs, now)) == multiset(bs)
    ensures |Upcoming(bs, now)| + |Past(bs, now)| == |bs|
  {
    PartitionInterleaves(bs, now);
    PartitionCounts(bs, now);
    assert |multiset(Upcoming(bs, now)) + multiset(Past(bs, now))| == |multiset(bs)|;
  }

  /** A booking dated exactly now is upcoming, not past. */
  lemma BoundaryIsUpcoming(bs: seq<Booking>, now: int, i: int)
    requires 0 <= i < |bs| && bs[i].date == now
    ensures bs[i] in Upcoming(bs, now) && bs[i] !in Past(bs, now)
  {
  }

  // ---------------------------------------------------------------- action buttons

  datatype Action = ConfirmAction | CancelAction

  datatype Button = Button(action: Action, caption: string, disabled: bool)

  /**
   * The buttons under an upcoming booking: Confirm and Cancel while it is neither confirmed
   * nor cancelled, otherwise a single Cancel button that is greyed out once cancelled.
   */
  function StatusButtons(status: string): seq<Button> {
    if status != Confirmed && status != Cancelled then
      [Button(ConfirmAction, "Confirm Booking", false), Button(CancelAction, "Cancel Booking", false)]
    else
      [Button(CancelAction, if status == Cancelled then "Cancelled" else "Cancel Booking", status == Cancelled)]
  }

  /** Past bookings are listed without buttons. */
  function ActionButtons(b: Booking, now: int): seq<Button> {
    if b.date >= now then StatusButtons(b.status) else []
  }

  /** The status an action's handler writes. */
  function Target(a: Action): string {
    match a
    case ConfirmAction => Confirmed
    case CancelAction => Cancelled
  }

  /** Clicking a button: a disabled button does nothing, an enabled one runs its handler. */
  function Click(bs: seq<Booking>, b: Booking, button: Button): seq<Booking> {
    if button.disabled then bs else SetStatus(bs, b.id, Target(button.action))
  }

  /**
   * The button policy: Confirm is offered exactly for a status other than Confirmed and
   * Cancelled, one Cancel button always, disabled and captioned "Cancelled" exactly when the
   * status is Cancelled; past bookings get none.
   */
  lemma ButtonPolicy(b: Booking, now: int)
    ensures b.date < now ==> ActionButtons(b, now) == []
    ensures b.date >= now ==>
              ((exists k :: 0 <= k < |ActionButtons(b, now)| && ActionButtons(b, now)[k].action == ConfirmAction)
               <==> b.status != Confirmed && b.status != Cancelled)
    ensures b.date >= now ==>
              exists k :: 0 <= k < |ActionButtons(b, now)| && ActionButtons(b, now)[k].action == CancelAction
    ensures b.date >= now ==>
              |ActionButtons(b, now)| == if b.status != Confirmed && b.status != Cancelled then 2 else 1
    ensures b.date >= now && b.status != Confirmed && b.status != Cancelled ==>
              ActionButtons(b, now)[0].action == ConfirmAction && ActionButtons(b, now)[1].action == CancelAction
    ensures forall k :: 0 <= k < |ActionButtons(b, now)| ==>
              (ActionButtons(b, now)[k].disabled <==> b.status == Cancelled)
    ensures forall k :: 0 <= k < |ActionButtons(b, now)| ==>
              ActionButtons(b, now)[k].caption ==
                match ActionButtons(b, now)[k].action
                case ConfirmAction => "Confirm Booking"
                case CancelAction => if b.status == Cancelled then "Cancelled" else "Cancel Booking"
  {
    if b.date >= now {
      var buttons := ActionButtons(b, now);
      if b.status != Confirmed && b.status != Cancelled {
        assert buttons[0].action == ConfirmAction && buttons[1].action == CancelAction;
      } else {
        assert buttons[0].action == CancelAction;
      }
    }
  }

  /**
   * No button the page offers is a no-op: an enabled button always gives its booking a new
   * status, and once a booking is cancelled no enabled button is left for it.
   */
  lemma EnabledButtonsChangeStatus(bs: seq<Booking>, i: int, now: int, k: int)
    requires 0 <= i < |bs| && 0 <= k < |ActionButtons(bs[i], now)|
    requires !ActionButtons(bs[i], now)[k].disabled
    ensures bs[i].status != Cancelled
    ensures Click(bs, bs[i], ActionButtons(bs[i], now)[k])[i].status != bs[i].status
  {
    SetStatusAt(bs, bs[i].id, Target(ActionButtons(bs[i], now)[k].action), i);
  }

  // ---------------------------------------------------------------- the page's state

  /**
   * The three sample bookings the page starts with; the dates are the sample ISO local
   * times read as UTC.
   */
  const SampleBookings: seq<Booking> := [
    Booking(1, Person("Alice Johnson", "alice@example.com", "123-456-7890"), "Haircut", 1748786400000, Pending),
    Booking(2, Person("Bob Smith", "bob@example.com", "987-654-3210"), "Dental Checkup", 1744279200000, Confirmed),
    Booking(3, Person("Carol Lee", "carol@example.com", "555-222-1111"), "Massage Therapy", 1742488200000, Cancelled)
  ]

  /** The `bookings` state cell of the page. */
  class BookingsPage {
    var bookings: seq<Booking>

    constructor ()
      ensures bookings == SampleBookings
    {
      bookings := SampleBookings;
    }

    method ConfirmBooking(id: int)
      modifies this
      ensures bookings == SetStatus(old(bookings), id, Confirmed)
    {
      bookings := SetStatus(bookings, id, Confirmed);
    }

    method CancelBooking(id: int)
      modifies this
      ensures bookings == SetStatus(old(bookings), id, Cancelled)
    {
      bookings := SetStatus(bookings, id, Cancelled);
    }
  }
}
