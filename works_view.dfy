/**
 * The worker's requested-bookings page (CapstoneFrontend/src/components/Works.jsx):
 * four status tabs over the bookings of the worker's listings, and what a
 * double-click on a card does in each tab.
 */
module WorksView {
  import opened Text
  import opened Lists
  import opened BookingModel
  import opened BookingCards
  import BookingRoutes

  /** `getBookingsByStatus(status)`: the bookings whose status equals `status`, ignoring case. */
  function ByStatus(bookings: seq<Card>, status: string): (r: seq<Card>)
    ensures IsSubsequence(r, bookings)
    ensures forall k :: 0 <= k < |r| ==> Lower(r[k].status) == Lower(status)
    ensures forall c :: c in r <==> c in bookings && Lower(c.status) == Lower(status)
  {
    var p := (c: Card) => Lower(c.status) == Lower(status);
    assert forall c :: c in Filter(bookings, p) <==> c in bookings && p(c) by {
      forall c ensures c in Filter(bookings, p) <==> c in bookings && p(c) {
        FilterMembership(bookings, p, c);
      }
    }
    Filter(bookings, p)
  }

  /** The four tabs, in order. */
  function TabStatus(tab: nat): (s: BookingStatus)
    requires tab < 4
  {
    if tab == 0 then Pending else if tab == 1 then Confirmed else if tab == 2 then Completed else Closed
  }

  /** The tab a status is listed under. */
  function TabOf(s: BookingStatus): (tab: nat)
    ensures tab < 4 && TabStatus(tab) == s
  {
    match s
    case Pending => 0
    case Confirmed => 1
    case Completed => 2
    case Closed => 3
  }

  /** What tab `tab` shows: `tabValue === k && getBookingsByStatus(name)`; no fifth tab. */
  function TabView(bookings: seq<Card>, tab: nat): seq<Card> {
    if tab < 4 then ByStatus(bookings, StatusName(TabStatus(tab))) else []
  }

  /** The four status names stay apart once lower-cased. */
  lemma LowerStatusNameInjective(a: BookingStatus, b: BookingStatus)
    ensures Lower(StatusName(a)) == Lower(StatusName(b)) <==> a == b
  {
    if a != b && |StatusName(a)| == |StatusName(b)| {
      // only "Confirmed" and "Completed" share a length; they differ at index 2
      var x, y := Lower(StatusName(a)), Lower(StatusName(b));
      assert x[2] == LowerChar(StatusName(a)[2]) && y[2] == LowerChar(StatusName(b)[2]);
      assert x[2] != y[2];
    }
  }

  /** No booking is listed in two tabs. */
  lemma TabsDisjoint(bookings: seq<Card>, t1: nat, t2: nat, c: Card)
    requires t1 < 4 && t2 < 4 && t1 != t2
    ensures !(c in TabView(bookings, t1) && c in TabView(bookings, t2))
  {
    var s1, s2 := TabStatus(t1), TabStatus(t2);
    assert s1 != s2;
    LowerStatusNameInjective(s1, s2);
    if c in ByStatus(bookings, StatusName(s1)) {
      assert Lower(c.status) == Lower(StatusName(s1));
      assert Lower(c.status) != Lower(StatusName(s2));
    }
  }

  /** A booking in a server status is listed under that status's tab and no other. */
  lemma ListedUnderItsTab(bookings: seq<Card>, c: Card, s: BookingStatus, tab: nat)
    requires c in bookings && ShowsStatus(c, s) && tab < 4
    ensures c in TabView(bookings, tab) <==> tab == TabOf(s)
  {
    var shown := TabStatus(tab);
    LowerStatusNameInjective(s, shown);
    assert c in TabView(bookings, tab) <==> Lower(c.status) == Lower(StatusName(shown));
    assert shown == s <==> tab == TabOf(s);
  }

  /** What a double-click on a card does. */
  datatype CardAction = OpenDecisionModal | GoToVerify(bookingId: nat) | NoAction

  /**
   * Pending cards open the accept/reject modal, confirmed and completed ones
   * go to the verify page, and closed ones have no handler.
   */
  function DoubleClick(tab: nat, c: Card): (a: CardAction)
    requires tab < 4
    ensures a.OpenDecisionModal? <==> TabStatus(tab) == Pending
    ensures a.GoToVerify? <==> TabStatus(tab) == Confirmed || TabStatus(tab) == Completed
    ensures a.GoToVerify? ==> a.bookingId == c.id
    ensures a.NoAction? <==> TabStatus(tab) == Closed
  {
    if tab == 0 then OpenDecisionModal
    else if tab == 1 || tab == 2 then GoToVerify(c.id)
    else NoAction
  }

  /** The two modal buttons: `handleResponse('Accepted')` and `handleResponse('Rejected')`. */
  function ModalResponses(): (r: seq<string>)
    ensures |r| == 2
  {
    ["Accepted", "Rejected"]
  }

  /**
   * Either answer the modal sends passes the notify route's validator and
   * moves the booking on: `Accepted` to `Confirmed`, `Rejected` to `Closed`.
   */
  lemma ModalResponsesAreDecisions(current: BookingStatus)
    ensures forall m :: m in ModalResponses() ==> BookingRoutes.IsDecision(m)
    ensures BookingRoutes.DecisionStatus(current, ModalResponses()[0]) == Confirmed
    ensures BookingRoutes.DecisionStatus(current, ModalResponses()[1]) == Closed
  {
  }
}
