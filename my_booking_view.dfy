/**
 * The customer's bookings page (CapstoneFrontend/src/components/MyBooking.jsx):
 * a search box, one sort-or-status option, and the click that leads to the
 * rating page.
 */
module MyBookingView {
  import opened Text
  import opened Lists
  import opened BookingModel
  import opened BookingCards

  /** One card matches a query when the worker's name or the service name contains it, ignoring case. */
  predicate SearchMatches(c: Card, query: string) {
    Contains(Lower(c.providerName), Lower(query)) || Contains(Lower(c.serviceName), Lower(query))
  }

  /** `if (searchQuery) updatedBookings = updatedBookings.filter(...)`. */
  function Search(bookings: seq<Card>, query: string): (r: seq<Card>)
    ensures query == "" ==> r == bookings
    ensures IsSubsequence(r, bookings)
    ensures query != "" ==> forall c :: c in r <==> c in bookings && SearchMatches(c, query)
  {
    if query == "" then SubsequenceReflexive(bookings); bookings
    else
      var p := (c: Card) => SearchMatches(c, query);
      assert forall c :: c in Filter(bookings, p) <==> c in bookings && p(c) by {
        forall c ensures c in Filter(bookings, p) <==> c in bookings && p(c) {
          FilterMembership(bookings, p, c);
        }
      }
      Filter(bookings, p)
  }

  predicate IsSortOption(option: string) {
    option == "lastBooking" || option == "oldBooking" || option == "highestRating"
  }

  predicate IsStatusOption(option: string) {
    option == "Pending" || option == "Confirmed" || option == "Completed" || option == "Closed"
  }

  /** The options are an `else if` chain: no option both sorts and filters. */
  lemma OptionsExclusive(option: string)
    ensures !(IsSortOption(option) && IsStatusOption(option))
  {
  }

  /**
   * The comparator of each sort, as a key sorted ascending: `(a, b) =>
   * key(a) - key(b)` sorts for the key itself, `key(b) - key(a)` for its negation.
   */
  function SortKey(option: string): (key: Card -> real) {
    if option == "lastBooking" then (c: Card) => -(c.bookingDate as real)
    else if option == "highestRating" then (c: Card) => -c.providerRating
    else (c: Card) => c.bookingDate as real
  }

  predicate SortedBy(s: seq<Card>, key: Card -> real) {
    forall p, q :: 0 <= p < q < |s| ==> key(s[p]) <= key(s[q])
  }

  /** `lastBooking` lists the newest first, `oldBooking` the oldest first, `highestRating` the best first. */
  lemma SortOrders(s: seq<Card>)
    ensures SortedBy(s, SortKey("lastBooking")) ==>
              forall p, q :: 0 <= p < q < |s| ==> s[p].bookingDate >= s[q].bookingDate
    ensures SortedBy(s, SortKey("oldBooking")) ==>
              forall p, q :: 0 <= p < q < |s| ==> s[p].bookingDate <= s[q].bookingDate
    ensures SortedBy(s, SortKey("highestRating")) ==>
              forall p, q :: 0 <= p < q < |s| ==> s[p].providerRating >= s[q].providerRating
  {
  }

  /** `filter((booking) => booking.status === filterOption)`: the status test is exact. */
  function WithStatus(bookings: seq<Card>, status: string): (r: seq<Card>)
    ensures IsSubsequence(r, bookings)
    ensures forall c :: c in r <==> c in bookings && c.status == status
  {
    var p := (c: Card) => c.status == status;
    assert forall c :: c in Filter(bookings, p) <==> c in bookings && p(c) by {
      forall c ensures c in Filter(bookings, p) <==> c in bookings && p(c) {
        FilterMembership(bookings, p, c);
      }
    }
    Filter(bookings, p)
  }

  /**
   * What the page shows for `bookings`: the search, then at most one of a
   * sort (a sorted permutation of the search result) or a status filter.
   */
  predicate ShownView(view: seq<Card>, bookings: seq<Card>, query: string, option: string) {
    var searched := Search(bookings, query);
    if IsSortOption(option) then SortedBy(view, SortKey(option)) && multiset(view) == multiset(searched)
    else if IsStatusOption(option) then view == WithStatus(searched, option)
    else view == searched
  }

  /** With no query and no option the list is shown as it is. */
  lemma NothingSelectedShowsAll(view: seq<Card>, bookings: seq<Card>, option: string)
    requires !IsSortOption(option) && !IsStatusOption(option)
    ensures ShownView(view, bookings, "", option) <==> view == bookings
  {
  }

  /** A shown card is one of the bookings, matches the query, and has the chosen status. */
  lemma ShownCardsQualify(view: seq<Card>, bookings: seq<Card>, query: string, option: string, c: Card)
    requires ShownView(view, bookings, query, option) && c in view
    ensures c in bookings
    ensures query != "" ==> SearchMatches(c, query)
    ensures IsStatusOption(option) ==> c.status == option
  {
    var searched := Search(bookings, query);
    if IsSortOption(option) {
      assert multiset(view)[c] > 0;
      assert c in searched;
    }
  }

  method FromSeq(s: seq<Card>) returns (a: array<Card>)
    ensures fresh(a) && a[..] == s
  {
    a := new Card[|s|](k requires 0 <= k < |s| => s[k]);
  }

  /** Within `s[..n]`, the keys are in order except possibly at position `j`. */
  predicate SortedExcept(s: seq<Card>, n: nat, j: nat, key: Card -> real)
    requires n <= |s|
  {
    forall p, q :: 0 <= p < q < n && p != j && q != j ==> key(s[p]) <= key(s[q])
  }

  /** The element at `j` has a smaller key than every later one in `s[..n]`. */
  predicate BelowLater(s: seq<Card>, n: nat, j: nat, key: Card -> real)
    requires j < n <= |s|
  {
    forall q :: j < q < n ==> key(s[j]) < key(s[q])
  }

  function Swap(s: seq<Card>, j: nat): (r: seq<Card>)
    requires 0 < j < |s|
    ensures |r| == |s| && multiset(r) == multiset(s)
    ensures r[j - 1] == s[j] && r[j] == s[j - 1]
    ensures forall k :: 0 <= k < |s| && k != j - 1 && k != j ==> r[k] == s[k]
  {
    s[j - 1 := s[j]][j := s[j - 1]]
  }

  /**
   * The state of one insertion pass over `o`: `s` is a permutation of `o`
   * that differs from it only in `s[..n]`, where everything but the
   * element travelling at `j` is in order and that element is below all
   * that follows it.
   */
  predicate Inserting(s: seq<Card>, o: seq<Card>, n: nat, j: nat, key: Card -> real) {
    && j < n <= |o| && |s| == |o|
    && multiset(s) == multiset(o)
    && s[n..] == o[n..]
    && SortedExcept(s, n, j, key) && BelowLater(s, n, j, key)
  }

  /** Swapping an out-of-order element one step left keeps the insertion going. */
  lemma SwapStep(s: seq<Card>, o: seq<Card>, n: nat, j: nat, key: Card -> real)
    requires 0 < j && Inserting(s, o, n, j, key)
    requires key(s[j - 1]) > key(s[j])
    ensures Inserting(Swap(s, j), o, n, j - 1, key)
  {
    var r := Swap(s, j);
    forall p, q | 0 <= p < q < n && p != j - 1 && q != j - 1
      ensures key(r[p]) <= key(r[q])
    {
      var p' := if p == j then j - 1 else p;
      var q' := if q == j then j - 1 else q;
      assert r[p] == s[p'] && r[q] == s[q'];
    }
    assert r[n..] == s[n..] by {
      forall k | 0 <= k < |s| - n ensures r[n..][k] == s[n..][k] {
        assert r[n + k] == s[n + k];
      }
    }
  }

  /** Once the element at `j` is no smaller than its left neighbour, `s[..n]` is sorted. */
  lemma InsertDone(s: seq<Card>, o: seq<Card>, n: nat, j: nat, key: Card -> real)
    requires Inserting(s, o, n, j, key)
    requires j == 0 || key(s[j - 1]) <= key(s[j])
    ensures SortedBy(s[..n], key)
  {
    forall p, q | 0 <= p < q < n ensures key(s[p]) <= key(s[q]) {
      if q == j && p < j - 1 {
        assert key(s[p]) <= key(s[j - 1]);
      }
    }
  }

  /** Moves `a[i]` left past every larger key; `a[..i]` must already be sorted. */
  method InsertAt(a: array<Card>, i: nat, key: Card -> real)
    requires i < a.Length && SortedBy(a[..i], key)
    modifies a
    ensures SortedBy(a[..i + 1], key)
    ensures multiset(a[..]) == multiset(old(a[..]))
    ensures a[i + 1..] == old(a[i + 1..])
  {
    var j: nat := i;
    assert SortedExcept(a[..], i + 1, j, key) by {
      assert forall k :: 0 <= k < i ==> a[..i][k] == a[..][k];
    }
    while j > 0 && key(a[j - 1]) > key(a[j])
      invariant Inserting(a[..], old(a[..]), i + 1, j, key)
      decreases j
    {
      ghost var before := a[..];
      SwapStep(before, old(a[..]), i + 1, j, key);
      a[j - 1], a[j] := a[j], a[j - 1];
      assert a[..] == Swap(before, j);
      j := j - 1;
    }
    InsertDone(a[..], old(a[..]), i + 1, j, key);
    assert a[..][..i + 1] == a[..i + 1];
  }

  /** `Array.prototype.sort` with the option's comparator, in place. */
  method SortInPlace(a: array<Card>, key: Card -> real)
    modifies a
    ensures SortedBy(a[..], key)
    ensures multiset(a[..]) == multiset(old(a[..]))
  {
    var i := 0;
    while i < a.Length
      invariant 0 <= i <= a.Length
      invariant SortedBy(a[..i], key)
      invariant multiset(a[..]) == multiset(old(a[..]))
    {
      InsertAt(a, i, key);
      i := i + 1;
    }
    assert a[..] == a[..a.Length];
  }

  /**
   * The filter effect. `updatedBookings` starts as the `bookings` state
   * array itself and only `filter` copies it, so with an empty query a sort
   * reorders the state array in place; every other path leaves it alone.
   */
  method ApplyFilters(bookings: array<Card>, query: string, option: string) returns (view: array<Card>)
    modifies bookings
    ensures ShownView(view[..], old(bookings[..]), query, option)
    ensures query == "" && !IsStatusOption(option) ==> view == bookings
    ensures query != "" || IsStatusOption(option) ==> fresh(view)
    ensures !(query == "" && IsSortOption(option)) ==> bookings[..] == old(bookings[..])
  {
    view := bookings;
    if query != "" {
      view := FromSeq(Search(bookings[..], query));
    }
    if IsSortOption(option) {
      SortInPlace(view, SortKey(option));
    } else if IsStatusOption(option) {
      view := FromSeq(WithStatus(view[..], option));
    }
  }

  /** The outcome of clicking a booking card. */
  datatype ClickResult = ShowAlert(message: string) | GoToRating(bookingId: nat)

  const NotStartedMessage := "Service has not started yet. You cannot rate this booking."

  /** `handleCardClick`: not-yet-started bookings only get an alert. */
  function CardClick(c: Card): (r: ClickResult)
    ensures r.ShowAlert? <==> c.status == "Pending" || c.status == "Confirmed"
    ensures r.ShowAlert? ==> r.message == NotStartedMessage
    ensures r.GoToRating? ==> r.bookingId == c.id
  {
    if c.status == "Pending" || c.status == "Confirmed" then
      ShowAlert(NotStartedMessage)
    else GoToRating(c.id)
  }

  /**
   * The page only leads to rating bookings the server would let be rated,
   * and is stricter: the server also rates `Confirmed` ones.
   */
  lemma ClickStricterThanServer(c: Card, s: BookingStatus)
    requires ShowsStatus(c, s)
    ensures CardClick(c).GoToRating? ==> Ratable(s)
    ensures CardClick(c).GoToRating? <==> s == Completed || s == Closed
    ensures s == Confirmed ==> Ratable(s) && CardClick(c).ShowAlert?
  {
    StatusNameInjective(s, Pending);
    StatusNameInjective(s, Confirmed);
    assert c.status == "Pending" <==> s == Pending;
    assert c.status == "Confirmed" <==> s == Confirmed;
  }
}
