/**
 * The dashboard's client-side search (`filterBookings`): a case-insensitive
 * substring match of the search box's text against a booking's customer name,
 * booking ID, e-mail and ticket ID, and a verbatim match against its phone.
 */
module Search {
  import opened Wrappers
  import opened Text
  import opened Bookings

  /** `!searchQuery.trim()`: the search box holds nothing but whitespace. */
  predicate IsBlank(searchQuery: string) {
    Trim(searchQuery) == []
  }

  /** `searchQuery.toLowerCase().trim()`: the text that is looked for. */
  function NormalizeQuery(searchQuery: string): (query: string)
    ensures query == ToLower(Trim(searchQuery))
    ensures query == [] <==> IsBlank(searchQuery)
    ensures forall i | 0 <= i < |query| :: !IsUpper(query[i])
  {
    LowerTrimCommute(searchQuery);
    Trim(ToLower(searchQuery))
  }

  /** The test applied to each booking for a normalised, non-blank query. Phone is compared
      without lower-casing; the ticket ID takes part only when the booking has one. */
  predicate Matches(b: Booking, query: string) {
    || Contains(ToLower(b.customerName), query)
    || Contains(ToLower(b.bookingId), query)
    || Contains(ToLower(b.email), query)
    || Contains(b.phone, query)
    || (Present(b.ticketId) && Contains(ToLower(b.ticketId.value), query))
  }

  /** `bookings.filter(...)` with the test above. */
  function Filter(bookings: seq<Booking>, query: string): (kept: seq<Booking>)
    ensures |kept| <= |bookings|
    ensures forall b :: b in kept <==> b in bookings && Matches(b, query)
  {
    if bookings == [] then []
    else (if Matches(bookings[0], query) then [bookings[0]] else []) + Filter(bookings[1..], query)
  }

  /** `filterBookings(bookings)` for the current text of the search box. */
  function FilterBookings(bookings: seq<Booking>, searchQuery: string): (shown: seq<Booking>)
    ensures |shown| <= |bookings|
    ensures IsBlank(searchQuery) ==> shown == bookings
    ensures !IsBlank(searchQuery) ==>
      forall b :: b in shown <==> b in bookings && Matches(b, NormalizeQuery(searchQuery))
  {
    if IsBlank(searchQuery) then bookings else Filter(bookings, NormalizeQuery(searchQuery))
  }

  /** `kept` can be obtained from `s` by deleting elements, without reordering the rest. */
  predicate IsSubsequence(kept: seq<Booking>, s: seq<Booking>)
    decreases |s|
  {
    if kept == [] then true
    else if s == [] then false
    else (kept[0] == s[0] && IsSubsequence(kept[1..], s[1..])) || IsSubsequence(kept, s[1..])
  }

  // ---------------------------------------------------------------------------
  // Lemmas
  // ---------------------------------------------------------------------------

  /** The search result keeps the relative order of the list it was taken from. */
  lemma {:induction false} FilterIsSubsequence(bookings: seq<Booking>, query: string)
    ensures IsSubsequence(Filter(bookings, query), bookings)
  {
    if bookings != [] {
      FilterIsSubsequence(bookings[1..], query);
      var rest := Filter(bookings[1..], query);
      if Matches(bookings[0], query) {
        assert Filter(bookings, query) == [bookings[0]] + rest;
        assert ([bookings[0]] + rest)[1..] == rest;
      } else {
        assert Filter(bookings, query) == rest;
        if rest != [] {
          assert rest[0] in rest;
        }
      }
    }
  }

  /** A subsequence is never longer than the sequence it was taken from. */
  lemma {:induction false} SubsequenceLength(kept: seq<Booking>, s: seq<Booking>)
    requires IsSubsequence(kept, s)
    ensures |kept| <= |s|
    decreases |s|
  {
    if kept != [] {
      if kept[0] == s[0] && IsSubsequence(kept[1..], s[1..]) {
        SubsequenceLength(kept[1..], s[1..]);
      } else {
        SubsequenceLength(kept, s[1..]);
      }
    }
  }

  /** Each matching booking is kept as many times as it occurs; a non-matching one is dropped. */
  lemma {:induction false} FilterCounts(bookings: seq<Booking>, query: string, b: Booking)
    ensures multiset(Filter(bookings, query))[b] ==
            if Matches(b, query) then multiset(bookings)[b] else 0
  {
    if bookings != [] {
      FilterCounts(bookings[1..], query, b);
      assert bookings == [bookings[0]] + bookings[1..];
    }
  }

  /** Filtering a concatenation filters each part and concatenates the results. */
  lemma {:induction false} FilterAppend(front: seq<Booking>, back: seq<Booking>, query: string)
    ensures Filter(front + back, query) == Filter(front, query) + Filter(back, query)
  {
    if front != [] {
      assert (front + back)[1..] == front[1..] + back;
      FilterAppend(front[1..], back, query);
    } else {
      assert front + back == back;
    }
  }

  /** A list all of whose bookings match is returned unchanged. */
  lemma {:induction false} FilterKeepsMatching(bookings: seq<Booking>, query: string)
    requires forall k | 0 <= k < |bookings| :: Matches(bookings[k], query)
    ensures Filter(bookings, query) == bookings
  {
    if bookings != [] {
      FilterKeepsMatching(bookings[1..], query);
    }
  }

  /** Every list is an order-preserving sub-list of itself. */
  lemma {:induction false} SubsequenceReflexive(s: seq<Booking>)
    ensures IsSubsequence(s, s)
  {
    if s != [] {
      SubsequenceReflexive(s[1..]);
    }
  }

  /** The search result, blank query or not, keeps the order of its list and holds each booking
      it shows exactly as often as the list does. */
  lemma FilterBookingsOrderAndCounts(bookings: seq<Booking>, searchQuery: string)
    ensures IsSubsequence(FilterBookings(bookings, searchQuery), bookings)
    ensures forall b :: multiset(FilterBookings(bookings, searchQuery))[b] ==
                          if IsBlank(searchQuery) || Matches(b, NormalizeQuery(searchQuery))
                          then multiset(bookings)[b] else 0
  {
    if IsBlank(searchQuery) {
      SubsequenceReflexive(bookings);
    } else {
      FilterIsSubsequence(bookings, NormalizeQuery(searchQuery));
      forall b {
        FilterCounts(bookings, NormalizeQuery(searchQuery), b);
      }
    }
  }

  /** Searching the search result again for the same text changes nothing. */
  lemma FilterBookingsIdempotent(bookings: seq<Booking>, searchQuery: string)
    ensures FilterBookings(FilterBookings(bookings, searchQuery), searchQuery) ==
            FilterBookings(bookings, searchQuery)
  {
    if !IsBlank(searchQuery) {
      var shown := FilterBookings(bookings, searchQuery);
      assert forall k | 0 <= k < |shown| :: shown[k] in shown;
      FilterKeepsMatching(shown, NormalizeQuery(searchQuery));
    }
  }

  /** Upper-case letters in the search box make no difference. */
  lemma QueryCaseInsensitive(bookings: seq<Booking>, searchQuery: string)
    ensures FilterBookings(bookings, ToLower(searchQuery)) == FilterBookings(bookings, searchQuery)
  {
    LowerTrimCommute(searchQuery);
    LowerTrimCommute(ToLower(searchQuery));
    ToLowerIdempotent(Trim(searchQuery));
  }

  /** Whitespace around the text in the search box makes no difference. */
  lemma QuerySurroundingWhitespace(bookings: seq<Booking>, searchQuery: string)
    ensures FilterBookings(bookings, Trim(searchQuery)) == FilterBookings(bookings, searchQuery)
  {
    TrimIdempotent(searchQuery);
  }

  /** Text copied verbatim from a booking's name, booking ID, e-mail or present ticket ID finds
      that booking, whatever its case and whatever whitespace surrounds it; text copied from its
      phone finds it when it has no upper-case letter (the phone is not lower-cased). */
  lemma CopiedFieldTextIsFound(b: Booking, searchQuery: string)
    requires !IsBlank(searchQuery)
    requires || Contains(b.customerName, Trim(searchQuery))
             || Contains(b.bookingId, Trim(searchQuery))
             || Contains(b.email, Trim(searchQuery))
             || (Present(b.ticketId) && Contains(b.ticketId.value, Trim(searchQuery)))
             || (Contains(b.phone, Trim(searchQuery)) && ToLower(Trim(searchQuery)) == Trim(searchQuery))
    ensures Matches(b, NormalizeQuery(searchQuery))
  {
    var typed := Trim(searchQuery);
    if Contains(b.customerName, typed) {
      ContainsLower(b.customerName, typed);
    } else if Contains(b.bookingId, typed) {
      ContainsLower(b.bookingId, typed);
    } else if Contains(b.email, typed) {
      ContainsLower(b.email, typed);
    } else if Present(b.ticketId) && Contains(b.ticketId.value, typed) {
      ContainsLower(b.ticketId.value, typed);
    }
  }

  /** A booking that matches a query matches every part of that query. */
  lemma MatchesNarrow(b: Booking, wide: string, narrow: string)
    requires Contains(narrow, wide) && Matches(b, narrow)
    ensures Matches(b, wide)
  {
    if Contains(ToLower(b.customerName), narrow) {
      ContainsTransitive(ToLower(b.customerName), narrow, wide);
    } else if Contains(ToLower(b.bookingId), narrow) {
      ContainsTransitive(ToLower(b.bookingId), narrow, wide);
    } else if Contains(ToLower(b.email), narrow) {
      ContainsTransitive(ToLower(b.email), narrow, wide);
    } else if Contains(b.phone, narrow) {
      ContainsTransitive(b.phone, narrow, wide);
    } else {
      ContainsTransitive(ToLower(b.ticketId.value), narrow, wide);
    }
  }

  /** Filtering by a narrower query after a wider one is filtering by the narrower one alone. */
  lemma {:induction false} FilterNarrow(bookings: seq<Booking>, wide: string, narrow: string)
    requires Contains(narrow, wide)
    ensures Filter(Filter(bookings, wide), narrow) == Filter(bookings, narrow)
  {
    if bookings != [] {
      var b := bookings[0];
      FilterNarrow(bookings[1..], wide, narrow);
      if Matches(b, narrow) {
        MatchesNarrow(b, wide, narrow);
      }
      var rest := Filter(bookings[1..], wide);
      if Matches(b, wide) {
        assert Filter(bookings, wide) == [b] + rest;
        FilterAppend([b], rest, narrow);
        assert [b][1..] == [];
        assert Filter([b], narrow) == if Matches(b, narrow) then [b] else [];
      } else {
        assert Filter(bookings, wide) == rest;
      }
    }
  }

  /** Typing more text into the search box only narrows the result: the results for the
      longer query are exactly the results for the shorter one searched again. */
  lemma NarrowingQuery(bookings: seq<Booking>, shorter: string, longer: string)
    requires !IsBlank(shorter)
    requires Contains(NormalizeQuery(longer), NormalizeQuery(shorter))
    ensures !IsBlank(longer)
    ensures FilterBookings(bookings, longer) ==
            Filter(FilterBookings(bookings, shorter), NormalizeQuery(longer))
  {
    ContainsBounds(NormalizeQuery(longer), NormalizeQuery(shorter));
    FilterNarrow(bookings, NormalizeQuery(shorter), NormalizeQuery(longer));
  }
}
