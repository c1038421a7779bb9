/**
 * The dashboard component's state and how it reacts to the outcome of each
 * request. The network, the confirmation dialog and the router are inputs:
 * a request's outcome is passed in as a `FetchResponse` or `ActionResponse`,
 * the answer to the dialog as a boolean, and `navigate` is recorded in `route`.
 * The stored admin token is reduced to whether it is present.
 */
module Panel {
  import opened Wrappers
  import opened Text
  import opened Bookings
  import opened Search

  datatype View = PendingView | AllView

  /** Where the last `navigate` call sent the browser. */
  datatype Route = Dashboard | AdminLogin | Home

  /** The two booking lists the component holds. */
  datatype ListKind = PendingList | AllList

  /** The three actions on a booking. */
  datatype Action = Approve | Reject | MarkUsed

  /** A failed request: the HTTP status if a response arrived, and the `error` field of its body. */
  datatype HttpError = HttpError(status: Option<int>, errorText: Option<string>)

  /** The outcome of `GET /bookings/pending` or `GET /bookings`. */
  datatype FetchResponse = Fetched(bookings: seq<Booking>) | FetchFailed(error: HttpError)

  /** The outcome of one of the action POSTs. */
  datatype ActionResponse = Done(message: string) | ActionFailed(error: HttpError)

  /** A request the component sends, by path relative to the configured API base URL. */
  datatype Request = Get(path: string) | Post(path: string)

  datatype PanelState = PanelState(
    pendingBookings: seq<Booking>,
    allBookings: seq<Booking>,
    loading: bool,
    message: string,
    view: View,
    searchQuery: string,
    tokenPresent: bool,
    route: Route)

  const FetchFallback := "Failed to fetch bookings"

  // ---------------------------------------------------------------------------
  // Requests
  // ---------------------------------------------------------------------------

  function FetchPath(kind: ListKind): string {
    match kind
    case PendingList => "/bookings/pending"
    case AllList => "/bookings"
  }

  function ActionPrefix(a: Action): string {
    match a
    case Approve => "/bookings/approve/"
    case Reject => "/bookings/reject/"
    case MarkUsed => "/bookings/mark-used/"
  }

  /** The endpoint of an action on one booking, keyed by its booking ID. */
  function ActionPath(a: Action, bookingId: string): (path: string)
    ensures |ActionPrefix(a)| <= |path| && path[..|ActionPrefix(a)|] == ActionPrefix(a)
    ensures path[|ActionPrefix(a)|..] == bookingId
  {
    ActionPrefix(a) + bookingId
  }

  /** Different actions, or the same action on different bookings, use different endpoints. */
  lemma ActionPathInjective(a: Action, id: string, b: Action, id': string)
    requires ActionPath(a, id) == ActionPath(b, id')
    ensures a == b && id == id'
  {
    var p := ActionPath(a, id);
    assert p[10] == ActionPrefix(a)[10] && p[10] == ActionPrefix(b)[10];
  }

  // ---------------------------------------------------------------------------
  // Messages
  // ---------------------------------------------------------------------------

  /** `error.response?.data?.error || fallback` */
  function ErrorText(error: HttpError, fallback: string): (text: string)
    ensures Present(error.errorText) ==> text == error.errorText.value
    ensures !Present(error.errorText) ==> text == fallback
    ensures fallback != "" ==> text != ""
  {
    if Present(error.errorText) then error.errorText.value else fallback
  }

  function ErrorMessage(error: HttpError, fallback: string): (message: string)
    ensures message == "\U{274C} Error: " + ErrorText(error, fallback)
    ensures IsErrorStyled(message)
  {
    ContainsChar("\U{274C} Error: " + ErrorText(error, fallback), '\U{274C}');
    "\U{274C} Error: " + ErrorText(error, fallback)
  }

  function SuccessMessage(serverMessage: string): (message: string)
    ensures IsErrorStyled(message) <==> '\U{274C}' in serverMessage
  {
    var message := "\U{2705} " + serverMessage;
    ContainsChar(message, '\U{274C}');
    assert message == ['\U{2705}', ' '] + serverMessage;
    message
  }

  /** The banner uses the error style when the message contains the cross mark. */
  predicate IsErrorStyled(message: string) {
    Contains(message, "\U{274C}")
  }

  function ActionFallback(a: Action): string {
    match a
    case Approve => "Failed to approve booking"
    case Reject => "Failed to reject booking"
    case MarkUsed => "Failed to mark ticket as used"
  }

  /** A 401 or 403 response, after which the token is dropped. */
  predicate IsAuthFailure(error: HttpError) {
    error.status == Some(401) || error.status == Some(403)
  }

  /** The list an action refreshes once it succeeds. */
  function Refreshes(a: Action): ListKind {
    if a == MarkUsed then AllList else PendingList
  }

  function ListOf(v: View): ListKind {
    if v == PendingView then PendingList else AllList
  }

  function ListIn(s: PanelState, kind: ListKind): seq<Booking> {
    if kind == PendingList then s.pendingBookings else s.allBookings
  }

  /** The bookings on screen: the current view's list through the search filter. */
  function Shown(s: PanelState): seq<Booking> {
    FilterBookings(ListIn(s, ListOf(s.view)), s.searchQuery)
  }

  // ---------------------------------------------------------------------------
  // State transitions
  // ---------------------------------------------------------------------------

  /** The state the component starts in, with or without a stored token. */
  function Initial(tokenStored: bool): PanelState {
    PanelState([], [], false, "", PendingView, "", tokenStored, Dashboard)
  }

  /** The first two setter calls of every request: loading on, message cleared. */
  function StartRequest(s: PanelState): (t: PanelState)
    ensures t.loading && t.message == ""
    ensures t.(loading := s.loading, message := s.message) == s
  {
    s.(loading := true, message := "")
  }

  /** What a fetcher does once its GET settles, up to and including its `finally`. */
  function FinishFetch(s: PanelState, kind: ListKind, response: FetchResponse): (t: PanelState)
    ensures !t.loading
    ensures t.view == s.view && t.searchQuery == s.searchQuery
  {
    match response
    case Fetched(bookings) =>
      (if kind == PendingList then s.(pendingBookings := bookings) else s.(allBookings := bookings))
        .(loading := false)
    case FetchFailed(error) =>
      var t := s.(message := ErrorMessage(error, FetchFallback), loading := false);
      if IsAuthFailure(error) then t.(tokenPresent := false, route := AdminLogin) else t
  }

  /** `fetchPendingBookings()` / `fetchAllBookings()` as one step: a success replaces exactly
      the fetched list; a failure keeps both lists and reports the error, and only a 401 or
      403 drops the token and goes to the login page. */
  function AfterFetch(s: PanelState, kind: ListKind, response: FetchResponse): (t: PanelState)
    ensures !t.loading
    ensures t.view == s.view && t.searchQuery == s.searchQuery
    ensures response.Fetched? ==>
      && ListIn(t, kind) == response.bookings
      && ListIn(t, Other(kind)) == ListIn(s, Other(kind))
      && t.message == ""
      && t.tokenPresent == s.tokenPresent && t.route == s.route
    ensures response.FetchFailed? ==>
      && t.pendingBookings == s.pendingBookings && t.allBookings == s.allBookings
      && t.message == ErrorMessage(response.error, FetchFallback)
      && t.tokenPresent == (s.tokenPresent && !IsAuthFailure(response.error))
      && t.route == (if IsAuthFailure(response.error) then AdminLogin else s.route)
  {
    FinishFetch(StartRequest(s), kind, response)
  }

  function Other(kind: ListKind): ListKind {
    if kind == PendingList then AllList else PendingList
  }

  /** An action handler at the moment its `finally` has run. On success the handler has set the
      success message and then called the refetch, whose own first setters switch loading on
      and clear the message before it waits for its GET; the `finally` then switches loading off. */
  function ActionSettled(s: PanelState, a: Action, response: ActionResponse): (t: PanelState)
    ensures !t.loading
    ensures t.pendingBookings == s.pendingBookings && t.allBookings == s.allBookings
    ensures t.tokenPresent == s.tokenPresent && t.route == s.route
    ensures response.ActionFailed? ==> t.message == ErrorMessage(response.error, ActionFallback(a))
  {
    var started := StartRequest(s);
    match response
    case Done(serverMessage) =>
      StartRequest(started.(message := SuccessMessage(serverMessage))).(loading := false)
    case ActionFailed(error) =>
      started.(message := ErrorMessage(error, ActionFallback(a))).(loading := false)
  }

  /** `handleApprove` / `handleReject` / `handleMarkAsUsed` as one step, given the answer to the
      confirmation dialog, the POST's outcome and, after a success, the outcome of the refetch. */
  function AfterAction(s: PanelState, a: Action, confirmed: bool, response: ActionResponse,
                       refetch: FetchResponse): (t: PanelState)
    ensures !confirmed ==> t == s
    ensures confirmed ==> !t.loading
    ensures t.view == s.view && t.searchQuery == s.searchQuery
    ensures confirmed && response.ActionFailed? ==>
      && t.pendingBookings == s.pendingBookings && t.allBookings == s.allBookings
      && t.message == ErrorMessage(response.error, ActionFallback(a))
      && t.tokenPresent == s.tokenPresent && t.route == s.route
    ensures confirmed && response.Done? && refetch.Fetched? ==>
      && ListIn(t, Refreshes(a)) == refetch.bookings
      && ListIn(t, Other(Refreshes(a))) == ListIn(s, Other(Refreshes(a)))
      && t.message == ""
      && t.tokenPresent == s.tokenPresent && t.route == s.route
    ensures confirmed && response.Done? && refetch.FetchFailed? ==>
      && t.pendingBookings == s.pendingBookings && t.allBookings == s.allBookings
      && t.message == ErrorMessage(refetch.error, FetchFallback)
      && t.tokenPresent == (s.tokenPresent && !IsAuthFailure(refetch.error))
      && t.route == (if IsAuthFailure(refetch.error) then AdminLogin else s.route)
  {
    if !confirmed then s
    else if response.ActionFailed? then ActionSettled(s, a, response)
    else FinishFetch(ActionSettled(s, a, response), Refreshes(a), refetch)
  }

  /** The effect that runs on mount and whenever the view changes: without a token go to the
      login page, otherwise fetch the list of the current view. */
  function AfterViewEffect(s: PanelState, response: FetchResponse): (t: PanelState)
    ensures !s.tokenPresent ==> t == s.(route := AdminLogin)
    ensures s.tokenPresent ==> t == AfterFetch(s, ListOf(s.view), response)
  {
    if !s.tokenPresent then s.(route := AdminLogin) else AfterFetch(s, ListOf(s.view), response)
  }

  /** A click on one of the two view buttons; selecting the current view again runs nothing. */
  function AfterSelectView(s: PanelState, v: View, response: FetchResponse): (t: PanelState)
    ensures t.view == v
    ensures v == s.view ==> t == s
    ensures v != s.view ==> t == AfterViewEffect(s.(view := v), response)
  {
    if v == s.view then s else AfterViewEffect(s.(view := v), response)
  }

  // ---------------------------------------------------------------------------
  // Lemmas
  // ---------------------------------------------------------------------------

  /** Receiving the same list answer twice is the same as receiving it once. */
  lemma AfterFetchIdempotent(s: PanelState, kind: ListKind, response: FetchResponse)
    ensures AfterFetch(AfterFetch(s, kind, response), kind, response) == AfterFetch(s, kind, response)
  {
  }

  /** A failed fetch or failed action changes nothing on screen but the message. */
  lemma FailureKeepsShownBookings(s: PanelState, kind: ListKind, error: HttpError, a: Action,
                                  refetch: FetchResponse)
    ensures Shown(AfterFetch(s, kind, FetchFailed(error))) == Shown(s)
    ensures Shown(AfterAction(s, a, true, ActionFailed(error), refetch)) == Shown(s)
  {
  }

  /** Only a failed fetch answered with 401 or 403 removes the token; a failed action never does. */
  lemma TokenRemovedOnlyByAuthFailure(s: PanelState, a: Action, confirmed: bool,
                                      response: ActionResponse, refetch: FetchResponse)
    requires s.tokenPresent
    requires !AfterAction(s, a, confirmed, response, refetch).tokenPresent
    ensures confirmed && response.Done? && refetch.FetchFailed? && IsAuthFailure(refetch.error)
  {
  }

  /** As written, a successful action never leaves its success message on screen: the refetch
      it triggers clears the message before its own request is sent, and a successful refetch
      leaves it cleared. */
  lemma SuccessMessageLost(s: PanelState, a: Action, serverMessage: string, bookings: seq<Booking>)
    ensures ActionSettled(s, a, Done(serverMessage)).message == ""
    ensures AfterAction(s, a, true, Done(serverMessage), Fetched(bookings)).message == ""
    ensures AfterAction(s, a, true, Done(serverMessage), Fetched(bookings)).message !=
            SuccessMessage(serverMessage)
  {
  }

  /** The evidently intended handler: the refresh after a success switches loading on but keeps
      the success message, which only a failing refresh replaces by its error. */
  function AfterActionIntended(s: PanelState, a: Action, confirmed: bool, response: ActionResponse,
                               refetch: FetchResponse): (t: PanelState)
    ensures confirmed && response.Done? && refetch.Fetched? ==>
      t.message == SuccessMessage(response.message)
  {
    if !confirmed then s
    else
      match response
      case ActionFailed(error) =>
        StartRequest(s).(message := ErrorMessage(error, ActionFallback(a))).(loading := false)
      case Done(serverMessage) =>
        FinishFetch(StartRequest(s).(message := SuccessMessage(serverMessage)), Refreshes(a), refetch)
  }

  /** The intended handler shows the success message, and it differs from the handler as
      written in nothing but the message. */
  lemma IntendedActionShowsSuccess(s: PanelState, a: Action, confirmed: bool,
                                   response: ActionResponse, refetch: FetchResponse)
    ensures confirmed && response.Done? && refetch.Fetched? ==>
      && AfterActionIntended(s, a, confirmed, response, refetch).message == SuccessMessage(response.message)
      && (IsErrorStyled(AfterActionIntended(s, a, confirmed, response, refetch).message) <==>
          '\U{274C}' in response.message)
    ensures AfterActionIntended(s, a, confirmed, response, refetch).(message := "") ==
            AfterAction(s, a, confirmed, response, refetch).(message := "")
  {
  }

  // ---------------------------------------------------------------------------
  // The component
  // ---------------------------------------------------------------------------

  /** The `AdminPanel` component: its state hooks as fields, its handlers as methods that update
      them in the order the source calls the setters. */
  class AdminPanel {
    var pendingBookings: seq<Booking>
    var allBookings: seq<Booking>
    var loading: bool
    var message: string
    var view: View
    var searchQuery: string
    var tokenPresent: bool
    var route: Route

    function State(): PanelState
      reads this
    {
      PanelState(pendingBookings, allBookings, loading, message, view, searchQuery, tokenPresent, route)
    }

    /** `filteredPendingBookings`: the pending list through the search filter, which is the list
        on screen in the pending view. */
    function FilteredPendingBookings(): (shown: seq<Booking>)
      reads this
      ensures IsBlank(searchQuery) ==> shown == pendingBookings
      ensures !IsBlank(searchQuery) ==>
        forall b :: b in shown <==> b in pendingBookings && Matches(b, NormalizeQuery(searchQuery))
      ensures IsSubsequence(shown, pendingBookings)
      ensures forall b :: multiset(shown)[b] ==
                            if IsBlank(searchQuery) || Matches(b, NormalizeQuery(searchQuery))
                            then multiset(pendingBookings)[b] else 0
      ensures view == PendingView ==> shown == Shown(State())
    {
      FilterBookingsOrderAndCounts(pendingBookings, searchQuery);
      FilterBookings(ListIn(State(), PendingList), searchQuery)
    }

    /** `filteredAllBookings`: the full list through the search filter, which is the list on
        screen in the "all" view. */
    function FilteredAllBookings(): (shown: seq<Booking>)
      reads this
      ensures IsBlank(searchQuery) ==> shown == allBookings
      ensures !IsBlank(searchQuery) ==>
        forall b :: b in shown <==> b in allBookings && Matches(b, NormalizeQuery(searchQuery))
      ensures IsSubsequence(shown, allBookings)
      ensures forall b :: multiset(shown)[b] ==
                            if IsBlank(searchQuery) || Matches(b, NormalizeQuery(searchQuery))
                            then multiset(allBookings)[b] else 0
      ensures view == AllView ==> shown == Shown(State())
    {
      FilterBookingsOrderAndCounts(allBookings, searchQuery);
      FilterBookings(ListIn(State(), AllList), searchQuery)
    }

    constructor (tokenStored: bool)
      ensures State() == Initial(tokenStored)
    {
      pendingBookings, allBookings := [], [];
      loading, message := false, "";
      view, searchQuery := PendingView, "";
      tokenPresent, route := tokenStored, Dashboard;
    }

    method BeginRequest()
      modifies this
      ensures State() == StartRequest(old(State()))
    {
      loading := true;
      message := "";
    }

    method ReceiveBookings(kind: ListKind, response: FetchResponse)
      modifies this
      ensures State() == FinishFetch(old(State()), kind, response)
    {
      match response {
        case Fetched(bookings) =>
          if kind == PendingList {
            pendingBookings := bookings;
          } else {
            allBookings := bookings;
          }
        case FetchFailed(error) =>
          message := ErrorMessage(error, FetchFallback);
          if IsAuthFailure(error) {
            tokenPresent := false;
            route := AdminLogin;
          }
      }
      loading := false;
    }

    method FetchBookings(kind: ListKind, response: FetchResponse) returns (request: Request)
      modifies this
      ensures request == Get(FetchPath(kind))
      ensures State() == AfterFetch(old(State()), kind, response)
    {
      BeginRequest();
      request := Get(FetchPath(kind));
      ReceiveBookings(kind, response);
    }

    /** `fetchPendingBookings()` */
    method FetchPendingBookings(response: FetchResponse) returns (request: Request)
      modifies this
      ensures request == Get("/bookings/pending")
      ensures State() == AfterFetch(old(State()), PendingList, response)
    {
      request := FetchBookings(PendingList, response);
    }

    /** `fetchAllBookings()` */
    method FetchAllBookings(response: FetchResponse) returns (request: Request)
      modifies this
      ensures request == Get("/bookings")
      ensures State() == AfterFetch(old(State()), AllList, response)
    {
      request := FetchBookings(AllList, response);
    }

    /** The body shared by the three action handlers. It returns the requests the handler sends:
        none when the dialog is declined, the POST, and after a successful POST the GET of the
        list it refreshes. */
    method Act(a: Action, bookingId: string, confirmed: bool, response: ActionResponse,
               refetch: FetchResponse) returns (requests: seq<Request>)
      modifies this
      ensures !confirmed ==> requests == []
      ensures confirmed && response.ActionFailed? ==> requests == [Post(ActionPath(a, bookingId))]
      ensures confirmed && response.Done? ==>
        requests == [Post(ActionPath(a, bookingId)), Get(FetchPath(Refreshes(a)))]
      ensures State() == AfterAction(old(State()), a, confirmed, response, refetch)
    {
      if !confirmed {
        return [];
      }
      BeginRequest();
      requests := [Post(ActionPath(a, bookingId))];
      match response
      case Done(serverMessage) =>
        message := SuccessMessage(serverMessage);
        BeginRequest();
        requests := requests + [Get(FetchPath(Refreshes(a)))];
        loading := false;
        ReceiveBookings(Refreshes(a), refetch);
      case ActionFailed(error) =>
        message := ErrorMessage(error, ActionFallback(a));
        loading := false;
    }

    /** `handleApprove(bookingId)` */
    method HandleApprove(bookingId: string, confirmed: bool, response: ActionResponse,
                         refetch: FetchResponse) returns (requests: seq<Request>)
      modifies this
      ensures !confirmed ==> requests == []
      ensures confirmed && response.ActionFailed? ==> requests == [Post("/bookings/approve/" + bookingId)]
      ensures confirmed && response.Done? ==>
        requests == [Post("/bookings/approve/" + bookingId), Get("/bookings/pending")]
      ensures State() == AfterAction(old(State()), Approve, confirmed, response, refetch)
    {
      requests := Act(Approve, bookingId, confirmed, response, refetch);
    }

    /** `handleReject(bookingId)` */
    method HandleReject(bookingId: string, confirmed: bool, response: ActionResponse,
                        refetch: FetchResponse) returns (requests: seq<Request>)
      modifies this
      ensures !confirmed ==> requests == []
      ensures confirmed && response.ActionFailed? ==> requests == [Post("/bookings/reject/" + bookingId)]
      ensures confirmed && response.Done? ==>
        requests == [Post("/bookings/reject/" + bookingId), Get("/bookings/pending")]
      ensures State() == AfterAction(old(State()), Reject, confirmed, response, refetch)
    {
      requests := Act(Reject, bookingId, confirmed, response, refetch);
    }

    /** `handleMarkAsUsed(bookingId)` */
    method HandleMarkAsUsed(bookingId: string, confirmed: bool, response: ActionResponse,
                            refetch: FetchResponse) returns (requests: seq<Request>)
      modifies this
      ensures !confirmed ==> requests == []
      ensures confirmed && response.ActionFailed? ==> requests == [Post("/bookings/mark-used/" + bookingId)]
      ensures confirmed && response.Done? ==>
        requests == [Post("/bookings/mark-used/" + bookingId), Get("/bookings")]
      ensures State() == AfterAction(old(State()), MarkUsed, confirmed, response, refetch)
    {
      requests := Act(MarkUsed, bookingId, confirmed, response, refetch);
    }

    /** The effect on `[view]`: run on mount and after every change of view. */
    method ViewEffect(response: FetchResponse) returns (request: Option<Request>)
      modifies this
      ensures request == if old(tokenPresent) then Some(Get(FetchPath(ListOf(old(view))))) else None
      ensures State() == AfterViewEffect(old(State()), response)
    {
      if !tokenPresent {
        route := AdminLogin;
        return None;
      }
      var sent := FetchBookings(ListOf(view), response);
      request := Some(sent);
    }

    /** The "Pending" and "All" buttons. */
    method SelectView(v: View, response: FetchResponse) returns (request: Option<Request>)
      modifies this
      ensures v == old(view) ==> request == None
      ensures v != old(view) ==>
        request == if old(tokenPresent) then Some(Get(FetchPath(ListOf(v)))) else None
      ensures State() == AfterSelectView(old(State()), v, response)
    {
      if v == view {
        return None;
      }
      view := v;
      request := ViewEffect(response);
    }

    /** The "Logout" button. */
    method Logout()
      modifies this
      ensures State() == old(State()).(tokenPresent := false, route := Home)
    {
      tokenPresent := false;
      route := Home;
    }

    /** Typing into the search box; the clear button sets it to the empty string. */
    method SetSearchQuery(text: string)
      modifies this
      ensures State() == old(State()).(searchQuery := text)
    {
      searchQuery := text;
    }
  }
}
