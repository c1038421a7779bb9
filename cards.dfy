/**
 * What each booking card shows, as decided by the booking's status and fields:
 * the card grid of the pending view and the card list of the "all" view.
 * Only the parts that depend on data are modelled; layout and styles are not.
 */
module Cards {
  import opened Wrappers
  import opened Bookings
  import opened StatusDisplay

  /** An action button: the booking ID its click handler passes on, and whether it is enabled
      (every action button is disabled while a request is loading). */
  datatype Button = Button(bookingId: string, enabled: bool)

  /** A card of the pending view. */
  datatype PendingCard = PendingCard(
    badgeColor: string,
    badgeCaption: string,
    approve: Button,
    reject: Button)

  /** A card of the "all" view. */
  datatype AllCard = AllCard(
    dimmed: bool,                // the faded "used" card style
    badgeColor: string,
    badgeCaption: string,
    ticketIdRow: Option<string>, // the "Ticket ID" row and the ID it displays
    usedAtRow: Option<string>,   // the "Used At Venue" row and the timestamp it formats
    markUsed: Option<Button>,    // the "Mark as Used at Venue" action
    usedBanner: bool)            // the "ticket used at venue" banner

  /** A pending-view card: the badge caption is always the pending caption, whatever the
      status, while its colour follows the status; both buttons act on this booking. */
  function RenderPendingCard(b: Booking, loading: bool): (card: PendingCard)
    ensures card.badgeCaption == Caption(PendingPayment)
    ensures card.badgeColor == StatusColor(b.status)
    ensures card.approve == card.reject == Button(b.bookingId, !loading)
    ensures ParseStatus(b.status) == Some(PendingPayment) ==>
      card.badgeCaption == StatusText(b.status) && card.badgeColor == Amber
  {
    ParseStatusName(PendingPayment);
    PendingCard(StatusColor(b.status), Caption(PendingPayment),
                Button(b.bookingId, !loading), Button(b.bookingId, !loading))
  }

  /** An "all"-view card. The mark-used action appears only on a confirmed booking and the
      used banner only on a used one, so no card has both; the used-at row needs the banner's
      status and a timestamp; the banner goes with the teal badge and the faded style. */
  function RenderAllCard(b: Booking, loading: bool): (card: AllCard)
    ensures card.markUsed.Some? <==> ParseStatus(b.status) == Some(Confirmed)
    ensures card.usedBanner <==> ParseStatus(b.status) == Some(Used)
    ensures !(card.markUsed.Some? && card.usedBanner)
    ensures card.markUsed.Some? ==>
      card.markUsed.value == Button(b.bookingId, !loading) &&
      card.badgeColor == Green && card.badgeCaption == Caption(Confirmed)
    ensures card.usedBanner <==> card.badgeColor == Teal
    ensures card.dimmed == card.usedBanner
    ensures card.usedAtRow.Some? <==> card.usedBanner && Present(b.usedAt)
    ensures card.usedAtRow.Some? ==> Some(card.usedAtRow.value) == b.usedAt
    ensures card.ticketIdRow.Some? <==> Present(b.ticketId)
    ensures card.ticketIdRow.Some? ==> Some(card.ticketIdRow.value) == b.ticketId
  {
    ParseStatusName(Confirmed);
    ParseStatusName(Used);
    var used := b.status == "used";
    AllCard(
      dimmed := used,
      badgeColor := StatusColor(b.status),
      badgeCaption := StatusText(b.status),
      ticketIdRow := if Present(b.ticketId) then b.ticketId else None,
      usedAtRow := if used && Present(b.usedAt) then b.usedAt else None,
      markUsed := if b.status == "confirmed" then Some(Button(b.bookingId, !loading)) else None,
      usedBanner := used)
  }

  /** The cards of the "all" view, one per shown booking, in order. */
  function RenderAllCards(shown: seq<Booking>, loading: bool): (cards: seq<AllCard>)
    ensures |cards| == |shown|
    ensures forall k | 0 <= k < |shown| :: cards[k] == RenderAllCard(shown[k], loading)
  {
    if shown == [] then [] else [RenderAllCard(shown[0], loading)] + RenderAllCards(shown[1..], loading)
  }

  /** Every mark-used button in the "all" view acts on a confirmed booking of the list, and
      while a request is loading none of them is enabled. */
  lemma MarkUsedTargetsConfirmed(shown: seq<Booking>, loading: bool, k: nat)
    requires k < |shown|
    requires RenderAllCards(shown, loading)[k].markUsed.Some?
    ensures shown[k].status == "confirmed"
    ensures RenderAllCards(shown, loading)[k].markUsed.value.bookingId == shown[k].bookingId
    ensures loading ==> !RenderAllCards(shown, loading)[k].markUsed.value.enabled
  {
  }
}
