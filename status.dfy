/**
 * The status badge of a booking card: `getStatusColor` and `getStatusText`.
 * Both are total over the raw status text: the five statuses the backend
 * assigns get fixed entries, anything else falls back to grey and to the
 * status text in capitals.
 */
module StatusDisplay {
  import opened Wrappers
  import opened Text

  /** The statuses the backend assigns to a booking. */
  datatype Status = Confirmed | PendingPayment | Rejected | Cancelled | Used

  /** The text the backend uses for each status. */
  function StatusName(st: Status): string {
    match st
    case Confirmed => "confirmed"
    case PendingPayment => "pending_payment"
    case Rejected => "rejected"
    case Cancelled => "cancelled"
    case Used => "used"
  }

  /** Recognises a raw status text; `None` for anything the backend does not assign. */
  function ParseStatus(status: string): (st: Option<Status>)
    ensures st.Some? ==> StatusName(st.value) == status
    ensures st.None? ==> forall k: Status :: StatusName(k) != status
  {
    match status
    case "confirmed" => Some(Confirmed)
    case "pending_payment" => Some(PendingPayment)
    case "rejected" => Some(Rejected)
    case "cancelled" => Some(Cancelled)
    case "used" => Some(Used)
    case _ => None
  }

  const Green := "#28a745"
  const Amber := "#ffc107"
  const Red := "#dc3545"
  const Grey := "#6c757d"
  const Teal := "#17a2b8"

  /** The badge colour of each known status. */
  function Color(st: Status): string {
    match st
    case Confirmed => Green
    case PendingPayment => Amber
    case Rejected => Red
    case Cancelled => Grey
    case Used => Teal
  }

  /** The badge caption of each known status. */
  function Caption(st: Status): string {
    match st
    case Confirmed => "\U{2705} CONFIRMED"
    case PendingPayment => "\U{23F3} PENDING"
    case Rejected => "\U{274C} REJECTED"
    case Cancelled => "\U{1F6AB} CANCELLED"
    case Used => "\U{1F39F}\U{FE0F} USED"
  }

  /** `getStatusColor(status)`: the colour of a known status, grey for anything else,
      so that a cancelled booking and an unrecognised one look the same. */
  function StatusColor(status: string): (color: string)
    ensures color in {Green, Amber, Red, Grey, Teal}
    ensures color == Grey <==> ParseStatus(status) in {None, Some(Cancelled)}
  {
    match ParseStatus(status)
    case Some(st) => Color(st)
    case None => Grey
  }

  /** `getStatusText(status)`: the caption of a known status; anything else in capitals. */
  function StatusText(status: string): (caption: string)
    ensures ParseStatus(status).None? ==> caption == ToUpper(status)
    ensures ParseStatus(status).Some? ==> caption == Caption(ParseStatus(status).value)
    ensures ParseStatus(status).Some? ==> caption != ToUpper(status)
  {
    match ParseStatus(status)
    case Some(st) => Caption(st)
    case None => ToUpper(status)
  }

  // ---------------------------------------------------------------------------
  // Lemmas
  // ---------------------------------------------------------------------------

  /** Naming a status and recognising the name gives the status back. */
  lemma ParseStatusName(st: Status)
    ensures ParseStatus(StatusName(st)) == Some(st)
  {
  }

  /** Each of the five known statuses gets its own entry of the colour and caption tables. */
  lemma KnownStatusTable(st: Status)
    ensures StatusColor(StatusName(st)) == Color(st)
    ensures StatusText(StatusName(st)) == Caption(st)
  {
    ParseStatusName(st);
  }

  /** Apart from grey, a badge colour names exactly one status. */
  lemma ColorIdentifiesStatus(s: string, t: string)
    requires StatusColor(s) == StatusColor(t) != Grey
    ensures s == t && ParseStatus(s).Some?
  {
  }

  /** The five known statuses have five different labels. */
  lemma KnownLabelsDistinct(a: Status, b: Status)
    requires StatusText(StatusName(a)) == StatusText(StatusName(b))
    ensures a == b
  {
    ParseStatusName(a);
    ParseStatusName(b);
    assert Caption(a)[0] == Caption(b)[0];
  }

  /** The fallback label has the status's length and no lower-case ASCII letter. */
  lemma FallbackLabel(status: string)
    requires ParseStatus(status).None?
    ensures |StatusText(status)| == |status|
    ensures forall i | 0 <= i < |status| :: !IsLower(StatusText(status)[i])
  {
  }

  /** The label alone does not identify a status: an unrecognised status that spells a known
      caption in lower case is displayed exactly like that known status. */
  lemma LabelDoesNotIdentifyStatus()
    ensures exists s :: ParseStatus(s).None? && StatusText(s) == StatusText(StatusName(Used))
  {
    var s := "\U{1F39F}\U{FE0F} used";
    assert |s| == 7;
    assert ParseStatus(s).None?;
    var upper := ToUpper(s);
    assert upper[0] == '\U{1F39F}' && upper[1] == '\U{FE0F}' && upper[2] == ' ';
    assert upper[3] == 'U' && upper[4] == 'S' && upper[5] == 'E' && upper[6] == 'D';
    var caption := Caption(Used);
    assert |caption| == 7;
    assert caption[0] == '\U{1F39F}' && caption[1] == '\U{FE0F}' && caption[2] == ' ';
    assert caption[3] == 'U' && caption[4] == 'S' && caption[5] == 'E' && caption[6] == 'D';
    assert upper == caption;
    ParseStatusName(Used);
  }
}
