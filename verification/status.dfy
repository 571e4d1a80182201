/**
 * Order status values. Orders carry their status as a bare string; the server
 * accepts exactly five of them, which this module names as an enumeration.
 */
module OrderStatus {
  import opened Common

  /** The five statuses an order can be given. */
  datatype Status = Pending | Confirmed | InProgress | Completed | Cancelled

  /** The wire spelling of each status. */
  function Name(s: Status): string
  {
    match s
    case Pending => "pending"
    case Confirmed => "confirmed"
    case InProgress => "in_progress"
    case Completed => "completed"
    case Cancelled => "cancelled"
  }

  /** The values the status-update route accepts, in the order the server lists them. */
  const Accepted: seq<string> := ["pending", "confirmed", "in_progress", "completed", "cancelled"]

  /** Reads a wire string back as a status; anything else is rejected. */
  function Parse(t: string): (r: Option<Status>)
    ensures r.Some? <==> t in Accepted
    ensures r.Some? ==> Name(r.value) == t
  {
    if t == "pending" then Some(Pending)
    else if t == "confirmed" then Some(Confirmed)
    else if t == "in_progress" then Some(InProgress)
    else if t == "completed" then Some(Completed)
    else if t == "cancelled" then Some(Cancelled)
    else None
  }

  /** Every status survives a round trip through its wire spelling. */
  lemma ParseName(s: Status)
    ensures Parse(Name(s)) == Some(s)
  {
  }

  /** Distinct statuses have distinct spellings. */
  lemma NameInjective(a: Status, b: Status)
    requires Name(a) == Name(b)
    ensures a == b
  {
    ParseName(a);
    ParseName(b);
  }
}
