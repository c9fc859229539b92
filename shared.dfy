/** Identifiers, the exchange status vocabulary, stored chat messages and the
    arithmetic mean used by both the rating route and the profile route. */
module Shared {

  /** User ids arrive as strings; the empty string stands for a missing (falsy) value. */
  type UserId = string
  type ExchangeId = nat
  type MessageId = nat

  datatype Option<T> = None | Some(value: T)

  datatype Result<T, E> = Ok(value: T) | Err(error: E)

  /** The five statuses the status route accepts. */
  datatype Status = Pending | Accepted | InProgress | Completed | Cancelled

  /** The wire spelling of each status. */
  function StatusName(st: Status): string
  {
    match st
    case Pending => "Pending"
    case Accepted => "Accepted"
    case InProgress => "In Progress"
    case Completed => "Completed"
    case Cancelled => "Cancelled"
  }

  /** `validStatuses.includes(status)`: a text is a status exactly when it is one of the five names. */
  function ParseStatus(text: string): (r: Option<Status>)
    ensures r.Some? ==> StatusName(r.value) == text
    ensures r.None? <==> forall st: Status :: StatusName(st) != text
  {
    if text == "Pending" then Some(Pending)
    else if text == "Accepted" then Some(Accepted)
    else if text == "In Progress" then Some(InProgress)
    else if text == "Completed" then Some(Completed)
    else if text == "Cancelled" then Some(Cancelled)
    else None
  }

  lemma ParseStatusName(st: Status)
    ensures ParseStatus(StatusName(st)) == Some(st)
  {
  }

  /** A row of the messages table. */
  datatype Message = Message(id: MessageId, exchangeId: ExchangeId, senderId: UserId,
                             content: string, messageType: string)

  /** `messageType || 'text'` */
  function MessageTypeOrDefault(t: string): (r: string)
    ensures r != ""
    ensures t != "" ==> r == t
  {
    if t == "" then "text" else t
  }

  /** The sequence back to front; the newest-first order of the database's listings. */
  function Reverse<T>(s: seq<T>): (r: seq<T>)
    ensures |r| == |s|
    ensures forall i :: 0 <= i < |s| ==> r[i] == s[|s| - 1 - i]
  {
    if s == [] then [] else Reverse(s[1..]) + [s[0]]
  }

  /** `xs.reduce((sum, x) => sum + x, 0)` */
  function Sum(xs: seq<real>): real
  {
    if xs == [] then 0.0 else Sum(xs[..|xs| - 1]) + xs[|xs| - 1]
  }

  function Mean(xs: seq<real>): real
    requires |xs| > 0
  {
    Sum(xs) / |xs| as real
  }

  lemma {:induction false} SumBounds(xs: seq<real>, lo: real, hi: real)
    requires forall i :: 0 <= i < |xs| ==> lo <= xs[i] <= hi
    ensures lo * |xs| as real <= Sum(xs) <= hi * |xs| as real
  {
    if xs != [] {
      var n := |xs| - 1;
      SumBounds(xs[..n], lo, hi);
      assert lo <= xs[n] <= hi;
      assert lo * (n + 1) as real == lo * n as real + lo;
      assert hi * (n + 1) as real == hi * n as real + hi;
    }
  }

  /** The mean of scores that all lie in [lo, hi] lies in [lo, hi]. */
  lemma MeanBounds(xs: seq<real>, lo: real, hi: real)
    requires |xs| > 0
    requires forall i :: 0 <= i < |xs| ==> lo <= xs[i] <= hi
    ensures lo <= Mean(xs) <= hi
  {
    SumBounds(xs, lo, hi);
    var n := |xs| as real;
    assert Mean(xs) * n == Sum(xs);
  }
}
