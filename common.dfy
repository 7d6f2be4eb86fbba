/** Small value types shared by every component of the dashboard. */
module Common {

  /** A value that may be absent: an optional record field, a `find` miss, a missing argument. */
  datatype Option<+T> = None | Some(value: T)

  /** A numeric form field: the text typed by the user and what the browser's
      number parser makes of it (`None` stands for NaN). */
  datatype NumInput<+N> = NumInput(text: string, parsed: Option<N>)

  /** `Number.parseInt(text) || 0`: NaN becomes 0, every other number is kept. */
  function IntOrZero(n: NumInput<int>): (v: int)
    ensures n.parsed.None? ==> v == 0
    ensures n.parsed.Some? ==> v == n.parsed.value
  {
    match n.parsed
    case None => 0
    case Some(x) => x
  }

  /** `Number.parseFloat(text) || 0` on a field that holds fractional values. */
  function RealOrZero(n: NumInput<real>): (v: real)
    ensures n.parsed.None? ==> v == 0.0
    ensures n.parsed.Some? ==> v == n.parsed.value
  {
    match n.parsed
    case None => 0.0
    case Some(x) => x
  }

  /** A date-time string as stored in a record, with what `new Date(text).getTime()`
      makes of it: epoch milliseconds, or `None` for an invalid date (NaN). */
  datatype Stamp = Stamp(text: string, ms: Option<int>)

  /** The badge a detail view puts on a certificate or licence date. */
  datatype ExpiryLabel = Expired | ExpiringSoon | Valid

  /** The status dropdown of every list view: "all" or one status value. */
  datatype Choice<S> = All | Only(status: S)

  /** `statusFilter === "all" || record.status === statusFilter` */
  predicate Admits<S(==)>(c: Choice<S>, s: S)
  {
    c.All? || c.status == s
  }

  // The four staff roles of the login route; any other string is an unlisted role.
  const Admin: string := "admin"
  const Operations: string := "operations"
  const Accounts: string := "accounts"
  const Transport: string := "transport"

  /** `userRole === "admin" || userRole === "operations"` */
  predicate AdminOrOperations(role: string)
  {
    role == Admin || role == Operations
  }

  /** `userRole === "admin" || userRole === "accounts"` */
  predicate AdminOrAccounts(role: string)
  {
    role == Admin || role == Accounts
  }
}
