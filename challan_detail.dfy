/** The challan detail dialog (`ChallanDetailView`): the delay in hours, the late or
    on-time label, and the forward-only status buttons. */
module ChallanDetail {
  import opened Common
  import opened Seqs
  import opened ChallanManagement

  const HourMs: int := 1000 * 60 * 60

  /** `statusProgression`; every challan status is in it. */
  const Progression: seq<ChallanStatus> := [Pending, InTransit, Delivered]

  /** `statusProgression.indexOf(status)` */
  function IndexOf(s: ChallanStatus): (r: int)
    ensures -1 <= r < |Progression|
    ensures r >= 0 ==> Progression[r] == s
    ensures r == -1 ==> s !in Progression
  {
    FindFirst(Progression, (x: ChallanStatus) => x == s)
  }

  lemma IndexOfValues()
    ensures IndexOf(Pending) == 0 && IndexOf(InTransit) == 1 && IndexOf(Delivered) == 2
  {
    assert Progression[0] == Pending && Progression[1] == InTransit && Progression[2] == Delivered;
  }

  // ---- calculateDelay ----

  /** `Math.round(ms / 3600000)` on an integer number of milliseconds: adding half an
      hour and flooring, which is what rounding half up means. */
  function RoundToHours(ms: int): int
  {
    (ms + HourMs / 2) / HourMs
  }

  /** The result is the nearest whole hour, halves rounded up: the only `h` with
      `h - 1/2 <= ms / 3600000 < h + 1/2`. */
  lemma RoundToHoursSpec(ms: int, h: int)
    ensures HourMs * RoundToHours(ms) - HourMs / 2 <= ms < HourMs * RoundToHours(ms) + HourMs / 2
    ensures HourMs * h - HourMs / 2 <= ms < HourMs * h + HourMs / 2 ==> h == RoundToHours(ms)
  {
  }

  /** What `calculateDelay()` returns: `null` when there is no arrival, NaN when a date
      does not parse, otherwise a whole number of hours. */
  datatype Delay = NoArrival | NotANumber | Hours(hours: int)

  function CalculateDelay(c: Challan): Delay
  {
    if c.actualArrival.None? || c.actualArrival.value.text == "" then NoArrival
    else if c.expectedArrival.ms.None? || c.actualArrival.value.ms.None? then NotANumber
    else Hours(RoundToHours(c.actualArrival.value.ms.value - c.expectedArrival.ms.value))
  }

  /** `delay && delay > 0`: null, NaN and 0 are all falsy. */
  predicate ShowsLate(c: Challan)
  {
    CalculateDelay(c).Hours? && CalculateDelay(c).hours > 0
  }

  /** The card says "late" exactly when both instants parse and the challan arrived at
      least half an hour after it was expected; an arrival more than half an hour early
      gives a negative delay, which reads "On time". */
  lemma LateIff(c: Challan)
    ensures c.actualArrival.None? ==> CalculateDelay(c) == NoArrival
    ensures ShowsLate(c) <==>
      c.actualArrival.Some? && c.actualArrival.value.text != "" &&
      c.expectedArrival.ms.Some? && c.actualArrival.value.ms.Some? &&
      c.actualArrival.value.ms.value - c.expectedArrival.ms.value >= HourMs / 2
    ensures CalculateDelay(c).Hours? && c.actualArrival.value.ms.value - c.expectedArrival.ms.value < -(HourMs / 2) ==>
      CalculateDelay(c).hours < 0 && !ShowsLate(c)
  {
    if CalculateDelay(c).Hours? {
      var d := c.actualArrival.value.ms.value - c.expectedArrival.ms.value;
      RoundToHoursSpec(d, 0);
      RoundToHoursSpec(d, 1);
    }
  }

  /** The seed challan that arrived half an hour early shows a delay of 0 and "On time". */
  lemma SeedDelays()
    ensures CalculateDelay(SeedChallans[0]) == NoArrival
    ensures CalculateDelay(SeedChallans[1]) == Hours(0) && !ShowsLate(SeedChallans[1])
  {
  }

  // ---- status buttons ----

  /** The "Update Status" section: admin or operations, and not yet delivered. */
  predicate UpdateShown(c: Challan, role: string)
  {
    AdminOrOperations(role) && c.status != Delivered
  }

  /** Button `index` is not `disabled={index <= currentStatusIndex}`. */
  predicate ButtonEnabled(c: Challan, index: int)
  {
    !(index <= IndexOf(c.status))
  }

  /** What clicking button `index` sends to `onStatusChange`, if anything. */
  function Click(c: Challan, role: string, index: int): Option<ChallanStatus>
  {
    if UpdateShown(c, role) && 0 <= index < |Progression| && ButtonEnabled(c, index)
    then Some(Progression[index])
    else None
  }

  /** A click emits something exactly for admin or operations on an undelivered challan
      and a button past the current position, and what it emits is strictly later. */
  lemma ClickMovesForward(c: Challan, role: string, index: int)
    ensures Click(c, role, index).Some? <==>
      AdminOrOperations(role) && c.status != Delivered && IndexOf(c.status) < index < 3
    ensures Click(c, role, index).Some? ==>
      IndexOf(Click(c, role, index).value) == index > IndexOf(c.status)
  {
    IndexOfValues();
  }

  /** Through the dialog the challan moves strictly forward in the store, and when the
      move is to "delivered" it is stamped with the arrival time. */
  lemma ClickThenStore(cs: seq<Challan>, k: int, role: string, index: int, now: Stamp)
    requires 0 <= k < |cs|
    requires Click(cs[k], role, index).Some?
    ensures IndexOf(WithStatus(cs, cs[k].id, Click(cs[k], role, index).value, now)[k].status) > IndexOf(cs[k].status)
    ensures Click(cs[k], role, index) == Some(Delivered) ==>
      WithStatus(cs, cs[k].id, Delivered, now)[k].actualArrival == Some(now)
  {
    ClickMovesForward(cs[k], role, index);
  }
}
