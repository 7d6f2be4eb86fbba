/** The vehicle detail dialog (`VehicleDetailView`): classification of the insurance and
    pollution certificates, and the status select. `now` is the current epoch time. */
module VehicleDetail {
  import opened Common
  import opened VehicleManagement

  const DayMs: int := 1000 * 60 * 60 * 24

  /** `expiryDate < today`; an unreadable date compares false. */
  predicate IsExpired(expiry: Stamp, now: int)
  {
    expiry.ms.Some? && expiry.ms.value < now
  }

  /** `Math.floor((expiry - now) / 86400000)` */
  function DaysUntilExpiry(expiryMs: int, now: int): int
  {
    (expiryMs - now) / DayMs
  }

  /** `daysUntilExpiry <= 30 && daysUntilExpiry > 0`; NaN fails both tests. */
  predicate IsExpiringSoon(expiry: Stamp, now: int)
  {
    expiry.ms.Some? && 0 < DaysUntilExpiry(expiry.ms.value, now) <= 30
  }

  /** `getExpiryStatus`: Expired first, then Expiring Soon, otherwise Valid. */
  function ExpiryStatus(expiry: Stamp, now: int): ExpiryLabel
  {
    if IsExpired(expiry, now) then Expired
    else if IsExpiringSoon(expiry, now) then ExpiringSoon
    else Valid
  }

  /** The label in terms of the time left, `diff = expiry - now`: "Expired" when negative,
      "Expiring Soon" from one whole day up to (not including) 31 days, "Valid" for the
      rest, including less than one whole day left and an unreadable date. */
  lemma ExpiryStatusSpec(expiry: Stamp, now: int)
    ensures ExpiryStatus(expiry, now) == Expired <==> expiry.ms.Some? && expiry.ms.value - now < 0
    ensures ExpiryStatus(expiry, now) == ExpiringSoon <==>
      expiry.ms.Some? && DayMs <= expiry.ms.value - now < 31 * DayMs
    ensures ExpiryStatus(expiry, now) == Valid <==>
      expiry.ms.None? || 0 <= expiry.ms.value - now < DayMs || expiry.ms.value - now >= 31 * DayMs
  {
    if expiry.ms.Some? {
      var d := expiry.ms.value - now;
      var days := DaysUntilExpiry(expiry.ms.value, now);
      assert DayMs * days <= d < DayMs * days + DayMs;
      if d < 0 {
      } else if d < DayMs {
        assert days == 0;
      } else if d < 31 * DayMs {
        assert 1 <= days <= 30;
      } else {
        assert days >= 31;
      }
    }
  }

  /** The last day before expiry is shown as "Valid", and so is a blank date. */
  lemma LastDayIsValid(expiry: Stamp, now: int)
    requires expiry.ms.None? || 0 <= expiry.ms.value - now < DayMs
    ensures ExpiryStatus(expiry, now) == Valid
  {
    ExpiryStatusSpec(expiry, now);
  }

  /** The two certificates shown for a vehicle; each is classified on its own date. */
  function CertificateStatuses(v: Vehicle, now: int): (ExpiryLabel, ExpiryLabel)
  {
    (ExpiryStatus(v.insuranceExpiry, now), ExpiryStatus(v.pollutionCertExpiry, now))
  }

  /** Changing one certificate's date leaves the other's label alone. */
  lemma CertificatesIndependent(v: Vehicle, insurance: Stamp, pollution: Stamp, now: int)
    ensures CertificateStatuses(v.(pollutionCertExpiry := pollution), now).0 == CertificateStatuses(v, now).0
    ensures CertificateStatuses(v.(insuranceExpiry := insurance), now).1 == CertificateStatuses(v, now).1
  {
  }

  /** The status select is rendered for admin and operations. */
  predicate SelectShown(role: string)
  {
    AdminOrOperations(role)
  }

  /** The select's options. */
  const SelectOptions: seq<VehicleStatus> := [Active, Maintenance, Inactive]

  /** Picking an option sends that status for the vehicle, when the select is there. */
  function Pick(v: Vehicle, role: string, option: int): Option<VehicleStatus>
  {
    if SelectShown(role) && 0 <= option < |SelectOptions| then Some(SelectOptions[option]) else None
  }

  /** Every vehicle status can be picked by admin and operations, from any status, and by
      no one else; the store then sets exactly that status. */
  lemma PickReachesEveryStatus(vs: seq<Vehicle>, k: int, role: string, status: VehicleStatus)
    requires 0 <= k < |vs|
    ensures SelectShown(role) ==> exists option :: Pick(vs[k], role, option) == Some(status)
    ensures !SelectShown(role) ==> forall option :: Pick(vs[k], role, option).None?
    ensures WithStatus(vs, vs[k].id, status)[k].status == status
  {
    if SelectShown(role) {
      var option := if status == Active then 0 else if status == Maintenance then 1 else 2;
      assert Pick(vs[k], role, option) == Some(status);
    }
  }
}
