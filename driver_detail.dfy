/** The driver detail dialog (`DriverDetailView`): the licence badge and the status
    select. `now` is the current epoch time. */
module DriverDetail {
  import opened Common
  import opened DriverManagement
  import VehicleDetail

  const DayMs: int := 1000 * 60 * 60 * 24

  /** `new Date(licenseExpiry) < new Date()`; an unreadable date compares false. */
  predicate LicenseExpired(d: Driver, now: int)
  {
    d.licenseExpiry.ms.Some? && d.licenseExpiry.ms.value < now
  }

  /** `expiry - now < 30 days`, with no lower bound. */
  predicate LicenseExpiringSoon(d: Driver, now: int)
  {
    d.licenseExpiry.ms.Some? && d.licenseExpiry.ms.value - now < 30 * DayMs
  }

  /** The badge: Expired first, then Expiring Soon, otherwise Valid. */
  function LicenseLabel(d: Driver, now: int): ExpiryLabel
  {
    if LicenseExpired(d, now) then Expired
    else if LicenseExpiringSoon(d, now) then ExpiringSoon
    else Valid
  }

  /** In terms of the time left: "Expired" when negative, "Expiring Soon" from zero up to
      (not including) exactly 30 days, "Valid" from 30 days on or for an unreadable date.
      Every expired licence is also flagged as expiring soon; the badge hides that. */
  lemma LicenseLabelSpec(d: Driver, now: int)
    ensures LicenseExpired(d, now) ==> LicenseExpiringSoon(d, now)
    ensures LicenseLabel(d, now) == Expired <==>
      d.licenseExpiry.ms.Some? && d.licenseExpiry.ms.value - now < 0
    ensures LicenseLabel(d, now) == ExpiringSoon <==>
      d.licenseExpiry.ms.Some? && 0 <= d.licenseExpiry.ms.value - now < 30 * DayMs
    ensures LicenseLabel(d, now) == Valid <==>
      d.licenseExpiry.ms.None? || d.licenseExpiry.ms.value - now >= 30 * DayMs
  {
  }

  /** The driver and vehicle dialogs classify the same date differently: with less than a
      day left the licence reads "Expiring Soon" and a certificate "Valid"; with exactly
      30 days left the licence reads "Valid" and a certificate "Expiring Soon". */
  lemma RulesDisagree(d: Driver, now: int)
    requires d.licenseExpiry.ms.Some?
    ensures 0 <= d.licenseExpiry.ms.value - now < DayMs ==>
      LicenseLabel(d, now) == ExpiringSoon && VehicleDetail.ExpiryStatus(d.licenseExpiry, now) == Valid
    ensures d.licenseExpiry.ms.value - now == 30 * DayMs ==>
      LicenseLabel(d, now) == Valid && VehicleDetail.ExpiryStatus(d.licenseExpiry, now) == ExpiringSoon
  {
    VehicleDetail.ExpiryStatusSpec(d.licenseExpiry, now);
  }

  /** The status select is rendered for admin and operations. */
  predicate SelectShown(role: string)
  {
    AdminOrOperations(role)
  }

  const SelectOptions: seq<DriverStatus> := [Active, Inactive, Suspended]

  /** Picking an option sends that status for the driver, when the select is there. */
  function Pick(d: Driver, role: string, option: int): Option<DriverStatus>
  {
    if SelectShown(role) && 0 <= option < |SelectOptions| then Some(SelectOptions[option]) else None
  }

  /** Every driver status can be picked by admin and operations, from any status, and by
      no one else; the store then sets exactly that status. */
  lemma PickReachesEveryStatus(ds: seq<Driver>, k: int, role: string, status: DriverStatus)
    requires 0 <= k < |ds|
    ensures SelectShown(role) ==> exists option :: Pick(ds[k], role, option) == Some(status)
    ensures !SelectShown(role) ==> forall option :: Pick(ds[k], role, option).None?
    ensures WithStatus(ds, ds[k].id, status)[k].status == status
  {
    if SelectShown(role) {
      var option := if status == Active then 0 else if status == Inactive then 1 else 2;
      assert Pick(ds[k], role, option) == Some(status);
    }
  }
}
