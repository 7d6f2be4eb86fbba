/** The driver list (`DriverManagementEnhanced`): the `drivers` state array, its filter,
    the create and status-change handlers, and the active count. */
module DriverManagement {
  import opened Common
  import opened Text
  import opened Seqs

  datatype DriverStatus = Active | Inactive | Suspended

  /** A driver; the licence expiry is kept with what `new Date(..)` makes of it. */
  datatype Driver = Driver(
    id: string,
    name: string,
    licenseNumber: string,
    phone: string,
    email: string,
    licenseExpiry: Stamp,
    aadharNumber: string,
    address: string,
    status: DriverStatus,
    totalTrips: int,
    avgRating: real,
    onTimePercentage: int,
    joiningDate: string)

  /** The "Add Driver" dialog. */
  datatype DriverForm = DriverForm(
    name: string,
    licenseNumber: string,
    phone: string,
    email: string,
    licenseExpiry: Stamp,
    aadharNumber: string,
    address: string)

  /** The three drivers the list starts with (dates read as UTC midnight). */
  const SeedDrivers: seq<Driver> := [
    Driver("1", "Rajesh Kumar", "DL-0001-9876543", "9876543210", "rajesh@transport.com",
      Stamp("2025-12-15", Some(1765756800000)), "1234-5678-9012", "Mumbai, Maharashtra",
      Active, 145, 4.8, 96, "2021-06-15"),
    Driver("2", "Amit Singh", "HR-0002-1234567", "9765432109", "amit@transport.com",
      Stamp("2025-08-22", Some(1755820800000)), "2345-6789-0123", "Haryana",
      Active, 198, 4.6, 92, "2020-03-10"),
    Driver("3", "Priya Sharma", "KA-0003-5555555", "9654321098", "priya@transport.com",
      Stamp("2026-05-30", Some(1780099200000)), "3456-7890-1234", "Bangalore, Karnataka",
      Active, 167, 4.7, 94, "2019-11-20")
  ]

  // ---- filteredDrivers ----

  /** The search box matches name or licence number case-insensitively, and the phone
      number against the term exactly as typed. */
  predicate SearchHit(d: Driver, term: string)
  {
    Matches(d.name, term) || Matches(d.licenseNumber, term) || Contains(d.phone, term)
  }

  function Shown(term: string, filter: Choice<DriverStatus>): Driver -> bool
  {
    d => SearchHit(d, term) && Admits(filter, d.status)
  }

  function FilterDrivers(ds: seq<Driver>, term: string, filter: Choice<DriverStatus>): seq<Driver>
  {
    Filter(ds, Shown(term, filter))
  }

  /** A driver is listed exactly when the name or licence number contains the lower-cased
      term or the phone contains the raw term, and the status dropdown admits it; the
      listing keeps the store's order. */
  lemma FilterDriversSpec(ds: seq<Driver>, term: string, filter: Choice<DriverStatus>)
    ensures forall d :: d in FilterDrivers(ds, term, filter) <==>
      d in ds && (Contains(Lower(d.name), Lower(term)) || Contains(Lower(d.licenseNumber), Lower(term)) ||
                  Contains(d.phone, term)) && Admits(filter, d.status)
    ensures forall d :: multiset(FilterDrivers(ds, term, filter))[d] == if SearchHit(d, term) && Admits(filter, d.status) then multiset(ds)[d] else 0
    ensures IsSubsequence(FilterDrivers(ds, term, filter), ds)
  {
    FilterMembers(ds, Shown(term, filter));
  }

  /** An empty search with "All Status" lists every driver. */
  lemma FilterDriversEverything(ds: seq<Driver>)
    ensures FilterDrivers(ds, "", All) == ds
  {
    forall d | d in ds
      ensures Shown("", All)(d)
    {
      EmptyTermMatches(d.name);
    }
    FilterAll(ds, Shown("", All));
  }

  // ---- handleCreateDriver ----

  /** `newDriver.name && newDriver.licenseNumber` */
  predicate CanCreate(form: DriverForm)
  {
    form.name != "" && form.licenseNumber != ""
  }

  /** The driver added from the dialog; they join `today`. */
  function NewDriver(form: DriverForm, id: string, today: string): Driver
  {
    Driver(id, form.name, form.licenseNumber, form.phone, form.email, form.licenseExpiry,
      form.aadharNumber, form.address, Active, 0, 0.0, 0, today)
  }

  // ---- handleStatusChange ----

  /** Only drivers with the id change, and only in status. */
  function WithStatus(ds: seq<Driver>, id: string, status: DriverStatus): (r: seq<Driver>)
    ensures |r| == |ds|
    ensures forall i :: 0 <= i < |ds| && ds[i].id != id ==> r[i] == ds[i]
    ensures forall i :: 0 <= i < |ds| && ds[i].id == id ==> r[i] == ds[i].(status := status)
  {
    Map(ds, (d: Driver) => if d.id == id then d.(status := status) else d)
  }

  // ---- stats ----

  predicate IsActive(d: Driver)
  {
    d.status == Active
  }

  function ActiveCount(ds: seq<Driver>): nat
  {
    |Filter(ds, IsActive)|
  }

  /** Adding a driver adds one to the active count, which never exceeds the total. */
  lemma ActiveAfterCreate(form: DriverForm, ds: seq<Driver>, id: string, today: string)
    ensures ActiveCount(ds) <= |ds|
    ensures NewDriver(form, id, today).status == Active
    ensures NewDriver(form, id, today).totalTrips == 0 && NewDriver(form, id, today).avgRating == 0.0
    ensures NewDriver(form, id, today).onTimePercentage == 0
    ensures ActiveCount([NewDriver(form, id, today)] + ds) == ActiveCount(ds) + 1
  {
    FilterSpec(ds, IsActive);
    FilterAppend([NewDriver(form, id, today)], ds, IsActive);
  }

  /** "Add Driver" is rendered for admin and operations only. */
  predicate CreateOffered(role: string)
  {
    AdminOrOperations(role)
  }

  /** The drivers held by the component. */
  class DriverStore {
    var drivers: seq<Driver>

    constructor ()
      ensures drivers == SeedDrivers
    {
      drivers := SeedDrivers;
    }

    /** `handleCreateDriver`: a no-op unless name and licence number are filled in;
        otherwise the new driver goes in front and the old ones follow unchanged. */
    method Create(form: DriverForm, id: string, today: string)
      modifies this
      ensures !CanCreate(form) ==> drivers == old(drivers)
      ensures CanCreate(form) ==> drivers == [NewDriver(form, id, today)] + old(drivers)
      ensures CanCreate(form) ==> |drivers| == |old(drivers)| + 1 && drivers[1..] == old(drivers)
    {
      if CanCreate(form) {
        drivers := [NewDriver(form, id, today)] + drivers;
      }
    }

    /** `handleStatusChange`. */
    method SetStatus(id: string, status: DriverStatus)
      modifies this
      ensures drivers == WithStatus(old(drivers), id, status)
    {
      drivers := WithStatus(drivers, id, status);
    }
  }
}
