/** The fleet list (`VehicleManagementEnhanced`): the `vehicles` state array, its filter,
    the create and status-change handlers, and the stat cards. */
module VehicleManagement {
  import opened Common
  import opened Text
  import opened Seqs

  datatype VehicleStatus = Active | Maintenance | Inactive

  /** A vehicle; capacity and average load are kilograms. The certificate expiry dates
      are kept with what `new Date(..)` makes of them. */
  datatype Vehicle = Vehicle(
    id: string,
    vehicleNumber: string,
    vehicleType: string,
    capacity: int,
    owner: string,
    registrationDate: string,
    insuranceExpiry: Stamp,
    pollutionCertExpiry: Stamp,
    status: VehicleStatus,
    totalTrips: int,
    avgLoad: int,
    lastMaintenance: string)

  /** The "Add Vehicle" dialog. */
  datatype VehicleForm = VehicleForm(
    vehicleNumber: string,
    vehicleType: string,
    capacity: NumInput<int>,
    owner: string,
    registrationDate: string,
    insuranceExpiry: Stamp,
    pollutionCertExpiry: Stamp)

  /** The three vehicles the list starts with (dates read as UTC midnight). */
  const SeedVehicles: seq<Vehicle> := [
    Vehicle("1", "MH-01-AB-1234", "10 Wheeler", 18000, "ABC Transport", "2022-01-15",
      Stamp("2025-06-15", Some(1749945600000)), Stamp("2025-03-20", Some(1742428800000)),
      Active, 145, 15600, "2024-12-10"),
    Vehicle("2", "KA-01-CD-5678", "7.5 Wheeler", 12000, "XYZ Logistics", "2021-08-22",
      Stamp("2025-08-22", Some(1755820800000)), Stamp("2025-05-10", Some(1746835200000)),
      Active, 198, 11200, "2024-11-25"),
    Vehicle("3", "DL-01-EF-9012", "4 Wheeler", 5000, "ABC Transport", "2023-03-10",
      Stamp("2025-03-10", Some(1741564800000)), Stamp("2025-01-15", Some(1736899200000)),
      Maintenance, 67, 4500, "2024-12-18")
  ]

  // ---- filteredVehicles ----

  /** The search box matches the vehicle number, owner or type. */
  predicate SearchHit(v: Vehicle, term: string)
  {
    Matches(v.vehicleNumber, term) || Matches(v.owner, term) || Matches(v.vehicleType, term)
  }

  function Shown(term: string, filter: Choice<VehicleStatus>): Vehicle -> bool
  {
    v => SearchHit(v, term) && Admits(filter, v.status)
  }

  function FilterVehicles(vs: seq<Vehicle>, term: string, filter: Choice<VehicleStatus>): seq<Vehicle>
  {
    Filter(vs, Shown(term, filter))
  }

  /** A vehicle is listed exactly when one of the three fields contains the term and the
      status dropdown admits it; the listing keeps the fleet's order. */
  lemma FilterVehiclesSpec(vs: seq<Vehicle>, term: string, filter: Choice<VehicleStatus>)
    ensures forall v :: v in FilterVehicles(vs, term, filter) <==>
      v in vs && SearchHit(v, term) && Admits(filter, v.status)
    ensures forall v :: multiset(FilterVehicles(vs, term, filter))[v] == if SearchHit(v, term) && Admits(filter, v.status) then multiset(vs)[v] else 0
    ensures IsSubsequence(FilterVehicles(vs, term, filter), vs)
  {
    FilterMembers(vs, Shown(term, filter));
  }

  /** An empty search with "All Status" lists every vehicle. */
  lemma FilterVehiclesEverything(vs: seq<Vehicle>)
    ensures FilterVehicles(vs, "", All) == vs
  {
    forall v | v in vs
      ensures Shown("", All)(v)
    {
      EmptyTermMatches(v.vehicleNumber);
    }
    FilterAll(vs, Shown("", All));
  }

  // ---- handleCreateVehicle ----

  /** `newVehicle.vehicleNumber && newVehicle.type` */
  predicate CanCreate(form: VehicleForm)
  {
    form.vehicleNumber != "" && form.vehicleType != ""
  }

  /** The vehicle added from the dialog; it was last maintained `today`. */
  function NewVehicle(form: VehicleForm, id: string, today: string): Vehicle
  {
    Vehicle(id, form.vehicleNumber, form.vehicleType, IntOrZero(form.capacity), form.owner,
      form.registrationDate, form.insuranceExpiry, form.pollutionCertExpiry, Active, 0, 0, today)
  }

  /** A new vehicle is "active" with no trips and no load; an unparsable capacity is 0. */
  lemma NewVehicleSpec(form: VehicleForm, id: string, today: string)
    ensures NewVehicle(form, id, today).status == Active
    ensures NewVehicle(form, id, today).totalTrips == 0 && NewVehicle(form, id, today).avgLoad == 0
    ensures form.capacity.parsed.None? ==> NewVehicle(form, id, today).capacity == 0
  {
  }

  // ---- handleStatusChange ----

  /** Only vehicles with the id change, and only in status. */
  function WithStatus(vs: seq<Vehicle>, id: string, status: VehicleStatus): (r: seq<Vehicle>)
    ensures |r| == |vs|
    ensures forall i :: 0 <= i < |vs| && vs[i].id != id ==> r[i] == vs[i]
    ensures forall i :: 0 <= i < |vs| && vs[i].id == id ==> r[i] == vs[i].(status := status)
  {
    Map(vs, (v: Vehicle) => if v.id == id then v.(status := status) else v)
  }

  // ---- stats ----

  predicate IsActive(v: Vehicle)
  {
    v.status == Active
  }

  predicate InMaintenance(v: Vehicle)
  {
    v.status == Maintenance
  }

  function Capacity(v: Vehicle): int
  {
    v.capacity
  }

  function ActiveCount(vs: seq<Vehicle>): nat
  {
    |Filter(vs, IsActive)|
  }

  function MaintenanceCount(vs: seq<Vehicle>): nat
  {
    |Filter(vs, InMaintenance)|
  }

  function TotalCapacity(vs: seq<Vehicle>): int
  {
    Sum(vs, Capacity)
  }

  /** The "Active" and "In Maintenance" cards never add up to more than the fleet. */
  lemma StatsBounded(vs: seq<Vehicle>)
    ensures ActiveCount(vs) + MaintenanceCount(vs) <= |vs|
  {
    CountDisjoint(vs, IsActive, InMaintenance);
  }

  /** Adding a vehicle adds one to the active count and its capacity to the total. */
  lemma StatsAfterCreate(form: VehicleForm, vs: seq<Vehicle>, id: string, today: string)
    ensures ActiveCount([NewVehicle(form, id, today)] + vs) == ActiveCount(vs) + 1
    ensures MaintenanceCount([NewVehicle(form, id, today)] + vs) == MaintenanceCount(vs)
    ensures TotalCapacity([NewVehicle(form, id, today)] + vs) == TotalCapacity(vs) + IntOrZero(form.capacity)
  {
    var v := NewVehicle(form, id, today);
    FilterAppend([v], vs, IsActive);
    FilterAppend([v], vs, InMaintenance);
    assert ([v] + vs)[1..] == vs;
  }

  /** "Add Vehicle" is rendered for admin and operations only. */
  predicate CreateOffered(role: string)
  {
    AdminOrOperations(role)
  }

  /** The vehicles held by the component. */
  class VehicleStore {
    var vehicles: seq<Vehicle>

    constructor ()
      ensures vehicles == SeedVehicles
    {
      vehicles := SeedVehicles;
    }

    /** `handleCreateVehicle`: a no-op unless number and type are filled in; otherwise
        the new vehicle goes in front and the old ones follow unchanged. */
    method Create(form: VehicleForm, id: string, today: string)
      modifies this
      ensures !CanCreate(form) ==> vehicles == old(vehicles)
      ensures CanCreate(form) ==> vehicles == [NewVehicle(form, id, today)] + old(vehicles)
      ensures CanCreate(form) ==> |vehicles| == |old(vehicles)| + 1 && vehicles[1..] == old(vehicles)
    {
      if CanCreate(form) {
        vehicles := [NewVehicle(form, id, today)] + vehicles;
      }
    }

    /** `handleStatusChange`. */
    method SetStatus(id: string, status: VehicleStatus)
      modifies this
      ensures vehicles == WithStatus(old(vehicles), id, status)
    {
      vehicles := WithStatus(vehicles, id, status);
    }
  }
}
