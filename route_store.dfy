/** The route list (`RouteManagementEnhanced`): the `routes` state array, its filter, the
    create and status-change handlers, and the stat cards. */
module RouteManagement {
  import opened Common
  import opened Text
  import opened Seqs

  datatype RouteStatus = Active | Inactive

  /** A lane between two cities; distance in kilometres, rates in rupees. */
  datatype Route = Route(
    id: string,
    routeName: string,
    origin: string,
    destination: string,
    distance: int,
    estimatedDays: int,
    ratePerTon: int,
    ratePerKg: real,
    minimumFreight: int,
    activeChallans: int,
    completedShipments: int,
    avgLoadPercentage: int,
    status: RouteStatus,
    createdDate: string)

  /** The "Add Route" dialog. */
  datatype RouteForm = RouteForm(
    routeName: string,
    origin: string,
    destination: string,
    distance: NumInput<int>,
    estimatedDays: NumInput<int>,
    ratePerTon: NumInput<int>,
    ratePerKg: NumInput<real>,
    minimumFreight: NumInput<int>)

  const SeedRoutes: seq<Route> := [
    Route("1", "Mumbai-Delhi Express", "Mumbai", "Delhi", 1440, 2, 2500, 2.5, 5000, 5, 145, 87, Active, "2022-01-15"),
    Route("2", "Bangalore-Chennai Route", "Bangalore", "Chennai", 350, 1, 1800, 1.8, 3000, 3, 98, 91, Active, "2021-08-22"),
    Route("3", "Pune-Hyderabad Lane", "Pune", "Hyderabad", 560, 1, 2000, 2.0, 4000, 2, 76, 84, Active, "2021-12-10"),
    Route("4", "Delhi-Kolkata Highway", "Delhi", "Kolkata", 1440, 2, 2200, 2.2, 5000, 0, 52, 78, Inactive, "2020-06-05")
  ]

  // ---- filteredRoutes ----

  /** The search box matches the route name, origin or destination. */
  predicate SearchHit(r: Route, term: string)
  {
    Matches(r.routeName, term) || Matches(r.origin, term) || Matches(r.destination, term)
  }

  function Shown(term: string, filter: Choice<RouteStatus>): Route -> bool
  {
    r => SearchHit(r, term) && Admits(filter, r.status)
  }

  function FilterRoutes(rs: seq<Route>, term: string, filter: Choice<RouteStatus>): seq<Route>
  {
    Filter(rs, Shown(term, filter))
  }

  /** A route is listed exactly when one of the three fields contains the term and the
      status dropdown admits it; the listing keeps the store's order. */
  lemma FilterRoutesSpec(rs: seq<Route>, term: string, filter: Choice<RouteStatus>)
    ensures forall r :: r in FilterRoutes(rs, term, filter) <==>
      r in rs && SearchHit(r, term) && Admits(filter, r.status)
    ensures forall r :: multiset(FilterRoutes(rs, term, filter))[r] == if SearchHit(r, term) && Admits(filter, r.status) then multiset(rs)[r] else 0
    ensures IsSubsequence(FilterRoutes(rs, term, filter), rs)
  {
    FilterMembers(rs, Shown(term, filter));
  }

  /** An empty search with "All Status" lists every route. */
  lemma FilterRoutesEverything(rs: seq<Route>)
    ensures FilterRoutes(rs, "", All) == rs
  {
    forall r | r in rs
      ensures Shown("", All)(r)
    {
      EmptyTermMatches(r.routeName);
    }
    FilterAll(rs, Shown("", All));
  }

  // ---- handleCreateRoute ----

  /** `newRoute.routeName && newRoute.origin && newRoute.destination` */
  predicate CanCreate(form: RouteForm)
  {
    form.routeName != "" && form.origin != "" && form.destination != ""
  }

  /** The route added from the dialog, created `today`. */
  function NewRoute(form: RouteForm, id: string, today: string): Route
  {
    Route(id, form.routeName, form.origin, form.destination, IntOrZero(form.distance),
      IntOrZero(form.estimatedDays), IntOrZero(form.ratePerTon), RealOrZero(form.ratePerKg),
      IntOrZero(form.minimumFreight), 0, 0, 0, Active, today)
  }

  // ---- handleStatusChange ----

  /** Only routes with the id change, and only in status. */
  function WithStatus(rs: seq<Route>, id: string, status: RouteStatus): (r: seq<Route>)
    ensures |r| == |rs|
    ensures forall i :: 0 <= i < |rs| && rs[i].id != id ==> r[i] == rs[i]
    ensures forall i :: 0 <= i < |rs| && rs[i].id == id ==> r[i] == rs[i].(status := status)
  {
    Map(rs, (r: Route) => if r.id == id then r.(status := status) else r)
  }

  // ---- stats ----

  predicate IsActive(r: Route)
  {
    r.status == Active
  }

  predicate IsInactive(r: Route)
  {
    r.status == Inactive
  }

  function Distance(r: Route): int
  {
    r.distance
  }

  function Shipments(r: Route): int
  {
    r.completedShipments
  }

  function ActiveCount(rs: seq<Route>): nat
  {
    |Filter(rs, IsActive)|
  }

  function TotalDistance(rs: seq<Route>): int
  {
    Sum(rs, Distance)
  }

  function TotalShipments(rs: seq<Route>): int
  {
    Sum(rs, Shipments)
  }

  /** "Active Routes" never exceeds "Total Routes". */
  lemma StatsBounded(rs: seq<Route>)
    ensures ActiveCount(rs) <= |rs|
    ensures ActiveCount(rs) + |Filter(rs, IsInactive)| <= |rs|
  {
    CountDisjoint(rs, IsActive, IsInactive);
  }

  /** A new route is "active" with no challans, shipments or load yet, and unparsable
      numbers read as 0; adding it adds one active route and its distance, and no
      shipments. */
  lemma StatsAfterCreate(form: RouteForm, rs: seq<Route>, id: string, today: string)
    ensures NewRoute(form, id, today).status == Active
    ensures NewRoute(form, id, today).activeChallans == 0 && NewRoute(form, id, today).completedShipments == 0
    ensures NewRoute(form, id, today).avgLoadPercentage == 0
    ensures form.distance.parsed.None? ==> NewRoute(form, id, today).distance == 0
    ensures form.ratePerKg.parsed.None? ==> NewRoute(form, id, today).ratePerKg == 0.0
    ensures ActiveCount([NewRoute(form, id, today)] + rs) == ActiveCount(rs) + 1
    ensures TotalDistance([NewRoute(form, id, today)] + rs) == TotalDistance(rs) + IntOrZero(form.distance)
    ensures TotalShipments([NewRoute(form, id, today)] + rs) == TotalShipments(rs)
  {
    var r := NewRoute(form, id, today);
    FilterAppend([r], rs, IsActive);
    assert ([r] + rs)[1..] == rs;
  }

  /** A status change leaves the distance and shipment totals as they were. */
  lemma StatusChangeKeepsTotals(rs: seq<Route>, id: string, status: RouteStatus)
    ensures TotalDistance(WithStatus(rs, id, status)) == TotalDistance(rs)
    ensures TotalShipments(WithStatus(rs, id, status)) == TotalShipments(rs)
  {
    SumSameOn(WithStatus(rs, id, status), rs, Distance);
    SumSameOn(WithStatus(rs, id, status), rs, Shipments);
  }

  /** "Add Route" is rendered for admin and operations only. */
  predicate CreateOffered(role: string)
  {
    AdminOrOperations(role)
  }

  /** The routes held by the component. */
  class RouteStore {
    var routes: seq<Route>

    constructor ()
      ensures routes == SeedRoutes
    {
      routes := SeedRoutes;
    }

    /** `handleCreateRoute`: a no-op unless name, origin and destination are all filled
        in; otherwise the new route goes in front and the old ones follow unchanged. */
    method Create(form: RouteForm, id: string, today: string)
      modifies this
      ensures !CanCreate(form) ==> routes == old(routes)
      ensures CanCreate(form) ==> routes == [NewRoute(form, id, today)] + old(routes)
      ensures CanCreate(form) ==> |routes| == |old(routes)| + 1 && routes[1..] == old(routes)
    {
      if CanCreate(form) {
        routes := [NewRoute(form, id, today)] + routes;
      }
    }

    /** `handleStatusChange`. */
    method SetStatus(id: string, status: RouteStatus)
      modifies this
      ensures routes == WithStatus(old(routes), id, status)
    {
      routes := WithStatus(routes, id, status);
    }
  }
}
