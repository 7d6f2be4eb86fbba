/** The customer portal's shipment list (`CustomerShipments`): the per-customer lookup,
    the search filter, the "No shipments found" row and the live-tracking panel of the
    details dialog. */
module CustomerShipments {
  import opened Common
  import opened Text
  import opened Seqs

  datatype ShipmentStatus = Created | InTransit | Delivered

  /** A shipment as a customer sees it; vehicle and driver are optional. */
  datatype Shipment = Shipment(
    id: string,
    lrNumber: string,
    destination: string,
    weight: int,
    status: ShipmentStatus,
    shipDate: string,
    expectedDelivery: string,
    vehicleNumber: Option<string>,
    driverName: Option<string>)

  /** `customerShipments`, keyed by customer name. */
  const CustomerShipmentTable: map<string, seq<Shipment>> := map[
    "ABC Traders" := [
      Shipment("1", "LR-2024-001", "Delhi", 2500, InTransit, "2024-12-20", "2024-12-22",
        Some("MH-01-AB-1234"), Some("Rajesh Kumar")),
      Shipment("2", "LR-2024-005", "Bangalore", 1800, Delivered, "2024-12-15", "2024-12-17", None, None)
    ],
    "Tech Solutions" := [
      Shipment("3", "LR-2024-002", "Chennai", 1200, Delivered, "2024-12-19", "2024-12-20", None, None)
    ],
    "Retail Hub" := [
      Shipment("4", "LR-2024-003", "Hyderabad", 3600, Created, "2024-12-21", "2024-12-24", None, None)
    ]
  ]

  /** `customerShipments[customerName] || []` */
  function ShipmentsOf(customer: string): seq<Shipment>
  {
    if customer in CustomerShipmentTable then CustomerShipmentTable[customer] else []
  }

  /** The search box matches the receipt number or the destination. */
  predicate SearchHit(s: Shipment, term: string)
  {
    Matches(s.lrNumber, term) || Matches(s.destination, term)
  }

  function Shown(term: string): Shipment -> bool
  {
    (s: Shipment) => SearchHit(s, term)
  }

  /** `filteredShipments` */
  function FilterShipments(customer: string, term: string): seq<Shipment>
  {
    Filter(ShipmentsOf(customer), Shown(term))
  }

  /** The table body: one row per listed shipment, or the single "No shipments found" row. */
  datatype Listing = Rows(rows: seq<Shipment>) | NoneFound

  function Table(customer: string, term: string): Listing
  {
    var listed := FilterShipments(customer, term);
    if |listed| > 0 then Rows(listed) else NoneFound
  }

  /** A shipment is listed exactly when it belongs to the customer and its receipt number
      or destination contains the term; the listing keeps the table's order. */
  lemma FilterShipmentsSpec(customer: string, term: string)
    ensures forall s :: s in FilterShipments(customer, term) <==>
      customer in CustomerShipmentTable && s in CustomerShipmentTable[customer] && SearchHit(s, term)
    ensures forall s :: multiset(FilterShipments(customer, term))[s] == if SearchHit(s, term) then multiset(ShipmentsOf(customer))[s] else 0
    ensures IsSubsequence(FilterShipments(customer, term), ShipmentsOf(customer))
  {
    FilterMembers(ShipmentsOf(customer), Shown(term));
  }

  /** An empty search lists all of the customer's shipments. */
  lemma EmptySearchListsAll(customer: string)
    ensures FilterShipments(customer, "") == ShipmentsOf(customer)
  {
    forall s | s in ShipmentsOf(customer)
      ensures Shown("")(s)
    {
      EmptyTermMatches(s.lrNumber);
    }
    FilterAll(ShipmentsOf(customer), Shown(""));
  }

  /** The "No shipments found" row appears exactly when none of the customer's shipments
      matches the search; otherwise every listed shipment has a row. */
  lemma NoneFoundIff(customer: string, term: string)
    ensures Table(customer, term) == NoneFound <==>
      forall s :: s in ShipmentsOf(customer) ==> !SearchHit(s, term)
    ensures Table(customer, term).Rows? ==> Table(customer, term).rows == FilterShipments(customer, term)
  {
    var listed := FilterShipments(customer, term);
    FilterMembers(ShipmentsOf(customer), Shown(term));
    if |listed| > 0 {
      assert listed[0] in listed;
    }
  }

  /** A customer the table does not know gets the empty-state row, whatever the search. */
  lemma UnknownCustomerSeesNone(customer: string, term: string)
    requires customer !in CustomerShipmentTable
    ensures ShipmentsOf(customer) == []
    ensures Table(customer, term) == NoneFound
  {
  }

  /** `status === "in_transit" && vehicleNumber`: an absent or empty vehicle number is falsy. */
  predicate LiveTrackingShown(s: Shipment)
  {
    s.status == InTransit && s.vehicleNumber.Some? && s.vehicleNumber.value != ""
  }

  /** The panel needs both conditions: a shipment that is not in transit, or has no
      vehicle or an empty one, never shows it, and the driver plays no part. */
  lemma LiveTrackingNeeds(s: Shipment, driver: Option<string>)
    ensures s.status != InTransit ==> !LiveTrackingShown(s)
    ensures s.vehicleNumber == None || s.vehicleNumber == Some("") ==> !LiveTrackingShown(s)
    ensures s.status == InTransit && s.vehicleNumber.Some? && |s.vehicleNumber.value| > 0 ==> LiveTrackingShown(s)
    ensures LiveTrackingShown(s.(driverName := driver)) == LiveTrackingShown(s)
  {
  }

  /** In the portal's table every shipment in transit has a vehicle, so for any customer
      the panel appears on exactly the shipments in transit. */
  lemma LiveTrackingIffInTransit(customer: string, k: int)
    requires 0 <= k < |ShipmentsOf(customer)|
    ensures LiveTrackingShown(ShipmentsOf(customer)[k]) <==> ShipmentsOf(customer)[k].status == InTransit
  {
    if customer == "ABC Traders" {
      assert k == 0 || k == 1;
    }
  }

  /** Of the portal's shipments only the first of "ABC Traders", which is in transit on a
      known vehicle, shows the live-tracking panel. */
  lemma LiveTrackingOnSeeds()
    ensures LiveTrackingShown(ShipmentsOf("ABC Traders")[0])
    ensures !LiveTrackingShown(ShipmentsOf("ABC Traders")[1])
    ensures !LiveTrackingShown(ShipmentsOf("Tech Solutions")[0])
    ensures !LiveTrackingShown(ShipmentsOf("Retail Hub")[0])
  {
  }
}
