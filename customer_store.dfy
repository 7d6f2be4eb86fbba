/** The customer list (`CustomerManagementEnhanced`): the `customers` state array, its
    filter, the create and status-change handlers, and the stat cards. */
module CustomerManagement {
  import opened Common
  import opened Text
  import opened Seqs

  datatype CustomerStatus = Active | Inactive | Suspended

  /** A consigning company; revenue and balance are rupees. */
  datatype Customer = Customer(
    id: string,
    companyName: string,
    contactPerson: string,
    phone: string,
    email: string,
    address: string,
    city: string,
    state: string,
    gstNumber: string,
    panNumber: string,
    status: CustomerStatus,
    totalShipments: int,
    totalRevenue: int,
    outstandingBalance: int,
    registrationDate: string)

  /** The "Add Customer" dialog. */
  datatype CustomerForm = CustomerForm(
    companyName: string,
    contactPerson: string,
    phone: string,
    email: string,
    address: string,
    city: string,
    state: string,
    gstNumber: string,
    panNumber: string)

  const SeedCustomers: seq<Customer> := [
    Customer("1", "ABC Traders", "Rajesh Patel", "9876543210", "abc.traders@email.com",
      "Plot 123, Industrial Area", "Mumbai", "Maharashtra", "27AABCU9603R1Z5", "AABCU9603R",
      Active, 145, 725000, 45000, "2021-06-15"),
    Customer("2", "Tech Solutions Ltd", "Priya Singh", "9765432109", "tech.sol@email.com",
      "Tech Park Building A", "Bangalore", "Karnataka", "29AAGCU8604R1Z0", "AAGCU8604R",
      Active, 98, 490000, 25000, "2020-03-10"),
    Customer("3", "Retail Hub Inc", "Vikram Kumar", "9654321098", "retail.hub@email.com",
      "Shopping Complex, Main Road", "Delhi", "Delhi", "07AADCA5055K2Z2", "AADCA5055K",
      Active, 76, 380000, 15000, "2022-08-20")
  ]

  // ---- filteredCustomers ----

  /** The search box matches the company, contact person or GST number. */
  predicate SearchHit(c: Customer, term: string)
  {
    Matches(c.companyName, term) || Matches(c.contactPerson, term) || Matches(c.gstNumber, term)
  }

  function Shown(term: string, filter: Choice<CustomerStatus>): Customer -> bool
  {
    c => SearchHit(c, term) && Admits(filter, c.status)
  }

  function FilterCustomers(cs: seq<Customer>, term: string, filter: Choice<CustomerStatus>): seq<Customer>
  {
    Filter(cs, Shown(term, filter))
  }

  /** A customer is listed exactly when one of the three fields contains the term and the
      status dropdown admits it; the listing keeps the store's order. */
  lemma FilterCustomersSpec(cs: seq<Customer>, term: string, filter: Choice<CustomerStatus>)
    ensures forall c :: c in FilterCustomers(cs, term, filter) <==>
      c in cs && SearchHit(c, term) && Admits(filter, c.status)
    ensures forall c :: multiset(FilterCustomers(cs, term, filter))[c] == if SearchHit(c, term) && Admits(filter, c.status) then multiset(cs)[c] else 0
    ensures IsSubsequence(FilterCustomers(cs, term, filter), cs)
  {
    FilterMembers(cs, Shown(term, filter));
  }

  /** An empty search with "All Status" lists every customer. */
  lemma FilterCustomersEverything(cs: seq<Customer>)
    ensures FilterCustomers(cs, "", All) == cs
  {
    forall c | c in cs
      ensures Shown("", All)(c)
    {
      EmptyTermMatches(c.companyName);
    }
    FilterAll(cs, Shown("", All));
  }

  // ---- handleCreateCustomer ----

  /** `newCustomer.companyName && newCustomer.gstNumber` */
  predicate CanCreate(form: CustomerForm)
  {
    form.companyName != "" && form.gstNumber != ""
  }

  /** The customer added from the dialog, registered `today`. */
  function NewCustomer(form: CustomerForm, id: string, today: string): Customer
  {
    Customer(id, form.companyName, form.contactPerson, form.phone, form.email, form.address,
      form.city, form.state, form.gstNumber, form.panNumber, Active, 0, 0, 0, today)
  }

  // ---- handleStatusChange ----

  /** Only customers with the id change, and only in status. */
  function WithStatus(cs: seq<Customer>, id: string, status: CustomerStatus): (r: seq<Customer>)
    ensures |r| == |cs|
    ensures forall i :: 0 <= i < |cs| && cs[i].id != id ==> r[i] == cs[i]
    ensures forall i :: 0 <= i < |cs| && cs[i].id == id ==> r[i] == cs[i].(status := status)
  {
    Map(cs, (c: Customer) => if c.id == id then c.(status := status) else c)
  }

  // ---- stats ----

  predicate IsActive(c: Customer)
  {
    c.status == Active
  }

  function Revenue(c: Customer): int
  {
    c.totalRevenue
  }

  function Outstanding(c: Customer): int
  {
    c.outstandingBalance
  }

  function ActiveCount(cs: seq<Customer>): nat
  {
    |Filter(cs, IsActive)|
  }

  function TotalRevenue(cs: seq<Customer>): int
  {
    Sum(cs, Revenue)
  }

  function TotalOutstanding(cs: seq<Customer>): int
  {
    Sum(cs, Outstanding)
  }

  /** A new customer is "active" with no shipments, revenue or balance; adding one adds
      an active customer and leaves the revenue and outstanding totals unchanged. */
  lemma StatsAfterCreate(form: CustomerForm, cs: seq<Customer>, id: string, today: string)
    ensures NewCustomer(form, id, today).status == Active
    ensures NewCustomer(form, id, today).totalShipments == 0
    ensures NewCustomer(form, id, today).totalRevenue == 0 && NewCustomer(form, id, today).outstandingBalance == 0
    ensures ActiveCount(cs) <= |cs|
    ensures ActiveCount([NewCustomer(form, id, today)] + cs) == ActiveCount(cs) + 1
    ensures TotalRevenue([NewCustomer(form, id, today)] + cs) == TotalRevenue(cs)
    ensures TotalOutstanding([NewCustomer(form, id, today)] + cs) == TotalOutstanding(cs)
  {
    var c := NewCustomer(form, id, today);
    FilterSpec(cs, IsActive);
    FilterAppend([c], cs, IsActive);
    assert ([c] + cs)[1..] == cs;
  }

  /** A status change leaves the revenue and outstanding totals as they were. */
  lemma StatusChangeKeepsTotals(cs: seq<Customer>, id: string, status: CustomerStatus)
    ensures TotalRevenue(WithStatus(cs, id, status)) == TotalRevenue(cs)
    ensures TotalOutstanding(WithStatus(cs, id, status)) == TotalOutstanding(cs)
  {
    SumSameOn(WithStatus(cs, id, status), cs, Revenue);
    SumSameOn(WithStatus(cs, id, status), cs, Outstanding);
  }

  /** "Add Customer" is rendered for admin and accounts only. */
  predicate CreateOffered(role: string)
  {
    AdminOrAccounts(role)
  }

  /** The customers held by the component. */
  class CustomerStore {
    var customers: seq<Customer>

    constructor ()
      ensures customers == SeedCustomers
    {
      customers := SeedCustomers;
    }

    /** `handleCreateCustomer`: a no-op unless company name and GST number are filled
        in; otherwise the new customer goes in front and the old ones follow unchanged. */
    method Create(form: CustomerForm, id: string, today: string)
      modifies this
      ensures !CanCreate(form) ==> customers == old(customers)
      ensures CanCreate(form) ==> customers == [NewCustomer(form, id, today)] + old(customers)
      ensures CanCreate(form) ==> |customers| == |old(customers)| + 1 && customers[1..] == old(customers)
    {
      if CanCreate(form) {
        customers := [NewCustomer(form, id, today)] + customers;
      }
    }

    /** `handleStatusChange`. */
    method SetStatus(id: string, status: CustomerStatus)
      modifies this
      ensures customers == WithStatus(old(customers), id, status)
    {
      customers := WithStatus(customers, id, status);
    }
  }
}
