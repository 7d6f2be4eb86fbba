/** The staff dashboard page: which tabs a role sees (`TAB_CONFIG` filtered on the
    user's role), the tab open at first, and, across the eight lists, which of them
    offer their create action to which role. */
module Dashboard {
  import opened Common
  import opened Seqs
  import LRManagement
  import ChallanManagement
  import InvoiceManagement
  import PaymentManagement
  import VehicleManagement
  import DriverManagement
  import RouteManagement
  import CustomerManagement

  datatype Tab = Tab(value: string, caption: string, roles: seq<string>)

  /** `TAB_CONFIG`, in display order. */
  const TabConfig: seq<Tab> := [
    Tab("lr", "LR", [Admin, Operations, Accounts]),
    Tab("challan", "Challan", [Admin, Operations]),
    Tab("vehicles", "Vehicles", [Admin, Operations]),
    Tab("drivers", "Drivers", [Admin, Operations]),
    Tab("routes", "Routes", [Admin, Operations]),
    Tab("invoice", "Invoice", [Admin, Accounts]),
    Tab("customers", "Customers", [Admin, Accounts]),
    Tab("payments", "Payments", [Admin, Accounts])
  ]

  /** `Tabs defaultValue` */
  const DefaultTab: string := "lr"

  function ListsRole(role: string): Tab -> bool
  {
    (t: Tab) => role in t.roles
  }

  /** `TAB_CONFIG.filter(tab => tab.roles.includes(user.role))` */
  function VisibleTabs(role: string): seq<Tab>
  {
    Filter(TabConfig, ListsRole(role))
  }

  function Values(tabs: seq<Tab>): seq<string>
  {
    Map(tabs, (t: Tab) => t.value)
  }

  /** A tab is shown exactly when its role list includes the user's role, and the shown
      tabs keep the configuration's order. */
  lemma VisibleTabsSpec(role: string)
    ensures forall t :: t in VisibleTabs(role) <==> t in TabConfig && role in t.roles
    ensures IsSubsequence(VisibleTabs(role), TabConfig)
  {
    FilterMembers(TabConfig, ListsRole(role));
  }

  /** The tab at position `k` is kept or dropped on its own. */
  lemma VisibleFrom(k: nat, role: string)
    requires k < |TabConfig|
    ensures Filter(TabConfig[k..], ListsRole(role)) ==
      (if role in TabConfig[k].roles then [TabConfig[k]] else []) + Filter(TabConfig[k + 1..], ListsRole(role))
  {
    assert TabConfig[k..][1..] == TabConfig[k + 1..];
  }

  /** The last four tabs (routes and the three money tabs), per staff role. */
  lemma LastFourTabs()
    ensures Filter(TabConfig[4..], ListsRole(Admin)) == TabConfig[4..]
    ensures Filter(TabConfig[4..], ListsRole(Operations)) == [TabConfig[4]]
    ensures Filter(TabConfig[4..], ListsRole(Accounts)) == TabConfig[5..]
  {
    assert TabConfig[8..] == [];
    VisibleFrom(7, Admin);
    VisibleFrom(6, Admin);
    VisibleFrom(5, Admin);
    VisibleFrom(4, Admin);
    VisibleFrom(7, Operations);
    VisibleFrom(6, Operations);
    VisibleFrom(5, Operations);
    VisibleFrom(4, Operations);
    VisibleFrom(7, Accounts);
    VisibleFrom(6, Accounts);
    VisibleFrom(5, Accounts);
    VisibleFrom(4, Accounts);
  }

  /** Admin sees all eight tabs. */
  lemma AdminTabs()
    ensures VisibleTabs(Admin) == TabConfig
    ensures Values(VisibleTabs(Admin)) ==
      ["lr", "challan", "vehicles", "drivers", "routes", "invoice", "customers", "payments"]
  {
    LastFourTabs();
    VisibleFrom(3, Admin);
    VisibleFrom(2, Admin);
    VisibleFrom(1, Admin);
    VisibleFrom(0, Admin);
    assert TabConfig[0..] == TabConfig;
  }

  /** Operations see the five transport tabs. */
  lemma OperationsTabs()
    ensures VisibleTabs(Operations) == TabConfig[..5]
    ensures Values(VisibleTabs(Operations)) == ["lr", "challan", "vehicles", "drivers", "routes"]
  {
    LastFourTabs();
    VisibleFrom(3, Operations);
    VisibleFrom(2, Operations);
    VisibleFrom(1, Operations);
    VisibleFrom(0, Operations);
    assert TabConfig[0..] == TabConfig;
  }

  /** Accounts see the LR tab and the three money tabs. */
  lemma AccountsTabs()
    ensures VisibleTabs(Accounts) == [TabConfig[0]] + TabConfig[5..]
  {
    LastFourTabs();
    assert Accounts in TabConfig[0].roles;
    assert Accounts !in TabConfig[1].roles && Accounts !in TabConfig[2].roles && Accounts !in TabConfig[3].roles;
    VisibleFrom(3, Accounts);
    VisibleFrom(2, Accounts);
    VisibleFrom(1, Accounts);
    VisibleFrom(0, Accounts);
    assert TabConfig[0..] == TabConfig;
  }

  /** The tab values accounts see, in order. */
  lemma AccountsTabValues()
    ensures Values(VisibleTabs(Accounts)) == ["lr", "invoice", "customers", "payments"]
  {
    AccountsTabs();
    var v := Values([TabConfig[0]] + TabConfig[5..]);
    assert |v| == 4;
    assert v[0] == "lr" && v[1] == "invoice" && v[2] == "customers" && v[3] == "payments";
  }

  /** "transport", or any role not in the table, gets no tab buttons at all. */
  lemma UnlistedRoleSeesNoTabs(role: string)
    requires role != Admin && role != Operations && role != Accounts
    ensures VisibleTabs(role) == []
  {
    FilterNone(TabConfig, ListsRole(role));
  }

  /** The panel open at first: "lr" for every role, whether or not its tab is shown. */
  function InitialPanel(role: string): string
  {
    DefaultTab
  }

  /** Whether the list behind a tab renders its create action for the role. */
  predicate CreateOfferedOn(tab: string, role: string)
  {
    match tab
    case "lr" => LRManagement.CreateOffered(role)
    case "challan" => ChallanManagement.CreateOffered(role)
    case "vehicles" => VehicleManagement.CreateOffered(role)
    case "drivers" => DriverManagement.CreateOffered(role)
    case "routes" => RouteManagement.CreateOffered(role)
    case "invoice" => InvoiceManagement.CreateOffered(role)
    case "customers" => CustomerManagement.CreateOffered(role)
    case "payments" => PaymentManagement.CreateOffered(role)
    case _ => false
  }

  /** Whether the create action is offered on tab `k` of the table, in terms of the
      roles that tab lists. */
  lemma CreateOnTab(k: nat, role: string)
    requires k < |TabConfig| && role in TabConfig[k].roles
    ensures CreateOfferedOn(TabConfig[k].value, role) <==> !(role == Accounts && k == 0)
  {
  }

  /** On every tab a staff role can see, the create action is offered, with one
      exception: accounts see the LR list but cannot create receipts. */
  lemma CreateOnVisibleTabs(role: string)
    ensures forall t :: t in VisibleTabs(role) ==>
      (CreateOfferedOn(t.value, role) <==> !(role == Accounts && t.value == "lr"))
  {
    VisibleTabsSpec(role);
    forall t | t in VisibleTabs(role)
      ensures CreateOfferedOn(t.value, role) <==> !(role == Accounts && t.value == "lr")
    {
      var k :| 0 <= k < |TabConfig| && TabConfig[k] == t;
      CreateOnTab(k, role);
    }
  }

  /** A transport user lands on the LR panel with no tabs and no create action, and
      an accounts user sees the LR tab without its create action. */
  lemma LandingWithoutCreate()
    ensures InitialPanel(Transport) == "lr" && VisibleTabs(Transport) == [] &&
      !CreateOfferedOn("lr", Transport)
    ensures "lr" in Values(VisibleTabs(Accounts)) && !CreateOfferedOn("lr", Accounts)
  {
    UnlistedRoleSeesNoTabs(Transport);
    AccountsTabValues();
  }
}
