# TMS dashboard: a Dafny model

This project models the logic of a transport-management dashboard: lorry receipts (LRs),
delivery challans, invoices, payments, vehicles, drivers, routes and customers. All of its
data lives in component state. The model covers:

- **The eight list screens.** Each holds its records in a state array. A search box and a
  status dropdown filter the array. A "create" dialog prepends a fresh record, but only
  when the required fields are filled in. A status change rewrites the record with the
  given id. Cards above each list fold the array into counts and sums. Each screen is a
  module with a class (`LRManagement.LRStore`, ...) holding a `seq` field. Its
  `Create`/`SetStatus` methods state the new state through pure functions, and lemmas
  state the properties of those functions.
- **The three older list screens.** The older LR, challan and invoice lists differ in
  search fields, in gating, and in one faulty JSX expression.
- **The detail views.** They cover:
  - the forward-only status buttons of the LR and challan views;
  - the challan delay in hours and its "late" label;
  - the invoice "Pay" and "Issue" actions;
  - the expiry labels of vehicle documents and driving licences.
- **The staff dashboard.** It shows the tabs a role may see, in configuration order.
- **The staff login route.** It does a first-match credential lookup and answers with the
  user without its password.
- **The customer portal's shipment and invoice lists.**

Conventions used throughout:

- Strings are `seq<char>`.
- Timestamps are integer epoch milliseconds (`Common.Stamp`).
- The clock, fresh ids and today's date string are parameters.
- A numeric form field is a `NumInput`: the typed text plus what `parseInt`/`parseFloat`
  yields, with `None` standing for NaN.
- Where the code computes with fractional rupees (LR freight, the enhanced invoices), the
  model uses `real`.

Shared helpers:

- `Text`: ASCII lower-casing, substring search and the zero-padded document numbers.
- `Seqs`: filter, sum, map and first-match, with their lemmas.
- `Common`: the option type, roles, parsed inputs and the "all"/status dropdown.

A few behaviours of the code are easy to misread, so they are stated outright:

- **Payment status.** Only an exactly zero balance is "paid", so an overpayment is
  "partial" (`PaymentManagement.StatusOfSpec`).
- **Vehicle document expiry.** The vehicle view counts whole days left and calls 1 to 30
  "expiring soon", so less than one whole day left is "Valid"
  (`VehicleDetail.ExpiryStatusSpec`, `VehicleDetail.LastDayIsValid`).
- **Driving licence expiry.** The driver view tests `< 30` days with no lower bound, so an
  expired licence is also "expiring soon" and exactly 30 days left is "Valid"
  (`DriverDetail.LicenseLabelSpec`, `DriverDetail.RulesDisagree`).
- **Status transitions.** The list screens' `handleStatusChange` accepts any status,
  backward moves included; only the detail views' buttons move forward
  (`LRDetail.StoreAllowsBackwardMove`, `LRDetail.ClickMovesForward`).
- **Delivery stamp.** Only the challan screen stamps `actualArrival` on "delivered"
  (`ChallanManagement.WithStatus`); the LR screen's status change touches nothing but
  the status (`LRManagement.WithStatus`).

## Model

| member | source | states |
|---|---|---|
| Text.LowerIdempotent | components/lr-management-enhanced.tsx:86-88 | lower-casing twice is lower-casing once, as the search lower-cases both sides |
| Text.ContainsIffOccurs | components/lr-management-enhanced.tsx:86-88 | `includes` holds exactly when the term occurs at some position of the field |
| Text.EmptyTermMatches | components/lr-management-enhanced.tsx:84-93 | the empty search term matches every field |
| Text.DocNumberRoundTrip | components/lr-management-enhanced.tsx:99 | `prefix + String(n).padStart(3, "0")` starts with the prefix, then holds only digits that read back as n, and has three digits when n < 1000 |
| Text.DocNumberInjective | components/lr-management-enhanced.tsx:99 | distinct counts give distinct document numbers |
| Seqs.FilterSpec | components/lr-management-enhanced.tsx:84-93 | `Array.filter` keeps exactly the elements satisfying the predicate, each as many times as in the list (multiset count), in order, and never grows the list |
| Seqs.FilterAppend | components/lr-management-enhanced.tsx:109 | filtering a prepended list filters the head and the rest separately |
| Seqs.FindFirst | app/api/auth/login/route.ts:15 | `find`: -1 exactly when nothing matches, otherwise the index of the first match |
| LRManagement.FilterLRsSpec | components/lr-management-enhanced.tsx:84-93 | an LR is listed iff LR number, consigner or consignee contains the term and the dropdown is "all" or its status; the listing is an ordered subsequence, with every listed record as many times as in the list |
| LRManagement.FilterLRsEverything | components/lr-management-enhanced.tsx:84-93 | the empty term with "all" lists every LR |
| LRManagement.FilterAfterPrepend | components/lr-management-enhanced.tsx:84-93 | after a prepend, the listing is the new LR (if it matches) followed by the old listing |
| LRManagement.NewLRSpec | components/lr-management-enhanced.tsx:97-108 | a new LR is "created", keeps the typed consigner, consignee, origin and destination and is dated today; its number is "LR-2024-" plus digits reading back as old length + 1, 11 characters below 999 LRs; unparsable weight and rate are 0 |
| LRManagement.WithStatus | components/lr-management-enhanced.tsx:121-124 | every LR with the id gets the new status and keeps all other fields; other LRs and the length are unchanged |
| LRManagement.WithStatusIdempotent | components/lr-management-enhanced.tsx:121-124 | applying the same status change twice is the same as once |
| LRManagement.StatsBounded | components/lr-management-enhanced.tsx:139-144 | in-transit plus delivered never exceeds the total |
| LRManagement.StatsAfterCreate | components/lr-management-enhanced.tsx:139-144 | a created LR leaves the in-transit and delivered counts alone and adds its freight to revenue |
| LRManagement.SeedStats | components/lr-management-enhanced.tsx:26-63 | the seed LRs give one in transit, one delivered and revenue 42020 |
| LRManagement.LRStore.constructor | components/lr-management-enhanced.tsx:70 | the store starts with the seed LRs |
| LRManagement.LRStore.Create | components/lr-management-enhanced.tsx:95-119 | a no-op unless consigner and destination are filled; otherwise the new LR is prepended and the old ones follow unchanged |
| LRManagement.LRStore.SetStatus | components/lr-management-enhanced.tsx:121-124 | the new state is the id-wise status rewrite of the old |
| ChallanManagement.FilterChallansSpec | components/challan-management-enhanced.tsx:76-86 | a challan is listed iff challan, LR or vehicle number or driver contains the term and the dropdown admits its status; ordered subsequence, with every listed record as many times as in the list |
| ChallanManagement.FilterChallansEverything | components/challan-management-enhanced.tsx:76-86 | the empty term with "all" lists every challan |
| ChallanManagement.NewChallanSpec | components/challan-management-enhanced.tsx:91-102 | a new challan is "pending" on route "TBD" with no arrival; its number is "CH-2024-" plus digits reading back as old length + 1 |
| ChallanManagement.WithStatus | components/challan-management-enhanced.tsx:114-131 | matching challans get the status, and "delivered" also stamps `actualArrival` with now; other targets keep it; other challans are unchanged |
| ChallanManagement.DeliveredStampedInvariant | components/challan-management-enhanced.tsx:114-131 | "every delivered challan has an arrival stamp" holds for the seeds and is kept by create and by every status change |
| ChallanManagement.StatsPartition | components/challan-management-enhanced.tsx:146-151 | pending + in transit + delivered = total |
| ChallanManagement.ChallanStore.constructor | components/challan-management-enhanced.tsx:63 | the store starts with the seed challans |
| ChallanManagement.ChallanStore.Create | components/challan-management-enhanced.tsx:88-112 | a no-op unless LR and vehicle number are filled; otherwise prepends the new challan |
| ChallanManagement.ChallanStore.SetStatus | components/challan-management-enhanced.tsx:114-131 | the new state is the id-wise status rewrite, with the delivery stamp |
| InvoiceManagement.FilterInvoicesSpec | components/invoice-management-enhanced.tsx:80-89 | an invoice is listed iff invoice number, LR number or consigner contains the term and the dropdown admits its status; ordered subsequence, with every listed record as many times as in the list |
| InvoiceManagement.FilterInvoicesEverything | components/invoice-management-enhanced.tsx:80-89 | the empty term with "all" lists every invoice |
| InvoiceManagement.NewInvoiceSpec | components/invoice-management-enhanced.tsx:93-106 | a new invoice is "draft" with nothing paid, keeps the typed LR number, consigner and consignee, and carries today's date and the due date; GST is the typed value (0 if unparsable), not computed; number "INV-2024-" plus digits reading back as old length + 1 |
| InvoiceManagement.WithStatus | components/invoice-management-enhanced.tsx:118-131 | matching invoices get the status, and the paid amount only when one is passed; other invoices are unchanged |
| InvoiceManagement.StatsBalance | components/invoice-management-enhanced.tsx:148-155 | paid total + pending card + what was received on unpaid invoices = the sum of all amounts |
| InvoiceManagement.InvoiceStore.constructor | components/invoice-management-enhanced.tsx:67 | the store starts with the seed invoices |
| InvoiceManagement.InvoiceStore.Create | components/invoice-management-enhanced.tsx:91-116 | a no-op unless LR number, consigner and amount are filled; otherwise prepends the new invoice |
| InvoiceManagement.InvoiceStore.SetStatus | components/invoice-management-enhanced.tsx:118-131 | the new state is the id-wise status/paid-amount rewrite |
| PaymentManagement.StatusOfSpec | components/payment-management-enhanced.tsx:121-134 | "paid" iff paid equals the invoice, "partial" iff it differs and is positive, else "unpaid"; an overpayment is "partial", 0 paid on a non-zero invoice "unpaid", 0/0 "paid" |
| PaymentManagement.SeedConsistent | components/payment-management-enhanced.tsx:28-85 | every seed payment has remaining = invoice − paid and the status the rule gives |
| PaymentManagement.FilterPaymentsSpec | components/payment-management-enhanced.tsx:108-117 | a payment is listed iff invoice number, consigner or transaction ref contains the term and the dropdown admits its status; ordered subsequence, with every listed record as many times as in the list |
| PaymentManagement.FilterPaymentsEverything | components/payment-management-enhanced.tsx:108-117 | the empty term with "all" lists every payment |
| PaymentManagement.NewPaymentSpec | components/payment-management-enhanced.tsx:119-138 | a recorded payment is consistent (remaining and status follow from the two amounts); unparsable amounts count as 0 |
| PaymentManagement.RecordKeepsConsistent | components/payment-management-enhanced.tsx:119-151 | recording keeps every payment in the ledger consistent |
| PaymentManagement.StatusCountsPartition | components/payment-management-enhanced.tsx:166-173 | paid + partial + unpaid = total |
| PaymentManagement.CollectedPlusOutstanding | components/payment-management-enhanced.tsx:166-173 | on a consistent ledger, collected + outstanding = the sum of invoice amounts |
| PaymentManagement.PaymentStore.constructor | components/payment-management-enhanced.tsx:92 | the ledger starts with the seed payments and is consistent |
| PaymentManagement.PaymentStore.Record | components/payment-management-enhanced.tsx:119-151 | a no-op unless invoice number and paid amount are filled; otherwise prepends the new payment; consistency is kept |
| VehicleManagement.FilterVehiclesSpec | components/vehicle-management-enhanced.tsx:93-102 | a vehicle is listed iff number, owner or type contains the term and the dropdown admits its status; ordered subsequence, with every listed record as many times as in the list |
| VehicleManagement.FilterVehiclesEverything | components/vehicle-management-enhanced.tsx:93-102 | the empty term with "all" lists every vehicle |
| VehicleManagement.NewVehicleSpec | components/vehicle-management-enhanced.tsx:106-118 | a new vehicle is "active" with no trips and no load; unparsable capacity is 0 |
| VehicleManagement.WithStatus | components/vehicle-management-enhanced.tsx:133-136 | only matching vehicles change, and only in status |
| VehicleManagement.StatsBounded | components/vehicle-management-enhanced.tsx:151-156 | active + maintenance never exceeds the total |
| VehicleManagement.StatsAfterCreate | components/vehicle-management-enhanced.tsx:151-156 | a new vehicle adds one to active and its capacity to the total capacity |
| VehicleManagement.VehicleStore.constructor | components/vehicle-management-enhanced.tsx:78 | the store starts with the seed vehicles |
| VehicleManagement.VehicleStore.Create | components/vehicle-management-enhanced.tsx:104-131 | a no-op unless number and type are filled; otherwise prepends the new vehicle |
| VehicleManagement.VehicleStore.SetStatus | components/vehicle-management-enhanced.tsx:133-136 | the new state is the id-wise status rewrite |
| DriverManagement.FilterDriversSpec | components/driver-management-enhanced.tsx:97-106 | a driver is listed iff name or licence contains the lower-cased term or the phone contains the raw term, and the dropdown admits its status; ordered subsequence, with every listed record as many times as in the list |
| DriverManagement.FilterDriversEverything | components/driver-management-enhanced.tsx:97-106 | the empty term with "all" lists every driver |
| DriverManagement.WithStatus | components/driver-management-enhanced.tsx:138-141 | only matching drivers change, and only in status |
| DriverManagement.ActiveAfterCreate | components/driver-management-enhanced.tsx:108-161 | active ≤ total; a new driver is "active" with zero trips, rating and on-time share, and adds one to the active count |
| DriverManagement.DriverStore.constructor | components/driver-management-enhanced.tsx:82 | the store starts with the seed drivers |
| DriverManagement.DriverStore.Create | components/driver-management-enhanced.tsx:108-136 | a no-op unless name and licence are filled; otherwise prepends the new driver |
| DriverManagement.DriverStore.SetStatus | components/driver-management-enhanced.tsx:138-141 | the new state is the id-wise status rewrite |
| RouteManagement.FilterRoutesSpec | components/route-management-enhanced.tsx:118-127 | a route is listed iff name, origin or destination contains the term and the dropdown admits its status; ordered subsequence, with every listed record as many times as in the list |
| RouteManagement.FilterRoutesEverything | components/route-management-enhanced.tsx:118-127 | the empty term with "all" lists every route |
| RouteManagement.WithStatus | components/route-management-enhanced.tsx:161-164 | only matching routes change, and only in status |
| RouteManagement.StatsBounded | components/route-management-enhanced.tsx:177-182 | active ≤ total, and active + inactive ≤ total |
| RouteManagement.StatsAfterCreate | components/route-management-enhanced.tsx:129-182 | a new route is "active" with zeroed counters and unparsable inputs 0; it adds one active route and its distance, and no shipments |
| RouteManagement.StatusChangeKeepsTotals | components/route-management-enhanced.tsx:161-182 | a status change leaves total distance and total shipments unchanged |
| RouteManagement.RouteStore.constructor | components/route-management-enhanced.tsx:102 | the store starts with the seed routes |
| RouteManagement.RouteStore.Create | components/route-management-enhanced.tsx:129-159 | a no-op unless name, origin and destination are filled; otherwise prepends the new route |
| RouteManagement.RouteStore.SetStatus | components/route-management-enhanced.tsx:161-164 | the new state is the id-wise status rewrite |
| CustomerManagement.FilterCustomersSpec | components/customer-management-enhanced.tsx:107-116 | a customer is listed iff company, contact person or GST number contains the term and the dropdown admits its status; ordered subsequence, with every listed record as many times as in the list |
| CustomerManagement.FilterCustomersEverything | components/customer-management-enhanced.tsx:107-116 | the empty term with "all" lists every customer |
| CustomerManagement.WithStatus | components/customer-management-enhanced.tsx:152-155 | only matching customers change, and only in status |
| CustomerManagement.StatsAfterCreate | components/customer-management-enhanced.tsx:118-175 | a new customer is "active" with zero shipments, revenue and balance; active ≤ total; it adds one active and nothing to revenue or outstanding |
| CustomerManagement.StatusChangeKeepsTotals | components/customer-management-enhanced.tsx:152-175 | a status change leaves revenue and outstanding totals unchanged |
| CustomerManagement.CustomerStore.constructor | components/customer-management-enhanced.tsx:90 | the store starts with the seed customers |
| CustomerManagement.CustomerStore.Create | components/customer-management-enhanced.tsx:118-150 | a no-op unless company name and GST number are filled; otherwise prepends the new customer |
| CustomerManagement.CustomerStore.SetStatus | components/customer-management-enhanced.tsx:152-155 | the new state is the id-wise status rewrite |
| LRDetail.IndexOf | components/lr-detail-view.tsx:31-32 | `indexOf` in [created, in_transit, delivered]: the position of the status, or -1 exactly when absent |
| LRDetail.IndexOfValues | components/lr-detail-view.tsx:19-32 | created, in transit, delivered sit at 0, 1, 2; "pending" is -1 |
| LRDetail.RevenueIsSumOfValues | components/lr-detail-view.tsx:29 | the view's weight·(rate/1000) equals the list's weight·rate/1000, so revenue is the sum of the views' values |
| LRDetail.ClickMovesForward | components/lr-detail-view.tsx:99-110 | a button emits a status iff the section is shown and its index is past the current one; what it emits is strictly later in the progression |
| LRDetail.PendingEnablesAll | components/lr-detail-view.tsx:19-32 | for a "pending" LR all three buttons, "created" included, are enabled |
| LRDetail.NoClickWhenHidden | components/lr-detail-view.tsx:99 | no status is emitted for a delivered LR or a role other than admin or operations |
| LRDetail.ClickThenStore | components/lr-detail-view.tsx:103-108 | a click followed by the store's status change moves the LR strictly forward |
| LRDetail.StoreAllowsBackwardMove | components/lr-management-enhanced.tsx:121-124 | the store itself accepts a move back to "created" |
| ChallanDetail.IndexOf | components/challan-detail-view.tsx:39-40 | `indexOf` in [pending, in_transit, delivered]: the position of the status, or -1 exactly when absent |
| ChallanDetail.IndexOfValues | components/challan-detail-view.tsx:39-40 | pending, in transit, delivered sit at 0, 1, 2 |
| ChallanDetail.RoundToHoursSpec | components/challan-detail-view.tsx:46 | `Math.round(d / 3600000)` is the unique h with 3600000·h − 1800000 ≤ d < 3600000·h + 1800000 |
| ChallanDetail.LateIff | components/challan-detail-view.tsx:42-50 | no arrival gives no delay; "late" shows iff the rounded delay is positive; arriving more than half an hour early gives a negative delay |
| ChallanDetail.SeedDelays | components/challan-detail-view.tsx:122-127 | on the seed challans: no delay for the one in transit, 0 hours (on time) for the delivered one |
| ChallanDetail.ClickMovesForward | components/challan-detail-view.tsx:138-147 | a button emits a status iff the section is shown and its index is past the current one; what it emits is strictly later |
| ChallanDetail.ClickThenStore | components/challan-detail-view.tsx:138-147 | a click then the store's change moves the challan forward, and a "delivered" click stamps the arrival |
| InvoiceDetail.MarkPaidSpec | components/invoice-detail-view.tsx:47-52 | "Pay" emits iff the entry parses to a positive amount, and then emits "paid" with old paid + entry, even when that is below the amount |
| InvoiceDetail.PayDefaultSettles | components/invoice-detail-view.tsx:42-52 | with the entry left at its default (the remaining amount), paying sets the paid amount to the full amount |
| InvoiceDetail.IssueKeepsPaid | components/invoice-detail-view.tsx:54-56 | "Issue" emits "issued" with no amount, so the store keeps the paid amount |
| InvoiceDetail.TotalWithGstSums | components/invoice-detail-view.tsx:44 | the dialog's amount + GST, summed over any list of invoices, equals the list's "Total Amount" plus its "Total GST" (invoice-management-enhanced.tsx:148-155): GST is added on top, never folded into the amount |
| VehicleDetail.ExpiryStatusSpec | components/vehicle-detail-view.tsx:40-61 | exactly one label: Expired iff the expiry is before now, Expiring Soon iff 1 to 30 whole days remain, Valid otherwise |
| VehicleDetail.LastDayIsValid | components/vehicle-detail-view.tsx:43-44 | less than one whole day left is "Valid" |
| VehicleDetail.CertificatesIndependent | components/vehicle-detail-view.tsx:63-64 | changing one certificate's expiry leaves the other's label unchanged |
| VehicleDetail.PickReachesEveryStatus | components/vehicle-detail-view.tsx:170-183 | admin and operations can pick any status, which the store then sets; other roles pick nothing |
| DriverDetail.LicenseLabelSpec | components/driver-detail-view.tsx:41-43 | every expired licence is also "expiring soon"; the badge shows Expired, else Expiring Soon (under 30 days), else Valid |
| DriverDetail.RulesDisagree | components/driver-detail-view.tsx:41-43 | unlike the vehicle rule, under a day left is "expiring soon" and exactly 30 days is "Valid" |
| DriverDetail.PickReachesEveryStatus | components/driver-detail-view.tsx:168-180 | admin and operations can pick any status, which the store then sets; other roles pick nothing |
| Dashboard.VisibleTabsSpec | app/dashboard/page.tsx:134 | a tab is shown iff its roles include the user's role, in configuration order |
| Dashboard.LastFourTabs | app/dashboard/page.tsx:74-95 | of the last four tabs, admin sees all, operations only "routes", accounts the last three |
| Dashboard.AdminTabs | app/dashboard/page.tsx:54-95 | admin sees all eight tabs |
| Dashboard.OperationsTabs | app/dashboard/page.tsx:54-79 | operations sees exactly lr, challan, vehicles, drivers, routes |
| Dashboard.AccountsTabs | app/dashboard/page.tsx:54-95 | accounts sees the LR tab followed by the last three tabs |
| Dashboard.AccountsTabValues | app/dashboard/page.tsx:54-95 | accounts sees exactly lr, invoice, customers, payments |
| Dashboard.UnlistedRoleSeesNoTabs | app/dashboard/page.tsx:134 | transport or any unlisted role sees no tabs |
| Dashboard.CreateOnTab | app/dashboard/page.tsx:157-187 | on each tab a role can see, create is offered except accounts on the LR tab |
| Dashboard.CreateOnVisibleTabs | app/dashboard/page.tsx:134-187 | on every visible tab, create is offered iff it is not accounts on "lr" |
| Dashboard.LandingWithoutCreate | app/dashboard/page.tsx:123 | the opening panel is "lr" for every role: transport lands there with no tabs and no create, accounts without create |
| Login.PostSpec | app/api/auth/login/route.ts:15-25 | 200 iff some entry has both the email and the password, with the first such entry stripped; 401 with its message iff none; 500 with its message iff the body is unreadable |
| Login.OneAccountPerRole | app/api/auth/login/route.ts:4-9 | four distinct emails, four distinct roles, exactly the four staff roles |
| Login.MatchIsUnique | app/api/auth/login/route.ts:4-15 | at most one entry matches any credentials |
| Login.OwnCredentialsLogIn | app/api/auth/login/route.ts:15-23 | every account logs in with its own credentials and comes back as itself |
| Login.DemoLogins | app/api/auth/login/route.ts:4-23 | the four demo logins succeed with their users |
| Login.WrongPasswordRefused | app/api/auth/login/route.ts:15-18 | the admin email with any other password gets the 401 |
| LegacyLRManagement.FilterLRsSpec | components/lr-management.tsx:78-83 | an LR is listed iff LR number, consigner or consignee contains the term, whatever its status; ordered subsequence, with every listed record as many times as in the list |
| LegacyLRManagement.SameAsAllStatus | components/lr-management.tsx:78-83 | the older search lists exactly what the enhanced list shows under "all" |
| LegacyLRManagement.CreateGate | components/lr-management.tsx:135 | create is shown iff the role is admin or operations |
| LegacyLRManagement.LegacyLRStore.constructor | components/lr-management.tsx:67 | the store starts with the seed LRs |
| LegacyLRManagement.LegacyLRStore.Create | components/lr-management.tsx:85-109 | a no-op unless consigner and destination are filled; otherwise prepends the new LR |
| LegacyChallanManagement.FilterChallansSpec | components/challan-management.tsx:57-62 | a challan is listed iff challan, LR or vehicle number contains the term; ordered subsequence, with every listed record as many times as in the list |
| LegacyChallanManagement.DriverNotSearched | components/challan-management.tsx:57-62 | renaming drivers does not change which challans are listed |
| LegacyChallanManagement.NewChallanSpec | components/challan-management.tsx:66-75 | a new challan is "pending" on route "TBD", keeps the typed fields, numbered "CH-2024-" + old length + 1 |
| LegacyChallanManagement.CreateOpenToAll | components/challan-management.tsx:105 | the older list renders its create dialog with no role test, as the enhanced list does (challan-management-enhanced.tsx:201); the lemma states it on the shared `ChallanManagement.CreateOffered`, which holds for every role |
| LegacyChallanManagement.LegacyChallanStore.constructor | components/challan-management.tsx:49 | the store starts with the seed challans |
| LegacyChallanManagement.LegacyChallanStore.Create | components/challan-management.tsx:64-79 | a no-op unless LR and vehicle number are filled; otherwise prepends the new challan |
| LegacyInvoiceManagement.FilterInvoicesSpec | components/invoice-management.tsx:58-63 | an invoice is listed iff invoice number, LR number or consigner contains the term; ordered subsequence, with every listed record as many times as in the list |
| LegacyInvoiceManagement.NewInvoiceSpec | components/invoice-management.tsx:66-76 | a new invoice is "draft", keeps the typed LR number and consigner, numbered "INV-2024-" + old length + 1, amount `parseInt` or 0 |
| LegacyInvoiceManagement.PendingIsUnpaidSum | components/invoice-management.tsx:97-113 | the Pending card (total − paid) is the sum of the amounts of the non-paid invoices |
| LegacyInvoiceManagement.SeedTotals | components/invoice-management.tsx:22-43 | the seed cards read 8000 total, 3000 paid, 5000 pending |
| LegacyInvoiceManagement.AdminGetsNoDialog | components/invoice-management.tsx:126-127 | as written, the create dialog renders iff the role is accounts |
| LegacyInvoiceManagement.CreateDialogCorrected | components/invoice-management.tsx:126-127 | as intended, it renders iff admin or accounts, like the enhanced list, and differs from the written one exactly for admin |
| LegacyInvoiceManagement.LegacyInvoiceStore.constructor | components/invoice-management.tsx:50 | the store starts with the seed invoices |
| LegacyInvoiceManagement.LegacyInvoiceStore.Create | components/invoice-management.tsx:65-80 | a no-op unless LR number, consigner and amount text are filled; otherwise prepends the new invoice |
| CustomerShipments.FilterShipmentsSpec | components/customer-shipments.tsx:78-84 | a shipment is listed iff it belongs to the customer and its LR number or destination contains the term; ordered subsequence, with every listed record as many times as in the list |
| CustomerShipments.EmptySearchListsAll | components/customer-shipments.tsx:80-84 | an empty search lists all the customer's shipments |
| CustomerShipments.NoneFoundIff | components/customer-shipments.tsx:124-148 | the "No shipments found" row appears iff nothing matches; otherwise the rows are the listing |
| CustomerShipments.UnknownCustomerSeesNone | components/customer-shipments.tsx:78 | an unknown customer has no shipments and sees the empty row |
| CustomerShipments.LiveTrackingNeeds | components/customer-shipments.tsx:176 | the panel never shows for a shipment not in transit or with a missing or empty vehicle number, shows when both hold, and ignores the driver |
| CustomerShipments.LiveTrackingIffInTransit | components/customer-shipments.tsx:176 | for every customer, the panel shows on exactly the shipments in transit, since each of those has a vehicle |
| CustomerShipments.LiveTrackingOnSeeds | components/customer-shipments.tsx:176 | only the in-transit shipment with a vehicle shows live tracking |
| CustomerInvoices.FilterInvoicesSpec | components/customer-invoices.tsx:67-73 | an invoice is listed iff it belongs to the customer and its invoice or LR number contains the term; ordered subsequence, with every listed record as many times as in the list |
| CustomerInvoices.EmptySearchListsAll | components/customer-invoices.tsx:69-73 | an empty search lists all the customer's invoices |
| CustomerInvoices.PaidPlusPending | components/customer-invoices.tsx:75-79 | paid + pending = total, since "paid" splits the listing in two |
| CustomerInvoices.PendingCountsFullAmount | components/customer-invoices.tsx:78 | pending counts the full amount of each non-paid invoice |
| CustomerInvoices.NoneFoundIff | components/customer-invoices.tsx:142-168 | the "No invoices found" row appears iff nothing matches, and then all cards are 0 |
| CustomerInvoices.UnknownCustomerSeesNone | components/customer-invoices.tsx:67 | an unknown customer has no invoices and sees the empty row |

## Left out

- Number parsing: `parseInt`/`parseFloat` are not modelled. A numeric field carries its text and the parsed value (`None` for NaN), and `|| 0` is modelled on that.
- Dates: ISO date parsing, time zones and `toISOString` are not modelled. Date strings, due dates and `Date.now()` ids are parameters. Timestamps are integer milliseconds, and an unparsable date is a `Stamp` with no milliseconds.
- The clock: the separate `new Date()` calls in one expiry check are taken as one instant `now`.
- Floating point: amounts the code keeps as JavaScript numbers are `int` where the seeds and inputs are whole rupees, and `real` where the code divides or parses floats. No rounding error is modelled.
- Lower-casing: only A–Z are lower-cased. `toLowerCase` on other scripts is not modelled.
- Status strings: statuses are enums. The views only ever emit members of the enum.
- Rendering: JSX, colours, dialogs' open/close state, `toLocaleString`/`toFixed`, and the analytics page and charts are presentation.
- Driver averages: the driver list's average-rating and on-time cards (components/driver-management-enhanced.tsx:159-160) are float-only displays.
- Payment displays: the collection percentage and the payment, customer and route detail views' percentage displays are float-only displays.
- Sessions and navigation: localStorage, router redirects and the customer login page are browser state. The customer login's lookup is the same first-match rule as `Login.Post`.
- HTTP plumbing: `request.json()` and `NextResponse` are library I/O. The route is modelled as a function from the destructured body (or `None` when reading it throws) to status and body.
- Customer tables: JavaScript prototype keys (e.g. looking up "toString") in the customer tables are not modelled. Any name outside the table yields the empty list.
- Timers: `setTimeout` in the support widget and the header components hold no logic of the core.

## Findings

| source | as written | input that shows it | evidently intended | confidence | as-written member | corrected member |
|---|---|---|---|---|---|---|
| components/invoice-management.tsx:126-127 | `userRole === "admin" \|\| (userRole === "accounts" && <Dialog/>)`: for admin the `\|\|` yields `true`, which React renders as nothing | role "admin": no "Create Invoice" dialog is rendered | `(admin \|\| accounts) && <Dialog/>`: admin and accounts both get the dialog, as in the enhanced list (components/invoice-management-enhanced.tsx:212) | not executed | LegacyInvoiceManagement.AdminGetsNoDialog | LegacyInvoiceManagement.CreateDialogCorrected |
