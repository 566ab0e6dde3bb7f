/** The orders screen: three tabs filter a fixed order list, and each order's status picks
    its badge colour, icon, label and action buttons. */
module Orders {
  import opened Wrappers
  import Seqs
  import Text

  datatype Status = Delivered | Shipped | Processing | Cancelled

  /** One order; `total` is in paise. */
  datatype Order = Order(id: string, orderNumber: string, date: string, items: nat, total: nat,
                         status: Status, trackingId: Option<string>)

  datatype Tab = AllTab | ProcessingTab | DeliveredTab

  /** The badge icons. */
  datatype Icon = CheckCircle | Truck | Clock | XCircle

  /** The four orders the screen lists. */
  function SampleOrders(): seq<Order> {
    [ Order("1", "ORD-2024-001", "Feb 20, 2026", 3, 45050, Delivered, Some("TRK123456789")),
      Order("2", "ORD-2024-002", "Feb 22, 2026", 2, 32000, Shipped, Some("TRK987654321")),
      Order("3", "ORD-2024-003", "Feb 23, 2026", 1, 12500, Processing, None),
      Order("4", "ORD-2024-004", "Feb 18, 2026", 5, 68000, Cancelled, None) ]
  }

  /** The status as the data spells it. */
  function StatusName(s: Status): string {
    match s
    case Delivered => "delivered"
    case Shipped => "shipped"
    case Processing => "processing"
    case Cancelled => "cancelled"
  }

  /** Whether an order with status `s` is listed under `tab`: the filter callback. */
  predicate TabAdmits(tab: Tab, s: Status) {
    match tab
    case AllTab => true
    case ProcessingTab => s == Processing || s == Shipped
    case DeliveredTab => s == Delivered
  }

  /** `filteredOrders`: the orders listed under `tab`. */
  function FilterOrders(orders: seq<Order>, tab: Tab): seq<Order> {
    Seqs.Filter(orders, (o: Order) => TabAdmits(tab, o.status))
  }

  /** Every tab lists exactly the orders its test admits, in their original order. */
  lemma FilterOrdersExact(orders: seq<Order>, tab: Tab)
    ensures var r := FilterOrders(orders, tab);
      && (forall i :: 0 <= i < |r| ==> r[i] in orders && TabAdmits(tab, r[i].status))
      && (forall i :: 0 <= i < |orders| && TabAdmits(tab, orders[i].status) ==> orders[i] in r)
      && Seqs.IsSubsequence(r, orders)
  {
    Seqs.FilterIsSubsequence(orders, (o: Order) => TabAdmits(tab, o.status));
  }

  /** The All tab lists every order unchanged. */
  lemma AllTabKeepsEverything(orders: seq<Order>)
    ensures FilterOrders(orders, AllTab) == orders
  {
    Seqs.FilterAllKept(orders, (o: Order) => TabAdmits(AllTab, o.status));
  }

  /** Processing lists shipped and processing orders, Delivered only delivered ones, so a
      cancelled order is listed under All and nowhere else. */
  lemma TabMembership(tab: Tab, s: Status)
    ensures tab == ProcessingTab ==> (TabAdmits(tab, s) <==> s == Processing || s == Shipped)
    ensures tab == DeliveredTab ==> (TabAdmits(tab, s) <==> s == Delivered)
    ensures s == Cancelled ==> (TabAdmits(tab, s) <==> tab == AllTab)
  {
  }

  /** On the sample, the Processing tab lists orders 2 and 3 in that order. */
  lemma SampleProcessingTab()
    ensures FilterOrders(SampleOrders(), ProcessingTab) == [SampleOrders()[1], SampleOrders()[2]]
  {
    var o := SampleOrders();
    var p := (x: Order) => TabAdmits(ProcessingTab, x.status);
    assert o[1..][1..][1..][1..] == [];
    assert Seqs.Filter(o[1..][1..][1..], p) == [];
    assert Seqs.Filter(o[1..][1..], p) == [o[2]];
    assert Seqs.Filter(o[1..], p) == [o[1], o[2]];
  }

  /** The badge colour of a status. */
  function StatusColor(s: Status): string {
    match s
    case Delivered => "#10B981"
    case Shipped => "#3B82F6"
    case Processing => "#F59E0B"
    case Cancelled => "#EF4444"
  }

  /** The badge icon of a status. */
  function StatusIcon(s: Status): Icon {
    match s
    case Delivered => CheckCircle
    case Shipped => Truck
    case Processing => Clock
    case Cancelled => XCircle
  }

  /** The four statuses get four different colours and four different icons. */
  lemma BadgesDistinct(a: Status, b: Status)
    ensures StatusColor(a) == StatusColor(b) ==> a == b
    ensures StatusIcon(a) == StatusIcon(b) ==> a == b
  {
  }

  /** `s.charAt(0).toUpperCase() + s.slice(1)`. */
  function Capitalize(s: string): (r: string)
    ensures |r| == |s|
    ensures s != [] ==> r[0] == Text.UpperChar(s[0]) && r[1..] == s[1..]
  {
    if s == [] then "" else [Text.UpperChar(s[0])] + s[1..]
  }

  /** The badge text: the status with its first letter upper-cased. */
  function StatusLabel(s: Status): string {
    Capitalize(StatusName(s))
  }

  lemma StatusLabels()
    ensures StatusLabel(Delivered) == "Delivered" && StatusLabel(Shipped) == "Shipped"
    ensures StatusLabel(Processing) == "Processing" && StatusLabel(Cancelled) == "Cancelled"
  {
    assert StatusName(Delivered)[1..] == "elivered";
    assert StatusName(Shipped)[1..] == "hipped";
    assert StatusName(Processing)[1..] == "rocessing";
    assert StatusName(Cancelled)[1..] == "ancelled";
  }

  /** The Reorder button of an order card. */
  predicate ShowsReorder(s: Status) {
    s == Delivered
  }

  /** The Track Order button of an order card. */
  predicate ShowsTrackOrder(s: Status) {
    s == Shipped || s == Processing
  }

  /** No card shows both buttons; Track Order appears exactly on the orders the Processing tab
      lists and Reorder exactly on those the Delivered tab lists. */
  lemma ActionButtons(s: Status)
    ensures !(ShowsReorder(s) && ShowsTrackOrder(s))
    ensures ShowsTrackOrder(s) <==> TabAdmits(ProcessingTab, s)
    ensures ShowsReorder(s) <==> TabAdmits(DeliveredTab, s)
  {
  }
}
