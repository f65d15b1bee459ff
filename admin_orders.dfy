/** The order list of the admin area, `pages/admin/orders.tsx`: the search
    and status filter over the fetched orders, the colour and label of the
    status badge, and the status-update dialog. The fetch and the update
    request are not part of this model: the fetched list and the selected
    order are parameters. */
module AdminOrders {
  import opened Base
  import opened Schema
  import opened JsText

  /** `searchQuery === '' || id.toString().includes(q) ||
      shippingAddress.toLowerCase().includes(q.toLowerCase())` */
  predicate MatchesSearch(o: Order, query: string)
  {
    query == ""
    || Includes(IntToString(o.id), query)
    || Includes(ToLowerCase(o.shippingAddress), ToLowerCase(query))
  }

  /** `filterStatus === 'all' || order.status === filterStatus` */
  predicate MatchesStatus(o: Order, filterStatus: string)
  {
    filterStatus == "all" || o.status == filterStatus
  }

  /** `filteredOrders`: `undefined` while nothing is fetched; otherwise the
      orders passing both tests, in their order. */
  function FilteredOrders(orders: Option<seq<Order>>, query: string, filterStatus: string): (r: Option<seq<Order>>)
    ensures r.Some? <==> orders.Some?
    ensures r.Some? ==> IsSubsequence(r.value, orders.value)
    ensures r.Some? ==> forall i :: 0 <= i < |r.value| ==>
      MatchesSearch(r.value[i], query) && MatchesStatus(r.value[i], filterStatus)
    ensures r.Some? && filterStatus != "all" ==> forall i :: 0 <= i < |r.value| ==> r.value[i].status == filterStatus
    ensures r.Some? ==> forall i :: 0 <= i < |orders.value| ==>
      (orders.value[i] in r.value <==> MatchesSearch(orders.value[i], query) && MatchesStatus(orders.value[i], filterStatus))
    ensures r.Some? ==> forall i :: 0 <= i < |orders.value| ==>
      multiset(r.value)[orders.value[i]] ==
        (if MatchesSearch(orders.value[i], query) && MatchesStatus(orders.value[i], filterStatus)
         then multiset(orders.value)[orders.value[i]] else 0)
  {
    match orders
    case None => None
    case Some(os) =>
      var kept := Filter(os, (o: Order) => MatchesSearch(o, query) && MatchesStatus(o, filterStatus));
      FilterCounts(os, (o: Order) => MatchesSearch(o, query) && MatchesStatus(o, filterStatus));
      assert forall i :: 0 <= i < |kept| ==> MatchesSearch(kept[i], query) && MatchesStatus(kept[i], filterStatus);
      Some(kept)
  }

  /** With an empty search and the status 'all', every order is listed. */
  lemma EmptySearchListsAll(orders: seq<Order>)
    ensures FilteredOrders(Some(orders), "", "all") == Some(orders)
  {
    FilterKeepsAll(orders, (o: Order) => MatchesSearch(o, "") && MatchesStatus(o, "all"));
  }

  /** An order matches the search exactly when its decimal id contains the
      query or its lower-cased address contains the lower-cased query: the
      empty-query test is subsumed, since every string contains "". */
  lemma SearchIsContainment(o: Order, query: string)
    ensures MatchesSearch(o, query) <==>
      Includes(IntToString(o.id), query) || Includes(ToLowerCase(o.shippingAddress), ToLowerCase(query))
  {
    if query == "" {
      IncludesEmpty(IntToString(o.id));
    }
  }

  /** In a string without letters, a query is found exactly when its
      lower-cased form is: a query with a letter is found in neither form. */
  lemma IncludesIgnoresCaseWithoutLetters(s: string, query: string)
    requires forall i :: 0 <= i < |s| ==> !IsUpper(s[i]) && !IsLower(s[i])
    ensures Includes(s, query) <==> Includes(s, ToLowerCase(query))
  {
    var lowered := ToLowerCase(query);
    if forall j :: 0 <= j < |query| ==> !IsUpper(query[j]) {
      LowerCaseFixesLower(query);
    } else {
      var j :| 0 <= j < |query| && IsUpper(query[j]);
      assert IsLower(lowered[j]);
      IncludesAt(s, query);
      IncludesAt(s, lowered);
      forall k | 0 <= k <= |s| - |query|
        ensures !OccursAt(s, query, k) && !OccursAt(s, lowered, k)
      {
        assert s[k..k + |query|][j] == s[k + j];
      }
    }
  }

  /** The search ignores the case of the query. */
  lemma SearchIgnoresCase(o: Order, query: string)
    ensures MatchesSearch(o, query) <==> MatchesSearch(o, ToLowerCase(query))
  {
    var id := IntToString(o.id);
    assert forall i :: 0 <= i < |id| ==> !IsUpper(id[i]) && !IsLower(id[i]) by {
      if o.id < 0 {
        forall i | 0 <= i < |id|
          ensures !IsUpper(id[i]) && !IsLower(id[i])
        {
          if i > 0 {
            assert id[i] == NatToString(-o.id)[i - 1];
          }
        }
      }
    }
    IncludesIgnoresCaseWithoutLetters(id, query);
    LowerCaseFixesLower(ToLowerCase(query));
  }

  /** The badge colour `OrderStatusBadge` picks for a status: gray for
      every value outside the five known statuses, and only for those. */
  function BadgeClass(status: string): (r: string)
    ensures r == Gray <==> status !in KnownStatuses
  {
    assert Gray[3] == 'g' && Gray[5] == 'a';
    assert "bg-yellow-100 text-yellow-800"[3] == 'y';
    assert "bg-blue-100 text-blue-800"[3] == 'b';
    assert "bg-purple-100 text-purple-800"[3] == 'p';
    assert "bg-green-100 text-green-800"[5] == 'e';
    assert "bg-red-100 text-red-800"[3] == 'r';
    match status
    case "pending" => "bg-yellow-100 text-yellow-800"
    case "processing" => "bg-blue-100 text-blue-800"
    case "shipped" => "bg-purple-100 text-purple-800"
    case "delivered" => "bg-green-100 text-green-800"
    case "cancelled" => "bg-red-100 text-red-800"
    case _ => "bg-gray-100 text-gray-800"
  }

  /** The statuses the badge knows. */
  const KnownStatuses: seq<string> := ["pending", "processing", "shipped", "delivered", "cancelled"]

  const Gray := "bg-gray-100 text-gray-800"

  /** The five known statuses get five different colours. */
  lemma KnownBadgesDistinct()
    ensures forall i, j :: 0 <= i < j < |KnownStatuses| ==> BadgeClass(KnownStatuses[i]) != BadgeClass(KnownStatuses[j])
  {
    forall i, j | 0 <= i < j < |KnownStatuses|
      ensures BadgeClass(KnownStatuses[i]) != BadgeClass(KnownStatuses[j])
    {
      BadgeHue(i);
      BadgeHue(j);
      assert "ybpgr"[i] != "ybpgr"[j];
    }
  }

  /** The fourth character of each known badge colour, its hue's initial. */
  lemma BadgeHue(i: int)
    requires 0 <= i < |KnownStatuses|
    ensures |BadgeClass(KnownStatuses[i])| > 3 && BadgeClass(KnownStatuses[i])[3] == "ybpgr"[i]
  {
    if i == 0 {
      assert BadgeClass("pending")[3] == 'y';
    } else if i == 1 {
      assert BadgeClass("processing")[3] == 'b';
    } else if i == 2 {
      assert BadgeClass("shipped")[3] == 'p';
    } else if i == 3 {
      assert BadgeClass("delivered")[3] == 'g';
    } else {
      assert BadgeClass("cancelled")[3] == 'r';
    }
  }

  /** The badge text: the status with its first letter in upper case and
      the rest as it is. */
  function BadgeLabel(status: string): (text: string)
    ensures |text| == |status|
    ensures status != [] ==> text[0] == UpperChar(status[0]) && !IsLower(text[0]) && text[1..] == status[1..]
  {
    Capitalize(status)
  }

  /** The update dialog's state: the selected order, the status picked in
      it, and whether it is open. */
  datatype Dialog = Dialog(selectedOrder: Option<Order>, newStatus: string, updateOpen: bool)

  /** `openUpdateDialog(order)`: selects the order, starts at its status and
      opens the dialog. */
  function OpenUpdateDialog(d: Dialog, order: Order): (r: Dialog)
    ensures r.selectedOrder == Some(order) && r.newStatus == order.status && r.updateOpen
  {
    Dialog(Some(order), order.status, true)
  }

  /** `handleUpdateStatus`: the `{ orderId, status }` it sends, only when an
      order is selected and a non-empty status is picked. */
  function HandleUpdateStatus(d: Dialog): (sent: Option<(int, string)>)
    ensures sent.Some? <==> d.selectedOrder.Some? && d.newStatus != ""
    ensures sent.Some? ==> sent.value == (d.selectedOrder.value.id, d.newStatus)
  {
    if d.selectedOrder.Some? && d.newStatus != "" then Some((d.selectedOrder.value.id, d.newStatus)) else None
  }

  /** The update button's `disabled`: while a request runs, or while the
      picked status is the selected order's own. */
  function UpdateDisabled(d: Dialog, isPending: bool): (disabled: bool)
    ensures !isPending ==> (disabled <==> d.selectedOrder.Some? && d.newStatus == d.selectedOrder.value.status)
    ensures isPending ==> disabled
  {
    isPending || (d.selectedOrder.Some? && d.newStatus == d.selectedOrder.value.status)
  }

  /** Right after opening, the button is disabled; picking a different,
      non-empty status enables it and sends exactly that status for the
      opened order. */
  lemma OpenThenPick(d: Dialog, order: Order, status: string)
    requires status != "" && status != order.status
    ensures UpdateDisabled(OpenUpdateDialog(d, order), false)
    ensures var picked := OpenUpdateDialog(d, order).(newStatus := status);
      !UpdateDisabled(picked, false) && HandleUpdateStatus(picked) == Some((order.id, status))
  {
  }
}
