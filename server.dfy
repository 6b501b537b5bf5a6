/** The backend's in-memory supply-chain snapshot and the deterministic rules that update it:
    automatic restocking, route rerouting, the periodic tick and the WebSocket message dispatch.
    Every random draw of the backend is a parameter here, constrained to the range it is drawn from. */
module Server {
  import opened Wrappers
  import opened Text
  import opened Reals

  // ---------------------------------------------------------------------------
  // Data model

  datatype StockStatus = Optimal | Low | Critical

  datatype InventoryItem = InventoryItem(item: string, current: int, threshold: int, predicted: int, status: StockStatus)

  datatype NegotiationStatus = Pending | NegotiationActive | InProgress | NegotiationCompleted | NegotiationFailed

  /** A supplier; `rating` is on the 0-5 star scale and `leadTime` is in days. */
  datatype Supplier = Supplier(
    id: int, name: string, rating: real, location: string, products: seq<string>,
    leadTime: int, reliability: int, negotiationStatus: NegotiationStatus)

  datatype RouteStatus = Active | Delayed | Rerouted | Completed

  datatype Risk = LowRisk | MediumRisk | HighRisk

  /** A shipping route; `progress` is a percentage. */
  datatype Route = Route(
    id: string, origin: string, destination: string, status: RouteStatus,
    eta: string, progress: real, risk: Risk)

  datatype AlertType = CriticalAlert | WarningAlert | SuccessAlert | InfoAlert

  datatype Priority = HighPriority | MediumPriority | LowPriority

  /** An alert; its ISO timestamp is not modelled. */
  datatype Alert = Alert(kind: AlertType, message: string, priority: Priority)

  /** The errors the handlers throw. */
  datatype Error = ItemNotFound | NoSuitableSuppliers | RouteNotFound


  // ---------------------------------------------------------------------------
  // Inventory status

  /** The status rule of the periodic tick: critical below half the threshold, low below the
      threshold, optimal otherwise. */
  function TickStatus(current: int, threshold: int): (s: StockStatus)
    ensures s == Critical <==> 2 * current < threshold
    ensures s == Low <==> threshold <= 2 * current && current < threshold
    ensures s == Optimal <==> threshold <= current && threshold <= 2 * current
  {
    assert (current as real) < (threshold as real) * 0.5 <==> 2 * current < threshold;
    if (current as real) < (threshold as real) * 0.5 then Critical
    else if current < threshold then Low
    else Optimal
  }

  /** The snapshot invariant: an item's status is the tick's function of its stock and threshold. */
  ghost predicate Consistent(it: InventoryItem) {
    it.status == TickStatus(it.current, it.threshold)
  }

  /** A consistent item is never reported optimal while below its threshold. */
  lemma ConsistentNeverOptimalBelowThreshold(it: InventoryItem)
    requires Consistent(it) && 0 <= it.threshold
    ensures it.current < it.threshold ==> it.status != Optimal
    ensures it.status == Critical ==> it.current < it.threshold
  {
  }

  /** One item under the tick: when the 30% draw `fires`, `k` units (0..9) are consumed, the stock
      is floored at zero and the status is recomputed; otherwise the item is untouched. */
  function ConsumeItem(it: InventoryItem, fires: bool, k: int): (r: InventoryItem)
    requires 0 <= k < 10
    ensures !fires ==> r == it
    ensures r.item == it.item && r.threshold == it.threshold && r.predicted == it.predicted
    ensures fires ==> 0 <= r.current && it.current - k <= r.current
    ensures fires ==> r.current == 0 || r.current == it.current - k
    ensures fires && it.current >= 0 ==> r.current <= it.current
    ensures fires ==> Consistent(r)
  {
    if fires then
      var c := if it.current - k > 0 then it.current - k else 0;
      it.(current := c, status := TickStatus(c, it.threshold))
    else it
  }

  // ---------------------------------------------------------------------------
  // Routes

  /** The route status transitions the handlers make: active to delayed or completed, delayed to
      rerouted; staying put is always allowed. */
  ghost predicate AllowedTransition(a: RouteStatus, b: RouteStatus) {
    a == b || (a == Active && (b == Delayed || b == Completed)) || (a == Delayed && b == Rerouted)
  }

  /** Everything but status, progress and risk is the same. */
  ghost predicate SameIdentity(r: Route, r': Route) {
    r'.id == r.id && r'.origin == r.origin && r'.destination == r.destination && r'.eta == r.eta
  }

  /** One route under the tick: an active route advances by `delta` (drawn from [0, 2)), capped at
      100, and completes when it reaches 100; any other route is untouched. */
  function AdvanceRoute(r: Route, delta: real): (r': Route)
    requires 0.0 <= delta < 2.0
    ensures r.status != Active ==> r' == r
    ensures SameIdentity(r, r') && r'.risk == r.risk
    ensures AllowedTransition(r.status, r'.status)
    ensures r.status == Active ==> r'.progress <= 100.0
    ensures r.status == Active && r.progress <= 100.0 ==> r.progress <= r'.progress
    ensures r.status == Active ==> (r'.status == Completed <==> r'.progress == 100.0)
    ensures r.status == Active ==> r'.status == Active || r'.status == Completed
    ensures r.status == Active ==>
      r'.progress <= r.progress + delta && (r'.progress == 100.0 || r'.progress == r.progress + delta)
  {
    if r.status == Active then
      var p := Min(100.0, r.progress + delta);
      r.(progress := p, status := if p >= 100.0 then Completed else Active)
    else r
  }

  /** The route after an optimisation attempt with the given weather and number of alternative
      routes (drawn from 1..3). */
  function OptimizedRoute(r: Route, weatherFavorable: bool, alternativeRoutes: int): (r': Route)
    requires 1 <= alternativeRoutes <= 3
    ensures SameIdentity(r, r')
    ensures AllowedTransition(r.status, r'.status)
    ensures r' != r ==> r.status == Delayed && alternativeRoutes > 1
    ensures r.status == Delayed && alternativeRoutes > 1 ==>
      r'.status == Rerouted && r'.risk == (if weatherFavorable then LowRisk else MediumRisk)
    ensures r.status == Delayed && alternativeRoutes > 1 && r.progress <= 100.0 ==>
      r.progress <= r'.progress <= 100.0 && (r'.progress == 100.0 || r'.progress == r.progress + 10.0)
    ensures r.status == Delayed && alternativeRoutes > 1 && r.progress < 100.0 ==> r.progress < r'.progress
    ensures r.status == Delayed && alternativeRoutes > 1 ==> r'.progress <= r.progress + 10.0
  {
    if Rerouting(r, alternativeRoutes) then
      r.(status := Rerouted, progress := Min(r.progress + 10.0, 100.0),
         risk := if weatherFavorable then LowRisk else MediumRisk)
    else r
  }

  /** The guard of an optimisation: only a delayed route with more than one alternative changes. */
  predicate Rerouting(r: Route, alternativeRoutes: int) {
    r.status == Delayed && alternativeRoutes > 1
  }

  function RerouteAlert(routeId: string): Alert {
    Alert(SuccessAlert, "Route " + routeId + " successfully optimized - ETA improved by 2 hours", MediumPriority)
  }

  // ---------------------------------------------------------------------------
  // Restocking

  /** A product and an item name match when either contains the other, ignoring case. */
  predicate ProductMatches(product: string, itemName: string) {
    Includes(Lower(product), Lower(itemName)) || Includes(Lower(itemName), Lower(product))
  }

  /** `products.some(...)`: some product in the list matches the item name. */
  predicate SomeProductMatches(products: seq<string>, itemName: string)
    decreases |products|
  {
    products != [] && (ProductMatches(products[0], itemName) || SomeProductMatches(products[1..], itemName))
  }

  /** A supplier is suitable for an item when some product of its matches the item name. */
  predicate Suitable(itemName: string, s: Supplier) {
    SomeProductMatches(s.products, itemName)
  }

  /** The search over the product list succeeds exactly when some product matches. */
  lemma {:induction false} SomeProductMatchesIff(products: seq<string>, itemName: string)
    ensures SomeProductMatches(products, itemName) <==>
      exists j :: 0 <= j < |products| && ProductMatches(products[j], itemName)
    decreases |products|
  {
    if products != [] {
      SomeProductMatchesIff(products[1..], itemName);
      if SomeProductMatches(products[1..], itemName) {
        var j :| 0 <= j < |products[1..]| && ProductMatches(products[1..][j], itemName);
        assert ProductMatches(products[j + 1], itemName);
      }
      forall j | 0 < j < |products| && ProductMatches(products[j], itemName)
        ensures SomeProductMatches(products[1..], itemName)
      {
        assert products[1..][j - 1] == products[j];
      }
    }
  }

  /** `Array.prototype.filter` over suppliers: the suppliers `keep` accepts, in list order. */
  function Filter(ss: seq<Supplier>, keep: Supplier -> bool): (r: seq<Supplier>)
    ensures |r| <= |ss|
    decreases |ss|
  {
    if ss == [] then []
    else if keep(ss[0]) then [ss[0]] + Filter(ss[1..], keep)
    else Filter(ss[1..], keep)
  }

  /** The filtered list holds exactly the accepted suppliers of the input list. */
  lemma {:induction false} FilterMembers(ss: seq<Supplier>, keep: Supplier -> bool)
    ensures forall s :: s in Filter(ss, keep) <==> s in ss && keep(s)
    decreases |ss|
  {
    if ss != [] {
      FilterMembers(ss[1..], keep);
      assert ss == [ss[0]] + ss[1..];
    }
  }

  /** The filter callback of the restock handler. */
  function SuitableFor(itemName: string): Supplier -> bool {
    s => Suitable(itemName, s)
  }

  /** The suitable suppliers, in list order. */
  function FilterSuitable(itemName: string, ss: seq<Supplier>): seq<Supplier> {
    Filter(ss, SuitableFor(itemName))
  }

  /** The selection score: ten points per rating star plus a bonus for lead times under 20 days. */
  function Score(s: Supplier): real {
    s.rating * 10.0 + (20 - s.leadTime) as real
  }

  /** The `reduce` that picks the best supplier: a later candidate replaces the current best only
      when it scores strictly higher. */
  function Reduce(best: Supplier, rest: seq<Supplier>): (r: Supplier)
    decreases |rest|
  {
    if rest == [] then best
    else Reduce(if Score(rest[0]) > Score(best) then rest[0] else best, rest[1..])
  }

  /** The reduce returns the start value or an element of the list, and nothing it passed over
      scores higher. */
  lemma {:induction false} ReduceBounds(best: Supplier, rest: seq<Supplier>)
    ensures Reduce(best, rest) == best || Reduce(best, rest) in rest
    ensures Score(best) <= Score(Reduce(best, rest))
    ensures forall s :: s in rest ==> Score(s) <= Score(Reduce(best, rest))
    decreases |rest|
  {
    if rest != [] {
      ReduceBounds(if Score(rest[0]) > Score(best) then rest[0] else best, rest[1..]);
      assert rest == [rest[0]] + rest[1..];
    }
  }

  function BestSupplier(candidates: seq<Supplier>): (b: Supplier)
    requires candidates != []
    ensures b in candidates
    ensures forall s :: s in candidates ==> Score(s) <= Score(b)
  {
    ReduceBounds(candidates[0], candidates[1..]);
    assert candidates == [candidates[0]] + candidates[1..];
    Reduce(candidates[0], candidates[1..])
  }

  /** `k` is the choice among the first `i` suppliers of those `keep` accepts: accepted, with the
      highest score among the accepted ones there, and strictly ahead of every accepted supplier
      listed before it. */
  ghost predicate IsChosenAmongFirst(keep: Supplier -> bool, ss: seq<Supplier>, i: int, k: int) {
    0 <= k < i <= |ss| && keep(ss[k]) &&
    (forall j :: 0 <= j < i && keep(ss[j]) ==> Score(ss[j]) <= Score(ss[k])) &&
    (forall j :: 0 <= j < k && keep(ss[j]) ==> Score(ss[j]) < Score(ss[k]))
  }

  /** `k` is the supplier the restock rule should choose from `ss` for the item: suitable, with the
      highest score among all suitable suppliers, and the earliest listed among those. */
  ghost predicate IsChosen(itemName: string, ss: seq<Supplier>, k: int) {
    IsChosenAmongFirst(SuitableFor(itemName), ss, |ss|, k)
  }

  lemma {:induction false} FilterSkipsRejected(keep: Supplier -> bool, ss: seq<Supplier>, f: nat)
    requires f <= |ss|
    requires forall j :: 0 <= j < f ==> !keep(ss[j])
    ensures Filter(ss, keep) == Filter(ss[f..], keep)
    decreases f
  {
    if f > 0 {
      assert ss[1..][f - 1..] == ss[f..];
      FilterSkipsRejected(keep, ss[1..], f - 1);
    }
  }

  /** The filter seen from position `i`: the supplier there is kept exactly when `keep` accepts it. */
  lemma FilterFrom(keep: Supplier -> bool, ss: seq<Supplier>, i: nat)
    requires i < |ss|
    ensures Filter(ss[i..], keep) ==
      if keep(ss[i]) then [ss[i]] + Filter(ss[i + 1..], keep) else Filter(ss[i + 1..], keep)
  {
    assert ss[i..][0] == ss[i] && ss[i..][1..] == ss[i + 1..];
  }

  /** One step of the reduce over a list that starts with `x`. */
  lemma ReduceStep(best: Supplier, x: Supplier, rest: seq<Supplier>)
    ensures Reduce(best, [x] + rest) == Reduce(if Score(x) > Score(best) then x else best, rest)
  {
    assert ([x] + rest)[0] == x && ([x] + rest)[1..] == rest;
  }

  /** Continuing the reduce from the choice among the first `i` suppliers over the accepted rest
      ends at the choice among all of them. */
  lemma {:induction false} ReduceContinues(keep: Supplier -> bool, ss: seq<Supplier>, i: nat, k: nat) returns (k': nat)
    requires IsChosenAmongFirst(keep, ss, i, k)
    ensures IsChosenAmongFirst(keep, ss, |ss|, k') && ss[k'] == Reduce(ss[k], Filter(ss[i..], keep))
    decreases |ss| - i
  {
    if i == |ss| {
      assert ss[i..] == [];
      k' := k;
    } else {
      FilterFrom(keep, ss, i);
      var tail := Filter(ss[i + 1..], keep);
      if keep(ss[i]) {
        var k2 := if Score(ss[i]) > Score(ss[k]) then i else k;
        ReduceStep(ss[k], ss[i], tail);
        assert IsChosenAmongFirst(keep, ss, i + 1, k2);
        assert Reduce(ss[k], Filter(ss[i..], keep)) == Reduce(ss[k2], tail);
        k' := ReduceContinues(keep, ss, i + 1, k2);
      } else {
        assert IsChosenAmongFirst(keep, ss, i + 1, k);
        assert Filter(ss[i..], keep) == tail;
        k' := ReduceContinues(keep, ss, i + 1, k);
      }
    }
  }

  /** The filter-then-reduce of the restock handler selects the supplier with the highest score among
      the suitable ones, the earliest listed on a tie. */
  lemma BestSupplierIsChosen(itemName: string, ss: seq<Supplier>) returns (k: nat)
    requires FilterSuitable(itemName, ss) != []
    ensures IsChosen(itemName, ss, k) && ss[k] == BestSupplier(FilterSuitable(itemName, ss))
  {
    var keep := SuitableFor(itemName);
    match FindFirst(ss, keep)
    case None =>
      FilterSkipsRejected(keep, ss, |ss|);
      assert false;
    case Some(f) =>
      FilterSkipsRejected(keep, ss, f);
      FilterFrom(keep, ss, f);
      assert IsChosenAmongFirst(keep, ss, f + 1, f);
      k := ReduceContinues(keep, ss, f + 1, f);
  }

  lemma HalfFloor(t: int)
    ensures ((t as real) * 0.5).Floor == t / 2
  {
    var m := t / 2;
    assert t == 2 * m || t == 2 * m + 1;
  }

  /** The quantity reordered: the larger of the shortfall and half the threshold, rounded down. */
  function ReorderQuantity(current: int, threshold: int): (q: int)
    ensures q == if threshold - current >= threshold / 2 then threshold - current else threshold / 2
    ensures current + q >= threshold
    ensures threshold >= 0 ==> q >= 0
  {
    HalfFloor(threshold);
    Max((threshold - current) as real, (threshold as real) * 0.5).Floor
  }

  /** The restocked item: the reorder quantity is added and the status is set to optimal when the
      stock reaches the threshold and to low otherwise. */
  function RestockedItem(it: InventoryItem): (r: InventoryItem)
    ensures r.item == it.item && r.threshold == it.threshold && r.predicted == it.predicted
    ensures r.current == it.current + ReorderQuantity(it.current, it.threshold)
  {
    var c := it.current + ReorderQuantity(it.current, it.threshold);
    it.(current := c, status := if c >= it.threshold then Optimal else Low)
  }

  /** A restock always reaches the threshold, so the item ends optimal (the low branch of the rule
      cannot be taken) and consistent with the tick's status rule. */
  lemma RestockReachesThreshold(it: InventoryItem)
    ensures RestockedItem(it).current >= it.threshold
    ensures RestockedItem(it).status == Optimal
    ensures it.threshold >= 0 ==> Consistent(RestockedItem(it))
    ensures it.current >= 0 && it.threshold >= 0 ==> RestockedItem(it).current >= it.current
  {
  }

  function RestockAlert(itemName: string, quantity: nat, supplierName: string): Alert {
    Alert(SuccessAlert,
      "Automatic restock initiated: " + NatToString(quantity) + " units of " + itemName + " from " + supplierName,
      MediumPriority)
  }

  function FindItem(inventory: seq<InventoryItem>, itemName: string): Option<nat> {
    FindFirst(inventory, (it: InventoryItem) => it.item == itemName)
  }

  function FindRoute(routes: seq<Route>, routeId: string): Option<nat> {
    FindFirst(routes, (r: Route) => r.id == routeId)
  }

  function FindSupplier(suppliers: seq<Supplier>, supplierId: int): Option<nat> {
    FindFirst(suppliers, (s: Supplier) => s.id == supplierId)
  }

  // ---------------------------------------------------------------------------
  // Handler results and WebSocket frames

  datatype RestockResult = RestockResult(item: string, quantity: int, supplier: string)

  /** The optimisation result: the route, the two drawn factors the rule used, and the new status. */
  datatype OptimizeResult = OptimizeResult(
    routeId: string, weatherFavorable: bool, alternativeRoutes: int, newStatus: RouteStatus)

  /** A negotiation outcome; `reply` is the collaborator's parsed answer. */
  datatype NegotiationResult =
    | NegotiationOk(supplierId: int, supplier: string, reply: string)
    | NegotiationError(supplierId: int)

  /** An incoming frame after JSON parsing: its `type` and the fields the handlers read. */
  datatype Frame = Frame(kind: string, message: string, supplierId: int, routeId: string, item: string)

  datatype Outgoing =
    | ChatResponse(text: string)
    | ErrorReply(message: string)
    | NegotiationUpdate(negotiation: NegotiationResult)
    | RouteOptimized(optimization: OptimizeResult)
    | RestockInitiated(restock: RestockResult)

  /** What a frame produces: replies to its sender and broadcasts to every open client. */
  datatype Delivery = Delivery(toSender: seq<Outgoing>, toAll: seq<Outgoing>)

  /** The answers of the external language model, and the random draws of the route optimiser. */
  datatype Environment = Environment(
    chatReply: Option<string>, negotiationReply: Option<string>,
    weatherFavorable: bool, alternativeRoutes: int)

  const ChatFallback := "I apologize, but I'm experiencing technical difficulties. Please try again or contact system administrator."

  /** The chat handler: the collaborator's text, or the apology when the call fails. */
  function ChatAnswer(reply: Option<string>): string {
    match reply
    case Some(t) => t
    case None => ChatFallback
  }

  // ---------------------------------------------------------------------------
  // The snapshot

  class Snapshot {
    var inventory: seq<InventoryItem>
    var suppliers: seq<Supplier>
    var routes: seq<Route>
    var alerts: seq<Alert>

    /** Stock and thresholds are non-negative and route progress is a percentage. */
    ghost predicate Valid()
      reads this
    {
      (forall i :: 0 <= i < |inventory| ==> 0 <= inventory[i].current && 0 <= inventory[i].threshold) &&
      (forall i :: 0 <= i < |routes| ==> 0.0 <= routes[i].progress <= 100.0)
    }

    constructor (inventory: seq<InventoryItem>, suppliers: seq<Supplier>, routes: seq<Route>, alerts: seq<Alert>)
      requires forall i :: 0 <= i < |inventory| ==> 0 <= inventory[i].current && 0 <= inventory[i].threshold
      requires forall i :: 0 <= i < |routes| ==> 0.0 <= routes[i].progress <= 100.0
      ensures Valid()
      ensures this.inventory == inventory && this.suppliers == suppliers
      ensures this.routes == routes && this.alerts == alerts
    {
      this.inventory := inventory;
      this.suppliers := suppliers;
      this.routes := routes;
      this.alerts := alerts;
    }

    /** Automatic restocking of the named item from the best suitable supplier. */
    method ProcessAutomaticRestock(itemName: string) returns (r: Result<RestockResult, Error>)
      requires Valid()
      modifies this
      ensures Valid()
      ensures suppliers == old(suppliers) && routes == old(routes)
      ensures r.Failure? ==> inventory == old(inventory) && alerts == old(alerts)
      ensures FindItem(old(inventory), itemName).None? ==>
        r == Failure(ItemNotFound) && inventory == old(inventory) && alerts == old(alerts)
      ensures FindItem(old(inventory), itemName).Some? && FilterSuitable(itemName, old(suppliers)) == [] ==>
        r == Failure(NoSuitableSuppliers) && inventory == old(inventory) && alerts == old(alerts)
      ensures r.Success? <==> FindItem(old(inventory), itemName).Some? && FilterSuitable(itemName, old(suppliers)) != []
      ensures r.Success? ==>
        var k := FindItem(old(inventory), itemName).value;
        var it := old(inventory)[k];
        var best := BestSupplier(FilterSuitable(itemName, old(suppliers)));
        var q := ReorderQuantity(it.current, it.threshold);
        q >= 0 &&
        inventory == old(inventory)[k := RestockedItem(it)] &&
        alerts == [RestockAlert(itemName, q, best.name)] + old(alerts) &&
        r.value == RestockResult(itemName, q, best.name)
    {
      var found := FindItem(inventory, itemName);
      if found.None? {
        return Failure(ItemNotFound);
      }
      var k := found.value;
      var suitable := FilterSuitable(itemName, suppliers);
      if suitable == [] {
        return Failure(NoSuitableSuppliers);
      }
      var best := BestSupplier(suitable);
      var it := inventory[k];
      var q := ReorderQuantity(it.current, it.threshold);
      inventory := inventory[k := RestockedItem(it)];
      alerts := [RestockAlert(itemName, q, best.name)] + alerts;
      r := Success(RestockResult(itemName, q, best.name));
    }

    /** Route optimisation with the drawn weather and number of alternative routes. */
    method OptimizeRoute(routeId: string, weatherFavorable: bool, alternativeRoutes: int)
      returns (r: Result<OptimizeResult, Error>)
      requires Valid()
      requires 1 <= alternativeRoutes <= 3
      modifies this
      ensures Valid()
      ensures inventory == old(inventory) && suppliers == old(suppliers)
      ensures r.Failure? ==> routes == old(routes) && alerts == old(alerts)
      ensures FindRoute(old(routes), routeId).None? ==>
        r == Failure(RouteNotFound) && routes == old(routes) && alerts == old(alerts)
      ensures FindRoute(old(routes), routeId).Some? ==>
        var k := FindRoute(old(routes), routeId).value;
        var route := old(routes)[k];
        routes == old(routes)[k := OptimizedRoute(route, weatherFavorable, alternativeRoutes)] &&
        alerts == (if Rerouting(route, alternativeRoutes) then [RerouteAlert(routeId)] + old(alerts) else old(alerts)) &&
        r == Success(OptimizeResult(routeId, weatherFavorable, alternativeRoutes,
          OptimizedRoute(route, weatherFavorable, alternativeRoutes).status))
    {
      var found := FindRoute(routes, routeId);
      if found.None? {
        return Failure(RouteNotFound);
      }
      var k := found.value;
      var route := routes[k];
      if Rerouting(route, alternativeRoutes) {
        routes := routes[k := OptimizedRoute(route, weatherFavorable, alternativeRoutes)];
        alerts := [RerouteAlert(routeId)] + alerts;
      }
      r := Success(OptimizeResult(routeId, weatherFavorable, alternativeRoutes, routes[k].status));
    }

    /** Supplier negotiation: the collaborator's answer is `reply` (None when the call or the parsing
        of its answer fails). Only a found supplier with a parsed answer changes. */
    method ProcessSupplierNegotiation(supplierId: int, reply: Option<string>) returns (r: NegotiationResult)
      requires Valid()
      modifies this
      ensures Valid()
      ensures inventory == old(inventory) && routes == old(routes) && alerts == old(alerts)
      ensures FindSupplier(old(suppliers), supplierId).None? || reply.None? ==>
        r == NegotiationError(supplierId) && suppliers == old(suppliers)
      ensures FindSupplier(old(suppliers), supplierId).Some? && reply.Some? ==>
        var k := FindSupplier(old(suppliers), supplierId).value;
        suppliers == old(suppliers)[k := old(suppliers)[k].(negotiationStatus := InProgress)] &&
        r == NegotiationOk(supplierId, old(suppliers)[k].name, reply.value)
    {
      var found := FindSupplier(suppliers, supplierId);
      if found.None? || reply.None? {
        return NegotiationError(supplierId);
      }
      var k := found.value;
      suppliers := suppliers[k := suppliers[k].(negotiationStatus := InProgress)];
      r := NegotiationOk(supplierId, suppliers[k].name, reply.value);
    }

    /** The body of the five-second timer: active routes advance by `progressDraws[i]`, and item `i`
        loses `amounts[i]` units when `consumeDraws[i]` fires. Metrics are not modelled. */
    method Tick(progressDraws: seq<real>, consumeDraws: seq<bool>, amounts: seq<int>)
      requires Valid()
      requires |progressDraws| == |routes| && forall i :: 0 <= i < |progressDraws| ==> 0.0 <= progressDraws[i] < 2.0
      requires |consumeDraws| == |inventory| && |amounts| == |inventory|
      requires forall i :: 0 <= i < |amounts| ==> 0 <= amounts[i] < 10
      modifies this
      ensures Valid()
      ensures suppliers == old(suppliers) && alerts == old(alerts)
      ensures |routes| == |old(routes)|
      ensures forall i :: 0 <= i < |routes| ==> routes[i] == AdvanceRoute(old(routes)[i], progressDraws[i])
      ensures |inventory| == |old(inventory)|
      ensures forall i :: 0 <= i < |inventory| ==> inventory[i] == ConsumeItem(old(inventory)[i], consumeDraws[i], amounts[i])
    {
      var i := 0;
      while i < |routes|
        invariant 0 <= i <= |routes| == |old(routes)|
        invariant forall j :: 0 <= j < i ==> routes[j] == AdvanceRoute(old(routes)[j], progressDraws[j])
        invariant forall j :: i <= j < |routes| ==> routes[j] == old(routes)[j]
        invariant inventory == old(inventory) && suppliers == old(suppliers) && alerts == old(alerts)
      {
        routes := routes[i := AdvanceRoute(routes[i], progressDraws[i])];
        i := i + 1;
      }
      i := 0;
      while i < |inventory|
        invariant 0 <= i <= |inventory| == |old(inventory)|
        invariant forall j :: 0 <= j < i ==> inventory[j] == ConsumeItem(old(inventory)[j], consumeDraws[j], amounts[j])
        invariant forall j :: i <= j < |inventory| ==> inventory[j] == old(inventory)[j]
        invariant |routes| == |old(routes)| && suppliers == old(suppliers) && alerts == old(alerts)
        invariant forall j :: 0 <= j < |routes| ==> routes[j] == AdvanceRoute(old(routes)[j], progressDraws[j])
      {
        inventory := inventory[i := ConsumeItem(inventory[i], consumeDraws[i], amounts[i])];
        i := i + 1;
      }
    }

    /** The WebSocket dispatch: a frame is routed on its `type`. A handler that throws yields
        `Failure`; an unknown type gets one error reply and changes nothing. */
    method HandleWebSocketMessage(frame: Frame, env: Environment) returns (r: Result<Delivery, Error>)
      requires Valid()
      requires 1 <= env.alternativeRoutes <= 3
      modifies this
      ensures Valid()
      ensures r.Failure? <==> old(Throws(frame))
      ensures r.Failure? ==> Unchanged()
      ensures Handled(frame, env, r)
    {
      if frame.kind == "chat" {
        r := Success(Delivery([ChatResponse(ChatAnswer(env.chatReply))], []));
      } else if frame.kind == "negotiate" {
        var n := ProcessSupplierNegotiation(frame.supplierId, env.negotiationReply);
        r := Success(Delivery([], [NegotiationUpdate(n)]));
      } else if frame.kind == "optimize_route" {
        var o := OptimizeRoute(frame.routeId, env.weatherFavorable, env.alternativeRoutes);
        match o
        case Failure(e) => r := Failure(e);
        case Success(v) => r := Success(Delivery([], [RouteOptimized(v)]));
      } else if frame.kind == "request_restock" {
        var o := ProcessAutomaticRestock(frame.item);
        match o
        case Failure(e) => r := Failure(e);
        case Success(v) => r := Success(Delivery([], [RestockInitiated(v)]));
      } else {
        r := Success(Delivery([ErrorReply("Unknown message type")], []));
      }
    }

    /** The frames whose handler throws on this snapshot: an unknown route, an unknown item, or an
        item no supplier can deliver. */
    ghost predicate Throws(frame: Frame)
      reads this
    {
      (frame.kind == "optimize_route" && FindRoute(routes, frame.routeId).None?) ||
      (frame.kind == "request_restock" &&
        (FindItem(inventory, frame.item).None? || FilterSuitable(frame.item, suppliers) == []))
    }

    /** What the dispatch of `frame` does to the snapshot and what it sends, kind by kind: chat
        replies to the sender; negotiate, optimize_route and request_restock run their handler and
        broadcast its result, or throw; any other type gets one error reply. */
    twostate predicate Handled(frame: Frame, env: Environment, r: Result<Delivery, Error>)
      requires 1 <= env.alternativeRoutes <= 3
      requires old(Valid())
      reads this
    {
      (frame.kind == "chat" ==>
        r == Success(Delivery([ChatResponse(ChatAnswer(env.chatReply))], [])) && Unchanged()) &&
      (frame.kind !in {"chat", "negotiate", "optimize_route", "request_restock"} ==>
        r == Success(Delivery([ErrorReply("Unknown message type")], [])) && Unchanged()) &&
      ((frame.kind == "negotiate" &&
        (FindSupplier(old(suppliers), frame.supplierId).None? || env.negotiationReply.None?)) ==>
        r == Success(Delivery([], [NegotiationUpdate(NegotiationError(frame.supplierId))])) && Unchanged()) &&
      ((frame.kind == "negotiate" &&
        FindSupplier(old(suppliers), frame.supplierId).Some? && env.negotiationReply.Some?) ==>
        var k := FindSupplier(old(suppliers), frame.supplierId).value;
        var s := old(suppliers)[k];
        suppliers == old(suppliers)[k := s.(negotiationStatus := InProgress)] &&
        inventory == old(inventory) && routes == old(routes) && alerts == old(alerts) &&
        r == Success(Delivery([], [NegotiationUpdate(NegotiationOk(frame.supplierId, s.name, env.negotiationReply.value))]))) &&
      (frame.kind == "optimize_route" && FindRoute(old(routes), frame.routeId).None? ==>
        r == Failure(RouteNotFound)) &&
      (frame.kind == "optimize_route" && FindRoute(old(routes), frame.routeId).Some? ==>
        var k := FindRoute(old(routes), frame.routeId).value;
        var route := old(routes)[k];
        var route' := OptimizedRoute(route, env.weatherFavorable, env.alternativeRoutes);
        routes == old(routes)[k := route'] &&
        alerts == (if Rerouting(route, env.alternativeRoutes) then [RerouteAlert(frame.routeId)] + old(alerts) else old(alerts)) &&
        inventory == old(inventory) && suppliers == old(suppliers) &&
        r == Success(Delivery([], [RouteOptimized(OptimizeResult(frame.routeId, env.weatherFavorable, env.alternativeRoutes, route'.status))]))) &&
      (frame.kind == "request_restock" && FindItem(old(inventory), frame.item).None? ==>
        r == Failure(ItemNotFound)) &&
      ((frame.kind == "request_restock" && FindItem(old(inventory), frame.item).Some? &&
        FilterSuitable(frame.item, old(suppliers)) == []) ==>
        r == Failure(NoSuitableSuppliers)) &&
      ((frame.kind == "request_restock" && FindItem(old(inventory), frame.item).Some? &&
        FilterSuitable(frame.item, old(suppliers)) != []) ==>
        var k := FindItem(old(inventory), frame.item).value;
        var it := old(inventory)[k];
        var best := BestSupplier(FilterSuitable(frame.item, old(suppliers)));
        var q := ReorderQuantity(it.current, it.threshold);
        inventory == old(inventory)[k := RestockedItem(it)] &&
        alerts == [RestockAlert(frame.item, q, best.name)] + old(alerts) &&
        suppliers == old(suppliers) && routes == old(routes) &&
        r == Success(Delivery([], [RestockInitiated(RestockResult(frame.item, q, best.name))])))
    }

    twostate predicate Unchanged()
      reads this
    {
      inventory == old(inventory) && suppliers == old(suppliers) && routes == old(routes) && alerts == old(alerts)
    }

    /** The WebSocket `message` listener: a frame that fails to parse (`None`) or whose handler throws
        gets one "Invalid message format" reply. */
    method OnMessage(frame: Option<Frame>, env: Environment) returns (d: Delivery)
      requires Valid()
      requires 1 <= env.alternativeRoutes <= 3
      modifies this
      ensures Valid()
      ensures frame.None? ==> d == Delivery([ErrorReply("Invalid message format")], []) && Unchanged()
      ensures frame.Some? && old(Throws(frame.value)) ==>
        d == Delivery([ErrorReply("Invalid message format")], []) && Unchanged()
      ensures frame.Some? && !old(Throws(frame.value)) ==> Handled(frame.value, env, Success(d))
    {
      if frame.None? {
        return Delivery([ErrorReply("Invalid message format")], []);
      }
      var r := HandleWebSocketMessage(frame.value, env);
      match r
      case Failure(_) => d := Delivery([ErrorReply("Invalid message format")], []);
      case Success(v) => d := v;
    }
  }
}
