/** The dashboard's own copy of the supply-chain data and the rules the browser applies to it:
    the five-second inventory and route updates, the bounded alert feed, the scripted chat
    classifier and the star rating of a supplier card. Random draws are parameters. */
module Client {
  import opened Wrappers
  import opened Text
  import opened Reals

  // ---------------------------------------------------------------------------
  // Data model (the browser's records carry no route risk and no alert priority)

  datatype StockStatus = Optimal | Low | Critical

  datatype InventoryItem = InventoryItem(item: string, current: int, threshold: int, predicted: int, status: StockStatus)

  /** A supplier card; `rating` is on the 0-5 star scale. */
  datatype Supplier = Supplier(
    id: int, name: string, rating: real, location: string, products: seq<string>,
    leadTime: int, reliability: int)

  datatype RouteStatus = Active | Delayed | Rerouted | Completed

  datatype Route = Route(id: string, origin: string, destination: string, status: RouteStatus, eta: string, progress: real)

  datatype AlertType = CriticalAlert | WarningAlert | SuccessAlert | InfoAlert

  /** An alert; `time` is the display text ("Just now"). */
  datatype Alert = Alert(kind: AlertType, message: string, time: string)

  /** The number of alerts the random-alert timer keeps. */
  const AlertCap := 8

  // ---------------------------------------------------------------------------
  // Inventory

  /** The browser's status rule: critical below 80% of the threshold, low below the threshold,
      optimal otherwise (the backend uses 50%). */
  function DashboardStatus(current: int, threshold: int): (s: StockStatus)
    ensures s == Critical <==> 5 * current < 4 * threshold
    ensures s == Low <==> 4 * threshold <= 5 * current && current < threshold
    ensures s == Optimal <==> threshold <= current && 4 * threshold <= 5 * current
  {
    assert (current as real) < (threshold as real) * 0.8 <==> 5 * current < 4 * threshold;
    if (current as real) < (threshold as real) * 0.8 then Critical
    else if current < threshold then Low
    else Optimal
  }

  /** The invariant the inventory update establishes for every item. */
  ghost predicate Consistent(it: InventoryItem) {
    it.status == DashboardStatus(it.current, it.threshold)
  }

  /** One item under the update: `change` (drawn from -25..24) is added, the stock is floored at zero
      and the status is recomputed. */
  function ShiftItem(it: InventoryItem, change: int): (r: InventoryItem)
    requires -25 <= change <= 24
    ensures r.item == it.item && r.threshold == it.threshold && r.predicted == it.predicted
    ensures 0 <= r.current && it.current + change <= r.current
    ensures r.current == 0 || r.current == it.current + change
    ensures Consistent(r)
    ensures 0 <= it.threshold && r.current < r.threshold ==> r.status != Optimal
  {
    var c := if it.current + change > 0 then it.current + change else 0;
    it.(current := c, status := DashboardStatus(c, it.threshold))
  }

  // ---------------------------------------------------------------------------
  // Routes

  /** One route under the update: an active route below 100 advances by `delta` (drawn from [0, 5)),
      capped at 100, and completes when it reaches 100; any other route is untouched. */
  function AdvanceRoute(r: Route, delta: real): (r': Route)
    requires 0.0 <= delta < 5.0
    ensures !(r.status == Active && r.progress < 100.0) ==> r' == r
    ensures r'.id == r.id && r'.origin == r.origin && r'.destination == r.destination && r'.eta == r.eta
    ensures r.progress <= r'.progress
    ensures r.progress <= 100.0 ==> r'.progress <= 100.0
    ensures r.status == Active && r.progress < 100.0 ==>
      (r'.status == Completed <==> r'.progress == 100.0) && (r'.status == Active || r'.status == Completed)
    ensures r.status == Active && r.progress < 100.0 ==>
      r'.progress <= r.progress + delta && (r'.progress == 100.0 || r'.progress == r.progress + delta)
  {
    if r.status == Active && r.progress < 100.0 then
      var p := Min(100.0, r.progress + delta);
      r.(progress := p, status := if p >= 100.0 then Completed else Active)
    else r
  }

  // ---------------------------------------------------------------------------
  // Alerts

  const RandomAlertTypes: seq<AlertType> := [WarningAlert, InfoAlert, SuccessAlert]

  const RandomAlertMessages: seq<string> := [
    "New supplier contract automatically negotiated",
    "Route optimization saved $3,200 in shipping costs",
    "Inventory reorder triggered for critical items",
    "Weather alert: potential delays on eastern routes",
    "AI detected market price fluctuation opportunity"
  ]

  function NegotiationAlert(supplierName: string): Alert {
    Alert(SuccessAlert, "AI successfully negotiated improved terms with " + supplierName, "Just now")
  }

  const CrisisAlert := Alert(CriticalAlert, "CRISIS DETECTED: Major supplier disruption in Asia-Pacific region", "URGENT - NOW")

  // ---------------------------------------------------------------------------
  // Chat

  const Greeting := "Hello! I'm your Autonomous Supply Chain AI Assistant. I can help you optimize inventory, negotiate with suppliers, predict demand, and manage logistics. What would you like to know?"
  const InventoryAnalysis := "Based on current trends, I recommend increasing Electronics inventory by 40% and reducing Textiles by 15%. This will optimize storage costs while maintaining service levels."
  const SupplierNegotiation := "I've analyzed market data and initiated negotiations with TechCorp Industries. Proposed terms: 8% volume discount for 6-month contract with guaranteed 95% on-time delivery."
  const RiskAssessment := "Current risk level is LOW (2.3/10). Main concerns: Weather delays on Route R002, potential shortage in Electronics category. Recommended actions: Activate backup suppliers, reroute critical shipments."
  const DemandForecast := "AI models predict 25% increase in Electronics demand over next 3 months. Pharmaceutical demand stable. Food products showing seasonal uptick of 15%."
  const RouteOptimization := "Analyzing 47 active routes... Optimized path for Route R002 will reduce delivery time by 2.3 days and save $12,400 in fuel costs."
  const CrisisResponse := "Crisis protocol activated. Implementing contingency plan Alpha-7. Rerouting critical shipments through backup suppliers. Estimated recovery time: 6 hours."

  /** The scripted assistant: the lower-cased message is tested against keyword pairs in a fixed
      order and the first pair that occurs selects the answer; the greeting is the fallback. */
  function GenerateAIResponse(userMessage: string): string {
    var m := Lower(userMessage);
    if Includes(m, "inventory") || Includes(m, "stock") then InventoryAnalysis
    else if Includes(m, "supplier") || Includes(m, "negotiate") then SupplierNegotiation
    else if Includes(m, "risk") || Includes(m, "crisis") then RiskAssessment
    else if Includes(m, "forecast") || Includes(m, "predict") then DemandForecast
    else if Includes(m, "route") || Includes(m, "delivery") then RouteOptimization
    else if Includes(m, "emergency") || Includes(m, "crisis") then CrisisResponse
    else Greeting
  }

  /** The classifier as a table: keyword groups paired with their answers, in priority order. */
  const KeywordTable: seq<(seq<string>, string)> := [
    (["inventory", "stock"], InventoryAnalysis),
    (["supplier", "negotiate"], SupplierNegotiation),
    (["risk", "crisis"], RiskAssessment),
    (["forecast", "predict"], DemandForecast),
    (["route", "delivery"], RouteOptimization),
    (["emergency", "crisis"], CrisisResponse)
  ]

  predicate MentionsAny(m: string, keywords: seq<string>)
    decreases |keywords|
  {
    keywords != [] && (Includes(m, keywords[0]) || MentionsAny(m, keywords[1..]))
  }

  /** The answer of the first table row one of whose keywords occurs in `m`, or the greeting. */
  function FirstMatch(table: seq<(seq<string>, string)>, m: string): (r: string)
    ensures r == Greeting || exists i :: 0 <= i < |table| && r == table[i].1
    decreases |table|
  {
    if table == [] then Greeting
    else if MentionsAny(m, table[0].0) then table[0].1
    else
      var r := FirstMatch(table[1..], m);
      assert r != Greeting ==> exists i :: 0 <= i < |table| && r == table[i].1 by {
        if r != Greeting {
          var i :| 0 <= i < |table[1..]| && r == table[1..][i].1;
          assert r == table[i + 1].1;
        }
      }
      r
  }

  lemma MentionsPair(m: string, a: string, b: string)
    ensures MentionsAny(m, [a, b]) == (Includes(m, a) || Includes(m, b))
  {
    assert [a, b][1..] == [b];
    assert [b][1..] == [];
    assert MentionsAny(m, [b]) == (Includes(m, b) || MentionsAny(m, []));
  }

  /** The if-chain of the chat widget is the first-match lookup in the keyword table. */
  lemma GenerateAIResponseIsTableLookup(userMessage: string)
    ensures GenerateAIResponse(userMessage) == FirstMatch(KeywordTable, Lower(userMessage))
  {
    var m := Lower(userMessage);
    var t := KeywordTable;
    MentionsPair(m, "inventory", "stock");
    MentionsPair(m, "supplier", "negotiate");
    MentionsPair(m, "risk", "crisis");
    MentionsPair(m, "forecast", "predict");
    MentionsPair(m, "route", "delivery");
    MentionsPair(m, "emergency", "crisis");
    var t1, t2, t3, t4, t5 := t[1..], t[2..], t[3..], t[4..], t[5..];
    assert t1[1..] == t2 && t2[1..] == t3 && t3[1..] == t4 && t4[1..] == t5 && t5[1..] == [];
    assert FirstMatch(t5, m) == if MentionsAny(m, ["emergency", "crisis"]) then CrisisResponse else Greeting;
    assert FirstMatch(t4, m) == if MentionsAny(m, ["route", "delivery"]) then RouteOptimization else FirstMatch(t5, m);
    assert FirstMatch(t3, m) == if MentionsAny(m, ["forecast", "predict"]) then DemandForecast else FirstMatch(t4, m);
    assert FirstMatch(t2, m) == if MentionsAny(m, ["risk", "crisis"]) then RiskAssessment else FirstMatch(t3, m);
    assert FirstMatch(t1, m) == if MentionsAny(m, ["supplier", "negotiate"]) then SupplierNegotiation else FirstMatch(t2, m);
    assert FirstMatch(t, m) == if MentionsAny(m, ["inventory", "stock"]) then InventoryAnalysis else FirstMatch(t1, m);
  }

  /** Every answer is one of the seven canned responses. */
  lemma ResponseIsCanned(userMessage: string)
    ensures GenerateAIResponse(userMessage) in
      {Greeting, InventoryAnalysis, SupplierNegotiation, RiskAssessment, DemandForecast, RouteOptimization, CrisisResponse}
  {
  }

  /** Because "crisis" is claimed by the risk pair first, the crisis protocol answers exactly the
      messages that mention "emergency" and none of the earlier keywords. */
  lemma CrisisResponseIff(userMessage: string)
    ensures var m := Lower(userMessage);
      GenerateAIResponse(userMessage) == CrisisResponse <==>
        Includes(m, "emergency") &&
        !Includes(m, "inventory") && !Includes(m, "stock") &&
        !Includes(m, "supplier") && !Includes(m, "negotiate") &&
        !Includes(m, "risk") && !Includes(m, "crisis") &&
        !Includes(m, "forecast") && !Includes(m, "predict") &&
        !Includes(m, "route") && !Includes(m, "delivery")
  {
  }

  // ---------------------------------------------------------------------------
  // Stars

  /** The star string of a supplier card: `floor(rating)` filled stars, then `5 - floor(rating)`
      empty ones. `repeat` throws on a negative count, which is `None` here. */
  function Stars(rating: real): (r: Option<string>)
    ensures r.Some? <==> 0 <= rating.Floor <= 5
    ensures r.Some? ==> |r.value| == 5
    ensures r.Some? ==> forall i :: 0 <= i < 5 ==> (r.value[i] == '\U{2605}' <==> i < rating.Floor)
    ensures r.Some? ==> forall i :: 0 <= i < 5 ==> (r.value[i] == '\U{2606}' <==> rating.Floor <= i)
  {
    var filled := rating.Floor;
    if filled < 0 || 5 - filled < 0 then None
    else Some(Repeat('\U{2605}', filled) + Repeat('\U{2606}', 5 - filled))
  }

  // ---------------------------------------------------------------------------
  // The dashboard state

  class Dashboard {
    var inventory: seq<InventoryItem>
    var suppliers: seq<Supplier>
    var routes: seq<Route>
    var alerts: seq<Alert>
    var riskScore: real

    /** Stock is non-negative and route progress is a percentage. */
    ghost predicate Valid()
      reads this
    {
      (forall i :: 0 <= i < |inventory| ==> 0 <= inventory[i].current) &&
      (forall i :: 0 <= i < |routes| ==> 0.0 <= routes[i].progress <= 100.0)
    }

    constructor (inventory: seq<InventoryItem>, suppliers: seq<Supplier>, routes: seq<Route>, alerts: seq<Alert>, riskScore: real)
      requires forall i :: 0 <= i < |inventory| ==> 0 <= inventory[i].current
      requires forall i :: 0 <= i < |routes| ==> 0.0 <= routes[i].progress <= 100.0
      ensures Valid()
      ensures this.inventory == inventory && this.suppliers == suppliers && this.routes == routes
      ensures this.alerts == alerts && this.riskScore == riskScore
    {
      this.inventory := inventory;
      this.suppliers := suppliers;
      this.routes := routes;
      this.alerts := alerts;
      this.riskScore := riskScore;
    }

    /** Every item's stock moves by `changes[i]` and its status is recomputed. */
    method UpdateInventoryLevels(changes: seq<int>)
      requires Valid()
      requires |changes| == |inventory| && forall i :: 0 <= i < |changes| ==> -25 <= changes[i] <= 24
      modifies this
      ensures Valid()
      ensures suppliers == old(suppliers) && routes == old(routes) && alerts == old(alerts) && riskScore == old(riskScore)
      ensures |inventory| == |old(inventory)|
      ensures forall i :: 0 <= i < |inventory| ==> inventory[i] == ShiftItem(old(inventory)[i], changes[i])
      ensures forall i :: 0 <= i < |inventory| ==> Consistent(inventory[i])
    {
      var i := 0;
      while i < |inventory|
        invariant 0 <= i <= |inventory| == |old(inventory)|
        invariant forall j :: 0 <= j < i ==> inventory[j] == ShiftItem(old(inventory)[j], changes[j])
        invariant forall j :: i <= j < |inventory| ==> inventory[j] == old(inventory)[j]
        invariant suppliers == old(suppliers) && routes == old(routes) && alerts == old(alerts) && riskScore == old(riskScore)
      {
        inventory := inventory[i := ShiftItem(inventory[i], changes[i])];
        i := i + 1;
      }
    }

    /** Every active route below 100 advances by `deltas[i]`. */
    method UpdateRouteProgress(deltas: seq<real>)
      requires Valid()
      requires |deltas| == |routes| && forall i :: 0 <= i < |deltas| ==> 0.0 <= deltas[i] < 5.0
      modifies this
      ensures Valid()
      ensures inventory == old(inventory) && suppliers == old(suppliers) && alerts == old(alerts) && riskScore == old(riskScore)
      ensures |routes| == |old(routes)|
      ensures forall i :: 0 <= i < |routes| ==> routes[i] == AdvanceRoute(old(routes)[i], deltas[i])
    {
      var i := 0;
      while i < |routes|
        invariant 0 <= i <= |routes| == |old(routes)|
        invariant forall j :: 0 <= j < i ==> routes[j] == AdvanceRoute(old(routes)[j], deltas[j])
        invariant forall j :: i <= j < |routes| ==> routes[j] == old(routes)[j]
        invariant inventory == old(inventory) && suppliers == old(suppliers) && alerts == old(alerts) && riskScore == old(riskScore)
      {
        routes := routes[i := AdvanceRoute(routes[i], deltas[i])];
        i := i + 1;
      }
    }

    /** The random alert: its type and message are picked by the drawn indices, it goes to the front,
        and the oldest alert is dropped when the feed then holds more than eight. */
    method GenerateRandomAlert(typeIndex: nat, messageIndex: nat)
      requires typeIndex < |RandomAlertTypes| && messageIndex < |RandomAlertMessages|
      modifies this`alerts
      ensures var a := Alert(RandomAlertTypes[typeIndex], RandomAlertMessages[messageIndex], "Just now");
        |alerts| > 0 && alerts[0] == a
      ensures |alerts| == if |old(alerts)| + 1 > AlertCap then |old(alerts)| else |old(alerts)| + 1
      ensures alerts[1..] == old(alerts)[..|alerts| - 1]
      ensures |old(alerts)| <= AlertCap ==> |alerts| <= AlertCap
    {
      var a := Alert(RandomAlertTypes[typeIndex], RandomAlertMessages[messageIndex], "Just now");
      alerts := [a] + alerts;
      if |alerts| > AlertCap {
        alerts := alerts[..|alerts| - 1];
      }
    }

    /** The success alert of a finished negotiation, prepended without trimming the feed. */
    method SimulateNegotiation(supplierName: string)
      modifies this`alerts
      ensures alerts == [NegotiationAlert(supplierName)] + old(alerts)
      ensures |alerts| == |old(alerts)| + 1
    {
      alerts := [NegotiationAlert(supplierName)] + alerts;
    }

    /** The crisis demonstration: the crisis alert is prepended without trimming and the risk score
        jumps to 8.7. */
    method TriggerCrisisDemo()
      modifies this`alerts, this`riskScore
      ensures alerts == [CrisisAlert] + old(alerts)
      ensures |alerts| == |old(alerts)| + 1
      ensures riskScore == 8.7
    {
      alerts := [CrisisAlert] + alerts;
      riskScore := 8.7;
    }
  }
}
