# Supply-chain snapshot: a verified model

This project models the deterministic core of a supply-chain dashboard demo. The demo has two
halves. Each keeps its own in-memory snapshot of inventory items, suppliers, shipping routes and
alerts, and each changes that snapshot in place:

- **The backend** (`server.js`) offers an automatic restock of an inventory item from the
  best-scoring supplier and a route optimisation that reroutes a delayed route. A five-second tick
  advances active routes and consumes stock. A WebSocket message dispatch routes incoming frames
  to these handlers. It is modelled in module `Server`, with the snapshot as class
  `Server.Snapshot`.
- **The browser** (`app.js`) runs its own five-second inventory and route updates and keeps an
  alert feed that a random-alert timer caps at eight. It also has a scripted keyword classifier for
  the chat widget and a star-string builder for supplier cards. It is modelled in module `Client`,
  with the dashboard state as class `Client.Dashboard`.

Every `Math.random()` draw becomes an explicit parameter, limited to the range the code draws it
from. The rules can therefore be stated exactly:

- the consumption amount is 0..9;
- the inventory change is -25..24;
- the route advance is in [0, 2) on the backend and [0, 5) in the browser;
- the number of alternative routes is 1..3.

The answers of the external language model are parameters too: `None` stands for a failed call or
an unparseable answer.

Stock and thresholds are integers. The source compares stock with `threshold * 0.5` (backend) and
`threshold * 0.8` (browser); the bodies keep those real-number comparisons, and the contracts
restate them over integers (`2 * current < threshold`, `5 * current < 4 * threshold`). Ratings and
route progress are `real`. The reorder quantity `floor(max(threshold - current, threshold * 0.5))`
is proved equal to `max(threshold - current, threshold / 2)` with integer division.

Helper modules: `Wrappers` holds `Option`, `Result` and `FindFirst`, the first-match search that
`Array.prototype.find` performs. `Text` holds ASCII lower-casing, the substring search of
`String.prototype.includes`, `repeat`, and the decimal text of a number. `Reals` holds the `Math.min`
and `Math.max` of two reals.

Notes on what the code does, which the model follows:

- The backend never caps its alert list. Every restock and every reroute prepends an alert. The
  15-second random-alert timer and the cap of eight exist only in the browser (`app.js:648-652`,
  `app.js:719-724`).
- A negotiation with an unknown supplier does not fail with "not found". The handler catches the
  error and returns an error object (`server.js:186-193`). The dispatch then still broadcasts a
  `negotiation_update` that carries this object (`server.js:104-107`).
- On the WebSocket path, a handler that throws ("Route not found", "Inventory item not found",
  "No suitable suppliers found") does not get its own message back. The `message` listener catches
  the error and replies "Invalid message format" (`server.js:75-83`).
- Restocking sets the status to optimal or low only (`server.js:268`). It never uses the tick's
  three-way rule. The model proves that the low branch can never be taken.
- The status rule is not a global invariant: the seed data starts with "Electronics" at 1250/1000
  marked critical. The model proves that every item the tick, a restock or the browser update
  touches ends consistent with the rule.

## Model

| member | source | states |
|---|---|---|
| `Wrappers.FindFirst` | server.js:236 | the result is the first index whose element satisfies the predicate; `None` exactly when no element does |
| `Text.Lower` | server.js:244-245 | same length; each character is lower-cased; no upper-case ASCII letter remains |
| `Text.IncludesIff` | server.js:244-245 | the left-to-right search finds `sub` in `s` iff `sub` occurs at some index of `s` |
| `Text.Repeat` | app.js:311 | `repeat(n)` has length `n` and every character is the repeated one |
| `Text.NatToString` | server.js:273 | the quantity in the restock alert is rendered as its canonical decimal text: a non-empty string of digits that denotes exactly that quantity, with no leading zero |
| `Server.TickStatus` | server.js:383-384 | critical iff `2*current < threshold`; low iff between half the threshold and the threshold; optimal otherwise |
| `Server.ConsistentNeverOptimalBelowThreshold` | server.js:383-384 | an item whose status follows the rule is never optimal below its threshold, and critical only below it |
| `Server.ConsumeItem` | server.js:380-386 | a consumed item's stock is `max(0, current - k)`, so it is never negative and never rises; its status then follows the rule; an item whose draw does not fire is unchanged |
| `Server.AdvanceRoute` | server.js:370-377 | only active routes change; their progress becomes `min(100, progress + delta)`, so it never decreases and never exceeds 100; they become completed exactly when progress reaches 100; only allowed state-machine transitions occur |
| `Server.OptimizedRoute` | server.js:212-215 | a route changes only when it is delayed and more than one alternative was drawn; it then becomes rerouted, with progress `min(progress + 10, 100)` (never more than 10 points ahead, and 100 only when the step reaches it) and risk low in favourable weather and medium otherwise |
| `Server.SomeProductMatchesIff` | server.js:242-247 | a supplier is suitable iff one of its products, lower-cased, contains the lower-cased item name or is contained in it |
| `Server.FilterMembers` | server.js:242-247 | the filtered list holds exactly the suppliers of the input list that the callback accepts |
| `Server.ReduceBounds` | server.js:254-258 | the reduce returns the start value or a list element, with a score at least that of the start value and of every element |
| `Server.BestSupplier` | server.js:254-258 | the chosen supplier is a candidate whose score is at least every candidate's |
| `Server.BestSupplierIsChosen` | server.js:242-258 | filter-then-reduce picks a suitable supplier with the highest `rating*10 + (20 - leadTime)`, strictly ahead of every suitable supplier listed before it, so the earliest one wins a tie |
| `Server.ReorderQuantity` | server.js:261-264 | the quantity equals `max(threshold - current, threshold / 2)` (integer division); adding it reaches the threshold; it is non-negative for a non-negative threshold |
| `Server.RestockedItem` | server.js:267-268 | the restocked stock is the old stock plus the reorder quantity; the name, threshold and prediction are kept |
| `Server.RestockReachesThreshold` | server.js:267-268 | after a restock, stock is at least the threshold, so the status is always optimal (the low branch is dead) and consistent with the tick's rule |
| `Server.Snapshot.ProcessAutomaticRestock` | server.js:235-286 | succeeds exactly when the item exists and some supplier is suitable; an unknown item fails with "Inventory item not found" and no suitable supplier fails with "No suitable suppliers found", both without mutation; on success only that item is restocked, exactly one alert naming the quantity and the best supplier is prepended, and the result reports them |
| `Server.Snapshot.OptimizeRoute` | server.js:197-232 | an unknown id fails with "Route not found" and changes nothing; otherwise only that route becomes its optimised value, one alert is prepended exactly when it is rerouted, and the result reports the route, the weather and number of alternative routes that were drawn, and the new status |
| `Server.Snapshot.ProcessSupplierNegotiation` | server.js:150-194 | an unknown supplier or a failed collaborator answer yields the error object and changes nothing; otherwise only that supplier's status becomes in-progress |
| `Server.Snapshot.Tick` | server.js:363-390 | every route becomes `AdvanceRoute` of its old value and every item becomes `ConsumeItem` of its old value; suppliers and alerts are unchanged and the snapshot invariant is kept |
| `Server.Snapshot.HandleWebSocketMessage` | server.js:97-122 | fails exactly when the handler throws (unknown route, unknown item, no suitable supplier), changing nothing; otherwise, per `Handled`: chat replies to the sender only; negotiate updates that supplier as its handler does and broadcasts the negotiation result; optimize_route replaces the route by its optimised value, prepends the reroute alert when rerouted and broadcasts the optimisation result; request_restock restocks the item, prepends the alert and broadcasts quantity and supplier; any other type gets one "Unknown message type" reply and mutates nothing |
| `Server.Snapshot.OnMessage` | server.js:75-83 | an unparseable frame, or a frame whose handler throws (unknown route, unknown item, no suitable supplier), gets exactly one "Invalid message format" reply and mutates nothing; every other frame has exactly the effect and the delivery the dispatch states for it |
| `Client.DashboardStatus` | app.js:688-694 | critical iff `5*current < 4*threshold`, that is below 80% of the threshold; low iff from 80% up to the threshold; optimal otherwise |
| `Client.ShiftItem` | app.js:684-694 | stock becomes `max(0, current + change)`, so it is never negative; the status then follows the 80% rule, so it is never optimal below the threshold |
| `Client.AdvanceRoute` | app.js:669-676 | only active routes below 100 change; their progress becomes `min(100, progress + delta)`, so it never decreases and stays at most 100; status becomes completed exactly when progress reaches 100 |
| `Client.FirstMatch` | app.js:590-608 | the table lookup returns the greeting or the answer of some table row |
| `Client.GenerateAIResponseIsTableLookup` | app.js:590-608 | the chat classifier's if-chain equals the first-match lookup of the lower-cased message in the ordered keyword table |
| `Client.ResponseIsCanned` | app.js:590-608 | the classifier always returns one of the seven canned responses |
| `Client.CrisisResponseIff` | app.js:597-604 | the crisis answer is given iff the message mentions "emergency" and none of the ten earlier keywords, "crisis" among them |
| `Client.Stars` | app.js:311 | for `0 <= floor(rating) <= 5`: five characters, `floor(rating)` filled stars then empty ones; for any other rating `repeat` throws (`None`) |
| `Client.Dashboard.UpdateInventoryLevels` | app.js:681-701 | every item becomes `ShiftItem` of its old value, so every item ends consistent with the 80% rule; routes, suppliers and alerts are unchanged |
| `Client.Dashboard.UpdateRouteProgress` | app.js:668-679 | every route becomes `AdvanceRoute` of its old value; progress stays within [0, 100]; nothing else changes |
| `Client.Dashboard.GenerateRandomAlert` | app.js:703-727 | the new alert is first and the previous alerts follow in order; the oldest one is dropped when the feed exceeds eight; a feed of at most eight stays at most eight |
| `Client.Dashboard.SimulateNegotiation` | app.js:621-629 | exactly one success alert is prepended and the rest is unchanged; the feed grows by one even past eight |
| `Client.Dashboard.TriggerCrisisDemo` | app.js:775-786 | exactly one crisis alert is prepended without trimming, and the risk score becomes 8.7 |

## Left out

- Rendering: every `render*` function, the charts, the particle effect, the loading screen and the
  navigation are user interface only.
- Timers: `setInterval` and `setTimeout` scheduling and the async plumbing are left out. Each timer
  body is one method call. The browser's 30% draw that decides whether a random alert is generated
  (`app.js:649`) is left to the caller of `GenerateRandomAlert`.
- Networking: the Express routes (`server.js:299-360`), the connection registry and
  `broadcastUpdate` (`server.js:289-296`) are I/O. A `Delivery` value names what is sent to the
  sender and what is broadcast.
- The language-model collaborator: the prompts of `processAIChat` and `processSupplierNegotiation`
  and the JSON parsing of the answer are foreign behaviour. Only the collaborator's outcome is a
  parameter, and `lastNegotiation` (a timestamp) is not kept.
- Metrics: the drifting floating-point metrics of the backend tick (`server.js:365-367`) and of
  `updateMetrics` (`app.js:655-666`) are left out, together with the `formatNumber` rounding. The
  only metric modelled is the browser's risk score, because the crisis demo sets it.
- Random-only outputs and dates: `optimizationFactors.traffic`, `optimizationFactors.fuelCosts`,
  `estimatedSavings`, `estimatedCost`, `expectedDelivery` and every ISO timestamp are left out. The
  two factors the reroute rule reads, `weather` and `alternativeRoutes`, are parameters and are
  reported in the optimisation result (`weather` as a flag for "favorable").
- Number representation: stock, thresholds and reorder quantities are unbounded integers. JavaScript
  holds them as doubles, exact only below 2^53, and a template literal switches to exponent notation
  from 1e21; `Text.NatToString` renders every quantity in plain digits.
- Floating point: progress, ratings and scores are exact `real`s, so binary floating-point rounding
  (as in `4.8 * 10`) is not modelled.
- Case folding: `Text.Lower` folds only the ASCII letters A-Z, whereas `toLowerCase` follows full
  Unicode case mapping.
- Frames: a frame is a record of the fields the handlers read. A missing `type` is any string that
  is not a known type. A frame that parses to `null` (a TypeError inside the dispatch) and a frame
  that does not parse both fall under `None`. The loose `s.id == supplierId` comparison is
  integer equality.
- Seed data: the hard-coded initial snapshots (`server.js:26-62`, `app.js:2-47`) are constructor
  arguments. They are not constants of the model.
- Everything in `server.js` after line 400 (the package manifest, environment example, unused
  database schemas, prompt templates and the random data generator) is not part of this model.
