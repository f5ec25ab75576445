# Vendor performance metrics — a Dafny model

This project models the performance-metrics engine of a vendor-management
backend (a Django application). A vendor has purchase orders. From those
orders four metrics are derived:

- the on-time delivery rate;
- the quality-rating average;
- the average response time, in seconds;
- the fulfillment rate.

Every recomputation writes the four values into the vendor record and appends
one historical-performance snapshot. The performance endpoint recomputes,
then answers with the average of each metric over all of the vendor's
snapshots. A purchase order can also recompute the vendor's response time by
itself, under a different rule.

Modules, one per concern:

| file | module | models |
|---|---|---|
| `wrappers.dfy` | `Wrappers` | `Option`, standing for Python `None` / SQL NULL |
| `aggregates.dfy` | `Aggregates` | queryset `count()` and `filter()`, and SQL `AVG`, which skips NULLs |
| `purchase_orders.dfy` | `PurchaseOrders` | the purchase-order record and a vendor's `purchaseorder_set` |
| `vendor_metrics.dfy` | `VendorMetrics` | the four `update_*` computations, as pure functions over the vendor's orders |
| `history.dfy` | `History` | the append-only snapshot table |
| `vendors.dfy` | `Vendors` | the `Vendor` class, its four updaters and `update_performance_metrics` |
| `order_response_time.dfy` | `OrderResponseTime` | `PurchaseOrder.recalculate_average_response_time` |
| `performance_view.dfy` | `PerformanceView` | the `vendor_performance` endpoint |

Timestamps are whole seconds (`int`). Metric values are exact `real`s.
Whenever nothing qualifies for a metric, the code assigns `None`, so every
metric is an `Option<real>`. The purchase-order table, the vendor table and
the snapshot clock are parameters. The snapshot table is a `HistoryStore`
object whose `records` sequence only grows.

What the code does, and the model follows, where a reader might expect
otherwise:

- Metrics are `None`, not 0.0, when nothing qualifies.
- The two rates are fractions in [0, 1], not percentages.
- The on-time filter compares `delivery_date` with itself
  (vendorManagement/vendorApi/models.py:17-18). It does not compare it with
  the current time or with a promised date. So the on-time rate is always 1.0
  when it is defined.
- An order counts as fulfilled only when it is `completed` AND acknowledged.
  A completed order that was never acknowledged makes the fulfillment rate
  0.0 (`CompletedAndPendingScenario`).
- Status matching is exact and case-sensitive. `"Completed"`, the value the
  purchase-order tests use, is not `"completed"`.
- The response-time divisor counts every acknowledged order. The numerator
  sums only orders that also have an issue date. `issue_date` is a NOT NULL
  column, but the code still guards against its absence. The model keeps it
  nullable so that this rule can be stated.
- The per-order recalculation measures from `order_date`, not `issue_date`.
  It skips the recalculating order. It writes 0 instead of `None` when no
  order contributes. It changes only the vendor's `average_response_time`.

## Model

| member | source | states |
|---|---|---|
| `Aggregates.Count` | vendorManagement/vendorApi/models.py:19 | a count never exceeds the collection's size, and it is 0 exactly when no row matches |
| `Aggregates.FilterMembership` | vendorManagement/vendorApi/models.py:16 | a filtered queryset holds every matching row of the collection and no other row |
| `Aggregates.MeanBounds` | vendorManagement/vendorApi/models.py:30-31 | an average lies between any lower and upper bound of its entries, so between their minimum and maximum |
| `Aggregates.SqlAvg` | vendorManagement/historyApi/views.py:25-32 | `AVG` of a column is `None` exactly when every entry is NULL |
| `Aggregates.SqlAvgSkipsNull` | vendorManagement/historyApi/views.py:25-32 | a NULL entry, wherever it stands, changes neither the numerator nor the divisor of `AVG` |
| `Aggregates.SqlAvgBounds` | vendorManagement/historyApi/views.py:25-32 | `AVG` lies within any bounds of the non-NULL entries |
| `PurchaseOrders.OrdersOf` | vendorManagement/purchaseApi/models.py:10 | a vendor's `purchaseorder_set`: the table's orders whose foreign key names the vendor, in table order |
| `PurchaseOrders.OrdersOfMembership` | vendorManagement/purchaseApi/models.py:10 | `purchaseorder_set` holds exactly the orders whose foreign key names the vendor |
| `PurchaseOrders.OrdersOfIgnoresOtherVendors` | vendorManagement/purchaseApi/models.py:10 | adding another vendor's order to the table leaves a vendor's order set unchanged |
| `VendorMetrics.OnTimeDeliveryRate` | vendorManagement/vendorApi/models.py:15-23 | the on-time rate is `None` exactly when no order has status `"completed"` |
| `VendorMetrics.OnTimeCountIsCompletedCount` | vendorManagement/vendorApi/models.py:16-18 | the self-comparison `delivery_date <= delivery_date` admits every completed order, so the on-time count equals the completed count |
| `VendorMetrics.OnTimeRateIsOneWhenDefined` | vendorManagement/vendorApi/models.py:15-23 | whenever the on-time rate is defined it is exactly 1.0 |
| `VendorMetrics.Ratings` | vendorManagement/vendorApi/models.py:26-28 | there are as many ratings in the average as completed orders with a non-null rating |
| `VendorMetrics.RatingsAreThoseOfRatedCompletedOrders` | vendorManagement/vendorApi/models.py:26-31 | every averaged rating is the rating of a completed, rated order, and the rating of every such order is among them |
| `VendorMetrics.RatingMultiplicity` | vendorManagement/vendorApi/models.py:26-31 | each rating value enters the average exactly as many times as there are completed orders with that rating, so the average weighs every rated order once |
| `VendorMetrics.QualityRatingAvg` | vendorManagement/vendorApi/models.py:25-33 | the quality average is `None` exactly when no completed order has a rating |
| `VendorMetrics.QualityWithinRatings` | vendorManagement/vendorApi/models.py:25-33 | the quality average lies between any bounds of the ratings that enter it, so between their minimum and maximum |
| `VendorMetrics.QualityIgnoresUnratedOrders` | vendorManagement/vendorApi/models.py:26-27 | an unrated or non-completed order, wherever it stands, changes neither the numerator nor the divisor of the quality average |
| `VendorMetrics.ResponseTotal` | vendorManagement/vendorApi/models.py:40-43 | the summed response time is non-negative when no order was acknowledged before it was issued |
| `VendorMetrics.AverageResponseTime` | vendorManagement/vendorApi/models.py:35-45 | the average response time is `None` exactly when no order is acknowledged; it is non-negative when no order was acknowledged before it was issued |
| `VendorMetrics.MissingIssueDateStillCounted` | vendorManagement/vendorApi/models.py:38-43 | an acknowledged order without an issue date adds nothing to the total but one to the divisor |
| `VendorMetrics.SingleAcknowledgedOrder` | vendorManagement/vendorApi/models.py:40-43 | for a single order acknowledged d seconds after issue, the average response time is d |
| `VendorMetrics.FulfillmentRate` | vendorManagement/vendorApi/models.py:47-54 | the fulfillment rate is `None` exactly when the vendor has no orders; otherwise it lies in [0, 1] |
| `VendorMetrics.ComputeMetrics` | vendorManagement/vendorApi/models.py:59-62 | the four metrics the four updater calls produce from one order list; none reads another metric, so their order is immaterial |
| `VendorMetrics.NoOrdersNoMetrics` | vendorManagement/vendorApi/models.py:15-54 | a vendor with no orders gets `None` for all four metrics |
| `VendorMetrics.StatusMatchIsExact` | vendorManagement/vendorApi/models.py:16-52 | an order whose status is not exactly `"completed"` adds one to the fulfillment divisor and leaves the on-time rate, the quality average and the fulfillment numerator unchanged |
| `VendorMetrics.MetricsIgnoreOtherVendors` | vendorManagement/vendorApi/models.py:15-54 | another vendor's order in the table never changes a vendor's four metrics |
| `VendorMetrics.CapitalisedCompletedScenario` | vendorManagement/purchaseApi/tests.py:58-72 | the updated test order, with status `"Completed"` and acknowledged ten days after issue, gives no on-time rate, no quality average, a response time of 864000 s and a fulfillment rate of 0.0 |
| `VendorMetrics.CompletedAndPendingScenario` | vendorManagement/vendorApi/models.py:15-54 | a completed order rated 4.0 but never acknowledged, next to a pending order, gives on-time 1.0, quality 4.0, no response time and fulfillment 0.0 |
| `History.ForVendor` | vendorManagement/historyApi/views.py:21 | the snapshots of one vendor, in table order: the queryset filter on the vendor foreign key |
| `History.ForVendorMembership` | vendorManagement/historyApi/views.py:21 | a vendor's snapshot list holds every snapshot naming that vendor and only those, one entry per such snapshot |
| `History.ForVendorAppend` | vendorManagement/historyApi/views.py:21 | appending a snapshot extends a vendor's list by it exactly when the snapshot is that vendor's |
| `History.HistoryStore.Create` | vendorManagement/vendorApi/models.py:65-71 | creating a snapshot appends exactly that record and keeps every earlier record |
| `Vendors.Vendor.UpdateOnTimeDeliveryRate` | vendorManagement/vendorApi/models.py:15-23 | writes the on-time rate of the vendor's orders and changes no other metric |
| `Vendors.Vendor.UpdateQualityRatingAvg` | vendorManagement/vendorApi/models.py:25-33 | writes the quality average of the vendor's orders and changes no other metric |
| `Vendors.Vendor.UpdateAverageResponseTime` | vendorManagement/vendorApi/models.py:35-45 | writes the average response time of the vendor's orders and changes no other metric |
| `Vendors.Vendor.UpdateFulfillmentRate` | vendorManagement/vendorApi/models.py:47-54 | writes the fulfillment rate of the vendor's orders and changes no other metric |
| `Vendors.Vendor.UpdatePerformanceMetrics` | vendorManagement/vendorApi/models.py:56-71 | the four fields become the metrics of the vendor's own orders; exactly one snapshot is appended, it copies those four values, and earlier snapshots are kept; name, contact details, address and vendor code are unchanged |
| `OrderResponseTime.AcknowledgedOthers` | vendorManagement/purchaseApi/models.py:23-26 | the queryset of acknowledged orders of the same vendor, excluding the recalculating order, in table order |
| `OrderResponseTime.AcknowledgedOthersAreContributors` | vendorManagement/purchaseApi/models.py:23-26 | only acknowledged orders of the same vendor contribute, every one of them does, and the recalculating order never does |
| `OrderResponseTime.TotalDuration` | vendorManagement/purchaseApi/models.py:31-32 | the sum of acknowledgment minus order date over the contributing orders, accumulated front to back |
| `OrderResponseTime.SumDurations` | vendorManagement/purchaseApi/models.py:28-32 | the loop's running total is the sum of acknowledgment minus order date over the contributing orders |
| `OrderResponseTime.TotalDurationBounds` | vendorManagement/purchaseApi/models.py:28-32 | when each duration lies in [lo, hi], the total lies between n·lo and n·hi |
| `OrderResponseTime.AverageSeconds` | vendorManagement/purchaseApi/models.py:35-39 | the value written to the vendor: the summed duration divided by the number of contributing orders, or 0 when there are none |
| `OrderResponseTime.NoContributorsGivesZero` | vendorManagement/purchaseApi/models.py:35-39 | with no contributing order the result is 0, not `None` |
| `OrderResponseTime.AverageWithinDurations` | vendorManagement/purchaseApi/models.py:35-42 | when some order contributes, the result lies within any bounds of the contributing durations; bounds that contain 0 hold in every case, as no contributor gives 0, so with a lower bound of 0 the result is non-negative when no order was acknowledged before it was placed |
| `OrderResponseTime.NonContributingOrderIgnored` | vendorManagement/purchaseApi/models.py:23-26 | another vendor's order, an unacknowledged order or the recalculating order itself never changes the result |
| `OrderResponseTime.SingleContributingOrder` | vendorManagement/purchaseApi/models.py:31-37 | with one other acknowledged order, the result is that order's acknowledgment minus its order date; the issue date plays no part |
| `OrderResponseTime.RecalculateAverageResponseTime` | vendorManagement/purchaseApi/models.py:21-43 | the vendor's response time becomes the per-order average; its other three metrics are unchanged |
| `PerformanceView.AverageMetrics` | vendorManagement/historyApi/views.py:24-32 | each averaged metric is `None` exactly when that metric is `None` in every snapshot |
| `PerformanceView.AveragedOnTimeRateIsOne` | vendorManagement/historyApi/views.py:25-26 | snapshots whose on-time rate is 1.0 or `None` average to 1.0 or `None` |
| `PerformanceView.AveragedFulfillmentRateIsFraction` | vendorManagement/historyApi/views.py:31-32 | fulfillment rates in [0, 1] average to a value in [0, 1] |
| `PerformanceView.AveragesIgnoreOtherVendors` | vendorManagement/historyApi/views.py:21 | another vendor's snapshot never changes a vendor's averages |
| `PerformanceView.VendorPerformance` | vendorManagement/historyApi/views.py:15-44 | an unknown id answers not found and leaves the history unchanged. Otherwise: the vendor is recomputed from its own orders; exactly one snapshot is added; the vendor then has at least one snapshot, the newest one holding its stored metrics; the answer names the requested id and carries the averages over all of that vendor's snapshots; the vendor's name, contact details, address and vendor code are unchanged |

## Left out

- HTTP handling, routing, authentication and permission decorators: request plumbing. The unknown-vendor 404 is the `NotFound` response.
- Serializers, including the nested creation of orders and snapshots in the vendor serializer: plain record insertion.
- Database constraints. The vendor's metric columns are NOT NULL, yet the updaters assign `None`, so a real save would fail. Snapshot columns get a 0.0 default in a migration. Neither is modelled.
- `vendor.save()` and `self.vendor.save()`: persistence only. In the model the object is the stored row.
- The opaque `items` JSON payload of a purchase order: no metric reads it.
- Floating-point representation and the microsecond rounding of `timedelta / int`: the model uses exact arithmetic.
- The clock behind the snapshot's `auto_now_add` date: it is the `now` parameter.
- `print` logging in the performance view.
- Transactions and concurrency: the code uses none.
- `__str__` methods: display only.

No contract is stated weaker than the code it models.
