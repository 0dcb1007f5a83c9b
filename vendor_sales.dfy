/**
 * The vendor's sales screen, src/pages/vendor/VendorSales.tsx: the three
 * summary figures (revenue, orders, pending) over the vendor's sold items,
 * and the status badge of each row. The rows are those the API's `sales`
 * endpoint returns.
 */
module VendorSales {
  import opened Common
  import Vendor
  import OrdersPage

  type Sale = Vendor.Sale

  /** `sales.reduce((sum, sale) => sum + sale.total, 0)`. */
  function Revenue(sales: seq<Sale>): real
  {
    if |sales| == 0 then 0.0 else Revenue(sales[..|sales| - 1]) + sales[|sales| - 1].total
  }

  /** `s.status === 'pending'`: a null status is not pending. */
  predicate IsPending(s: Sale)
  {
    s.status == Some("pending")
  }

  /** `sales.filter((s) => s.status === 'pending').length`. */
  function PendingCount(sales: seq<Sale>): nat
  {
    if |sales| == 0 then 0 else PendingCount(sales[..|sales| - 1]) + (if IsPending(sales[|sales| - 1]) then 1 else 0)
  }

  /** The three summary cards. */
  datatype Summary = Summary(revenue: real, orders: nat, pending: nat)

  function Summarize(sales: seq<Sale>): (r: Summary)
    ensures r.orders == |sales|
  {
    Summary(Revenue(sales), |sales|, PendingCount(sales))
  }

  /** The figures of two lists together are the sums of their figures. */
  lemma {:induction false} SummaryAppend(a: seq<Sale>, b: seq<Sale>)
    ensures Revenue(a + b) == Revenue(a) + Revenue(b)
    ensures PendingCount(a + b) == PendingCount(a) + PendingCount(b)
    decreases |b|
  {
    if |b| == 0 {
      assert a + b == a;
    } else {
      assert (a + b)[..|a + b| - 1] == a + b[..|b| - 1];
      SummaryAppend(a, b[..|b| - 1]);
    }
  }

  /**
   * No more sales are pending than there are sales, and all of them are
   * exactly when every status is "pending".
   */
  lemma {:induction false} PendingBounds(sales: seq<Sale>)
    ensures PendingCount(sales) <= |sales|
    ensures PendingCount(sales) == |sales| <==> forall i :: 0 <= i < |sales| ==> IsPending(sales[i])
  {
    if |sales| > 0 {
      var init := sales[..|sales| - 1];
      PendingBounds(init);
      assert forall i :: 0 <= i < |init| ==> init[i] == sales[i];
    }
  }

  /** With no negative line total, the revenue is at least any single sale's total. */
  lemma {:induction false} RevenueCoversEachSale(sales: seq<Sale>, k: int)
    requires forall i :: 0 <= i < |sales| ==> sales[i].total >= 0.0
    requires 0 <= k < |sales|
    ensures Revenue(sales) >= sales[k].total
  {
    var init := sales[..|sales| - 1];
    if k < |sales| - 1 {
      RevenueCoversEachSale(init, k);
    } else {
      RevenueNonNegative(init);
    }
  }

  lemma {:induction false} RevenueNonNegative(sales: seq<Sale>)
    requires forall i :: 0 <= i < |sales| ==> sales[i].total >= 0.0
    ensures Revenue(sales) >= 0.0
  {
    if |sales| > 0 {
      RevenueNonNegative(sales[..|sales| - 1]);
    }
  }

  /** A row's badge: the raw status text, coloured by the orders page's map; a null status shows nothing. */
  function StatusBadge(s: Sale): (r: (string, Option<string>))
    ensures s.status.None? ==> r == ("", None)
    ensures s.status.Some? ==> r.0 == s.status.value && r.1 == OrdersPage.StatusColor(s.status.value)
  {
    match s.status
    case None => ("", None)
    case Some(st) => (st, OrdersPage.StatusColor(st))
  }
}
