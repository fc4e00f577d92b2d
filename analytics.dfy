/**
 * The read-only reports (backend/back/routes/analyticsRoutes.js): orders per day since a cutoff,
 * the five best-selling product names, and how many orders are in each status. Each aggregation
 * pipeline is a function of the orders, so none of them can change an order.
 */
module Analytics {
  import opened Http
  import opened OrderModel
  import opened AuthGate
  import Listing

  // ---------------------------------------------------------------------------------------------
  // Status distribution: `$group` by status with a count.

  datatype StatusCount = StatusCount(status: Status, count: nat)

  /** How many of `orders` are in status `s`. */
  function InStatus(orders: seq<Order>, s: Status): (n: nat)
    ensures n > 0 <==> exists o :: o in orders && o.status == s
  {
    if orders == [] then 0
    else (if orders[0].status == s then 1 else 0) + InStatus(orders[1..], s)
  }

  /** The sum of the counts of a distribution. */
  function TotalCount(d: seq<StatusCount>): nat {
    if d == [] then 0 else d[0].count + TotalCount(d[1..])
  }

  /** How many orders are in one of the statuses `ss`, counted status by status. */
  function InStatuses(orders: seq<Order>, ss: seq<Status>): nat {
    if ss == [] then 0 else InStatus(orders, ss[0]) + InStatuses(orders, ss[1..])
  }

  lemma {:induction false} NoOrdersInStatuses(ss: seq<Status>)
    ensures InStatuses([], ss) == 0
  {
    if ss != [] {
      NoOrdersInStatuses(ss[1..]);
    }
  }

  /** Dropping the first order lowers the status-by-status count by how often `ss` lists its status. */
  lemma {:induction false} InStatusesStep(orders: seq<Order>, ss: seq<Status>)
    requires orders != []
    ensures InStatuses(orders, ss) == InStatuses(orders[1..], ss) + multiset(ss)[orders[0].status]
  {
    if ss != [] {
      InStatusesStep(orders, ss[1..]);
      assert ss == [ss[0]] + ss[1..];
    }
  }

  /** Counted status by status over the whole enum, every order is counted once. */
  lemma {:induction false} EnumCoversOrders(orders: seq<Order>)
    ensures InStatuses(orders, AllStatuses) == |orders|
  {
    if orders == [] {
      NoOrdersInStatuses(AllStatuses);
    } else {
      InStatusesStep(orders, AllStatuses);
      EnumCoversOrders(orders[1..]);
      assert multiset(AllStatuses)[orders[0].status] == 1;
    }
  }

  /** One entry for each status of `ss` that some order is in, in the order of `ss`. */
  function PresentStatuses(orders: seq<Order>, ss: seq<Status>): (r: seq<StatusCount>)
    ensures forall e :: e in r ==> e.status in ss && e.count == InStatus(orders, e.status) && e.count > 0
    ensures forall s :: s in ss && InStatus(orders, s) > 0 ==> StatusCount(s, InStatus(orders, s)) in r
    ensures (forall i, j :: 0 <= i < j < |ss| ==> ss[i] != ss[j]) ==>
              forall i, j :: 0 <= i < j < |r| ==> r[i].status != r[j].status
    ensures TotalCount(r) == InStatuses(orders, ss)
  {
    if ss == [] then []
    else
      var rest := PresentStatuses(orders, ss[1..]);
      var n := InStatus(orders, ss[0]);
      assert forall s :: s in ss <==> s == ss[0] || s in ss[1..];
      if n > 0 then
        var r := [StatusCount(ss[0], n)] + rest;
        assert r[1..] == rest;
        assert forall e :: e in r <==> e == r[0] || e in rest;
        assert (forall i, j :: 0 <= i < j < |ss| ==> ss[i] != ss[j]) ==> ss[0] !in ss[1..];
        r
      else rest
  }

  /**
   * The manager's status distribution: an entry for exactly the statuses some order is in, each
   * with the number of orders in it, each status once, the counts adding up to all orders.
   */
  function StatusDistribution(orders: seq<Order>): (r: seq<StatusCount>)
    ensures forall e :: e in r ==> e.count == InStatus(orders, e.status) && e.count > 0
    ensures forall s :: (exists e :: e in r && e.status == s) <==> InStatus(orders, s) > 0
    ensures forall i, j :: 0 <= i < j < |r| ==> r[i].status != r[j].status
    ensures TotalCount(r) == |orders|
  {
    var r := PresentStatuses(orders, AllStatuses);
    forall s ensures (exists e :: e in r && e.status == s) <==> InStatus(orders, s) > 0 {
      StatusNameRoundTrip(s);
      if InStatus(orders, s) > 0 {
        assert StatusCount(s, InStatus(orders, s)) in r;
      }
    }
    AllStatusesDistinct();
    EnumCoversOrders(orders);
    r
  }

  lemma AllStatusesDistinct()
    ensures forall i, j :: 0 <= i < j < |AllStatuses| ==> AllStatuses[i] != AllStatuses[j]
  {
  }

  // ---------------------------------------------------------------------------------------------
  // Top products: `$unwind` the items, `$group` by name snapshot summing quantities,
  // `$sort` by the sum descending, `$limit` 5.

  datatype Seller = Seller(name: string, totalSold: int)

  /** Every line item of every order (`$unwind`). */
  function Unwind(orders: seq<Order>): (r: seq<LineItem>)
    ensures forall i :: i in r <==> exists o :: o in orders && i in o.items
  {
    if orders == [] then []
    else
      var rest := Unwind(orders[1..]);
      assert forall o :: o in orders <==> o == orders[0] || o in orders[1..];
      orders[0].items + rest
  }

  /** Whether some item of some order carries the name snapshot `name`. */
  predicate Ordered(orders: seq<Order>, name: string) {
    exists o, i :: o in orders && i in o.items && i.name == name
  }

  /** The items of `Unwind` are exactly the items of the orders. */
  lemma {:induction false} UnwindHoldsAllItems(orders: seq<Order>, name: string)
    ensures (exists i :: i in Unwind(orders) && i.name == name) <==> Ordered(orders, name)
  {
    if orders != [] {
      UnwindHoldsAllItems(orders[1..], name);
      assert forall i :: i in Unwind(orders) <==> i in orders[0].items || i in Unwind(orders[1..]);
      if Ordered(orders, name) {
        var o, i :| o in orders && i in o.items && i.name == name;
        if o != orders[0] {
          assert o in orders[1..];
        }
      }
    }
  }

  /** The summed quantity of the items named `name`. */
  function Sold(items: seq<LineItem>, name: string): int {
    if items == [] then 0
    else (if items[0].name == name then items[0].quantity else 0) + Sold(items[1..], name)
  }

  /** Per order: the quantity sold under `name` is the sum of each order's own. */
  function SoldAcross(orders: seq<Order>, name: string): int {
    if orders == [] then 0 else Sold(orders[0].items, name) + SoldAcross(orders[1..], name)
  }

  lemma {:induction false} SoldConcat(a: seq<LineItem>, b: seq<LineItem>, name: string)
    ensures Sold(a + b, name) == Sold(a, name) + Sold(b, name)
  {
    if a == [] {
      assert a + b == b;
    } else {
      assert (a + b)[1..] == a[1..] + b;
      SoldConcat(a[1..], b, name);
    }
  }

  /** Summing over the unwound items equals summing order by order. */
  lemma {:induction false} UnwoundSold(orders: seq<Order>, name: string)
    ensures Sold(Unwind(orders), name) == SoldAcross(orders, name)
  {
    if orders != [] {
      SoldConcat(orders[0].items, Unwind(orders[1..]), name);
      UnwoundSold(orders[1..], name);
    }
  }

  /** The distinct names among the items. */
  function Names(items: seq<LineItem>): (r: seq<string>)
    ensures forall n :: n in r <==> exists i :: i in items && i.name == n
    ensures forall i, j :: 0 <= i < j < |r| ==> r[i] != r[j]
  {
    if items == [] then []
    else
      var rest := Names(items[1..]);
      assert forall i :: i in items <==> i == items[0] || i in items[1..];
      if items[0].name in rest then rest else [items[0].name] + rest
  }

  /** The `$group` stage: one seller per name, with its summed quantity. */
  function Group(items: seq<LineItem>): (r: seq<Seller>)
    ensures forall s :: s in r <==> s.name in Names(items) && s.totalSold == Sold(items, s.name)
    ensures forall i, j :: 0 <= i < j < |r| ==> r[i] != r[j]
  {
    var names := Names(items);
    var r := seq(|names|, k requires 0 <= k < |names| => Seller(names[k], Sold(items, names[k])));
    assert forall s: Seller :: s.name in names && s.totalSold == Sold(items, s.name) ==> s in r by {
      forall s: Seller | s.name in names && s.totalSold == Sold(items, s.name) ensures s in r {
        var k :| 0 <= k < |names| && names[k] == s.name;
        assert r[k] == s;
      }
    }
    r
  }

  function TotalSold(s: Seller): int { s.totalSold }

  /** A sequence whose elements are pairwise distinct. */
  ghost predicate Distinct<T>(s: seq<T>) {
    forall i, j :: 0 <= i < j < |s| ==> s[i] != s[j]
  }

  lemma {:induction false} DistinctCountsOnce<T>(s: seq<T>, x: T)
    requires Distinct(s)
    ensures multiset(s)[x] <= 1
  {
    if s != [] {
      assert s == [s[0]] + s[1..];
      assert Distinct(s[1..]) by {
        forall i, j | 0 <= i < j < |s[1..]| ensures s[1..][i] != s[1..][j] {
          assert s[1..][i] == s[i + 1] && s[1..][j] == s[j + 1];
        }
      }
      DistinctCountsOnce(s[1..], x);
      if s[0] == x {
        assert x !in s[1..] by {
          forall k | 0 <= k < |s[1..]| ensures s[1..][k] != x {
            assert s[1..][k] == s[k + 1];
          }
        }
      }
    }
  }

  /** A reordering of a sequence without repeats has no repeats. */
  lemma DistinctPermutation<T>(a: seq<T>, b: seq<T>)
    requires multiset(a) == multiset(b) && Distinct(a)
    ensures Distinct(b)
  {
    forall i, j | 0 <= i < j < |b| ensures b[i] != b[j] {
      var x := b[i];
      DistinctCountsOnce(a, x);
      assert b == b[..j] + b[j..];
      assert x in b[..j];
      assert multiset(b)[x] == multiset(b[..j])[x] + multiset(b[j..])[x];
      assert x !in b[j..];
      assert b[j] in b[j..];
    }
  }

  /**
   * Every seller of the `$group` stage ordered by non-increasing quantity sold: one entry per
   * ordered name, with the total quantity of all items carrying that name.
   */
  function Ranked(orders: seq<Order>): (r: seq<Seller>)
    ensures Listing.NonIncreasing(r, TotalSold)
    ensures forall s :: s in r <==> Ordered(orders, s.name) && s.totalSold == SoldAcross(orders, s.name)
    ensures forall i, j :: 0 <= i < j < |r| ==> r[i].name != r[j].name
  {
    var groups := Group(Unwind(orders));
    var r := Listing.SortDesc(groups, TotalSold);
    forall s: Seller ensures s in r <==> Ordered(orders, s.name) && s.totalSold == SoldAcross(orders, s.name) {
      assert s in r <==> s in groups by {
        assert s in r <==> multiset(r)[s] > 0;
        assert s in groups <==> multiset(groups)[s] > 0;
      }
      GroupOfUnwind(orders, s);
    }
    DistinctPermutation(groups, r);
    forall i, j | 0 <= i < j < |r| ensures r[i].name != r[j].name {
      assert r[i] != r[j] && r[i] in r && r[j] in r;
    }
    r
  }

  /** A seller of the grouped items is an ordered name with the quantity sold under it over all orders. */
  lemma GroupOfUnwind(orders: seq<Order>, s: Seller)
    ensures s in Group(Unwind(orders)) <==> Ordered(orders, s.name) && s.totalSold == SoldAcross(orders, s.name)
  {
    UnwindHoldsAllItems(orders, s.name);
    UnwoundSold(orders, s.name);
  }

  /**
   * The admin's top products: at most five sellers, by non-increasing quantity sold, each name
   * once, each with the total quantity of all items carrying that name; and any name ordered but
   * left out sold no more than every listed one, with the list full.
   */
  function TopProducts(orders: seq<Order>): (r: seq<Seller>)
    ensures |r| <= 5
    ensures Listing.NonIncreasing(r, TotalSold)
    ensures forall s :: s in r ==> Ordered(orders, s.name) && s.totalSold == SoldAcross(orders, s.name)
    ensures forall i, j :: 0 <= i < j < |r| ==> r[i].name != r[j].name
    ensures forall n :: Ordered(orders, n) && (forall s :: s in r ==> s.name != n) ==>
              |r| == 5 && forall s :: s in r ==> s.totalSold >= SoldAcross(orders, n)
  {
    var ranked := Ranked(orders);
    var r := if |ranked| <= 5 then ranked else ranked[..5];
    FirstFive(ranked, r);
    forall n | Ordered(orders, n) && (forall s :: s in r ==> s.name != n)
      ensures |r| == 5 && forall s :: s in r ==> s.totalSold >= SoldAcross(orders, n)
    {
      assert Seller(n, SoldAcross(orders, n)) in ranked;
    }
    r
  }

  /**
   * The first five of a list ranked by total keep its order, its entries and its distinct names,
   * and when an entry is left out, five are kept and each sells at least as much as it.
   */
  lemma FirstFive(ranked: seq<Seller>, r: seq<Seller>)
    requires Listing.NonIncreasing(ranked, TotalSold)
    requires forall i, j :: 0 <= i < j < |ranked| ==> ranked[i].name != ranked[j].name
    requires r == if |ranked| <= 5 then ranked else ranked[..5]
    ensures |r| <= 5 && Listing.NonIncreasing(r, TotalSold)
    ensures forall s :: s in r ==> s in ranked
    ensures forall i, j :: 0 <= i < j < |r| ==> r[i].name != r[j].name
    ensures forall x :: x in ranked && x !in r ==> |r| == 5 && forall s :: s in r ==> s.totalSold >= x.totalSold
  {
    assert forall k :: 0 <= k < |r| ==> r[k] == ranked[k];
    forall x | x in ranked && x !in r ensures |r| == 5 && forall s :: s in r ==> s.totalSold >= x.totalSold {
      var k :| 0 <= k < |ranked| && ranked[k] == x;
      assert k >= |r|;
      forall s | s in r ensures s.totalSold >= x.totalSold {
        var i :| 0 <= i < |r| && r[i] == s;
        assert TotalSold(ranked[i]) >= TotalSold(ranked[k]);
      }
    }
  }

  // ---------------------------------------------------------------------------------------------
  // Orders per day: `$match` createdAt >= cutoff, `$group` by calendar day with a count,
  // `$sort` by day ascending. The calendar day of a timestamp is the caller's `day` function.

  datatype DayCount = DayCount(day: nat, count: nat)

  /** The orders created at or after `cutoff` (the `$match` stage). */
  function Since(orders: seq<Order>, cutoff: nat): (r: seq<Order>)
    ensures forall o :: o in r <==> o in orders && o.createdAt >= cutoff
    ensures forall o :: multiset(r)[o] == if o.createdAt >= cutoff then multiset(orders)[o] else 0
  {
    assert orders != [] ==> orders == [orders[0]] + orders[1..];
    if orders == [] then []
    else (if orders[0].createdAt >= cutoff then [orders[0]] else []) + Since(orders[1..], cutoff)
  }

  /** How many of `orders` fall on day `d`. */
  function OnDay(orders: seq<Order>, day: nat -> nat, d: nat): (n: nat)
    ensures n > 0 <==> exists o :: o in orders && day(o.createdAt) == d
  {
    if orders == [] then 0
    else (if day(orders[0].createdAt) == d then 1 else 0) + OnDay(orders[1..], day, d)
  }

  /** Each entry's day before the next one's, every count positive. */
  predicate Ascending(t: seq<DayCount>) {
    t == [] || (t[0].count > 0 && (|t| > 1 ==> t[0].day < t[1].day) && Ascending(t[1..]))
  }

  /** The days a table lists. */
  function Days(t: seq<DayCount>): set<nat> {
    if t == [] then {} else {t[0].day} + Days(t[1..])
  }

  /** The count recorded for day `d`, or 0. */
  function CountOn(t: seq<DayCount>, d: nat): nat {
    if t == [] then 0 else if t[0].day == d then t[0].count else CountOn(t[1..], d)
  }

  function Total(t: seq<DayCount>): nat {
    if t == [] then 0 else t[0].count + Total(t[1..])
  }

  /** In an ascending table the days of any two entries are in order, and every count is positive. */
  lemma {:induction false} AscendingPairwise(t: seq<DayCount>)
    requires Ascending(t)
    ensures forall i, j :: 0 <= i < j < |t| ==> t[i].day < t[j].day
    ensures forall e :: e in t ==> e.count > 0
  {
    if t != [] {
      AscendingPairwise(t[1..]);
      forall i, j | 0 <= i < j < |t| ensures t[i].day < t[j].day {
        if i > 0 {
          assert t[i] == t[1..][i - 1] && t[j] == t[1..][j - 1];
        } else if j > 1 {
          assert t[1] == t[1..][0] && t[j] == t[1..][j - 1];
        }
      }
      assert forall e :: e in t ==> e == t[0] || e in t[1..];
    }
  }

  /** A day before the first entry's has no count. */
  lemma {:induction false} CountOnBeforeFirst(t: seq<DayCount>, d: nat)
    requires Ascending(t) && t != [] && d < t[0].day
    ensures CountOn(t, d) == 0
  {
    if |t| > 1 {
      CountOnBeforeFirst(t[1..], d);
    }
  }

  /** In an ascending table a day is listed exactly when its count is positive. */
  lemma {:induction false} DaysAreCounted(t: seq<DayCount>, d: nat)
    requires Ascending(t)
    ensures d in Days(t) <==> CountOn(t, d) > 0
  {
    if t != [] && t[0].day != d {
      DaysAreCounted(t[1..], d);
    }
  }

  /** In an ascending table each entry's count is the count recorded for its day. */
  lemma {:induction false} CountOnEntry(t: seq<DayCount>, e: DayCount)
    requires Ascending(t) && e in t
    ensures CountOn(t, e.day) == e.count
  {
    if t[0] != e {
      AscendingPairwise(t);
      var k :| 0 <= k < |t| && t[k] == e;
      assert t[1..][k - 1] == e;
      CountOnEntry(t[1..], e);
    }
  }

  /** Counting one more order on day `d`; the first day becomes the smaller of `d` and the old first. */
  function Bump(t: seq<DayCount>, d: nat): (r: seq<DayCount>)
    requires Ascending(t)
    ensures Ascending(r) && r != []
    ensures r[0].day == if t == [] || d < t[0].day then d else t[0].day
  {
    if t == [] then [DayCount(d, 1)]
    else if d < t[0].day then [DayCount(d, 1)] + t
    else if d == t[0].day then [t[0].(count := t[0].count + 1)] + t[1..]
    else [t[0]] + Bump(t[1..], d)
  }

  /** Bumping day `d` adds one to its count and leaves every other day's. */
  lemma {:induction false} BumpCounts(t: seq<DayCount>, d: nat, x: nat)
    requires Ascending(t)
    ensures CountOn(Bump(t, d), x) == CountOn(t, x) + if x == d then 1 else 0
  {
    if t != [] {
      if d < t[0].day {
        if x == d {
          CountOnBeforeFirst(t, d);
        }
      } else if d > t[0].day {
        BumpCounts(t[1..], d, x);
      }
    }
  }

  /** Bumping adds one to the total. */
  lemma {:induction false} BumpTotal(t: seq<DayCount>, d: nat)
    requires Ascending(t)
    ensures Total(Bump(t, d)) == Total(t) + 1
  {
    if t != [] && d > t[0].day {
      BumpTotal(t[1..], d);
    }
  }

  /** The `$group` by day over `orders`. */
  function Tally(orders: seq<Order>, day: nat -> nat): (r: seq<DayCount>)
    ensures Ascending(r)
    ensures forall x :: CountOn(r, x) == OnDay(orders, day, x)
    ensures Total(r) == |orders|
  {
    if orders == [] then []
    else
      var rest := Tally(orders[1..], day);
      var d := day(orders[0].createdAt);
      forall x ensures CountOn(Bump(rest, d), x) == CountOn(rest, x) + if x == d then 1 else 0 {
        BumpCounts(rest, d, x);
      }
      BumpTotal(rest, d);
      Bump(rest, d)
  }

  /**
   * Orders per day since `cutoff` (the admin's `ordersPerDay`, the manager's `staffActivity`):
   * days strictly ascending, a day listed exactly when some counted order falls on it, with the
   * number of counted orders on that day; the counts add up to the orders since the cutoff.
   */
  function PerDay(orders: seq<Order>, cutoff: nat, day: nat -> nat): (r: seq<DayCount>)
    ensures forall i, j :: 0 <= i < j < |r| ==> r[i].day < r[j].day
    ensures forall e :: e in r ==> e.count > 0 && e.count == OnDay(Since(orders, cutoff), day, e.day)
    ensures forall d :: d in Days(r) <==> exists o :: o in orders && o.createdAt >= cutoff && day(o.createdAt) == d
    ensures Total(r) == |Since(orders, cutoff)|
  {
    var r := Tally(Since(orders, cutoff), day);
    AscendingPairwise(r);
    TallyEntries(Since(orders, cutoff), day);
    TallyDays(orders, cutoff, day);
    r
  }

  /** Each entry of the day table carries the number of orders on its day. */
  lemma TallyEntries(orders: seq<Order>, day: nat -> nat)
    ensures forall e :: e in Tally(orders, day) ==> e.count == OnDay(orders, day, e.day)
  {
    var r := Tally(orders, day);
    forall e | e in r ensures e.count == OnDay(orders, day, e.day) {
      CountOnEntry(r, e);
    }
  }

  /** The day table over the `$match` output lists exactly the days some order since the cutoff falls on. */
  lemma TallyDays(orders: seq<Order>, cutoff: nat, day: nat -> nat)
    ensures forall d :: d in Days(Tally(Since(orders, cutoff), day)) <==>
              exists o :: o in orders && o.createdAt >= cutoff && day(o.createdAt) == d
  {
    var r := Tally(Since(orders, cutoff), day);
    forall d ensures d in Days(r) <==> exists o :: o in orders && o.createdAt >= cutoff && day(o.createdAt) == d {
      DaysAreCounted(r, d);
      SinceOnDay(orders, cutoff, day, d);
    }
  }

  /** Some order since the cutoff falls on day `d` exactly when some order of the `$match` output does. */
  lemma SinceOnDay(orders: seq<Order>, cutoff: nat, day: nat -> nat, d: nat)
    ensures (exists o :: o in Since(orders, cutoff) && day(o.createdAt) == d)
        <==> exists o :: o in orders && o.createdAt >= cutoff && day(o.createdAt) == d
  {
    var recent := Since(orders, cutoff);
    if o :| o in orders && o.createdAt >= cutoff && day(o.createdAt) == d {
      assert o in recent;
    }
  }

  // ---------------------------------------------------------------------------------------------
  // The two handlers.

  datatype AdminReport = AdminReport(ordersPerDay: seq<DayCount>, topProducts: seq<Seller>)
  datatype ManagerReport = ManagerReport(statusDistribution: seq<StatusCount>, staffActivity: seq<DayCount>)

  /** GET /admin: only an admin gets the report. */
  function AdminAnalyticsReply(c: Credential, orders: seq<Order>, cutoff: nat, day: nat -> nat): (r: Reply<AdminReport>)
    ensures r.Ok? <==> c.Token? && c.verifies && c.role == "admin"
    ensures r.Ok? ==> r.value == AdminReport(PerDay(orders, cutoff, day), TopProducts(orders))
  {
    assert Roles(AdminAnalytics) == ["admin"];
    match Gate(c, Roles(AdminAnalytics))
    case Refuse(f) => Fail(f)
    case Admit(_) => Ok(AdminReport(PerDay(orders, cutoff, day), TopProducts(orders)))
  }

  /** The gate of GET /manager admits exactly a verified manager or admin. */
  lemma ManagerGate(c: Credential)
    ensures Gate(c, Roles(ManagerAnalytics)).Admit? <==> c.Token? && c.verifies && c.role in {"manager", "admin"}
  {
    assert Roles(ManagerAnalytics) == ["manager", "admin"];
  }

  /** GET /manager: a manager or an admin gets the report. */
  function ManagerAnalyticsReply(c: Credential, orders: seq<Order>, cutoff: nat, day: nat -> nat): (r: Reply<ManagerReport>)
    ensures r.Ok? <==> c.Token? && c.verifies && c.role in {"manager", "admin"}
    ensures r.Ok? ==> r.value == ManagerReport(StatusDistribution(orders), PerDay(orders, cutoff, day))
  {
    ManagerGate(c);
    match Gate(c, Roles(ManagerAnalytics))
    case Refuse(f) => Fail(f)
    case Admit(_) => Ok(ManagerReport(StatusDistribution(orders), PerDay(orders, cutoff, day)))
  }
}
