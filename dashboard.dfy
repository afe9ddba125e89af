/** The business dashboard (backend/routes/dashboard.js): the overview
    (summary, recent invoices, twelve months of revenue, top clients,
    invoices due within a week), the revenue analytics by month or quarter
    and the per-client analytics. The calendar is a given month numbering
    `monthOf` (months since year 0 in local time, `12 * year + month`). */
module Dashboard {
  import opened Common
  import opened InvoiceModel
  import opened Records
  import opened Database
  import opened InvoiceLifecycle
  import opened Ranking
  import ClientRoutes

  // ---------------------------------------------------------------------------
  // Partitions of a list of invoices

  /** One step of `Filter`: the last element is kept exactly when it
      passes. */
  lemma FilterLast<T>(s: seq<T>, p: T -> bool)
    requires s != []
    ensures Filter(s, p) == Filter(s[..|s| - 1], p) + (if p(s[|s| - 1]) then [s[|s| - 1]] else [])
  {
  }

  /** Splitting a filter into two disjoint filters splits its sums. */
  lemma {:induction false} FilterSplitSum<T>(s: seq<T>, p: T -> bool, q: T -> bool, r: T -> bool, f: T -> real)
    requires forall i :: 0 <= i < |s| ==> (p(s[i]) <==> q(s[i]) || r(s[i])) && !(q(s[i]) && r(s[i]))
    ensures SumOf(Filter(s, p), f) == SumOf(Filter(s, q), f) + SumOf(Filter(s, r), f)
  {
    if s != [] {
      var n := |s| - 1;
      var a, x := s[..n], s[n];
      assert forall i :: 0 <= i < n ==> a[i] == s[i];
      FilterSplitSum(a, p, q, r, f);
      FilterLast(s, p);
      FilterLast(s, q);
      FilterLast(s, r);
      if p(x) {
        SumOfAppend(Filter(a, p), x, f);
        if q(x) {
          SumOfAppend(Filter(a, q), x, f);
        } else {
          SumOfAppend(Filter(a, r), x, f);
        }
      }
    }
  }

  /** Splitting a filter into two disjoint filters splits its count. */
  lemma {:induction false} FilterSplitCount<T>(s: seq<T>, p: T -> bool, q: T -> bool, r: T -> bool)
    requires forall i :: 0 <= i < |s| ==> (p(s[i]) <==> q(s[i]) || r(s[i])) && !(q(s[i]) && r(s[i]))
    ensures |Filter(s, p)| == |Filter(s, q)| + |Filter(s, r)|
  {
    if s != [] {
      var n := |s| - 1;
      var a := s[..n];
      assert forall i :: 0 <= i < n ==> a[i] == s[i];
      FilterSplitCount(a, p, q, r);
      FilterLast(s, p);
      FilterLast(s, q);
      FilterLast(s, r);
    }
  }

  lemma FilterSplit<T>(s: seq<T>, p: T -> bool, q: T -> bool, r: T -> bool, f: T -> real)
    requires forall i :: 0 <= i < |s| ==> (p(s[i]) <==> q(s[i]) || r(s[i])) && !(q(s[i]) && r(s[i]))
    ensures SumOf(Filter(s, p), f) == SumOf(Filter(s, q), f) + SumOf(Filter(s, r), f)
    ensures |Filter(s, p)| == |Filter(s, q)| + |Filter(s, r)|
  {
    FilterSplitSum(s, p, q, r, f);
    FilterSplitCount(s, p, q, r);
  }

  /** Filtering twice is filtering once by both tests. */
  lemma {:induction false} FilterFilter<T>(s: seq<T>, p: T -> bool, q: T -> bool, pq: T -> bool)
    requires forall i :: 0 <= i < |s| ==> (pq(s[i]) <==> p(s[i]) && q(s[i]))
    ensures Filter(Filter(s, p), q) == Filter(s, pq)
  {
    if s != [] {
      var n := |s| - 1;
      var a, x := s[..n], s[n];
      assert forall i :: 0 <= i < n ==> a[i] == s[i];
      FilterFilter(a, p, q, pq);
      FilterLast(s, p);
      FilterLast(s, pq);
      if p(x) {
        FilterLast(Filter(a, p) + [x], q);
        assert (Filter(a, p) + [x])[..|Filter(a, p)|] == Filter(a, p);
      }
    }
  }

  /** A filter no element passes leaves nothing. */
  lemma FilterNone<T>(s: seq<T>, p: T -> bool)
    requires forall i :: 0 <= i < |s| ==> !p(s[i])
    ensures Filter(s, p) == []
  {
  }

  /** A filter every element passes keeps the list. */
  lemma {:induction false} FilterAll<T>(s: seq<T>, p: T -> bool)
    requires forall i :: 0 <= i < |s| ==> p(s[i])
    ensures Filter(s, p) == s
  {
    if s != [] {
      var n := |s| - 1;
      assert forall i :: 0 <= i < n ==> s[..n][i] == s[i];
      FilterAll(s[..n], p);
      assert s == s[..n] + [s[n]];
    }
  }

  // ---------------------------------------------------------------------------
  // Summary, lines 17-27 and 99-100

  datatype Summary = Summary(invoices: InvoiceStats, totalClients: nat, activeClients: nat)

  function SummaryOf(invs: seq<Invoice>, clients: seq<Client>): Summary
  {
    Summary(Tally(invs), |clients|, CountOf(clients, (c: Client) => c.status == Active))
  }

  function NotOverdue(inv: Invoice): bool
  {
    inv.status != Overdue
  }

  /** The summary balances: the revenue splits into paid and outstanding,
      the outstanding amount into its overdue and its other part, the status
      counts stay within the total and the active clients within all. */
  lemma SummaryBalances(invs: seq<Invoice>, clients: seq<Client>)
    requires forall i :: 0 <= i < |invs| ==> Stored(invs[i])
    ensures var s := SummaryOf(invs, clients);
      s.invoices.totalAmount == s.invoices.paidAmount + s.invoices.outstandingAmount
      && s.invoices.outstandingAmount == s.invoices.overdueAmount + SumOf(Filter(invs, NotOverdue), Remaining)
      && s.invoices.paid + s.invoices.overdue + s.invoices.draft <= s.invoices.total
      && s.activeClients <= s.totalClients
  {
    TallyBalances(invs);
    var all := (inv: Invoice) => true;
    FilterAll(invs, all);
    FilterSplit(invs, all, HasStatus(Overdue), NotOverdue, Remaining);
  }

  /** `Client.find({ userId })`: the business's clients in id order. */
  function ClientsOf(clients: map<Id, Client>, uid: Id, top: nat): (r: seq<Client>)
    ensures forall i :: 0 <= i < |r| ==> r[i] in clients.Values && r[i].userId == uid
    ensures forall id :: 0 <= id < top && id in clients && clients[id].userId == uid ==> clients[id] in r
    decreases top
  {
    if top == 0 then []
    else
      var id := top - 1;
      ClientsOf(clients, uid, id) + (if id in clients && clients[id].userId == uid then [clients[id]] else [])
  }

  // ---------------------------------------------------------------------------
  // Recent invoices, lines 30-32

  function Newness(inv: Invoice): real
  {
    inv.createdAt as real
  }

  function Recent(invs: seq<Invoice>): seq<Invoice>
  {
    TopK(invs, Newness, 5)
  }

  /** At most five invoices of the list, newest first, and every invoice
      left out is no newer than any shown. */
  lemma RecentSpec(invs: seq<Invoice>)
    ensures var r := Recent(invs);
      |r| == Min(5, |invs|) && multiset(r) <= multiset(invs)
      && (forall i, j :: 0 <= i < j < |r| ==> r[i].createdAt >= r[j].createdAt)
      && forall y :: y in multiset(invs) - multiset(r) ==> forall i :: 0 <= i < |r| ==> r[i].createdAt >= y.createdAt
  {
    TopKSpec(invs, Newness, 5);
    TopKIsTop(invs, Newness, 5);
  }

  // ---------------------------------------------------------------------------
  // Monthly revenue, lines 35-52

  datatype MonthRevenue = MonthRevenue(month: int, revenue: real, paid: real)

  /** Created in one of the months [lo, hi). */
  function CreatedIn(lo: int, hi: int, monthOf: Time -> int): Invoice -> bool
  {
    (inv: Invoice) => lo <= monthOf(inv.createdAt) < hi
  }

  /** Created in month `m`. */
  function Month(m: int, monthOf: Time -> int): Invoice -> bool
  {
    CreatedIn(m, m + 1, monthOf)
  }

  /** Created in the `n` months from month `lo` on. */
  function Span(lo: int, n: nat, monthOf: Time -> int): Invoice -> bool
  {
    CreatedIn(lo, lo + n, monthOf)
  }

  function MonthEntry(invs: seq<Invoice>, m: int, monthOf: Time -> int): MonthRevenue
  {
    var these := Filter(invs, Month(m, monthOf));
    MonthRevenue(m, SumOf(these, Total), SumOf(these, PaidOf))
  }

  /** The loop of lines 38-52: one entry per month, the oldest (eleven
      months before `current`) first. */
  method MonthlyRevenue(invs: seq<Invoice>, current: int, monthOf: Time -> int) returns (r: seq<MonthRevenue>)
    ensures |r| == 12
    ensures forall k :: 0 <= k < 12 ==> r[k] == MonthEntry(invs, current - 11 + k, monthOf)
  {
    r := [];
    var i := 11;
    while i >= 0
      invariant -1 <= i <= 11 && |r| == 11 - i
      invariant forall k :: 0 <= k < |r| ==> r[k] == MonthEntry(invs, current - 11 + k, monthOf)
    {
      r := r + [MonthEntry(invs, current - i, monthOf)];
      i := i - 1;
    }
  }

  function Revenue(e: MonthRevenue): real
  {
    e.revenue
  }

  /** A span of months splits into all but its last month and its last
      month. */
  lemma SpanSplit(invs: seq<Invoice>, lo: int, n: nat, monthOf: Time -> int)
    requires n > 0
    ensures SumOf(Filter(invs, Span(lo, n, monthOf)), Total)
            == SumOf(Filter(invs, Span(lo, n - 1, monthOf)), Total) + SumOf(Filter(invs, Month(lo + (n - 1), monthOf)), Total)
  {
    FilterSplit(invs, Span(lo, n, monthOf), Span(lo, n - 1, monthOf), Month(lo + (n - 1), monthOf), Total);
  }

  /** The revenue of consecutive months adds up to the revenue of the
      invoices created in the whole span. */
  lemma {:induction false} MonthsAddUp(invs: seq<Invoice>, lo: int, entries: seq<MonthRevenue>, monthOf: Time -> int)
    requires forall k :: 0 <= k < |entries| ==> entries[k] == MonthEntry(invs, lo + k, monthOf)
    ensures SumOf(entries, Revenue) == SumOf(Filter(invs, Span(lo, |entries|, monthOf)), Total)
    decreases |entries|
  {
    var n := |entries|;
    if n == 0 {
      FilterNone(invs, Span(lo, 0, monthOf));
    } else {
      MonthsAddUp(invs, lo, entries[..n - 1], monthOf);
      SpanSplit(invs, lo, n, monthOf);
      assert entries[n - 1] == MonthEntry(invs, lo + (n - 1), monthOf);
    }
  }

  /** The twelve entries together hold the revenue of the invoices created
      in the last twelve months. */
  lemma MonthlyRevenueCoversYear(invs: seq<Invoice>, current: int, monthOf: Time -> int, r: seq<MonthRevenue>)
    requires |r| == 12 && forall k :: 0 <= k < 12 ==> r[k] == MonthEntry(invs, current - 11 + k, monthOf)
    ensures SumOf(r, Revenue) == SumOf(Filter(invs, Span(current - 11, 12, monthOf)), Total)
  {
    MonthsAddUp(invs, current - 11, r, monthOf);
  }

  // ---------------------------------------------------------------------------
  // Top clients, lines 55-75

  /** The `forEach` of lines 56-62: revenue per client, and the clients in
      the order their first invoice appears (the order of
      `Object.entries`). */
  method ClientRevenue(invs: seq<Invoice>) returns (revenue: map<Id, real>, order: seq<Id>)
    ensures forall c :: c in revenue <==> c in order
    ensures forall c :: c in revenue <==> exists i :: 0 <= i < |invs| && invs[i].clientId == c
    ensures forall c :: c in revenue ==> revenue[c] == SumFor(invs, c, Total)
    ensures forall i, j :: 0 <= i < j < |order| ==> order[i] != order[j]
  {
    revenue, order := map[], [];
    var k := 0;
    while k < |invs|
      invariant 0 <= k <= |invs|
      invariant forall c :: c in revenue <==> c in order
      invariant forall c :: c in revenue <==> exists i :: 0 <= i < k && invs[i].clientId == c
      invariant forall c :: c in revenue ==> revenue[c] == SumFor(invs[..k], c, Total)
      invariant forall i, j :: 0 <= i < j < |order| ==> order[i] != order[j]
    {
      var c := invs[k].clientId;
      if c !in revenue {
        SumForAbsent(invs[..k], c, Total);
        order := order + [c];
      }
      // `if (!clientRevenue[clientId]) clientRevenue[clientId] = 0`
      if c !in revenue || revenue[c] == 0.0 {
        revenue := revenue[c := 0.0];
      }
      revenue := revenue[c := revenue[c] + invs[k].totalAmount];
      assert invs[..k + 1] == invs[..k] + [invs[k]];
      forall d
        ensures SumFor(invs[..k + 1], d, Total) == SumFor(invs[..k], d, Total) + (if c == d then invs[k].totalAmount else 0.0)
      {
        SumForAppend(invs[..k], invs[k], d, Total);
      }
      k := k + 1;
    }
    assert invs[..k] == invs;
  }

  datatype TopClient = TopClient(client: string, revenue: real)

  function Ranked(revenue: map<Id, real>, order: seq<Id>): seq<(Id, real)>
    requires forall i :: 0 <= i < |order| ==> order[i] in revenue
  {
    seq(|order|, i requires 0 <= i < |order| => (order[i], revenue[order[i]]))
  }

  function EntryRevenue(e: (Id, real)): real
  {
    e.1
  }

  /** Lines 64-75: the five largest revenues, each with its client's name
      (`Client.findById`) or "Unknown Client". */
  function TopClients(revenue: map<Id, real>, order: seq<Id>, clients: map<Id, Client>): seq<TopClient>
    requires forall i :: 0 <= i < |order| ==> order[i] in revenue
  {
    var top := TopK(Ranked(revenue, order), EntryRevenue, 5);
    seq(|top|, i requires 0 <= i < |top| =>
      TopClient(if top[i].0 in clients then clients[top[i].0].name else "Unknown Client", top[i].1))
  }

  /** The ranking keeps at most five clients, largest revenue first, each
      with the sum of its invoices' totals. */
  lemma TopClientsSpec(invs: seq<Invoice>, revenue: map<Id, real>, order: seq<Id>)
    requires forall c :: c in revenue <==> c in order
    requires forall c :: c in revenue ==> revenue[c] == SumFor(invs, c, Total)
    ensures var top := TopK(Ranked(revenue, order), EntryRevenue, 5);
      |top| == Min(5, |order|)
      && (forall i :: 0 <= i < |top| ==> top[i].0 in revenue && top[i].1 == SumFor(invs, top[i].0, Total))
      && forall i, j :: 0 <= i < j < |top| ==> top[i].1 >= top[j].1
  {
    var ranked := Ranked(revenue, order);
    var top := TopK(ranked, EntryRevenue, 5);
    TopKSpec(ranked, EntryRevenue, 5);
    forall i | 0 <= i < |top|
      ensures top[i].0 in revenue && top[i].1 == SumFor(invs, top[i].0, Total)
    {
      assert top[i] in multiset(ranked);
      var k :| 0 <= k < |ranked| && ranked[k] == top[i];
    }
  }

  /** A client left out of the ranking earned no more than any client
      kept. */
  lemma TopClientsLeftOut(invs: seq<Invoice>, revenue: map<Id, real>, order: seq<Id>)
    requires forall c :: c in revenue <==> c in order
    requires forall c :: c in revenue ==> revenue[c] == SumFor(invs, c, Total)
    ensures var top := TopK(Ranked(revenue, order), EntryRevenue, 5);
      forall c :: c in revenue && (forall i :: 0 <= i < |top| ==> top[i].0 != c) ==>
        forall i :: 0 <= i < |top| ==> top[i].1 >= SumFor(invs, c, Total)
  {
    var ranked := Ranked(revenue, order);
    var top := TopK(ranked, EntryRevenue, 5);
    TopKIsTop(ranked, EntryRevenue, 5);
    forall c | c in revenue && (forall i :: 0 <= i < |top| ==> top[i].0 != c)
      ensures forall i :: 0 <= i < |top| ==> top[i].1 >= SumFor(invs, c, Total)
    {
      var k :| 0 <= k < |order| && order[k] == c;
      assert ranked[k] == (c, revenue[c]);
      assert (c, revenue[c]) !in multiset(top);
      assert (c, revenue[c]) in multiset(ranked) - multiset(top);
    }
  }

  // ---------------------------------------------------------------------------
  // Upcoming due invoices, lines 78-87

  const WeekMs: nat := 7 * DayMs

  function DueSoon(now: Time): Invoice -> bool
  {
    (inv: Invoice) => inv.status == Sent && now <= inv.dueDate <= now + WeekMs
  }

  function Earliness(inv: Invoice): real
  {
    -(inv.dueDate as real)
  }

  function Upcoming(invs: seq<Invoice>, now: Time): seq<Invoice>
  {
    SortDesc(Filter(invs, DueSoon(now)), Earliness)
  }

  /** Exactly the sent invoices due within the coming week, earliest due
      date first. */
  lemma UpcomingSpec(invs: seq<Invoice>, now: Time)
    ensures var r := Upcoming(invs, now);
      multiset(r) == multiset(Filter(invs, DueSoon(now)))
      && (forall i :: 0 <= i < |r| ==> r[i].status == Sent && now <= r[i].dueDate <= now + WeekMs)
      && (forall i :: 0 <= i < |invs| && DueSoon(now)(invs[i]) ==> invs[i] in r)
      && forall i, j :: 0 <= i < j < |r| ==> r[i].dueDate <= r[j].dueDate
  {
    var f := Filter(invs, DueSoon(now));
    var r := SortDesc(f, Earliness);
    SortDescSpec(f, Earliness);
    forall i | 0 <= i < |r|
      ensures r[i].status == Sent && now <= r[i].dueDate <= now + WeekMs
    {
      assert r[i] in multiset(f);
      assert r[i] in f;
      assert DueSoon(now)(r[i]);
    }
    forall i | 0 <= i < |invs| && DueSoon(now)(invs[i])
      ensures invs[i] in r
    {
      assert invs[i] in multiset(r);
    }
  }

  // ---------------------------------------------------------------------------
  // The overview, lines 9-113

  /** The due-soon list of the newest-first list holds exactly the due-soon
      invoices of the stored list, earliest due date first. */
  lemma UpcomingOfSorted(invs: seq<Invoice>, now: Time)
    ensures var r := Upcoming(SortDesc(invs, Newness), now);
      (forall i :: 0 <= i < |r| ==> r[i] in invs && DueSoon(now)(r[i]))
      && (forall i :: 0 <= i < |invs| && DueSoon(now)(invs[i]) ==> invs[i] in r)
      && forall i, j :: 0 <= i < j < |r| ==> r[i].dueDate <= r[j].dueDate
  {
    var sorted := SortDesc(invs, Newness);
    var r := Upcoming(sorted, now);
    SortDescSameElements(invs, Newness);
    UpcomingSpec(sorted, now);
    forall i | 0 <= i < |r| ensures r[i] in invs {
      assert r[i] in multiset(Filter(sorted, DueSoon(now)));
      assert r[i] in sorted;
    }
    forall i | 0 <= i < |invs| && DueSoon(now)(invs[i]) ensures invs[i] in r {
      var k :| 0 <= k < |sorted| && sorted[k] == invs[i];
    }
  }

  datatype DashboardOverview = DashboardOverview(
    summary: Summary, recentInvoices: seq<Invoice>, monthlyRevenue: seq<MonthRevenue>,
    topClients: seq<TopClient>, upcomingDue: seq<Invoice>)

  /** `GET /overview` for business `uid` at time `now`, in month `current`. */
  method GetOverview(db: Db, uid: Id, now: Time, current: int, monthOf: Time -> int) returns (o: DashboardOverview)
    requires db.Valid()
    ensures var invs := OwnedBy(db.invoices, uid);
      o.summary == SummaryOf(invs, ClientsOf(db.clients, uid, db.nextId))
      && o.recentInvoices == Recent(invs) && o.upcomingDue == Upcoming(SortDesc(invs, Newness), now)
      && (forall i :: 0 <= i < |o.upcomingDue| ==> o.upcomingDue[i] in invs && DueSoon(now)(o.upcomingDue[i]))
      && (forall i :: 0 <= i < |invs| && DueSoon(now)(invs[i]) ==> invs[i] in o.upcomingDue)
      && (forall i, j :: 0 <= i < j < |o.upcomingDue| ==> o.upcomingDue[i].dueDate <= o.upcomingDue[j].dueDate)
      && |o.monthlyRevenue| == 12
      && (forall k :: 0 <= k < 12 ==> o.monthlyRevenue[k] == MonthEntry(invs, current - 11 + k, monthOf))
      && SumOf(o.monthlyRevenue, Revenue) == SumOf(Filter(invs, Span(current - 11, 12, monthOf)), Total)
      && |o.topClients| <= 5
      && (forall i, j :: 0 <= i < j < |o.topClients| ==> o.topClients[i].revenue >= o.topClients[j].revenue)
    ensures o.summary.invoices.totalAmount == o.summary.invoices.paidAmount + o.summary.invoices.outstandingAmount
  {
    var invs := OwnedBy(db.invoices, uid);
    var mine := ClientsOf(db.clients, uid, db.nextId);
    forall i | 0 <= i < |invs| ensures Stored(invs[i]) {
      assert invs[i] in db.invoices;
    }
    SummaryBalances(invs, mine);
    // `invoices.sort(...)` reorders the list newest first, in place: the
    // later passes that depend on order see the sorted list.
    var sorted := SortDesc(invs, Newness);
    var recent := sorted[..Min(5, |sorted|)];
    var monthly := MonthlyRevenue(invs, current, monthOf);
    MonthlyRevenueCoversYear(invs, current, monthOf, monthly);
    var revenue, order := ClientRevenue(sorted);
    TopClientsSpec(sorted, revenue, order);
    TopClientsLeftOut(sorted, revenue, order);
    var upcoming := Upcoming(sorted, now);
    UpcomingOfSorted(invs, now);
    o := DashboardOverview(SummaryOf(invs, mine), recent, monthly, TopClients(revenue, order, db.clients), upcoming);
  }

  // ---------------------------------------------------------------------------
  // Revenue analytics, lines 116-177

  datatype Bucket = Bucket(period: nat, invoiced: real, paid: real, outstanding: real, count: nat)

  function BucketOf(invs: seq<Invoice>, period: nat, p: Invoice -> bool): Bucket
  {
    var these := Filter(invs, p);
    Bucket(period, SumOf(these, Total), SumOf(these, PaidOf), SumOf(these, Remaining), |these|)
  }

  /** The month of the year, 0 to 11 (`getMonth()`). */
  function MonthOfYear(t: Time, monthOf: Time -> int): int
  {
    monthOf(t) % 12
  }

  /** Quarter `q` (`Q1` is 0): `quarter.months.includes(getMonth())`. */
  function InQuarter(q: nat, monthOf: Time -> int): Invoice -> bool
  {
    (inv: Invoice) => 3 * q <= MonthOfYear(inv.createdAt, monthOf) < 3 * q + 3
  }

  /** Month `mo` (0 to 11) of year `year`. */
  function InMonth(year: int, mo: int, monthOf: Time -> int): Invoice -> bool
  {
    Month(12 * year + mo, monthOf)
  }

  /** The query's date range, lines 120-126. */
  function YearOf(invs: seq<Invoice>, year: int, monthOf: Time -> int): seq<Invoice>
  {
    Filter(invs, CreatedIn(12 * year, 12 * year + 12, monthOf))
  }

  /** `GET /analytics/revenue`: twelve monthly buckets, four quarterly ones,
      or none for any other period. */
  method RevenueAnalytics(invs: seq<Invoice>, period: string, year: int, monthOf: Time -> int)
    returns (r: seq<Bucket>)
    ensures var inYear := YearOf(invs, year, monthOf);
      (period == "monthly" ==>
        |r| == 12 && forall m :: 0 <= m < 12 ==>
          r[m] == BucketOf(inYear, m, InMonth(year, m, monthOf)))
      && (period == "quarterly" ==>
        |r| == 4 && forall q :: 0 <= q < 4 ==> r[q] == BucketOf(inYear, q, InQuarter(q, monthOf)))
      && (period != "monthly" && period != "quarterly" ==> r == [])
  {
    var inYear := YearOf(invs, year, monthOf);
    r := [];
    if period == "monthly" {
      var m := 0;
      while m < 12
        invariant 0 <= m <= 12 && |r| == m
        invariant forall k :: 0 <= k < m ==>
          r[k] == BucketOf(inYear, k, InMonth(year, k, monthOf))
      {
        r := r + [BucketOf(inYear, m, InMonth(year, m, monthOf))];
        m := m + 1;
      }
    } else if period == "quarterly" {
      var q := 0;
      while q < 4
        invariant 0 <= q <= 4 && |r| == q
        invariant forall k :: 0 <= k < q ==> r[k] == BucketOf(inYear, k, InQuarter(k, monthOf))
      {
        r := r + [BucketOf(inYear, q, InQuarter(q, monthOf))];
        q := q + 1;
      }
    }
  }

  /** A quarter's bucket holds what its three monthly buckets hold. */
  lemma QuarterIsThreeMonths(invs: seq<Invoice>, year: int, q: nat, monthOf: Time -> int)
    requires q < 4
    ensures var inYear := YearOf(invs, year, monthOf);
      var quarter := BucketOf(inYear, q, InQuarter(q, monthOf));
      var a := BucketOf(inYear, 3 * q, InMonth(year, 3 * q, monthOf));
      var b := BucketOf(inYear, 3 * q + 1, InMonth(year, 3 * q + 1, monthOf));
      var c := BucketOf(inYear, 3 * q + 2, InMonth(year, 3 * q + 2, monthOf));
      quarter.invoiced == a.invoiced + b.invoiced + c.invoiced
      && quarter.paid == a.paid + b.paid + c.paid
      && quarter.outstanding == a.outstanding + b.outstanding + c.outstanding
      && quarter.count == a.count + b.count + c.count
  {
    QuarterSplit(invs, year, q, monthOf, Total);
    QuarterSplit(invs, year, q, monthOf, PaidOf);
    QuarterSplit(invs, year, q, monthOf, Remaining);
  }

  /** Quarter `q` of year `year` splits into its three months, in sums and
      in count. */
  lemma QuarterSplit(invs: seq<Invoice>, year: int, q: nat, monthOf: Time -> int, f: Invoice -> real)
    requires q < 4
    ensures var s := YearOf(invs, year, monthOf);
      SumOf(Filter(s, InQuarter(q, monthOf)), f)
        == SumOf(Filter(s, InMonth(year, 3 * q, monthOf)), f) + SumOf(Filter(s, InMonth(year, 3 * q + 1, monthOf)), f)
           + SumOf(Filter(s, InMonth(year, 3 * q + 2, monthOf)), f)
      && |Filter(s, InQuarter(q, monthOf))|
        == |Filter(s, InMonth(year, 3 * q, monthOf))| + |Filter(s, InMonth(year, 3 * q + 1, monthOf))|
           + |Filter(s, InMonth(year, 3 * q + 2, monthOf))|
  {
    var s := YearOf(invs, year, monthOf);
    var quarter, firstTwo, third := InQuarter(q, monthOf), InFirstTwo(year, q, monthOf), InMonth(year, 3 * q + 2, monthOf);
    var first, second := InMonth(year, 3 * q, monthOf), InMonth(year, 3 * q + 1, monthOf);
    QuarterMonths(invs, year, q, monthOf);
    FilterSplit(s, quarter, firstTwo, third, f);
    FilterSplit(s, firstTwo, first, second, f);
  }

  /** The first two months of quarter `q`. */
  function InFirstTwo(year: int, q: nat, monthOf: Time -> int): Invoice -> bool
  {
    CreatedIn(12 * year + 3 * q, 12 * year + 3 * q + 2, monthOf)
  }

  /** Within the year, an invoice is in quarter `q` exactly when it was
      created in one of its three months. */
  lemma QuarterMonths(invs: seq<Invoice>, year: int, q: nat, monthOf: Time -> int)
    requires q < 4
    ensures var s := YearOf(invs, year, monthOf);
      forall i :: 0 <= i < |s| ==>
        (InQuarter(q, monthOf)(s[i]) <==> InFirstTwo(year, q, monthOf)(s[i]) || InMonth(year, 3 * q + 2, monthOf)(s[i]))
        && !(InFirstTwo(year, q, monthOf)(s[i]) && InMonth(year, 3 * q + 2, monthOf)(s[i]))
        && (InFirstTwo(year, q, monthOf)(s[i]) <==> InMonth(year, 3 * q, monthOf)(s[i]) || InMonth(year, 3 * q + 1, monthOf)(s[i]))
        && !(InMonth(year, 3 * q, monthOf)(s[i]) && InMonth(year, 3 * q + 1, monthOf)(s[i]))
  {
    var s := YearOf(invs, year, monthOf);
    forall i | 0 <= i < |s|
      ensures InQuarter(q, monthOf)(s[i]) <==> InFirstTwo(year, q, monthOf)(s[i]) || InMonth(year, 3 * q + 2, monthOf)(s[i])
      ensures !(InFirstTwo(year, q, monthOf)(s[i]) && InMonth(year, 3 * q + 2, monthOf)(s[i]))
      ensures InFirstTwo(year, q, monthOf)(s[i]) <==> InMonth(year, 3 * q, monthOf)(s[i]) || InMonth(year, 3 * q + 1, monthOf)(s[i])
      ensures !(InMonth(year, 3 * q, monthOf)(s[i]) && InMonth(year, 3 * q + 1, monthOf)(s[i]))
    {
      assert s[i] in s;
      var t := monthOf(s[i].createdAt);
      MonthWithinYear(t, year);
      assert InQuarter(q, monthOf)(s[i]) <==> 12 * year + 3 * q <= t < 12 * year + 3 * q + 3;
    }
  }

  /** Within year `year` the month of the year is the offset from its
      first month. */
  lemma MonthWithinYear(t: int, year: int)
    requires 12 * year <= t < 12 * year + 12
    ensures t % 12 == t - 12 * year
  {
  }

  // ---------------------------------------------------------------------------
  // Client analytics, lines 180-218

  datatype ClientRow = ClientRow(
    id: Id, name: string, email: string, company: Option<string>,
    totalInvoices: nat, totalInvoiced: real, totalPaid: real, totalOutstanding: real,
    avgInvoiceValue: real, lastInvoiceDate: Option<Time>)

  function BilledTo(cid: Id): Invoice -> bool
  {
    (inv: Invoice) => inv.clientId == cid
  }

  /** `Math.max` over the creation times; none for no invoices. */
  function LastCreated(invs: seq<Invoice>): (r: Option<Time>)
    ensures r.None? <==> invs == []
    ensures r.Some? ==> forall i :: 0 <= i < |invs| ==> invs[i].createdAt <= r.value
    ensures r.Some? ==> exists i :: 0 <= i < |invs| && invs[i].createdAt == r.value
  {
    if invs == [] then None
    else
      var rest := LastCreated(invs[1..]);
      if rest.None? || invs[0].createdAt >= rest.value then Some(invs[0].createdAt)
      else
        assert forall i :: 1 <= i < |invs| ==> invs[i] == invs[1..][i - 1];
        rest
  }

  /** One row of lines 185-208. */
  function RowOf(c: Client, invs: seq<Invoice>): ClientRow
  {
    var mine := Filter(invs, BilledTo(c.id));
    ClientRow(c.id, c.name, c.email, c.company, |mine|, SumOf(mine, Total), SumOf(mine, PaidOf),
              SumOf(mine, Remaining), if |mine| > 0 then SumOf(mine, Total) / (|mine| as real) else 0.0,
              LastCreated(mine))
  }

  function Invoiced(row: ClientRow): real
  {
    row.totalInvoiced
  }

  /** `clientAnalytics`: a row per client, sorted by amount invoiced,
      largest first (line 211). */
  function ClientAnalytics(clients: seq<Client>, invs: seq<Invoice>): seq<ClientRow>
  {
    SortDesc(seq(|clients|, i requires 0 <= i < |clients| => RowOf(clients[i], invs)), Invoiced)
  }

  /** One row for each client and no other, largest amount invoiced first. */
  lemma ClientAnalyticsSpec(clients: seq<Client>, invs: seq<Invoice>)
    ensures var r := ClientAnalytics(clients, invs);
      |r| == |clients|
      && (forall i :: 0 <= i < |clients| ==> RowOf(clients[i], invs) in r)
      && (forall k :: 0 <= k < |r| ==> exists i :: 0 <= i < |clients| && r[k] == RowOf(clients[i], invs))
      && forall k, l :: 0 <= k < l < |r| ==> r[k].totalInvoiced >= r[l].totalInvoiced
  {
    var rows := seq(|clients|, i requires 0 <= i < |clients| => RowOf(clients[i], invs));
    SortDescSpec(rows, Invoiced);
    SortDescSameElements(rows, Invoiced);
    assert forall i :: 0 <= i < |clients| ==> rows[i] == RowOf(clients[i], invs);
  }

  /** The average is the amount invoiced spread over the invoices, and a
      client without invoices has zeros and no last date. */
  lemma RowAverage(c: Client, invs: seq<Invoice>)
    ensures var row := RowOf(c, invs);
      (row.totalInvoices > 0 ==> row.avgInvoiceValue * (row.totalInvoices as real) == row.totalInvoiced
                                 && row.lastInvoiceDate.Some?)
      && (row.totalInvoices == 0 ==> row.avgInvoiceValue == 0.0 && row.totalInvoiced == 0.0
                                     && row.lastInvoiceDate.None?)
  {
    var mine := Filter(invs, BilledTo(c.id));
    if |mine| > 0 {
      Spread(SumOf(mine, Total), |mine| as real);
    }
  }

  lemma Spread(total: real, n: real)
    requires n > 0.0
    ensures total / n * n == total
  {
  }

  /** Summing over the business's invoices billed to one of its clients
      gives the client's ledger sum. */
  lemma OwnedClientSum(s: seq<Invoice>, uid: Id, cid: Id, f: Invoice -> real)
    requires forall i :: 0 <= i < |s| && s[i].clientId == cid ==> s[i].userId == uid
    ensures SumOf(Filter(OwnedBy(s, uid), BilledTo(cid)), f) == SumFor(s, cid, f)
  {
    FilterFilter(s, (inv: Invoice) => inv.userId == uid, BilledTo(cid), ClientRoutes.OfClient(cid, uid));
    ClientRoutes.ClientSumIsLedgerSum(s, cid, uid, f);
  }

  /** On a reconciled store a client's row agrees with its ledger fields. */
  lemma RowMatchesLedger(s: seq<Invoice>, clients: map<Id, Client>, uid: Id, cid: Id)
    requires Ledger(s, clients) && cid in clients && clients[cid].userId == uid
    ensures var row := RowOf(clients[cid], OwnedBy(s, uid));
      clients[cid].id == cid ==>
        row.totalInvoiced == clients[cid].totalInvoiced && row.totalOutstanding == clients[cid].totalOutstanding
  {
    if clients[cid].id == cid {
      OwnedClientSum(s, uid, cid, Total);
      OwnedClientSum(s, uid, cid, Remaining);
    }
  }

  /** `GET /analytics/clients` for business `uid`. */
  method GetClientAnalytics(db: Db, uid: Id) returns (r: seq<ClientRow>)
    requires db.Valid()
    ensures r == ClientAnalytics(ClientsOf(db.clients, uid, db.nextId), OwnedBy(db.invoices, uid))
    ensures db.Reconciled() ==>
      forall k :: 0 <= k < |r| ==>
        (r[k].id in db.clients
         && r[k].totalInvoiced == db.clients[r[k].id].totalInvoiced
         && r[k].totalOutstanding == db.clients[r[k].id].totalOutstanding)
  {
    var mine := ClientsOf(db.clients, uid, db.nextId);
    var invs := OwnedBy(db.invoices, uid);
    r := ClientAnalytics(mine, invs);
    ClientAnalyticsSpec(mine, invs);
    if db.Reconciled() {
      forall k | 0 <= k < |r|
        ensures r[k].id in db.clients
          && r[k].totalInvoiced == db.clients[r[k].id].totalInvoiced
          && r[k].totalOutstanding == db.clients[r[k].id].totalOutstanding
      {
        var i :| 0 <= i < |mine| && r[k] == RowOf(mine[i], invs);
        var c := mine[i];
        assert c in db.clients.Values;
        var cid :| cid in db.clients && db.clients[cid] == c;
        RowMatchesLedger(db.invoices, db.clients, uid, cid);
      }
    }
  }
}
