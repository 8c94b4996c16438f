/** Day rows against hour rows, the network row against the service rows. */
module Rollup {
  import opened Seqs
  import opened Model
  import opened Periods
  import opened Aggregation
  import opened Database
  import opened Reporting
  import opened Materialization
  import opened Recalculation
  import opened Delivery

  // Time.

  /** The events of a row's scope (network, or one service) in a time range. */
  function ScopeDuring(raw: Raw, k: SummaryKey, lo: int, hi: int): Raw {
    if k.ServiceRow? then OfService(During(raw, lo, hi), k.service) else During(raw, lo, hi)
  }

  function SettlementIn(k: SummaryKey, lo: int, hi: int): Settlement -> bool {
    (s: Settlement) => lo <= s.blockTime < hi && (k.ServiceRow? ==> s.serviceId == k.service)
  }

  function ReimbursementIn(k: SummaryKey, lo: int, hi: int): ReimbursementEvent -> bool {
    (r: ReimbursementEvent) => lo <= r.blockTime < hi && (k.ServiceRow? ==> r.serviceId == k.service)
  }

  lemma ScopeIsOneFilter(raw: Raw, k: SummaryKey, lo: int, hi: int)
    ensures ScopeDuring(raw, k, lo, hi) == Raw(
      Filter(raw.settlements, SettlementIn(k, lo, hi)),
      if k.ServiceRow? then [] else Filter(raw.overservices, OverserviceDuring(lo, hi)),
      Filter(raw.reimbursements, ReimbursementIn(k, lo, hi)))
  {
    hide Filter;
    if k.ServiceRow? {
      forall s ensures Keyed(ServiceOfSettlement, k.service)(s) <==> s.serviceId == k.service {
        assert ServiceOfSettlement(s) == s.serviceId;
      }
      forall r ensures Keyed(ServiceOfReimbursement, k.service)(r) <==> r.serviceId == k.service {
        assert ServiceOfReimbursement(r) == r.serviceId;
      }
      FilterTwice(raw.settlements, SettlementDuring(lo, hi), Keyed(ServiceOfSettlement, k.service),
          SettlementIn(k, lo, hi));
      FilterTwice(raw.reimbursements, ReimbursementDuring(lo, hi), Keyed(ServiceOfReimbursement, k.service),
          ReimbursementIn(k, lo, hi));
    } else {
      FilterSame(raw.settlements, SettlementDuring(lo, hi), SettlementIn(k, lo, hi));
      FilterSame(raw.reimbursements, ReimbursementDuring(lo, hi), ReimbursementIn(k, lo, hi));
    }
  }

  lemma PlusThree(a: Contribution, a': Contribution, b: Contribution, b': Contribution, c: Contribution,
      c': Contribution)
    ensures Plus(Plus(Plus(a, a'), Plus(b, b')), Plus(c, c')) == Plus(Plus(Plus(a, b), c), Plus(Plus(a', b'), c'))
  {
  }

  lemma NoOverservices()
    ensures Sum([], OfOverservice) == ZERO && Plus(ZERO, ZERO) == ZERO
  {
  }

  /** A range splits into its parts. */
  lemma RangeSplits(raw: Raw, k: SummaryKey, lo: int, mid: int, hi: int)
    requires lo <= mid <= hi
    ensures Total(ScopeDuring(raw, k, lo, hi)) == Plus(Total(ScopeDuring(raw, k, lo, mid)),
        Total(ScopeDuring(raw, k, mid, hi)))
  {
    hide Plus, Filter, Sum, ScopeDuring;
    ScopeIsOneFilter(raw, k, lo, hi);
    ScopeIsOneFilter(raw, k, lo, mid);
    ScopeIsOneFilter(raw, k, mid, hi);
    SumSplit(raw.settlements, SettlementIn(k, lo, mid), SettlementIn(k, mid, hi), SettlementIn(k, lo, hi),
        OfSettlement);
    SumSplit(raw.overservices, OverserviceDuring(lo, mid), OverserviceDuring(mid, hi), OverserviceDuring(lo, hi),
        OfOverservice);
    SumSplit(raw.reimbursements, ReimbursementIn(k, lo, mid), ReimbursementIn(k, mid, hi),
        ReimbursementIn(k, lo, hi), OfReimbursement);
    NoOverservices();
    var early, late := ScopeDuring(raw, k, lo, mid), ScopeDuring(raw, k, mid, hi);
    PlusThree(Sum(early.settlements, OfSettlement), Sum(late.settlements, OfSettlement),
              Sum(early.overservices, OfOverservice), Sum(late.overservices, OfOverservice),
              Sum(early.reimbursements, OfReimbursement), Sum(late.reimbursements, OfReimbursement));
  }

  /** The key of the row's hour number `i` of its day. */
  function HourOf(k: SummaryKey, i: int): SummaryKey {
    k.(period := Hour, start := k.start + 3600 * i)
  }

  /** The sum of the first `n` hour rows of a day row, as the summary tables have them. */
  function HourRowsTotal(db: Db, k: SummaryKey, n: nat): Contribution {
    if n == 0 then ZERO else Plus(HourRowsTotal(db, k, n - 1), GetSummary(db, HourOf(k, n - 1)).totals)
  }

  lemma RowIsScope(raw: Raw, k: SummaryKey)
    ensures RowEvents(raw, k) == ScopeDuring(raw, k, k.start, k.start + Length(k.period))
  {
  }

  lemma SameScope(raw: Raw, k: SummaryKey, k': SummaryKey, lo: int, hi: int)
    requires k.ServiceRow? == k'.ServiceRow? && (k.ServiceRow? ==> k.service == k'.service)
    ensures ScopeDuring(raw, k, lo, hi) == ScopeDuring(raw, k', lo, hi)
  {
  }

  lemma EmptyRange(raw: Raw, k: SummaryKey, at: int)
    ensures Total(ScopeDuring(raw, k, at, at)) == ZERO
  {
    hide Plus, Sum, Total;
    FilterNone(raw.settlements, SettlementIn(k, at, at));
    FilterNone(raw.overservices, OverserviceDuring(at, at));
    FilterNone(raw.reimbursements, ReimbursementIn(k, at, at));
    ScopeIsOneFilter(raw, k, at, at);
    NothingTotals();
  }

  lemma {:induction false} HourRowsCover(db: Db, k: SummaryKey, n: nat)
    requires forall i :: 0 <= i < n ==> RowExact(db, HourOf(k, i))
    ensures HourRowsTotal(db, k, n) == Total(ScopeDuring(RawOf(db), k, k.start, k.start + 3600 * n))
  {
    hide Plus, Total, RawOf, Filter, ScopeDuring;
    if n == 0 {
      EmptyRange(RawOf(db), k, k.start);
    } else {
      HourRowsCover(db, k, n - 1);
      assert RowExact(db, HourOf(k, n - 1));
      RowIsScope(RawOf(db), HourOf(k, n - 1));
      SameScope(RawOf(db), HourOf(k, n - 1), k, k.start + 3600 * (n - 1), k.start + 3600 * n);
      RangeSplits(RawOf(db), k, k.start, k.start + 3600 * (n - 1), k.start + 3600 * n);
    }
  }

  /** A day row is the sum of its 24 hour rows in every additive column. */
  lemma DayRowIsSumOfHourRows(db: Db, k: SummaryKey)
    requires k.period == Day && RowExact(db, k)
    requires forall i :: 0 <= i < 24 ==> RowExact(db, HourOf(k, i))
    ensures GetSummary(db, k).totals == HourRowsTotal(db, k, 24)
  {
    hide Total, RowEvents, ScopeDuring;
    HourRowsCover(db, k, 24);
    RowIsScope(RawOf(db), k);
  }

  lemma HourAligned(day: int, i: int)
    requires Aligned(Day, day)
    ensures Aligned(Hour, day + 3600 * i)
  {
    assert day == 86400 * (day / 86400);
    assert day + 3600 * i == 3600 * (24 * (day / 86400) + i);
  }

  /** In particular after any run in which nothing was ignored. */
  lemma NetworkDayIsSumOfHours(db: Db, day: int)
    requires NetworkExact(db) && Aligned(Day, day)
    ensures GetSummary(db, NetworkRow(Day, day)).totals == HourRowsTotal(db, NetworkRow(Day, day), 24)
  {
    hide HourRowsTotal, Exact, GetSummary, Aligned;
    var k := NetworkRow(Day, day);
    assert RowExact(db, k);
    forall i | 0 <= i < 24 ensures RowExact(db, HourOf(k, i)) {
      HourAligned(day, i);
      assert HourOf(k, i) == NetworkRow(Hour, day + 3600 * i);
    }
    DayRowIsSumOfHourRows(db, k);
  }

  // Services.

  function ServicesTotal(raw: Raw, services: seq<string>): Contribution {
    if |services| == 0 then ZERO
    else Plus(ServicesTotal(raw, services[..|services| - 1]), Total(OfService(raw, services[|services| - 1])))
  }

  ghost predicate NoRepeats(services: seq<string>) {
    forall i, j :: 0 <= i < j < |services| ==> services[i] != services[j]
  }

  function SettlementOfAny(services: seq<string>): Settlement -> bool { (s: Settlement) => s.serviceId in services }
  function ReimbursementOfAny(services: seq<string>): ReimbursementEvent -> bool {
    (r: ReimbursementEvent) => r.serviceId in services
  }

  lemma NoSums()
    ensures Sum([], OfSettlement) == ZERO && Sum([], OfReimbursement) == ZERO && Plus(ZERO, ZERO) == ZERO
  {
  }

  lemma OneMoreService(raw: Raw, init: seq<string>, last: string, services: seq<string>)
    requires services == init + [last] && last !in init
    ensures Sum(Filter(raw.settlements, SettlementOfAny(services)), OfSettlement)
         == Plus(Sum(Filter(raw.settlements, SettlementOfAny(init)), OfSettlement),
                 Sum(Filter(raw.settlements, Keyed(ServiceOfSettlement, last)), OfSettlement))
    ensures Sum(Filter(raw.reimbursements, ReimbursementOfAny(services)), OfReimbursement)
         == Plus(Sum(Filter(raw.reimbursements, ReimbursementOfAny(init)), OfReimbursement),
                 Sum(Filter(raw.reimbursements, Keyed(ServiceOfReimbursement, last)), OfReimbursement))
  {
    hide Plus, Sum, Filter;
    forall s ensures Keyed(ServiceOfSettlement, last)(s) <==> s.serviceId == last {
      assert ServiceOfSettlement(s) == s.serviceId;
    }
    forall r ensures Keyed(ServiceOfReimbursement, last)(r) <==> r.serviceId == last {
      assert ServiceOfReimbursement(r) == r.serviceId;
    }
    SumSplit(raw.settlements, SettlementOfAny(init), Keyed(ServiceOfSettlement, last), SettlementOfAny(services),
        OfSettlement);
    SumSplit(raw.reimbursements, ReimbursementOfAny(init), Keyed(ServiceOfReimbursement, last),
        ReimbursementOfAny(services), OfReimbursement);
  }

  lemma ServiceTotal(raw: Raw, service: string)
    ensures Total(OfService(raw, service)) ==
      Plus(Sum(Filter(raw.settlements, Keyed(ServiceOfSettlement, service)), OfSettlement),
           Sum(Filter(raw.reimbursements, Keyed(ServiceOfReimbursement, service)), OfReimbursement))
  {
  }

  lemma {:induction false} ServicesAddUp(raw: Raw, services: seq<string>)
    requires NoRepeats(services)
    ensures ServicesTotal(raw, services) ==
      Plus(Sum(Filter(raw.settlements, SettlementOfAny(services)), OfSettlement),
           Sum(Filter(raw.reimbursements, ReimbursementOfAny(services)), OfReimbursement))
  {
    hide Plus, Sum, Filter, OfService;
    if |services| == 0 {
      FilterNone(raw.settlements, SettlementOfAny(services));
      FilterNone(raw.reimbursements, ReimbursementOfAny(services));
      NoSums();
    } else {
      var init, last := services[..|services| - 1], services[|services| - 1];
      assert services == init + [last];
      ServicesAddUp(raw, init);
      OneMoreService(raw, init, last, services);
      ServiceTotal(raw, last);
      PlusInterchange(Sum(Filter(raw.settlements, SettlementOfAny(init)), OfSettlement),
                      Sum(Filter(raw.settlements, Keyed(ServiceOfSettlement, last)), OfSettlement),
                      Sum(Filter(raw.reimbursements, ReimbursementOfAny(init)), OfReimbursement),
                      Sum(Filter(raw.reimbursements, Keyed(ServiceOfReimbursement, last)), OfReimbursement));
    }
  }

  /** The services' totals add up to the network's in every settlement and reimbursement column;
      only the overservice count is the network's own. */
  lemma NetworkIsSumOfServices(raw: Raw, services: seq<string>)
    requires NoRepeats(services)
    requires forall s :: s in raw.settlements ==> s.serviceId in services
    requires forall r :: r in raw.reimbursements ==> r.serviceId in services
    ensures Total(raw) == ServicesTotal(raw, services).(overserviceCount := |raw.overservices|)
  {
    hide Filter, Sum;
    ServicesAddUp(raw, services);
    FilterAll(raw.settlements, SettlementOfAny(services));
    FilterAll(raw.reimbursements, ReimbursementOfAny(services));
    OverserviceSum(raw.overservices);
    SettlementSumHasNoEvents(raw.settlements);
    ReimbursementSum(raw.reimbursements);
  }

  /** The sum of a period's service rows, as the summary tables have them. */
  function ServiceRowsTotal(db: Db, p: Period, start: int, services: seq<string>): Contribution {
    if |services| == 0 then ZERO
    else Plus(ServiceRowsTotal(db, p, start, services[..|services| - 1]),
              GetSummary(db, ServiceRow(p, start, services[|services| - 1])).totals)
  }

  lemma {:induction false} ServiceRowsCover(db: Db, p: Period, start: int, services: seq<string>)
    requires forall s :: s in services ==> RowExact(db, ServiceRow(p, start, s))
    ensures ServiceRowsTotal(db, p, start, services) == ServicesTotal(InPeriod(RawOf(db), p, start), services)
  {
    hide Plus, Total, OfService, InPeriod;
    if |services| > 0 {
      var last := services[|services| - 1];
      assert last in services && RowExact(db, ServiceRow(p, start, last));
      ServiceRowsCover(db, p, start, services[..|services| - 1]);
    }
  }

  /** The network row is the sum of its service rows in every column but the overservice count. */
  lemma NetworkRowIsSumOfServiceRows(db: Db, p: Period, start: int, services: seq<string>)
    requires NoRepeats(services) && RowExact(db, NetworkRow(p, start))
    requires forall s :: s in services ==> RowExact(db, ServiceRow(p, start, s))
    requires forall s :: s in InPeriod(RawOf(db), p, start).settlements ==> s.serviceId in services
    requires forall r :: r in InPeriod(RawOf(db), p, start).reimbursements ==> r.serviceId in services
    ensures var totals := GetSummary(db, NetworkRow(p, start)).totals;
      totals == ServiceRowsTotal(db, p, start, services).(overserviceCount := totals.overserviceCount)
  {
    hide Plus, Total, InPeriod, ServicesTotal, ServiceRowsTotal;
    ServiceRowsCover(db, p, start, services);
    NetworkIsSumOfServices(InPeriod(RawOf(db), p, start), services);
  }

  function SupplierCounts(raw: Raw, services: seq<string>): nat {
    if |services| == 0 then 0
    else SupplierCounts(raw, services[..|services| - 1]) + |Suppliers(OfService(raw, services[|services| - 1]))|
  }

  function SuppliersOfAny(raw: Raw, services: seq<string>): set<string> {
    set s | s in raw.settlements && s.serviceId in services :: s.supplier
  }

  lemma OneMoreServiceSuppliers(raw: Raw, init: seq<string>, last: string)
    ensures SuppliersOfAny(raw, init + [last]) <= SuppliersOfAny(raw, init) + Suppliers(OfService(raw, last))
  {
    hide Filter;
    forall s | s in raw.settlements && s.serviceId == last ensures s in OfService(raw, last).settlements {
      assert ServiceOfSettlement(s) == last;
    }
  }

  lemma NoServiceNoSupplier(raw: Raw)
    ensures SuppliersOfAny(raw, []) == {}
  {
  }

  lemma {:induction false} UnionSize(raw: Raw, services: seq<string>)
    ensures |SuppliersOfAny(raw, services)| <= SupplierCounts(raw, services)
  {
    hide SuppliersOfAny, Suppliers, OfService;
    if |services| == 0 {
      NoServiceNoSupplier(raw);
    } else {
      var init, last := services[..|services| - 1], services[|services| - 1];
      assert services == init + [last];
      UnionSize(raw, init);
      OneMoreServiceSuppliers(raw, init, last);
      SubsetSize(SuppliersOfAny(raw, services), SuppliersOfAny(raw, init) + Suppliers(OfService(raw, last)));
    }
  }

  /** Distinct suppliers: a service has at most the network's, the network at most all services' together. */
  lemma SupplierCountBounds(raw: Raw, services: seq<string>, service: string)
    requires forall s :: s in raw.settlements ==> s.serviceId in services
    ensures |Suppliers(OfService(raw, service))| <= |Suppliers(raw)| <= SupplierCounts(raw, services)
  {
    hide Filter;
    SubsetSize(Suppliers(OfService(raw, service)), Suppliers(raw));
    UnionSize(raw, services);
    assert Suppliers(raw) == SuppliersOfAny(raw, services);
  }

  // After a recalculation.

  lemma RecalculatedRaw(db: Db, known: set<string>, from: int, to: int)
    ensures RawOf(Recalculated(db, known, from, to)) == RawOf(db)
  {
  }

  lemma {:induction false} NoHourRows(db: Db, k: SummaryKey, n: nat)
    requires forall i :: 0 <= i < n ==> GetSummary(db, HourOf(k, i)) == NO_SUMMARY
    ensures HourRowsTotal(db, k, n) == ZERO
  {
    hide GetSummary, HourOf, Plus;
    if n > 0 {
      NoHourRows(db, k, n - 1);
      assert GetSummary(db, HourOf(k, n - 1)) == NO_SUMMARY;
      PlusLaws(ZERO, ZERO, ZERO);
    }
  }

  /** Whatever was delivered, and however often: once a range that covers it is recalculated, every
      day row, of the network and of every named service, is the sum of its hour rows. */
  lemma RecalculatedDayIsSumOfHours(chain: Chain, arrivals: seq<Arrival>, from: int, to: int, k: SummaryKey)
    requires Labelled(chain) && k.period == Day && Aligned(Day, k.start) && (k.ServiceRow? ==> k.service != "")
    requires forall h :: h in Heights(arrivals) ==> DayStart(from) <= chain(h).blockTime < DayEnd(to)
    ensures var m := Ingested(chain, arrivals);
      var db := Recalculated(m.db, m.known, from, to);
      GetSummary(db, k).totals == HourRowsTotal(db, k, 24)
  {
    hide Ingested, Recalculated, Exact, HourRowsTotal, GetSummary, RawOf, Labelled, Aligned, Total, RowEvents, Heights;
    var m := Ingested(chain, arrivals);
    var db := Recalculated(m.db, m.known, from, to);
    RecalculatedRaw(m.db, m.known, from, to);
    forall i: int ensures Aligned(Hour, HourOf(k, i).start) {
      HourAligned(k.start, i);
    }
    if k.ServiceRow? && k.service !in m.known {
      RepairedUnknownIff(chain, arrivals, from, to, k);
      forall i | 0 <= i < 24 ensures GetSummary(db, HourOf(k, i)) == NO_SUMMARY {
        RepairedUnknownIff(chain, arrivals, from, to, HourOf(k, i));
      }
      NoHourRows(db, k, 24);
    } else {
      RepairedIsExact(chain, arrivals, from, to, k);
      forall i | 0 <= i < 24 ensures RowExact(db, HourOf(k, i)) {
        RepairedIsExact(chain, arrivals, from, to, HourOf(k, i));
      }
      DayRowIsSumOfHourRows(db, k);
    }
  }

  /** Whatever the summary tables held: in a recalculated hour or day whose events all belong to
      known named services, the network row is the sum of the service rows. */
  lemma RecalculatedNetworkIsSumOfServices(db: Db, known: set<string>, from: int, to: int, p: Period, start: int,
      services: seq<string>)
    requires Touched(RawOf(db), known, from, to, NetworkRow(p, start))
    requires NoRepeats(services) && forall s :: s in services ==> s in known && s != ""
    requires forall s :: s in InPeriod(RawOf(db), p, start).settlements ==> s.serviceId in services
    requires forall r :: r in InPeriod(RawOf(db), p, start).reimbursements ==> r.serviceId in services
    ensures var db' := Recalculated(db, known, from, to);
      var totals := GetSummary(db', NetworkRow(p, start)).totals;
      totals == ServiceRowsTotal(db', p, start, services).(overserviceCount := totals.overserviceCount)
  {
    hide Recalculated, InPeriod, RowExact, RawOf, NoRepeats, GetSummary, ServiceRowsTotal;
    var db' := Recalculated(db, known, from, to);
    RecalculatedRaw(db, known, from, to);
    FullReplace(db, known, from, to, NetworkRow(p, start));
    forall s | s in services ensures RowExact(db', ServiceRow(p, start, s)) {
      FullReplace(db, known, from, to, ServiceRow(p, start, s));
    }
    NetworkRowIsSumOfServiceRows(db', p, start, services);
  }
}
