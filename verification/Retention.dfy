/** Retention and recalculation: what a rebuild makes of a period whose raw rows are partly gone. */
module Retention {
  import opened Seqs
  import opened Model
  import opened Periods
  import opened Aggregation
  import opened Database
  import opened Store
  import opened Reporting
  import opened Materialization
  import opened Recalculation
  import opened Rollup

  function SettlementNotBefore(cutoff: int): Settlement -> bool { (s: Settlement) => s.blockTime >= cutoff }

  lemma {:induction false} FilterRows(rows: seq<SettlementRow>, cutoff: int)
    ensures Map(Filter(rows, RowNotBefore(cutoff)), RowSettlement)
         == Filter(Map(rows, RowSettlement), SettlementNotBefore(cutoff))
  {
    if |rows| > 0 {
      var init, last := rows[..|rows| - 1], rows[|rows| - 1];
      FilterRows(init, cutoff);
      var kept := Filter(init, RowNotBefore(cutoff));
      assert Map(rows, RowSettlement)[..|init|] == Map(init, RowSettlement);
      assert Map(kept + [last], RowSettlement) == Map(kept, RowSettlement) + [last.settlement];
      assert kept + [] == kept;
    }
  }

  lemma SurvivingRaw(db: Db, now: int, retention: nat)
    requires retention > 0
    ensures var raw, cutoff := RawOf(db), now - retention;
      RawOf(Expire(db, now, retention)) == Raw(
        Filter(raw.settlements, SettlementNotBefore(cutoff)),
        Filter(raw.overservices, OverserviceNotBefore(cutoff)),
        Filter(raw.reimbursements, ReimbursementNotBefore(cutoff)))
  {
    hide Filter, Expire;
    ExpireByField(db, now, retention);
    FilterRows(db.settlements, now - retention);
  }

  /** Where a cutoff falls in a period, or its nearer end. */
  function CutIn(k: SummaryKey, cutoff: int): int {
    var end := k.start + Length(k.period);
    if cutoff <= k.start then k.start else if cutoff >= end then end else cutoff
  }

  /** After a cleanup a row's raw events are those of the rest of its period. */
  lemma SurvivingRowEvents(db: Db, now: int, retention: nat, k: SummaryKey)
    requires retention > 0
    ensures RowEvents(RawOf(Expire(db, now, retention)), k)
         == ScopeDuring(RawOf(db), k, CutIn(k, now - retention), k.start + Length(k.period))
  {
    hide Filter, Expire, RawOf, ScopeDuring;
    var raw, raw', cutoff := RawOf(db), RawOf(Expire(db, now, retention)), now - retention;
    var lo, cut, hi := k.start, CutIn(k, cutoff), k.start + Length(k.period);
    SurvivingRaw(db, now, retention);
    RowIsScope(raw', k);
    ScopeIsOneFilter(raw', k, lo, hi);
    ScopeIsOneFilter(raw, k, cut, hi);
    FilterTwice(raw.settlements, SettlementNotBefore(cutoff), SettlementIn(k, lo, hi), SettlementIn(k, cut, hi));
    FilterTwice(raw.overservices, OverserviceNotBefore(cutoff), OverserviceDuring(lo, hi), OverserviceDuring(cut, hi));
    FilterTwice(raw.reimbursements, ReimbursementNotBefore(cutoff), ReimbursementIn(k, lo, hi),
        ReimbursementIn(k, cut, hi));
  }

  lemma ScopeSuppliers(raw: Raw, k: SummaryKey, cut: int)
    requires k.start <= cut <= k.start + Length(k.period)
    ensures var late, all := Suppliers(ScopeDuring(raw, k, cut, k.start + Length(k.period))),
        Suppliers(RowEvents(raw, k));
      |late| == |all| <==> late == all
  {
    hide Filter;
    var end := k.start + Length(k.period);
    var late, all := ScopeDuring(raw, k, cut, end), RowEvents(raw, k);
    ScopeIsOneFilter(raw, k, cut, end);
    ScopeIsOneFilter(raw, k, k.start, end);
    RowIsScope(raw, k);
    assert forall s :: s in late.settlements ==> s in all.settlements;
    SubsetSize(Suppliers(late), Suppliers(all));
  }

  /** A complete summary row whose period is recalculated after a cleanup keeps its totals if and only
      if the expired events of its period contribute nothing, and its supplier count if and only if no
      supplier was active in the expired part alone. */
  lemma RecalculationAfterCleanupIff(db: Db, now: int, retention: nat, known: set<string>, from: int, to: int,
      k: SummaryKey)
    requires retention > 0 && RowExact(db, k) && (k.ServiceRow? ==> k.service != "")
    requires Touched(RawOf(Expire(db, now, retention)), known, from, to, k)
    ensures var rebuilt := GetSummary(Recalculated(Expire(db, now, retention), known, from, to), k);
      var before, cut := RowEvents(RawOf(db), k), CutIn(k, now - retention);
      && (rebuilt.totals == GetSummary(db, k).totals <==> Total(ScopeDuring(RawOf(db), k, k.start, cut)) == ZERO)
      && (rebuilt.activeSuppliers == GetSummary(db, k).activeSuppliers <==>
            Suppliers(ScopeDuring(RawOf(db), k, cut, k.start + Length(k.period))) == Suppliers(before))
  {
    hide Expire, RawOf, Recalculated, Touched, RowEvents, ScopeDuring, Total, Suppliers, Plus, GetSummary;
    var cut, end := CutIn(k, now - retention), k.start + Length(k.period);
    FullReplace(Expire(db, now, retention), known, from, to, k);
    RecalculatedRaw(Expire(db, now, retention), known, from, to);
    SurvivingRowEvents(db, now, retention, k);
    RowIsScope(RawOf(db), k);
    RangeSplits(RawOf(db), k, k.start, cut, end);
    PlusNothing(ZERO, Total(ScopeDuring(RawOf(db), k, k.start, cut)), Total(ScopeDuring(RawOf(db), k, cut, end)));
    PlusLaws(Total(ScopeDuring(RawOf(db), k, cut, end)), ZERO, ZERO);
    PlusLaws(ZERO, Total(ScopeDuring(RawOf(db), k, cut, end)), ZERO);
    PlusLaws(ZERO, Total(ScopeDuring(RawOf(db), k, k.start, cut)), ZERO);
    PlusLaws(Total(ScopeDuring(RawOf(db), k, k.start, cut)), ZERO, ZERO);
    ScopeSuppliers(RawOf(db), k, cut);
  }
}
