/**
 The engine and its two matchers as they run: nested loops over loaded records, lookups that
 see flushed rows only, inserts that may stay pending, and counters kept beside them. Each
 loop is tied to the list of inserts that module Reconciliation defines and reasons about.
 */
module ReconciliationEngine {
  import opened Wrappers
  import opened Reconciliation

  lemma {:induction false} CountersShift(t: Tally, us: seq<Upsert>, run: nat, m: nat, f: nat)
    ensures var plain := InsertAll(t, us, run);
      InsertAll(t.(matches := t.matches + m, found := t.found + f), us, run)
        == plain.(matches := plain.matches + m, found := plain.found + f)
  {
    if us != [] { CountersShift(t, us[..|us| - 1], run, m, f); }
  }

  /** A second pass with counters of its own adds up with the first. */
  lemma {:induction false} TwoPasses(start: Tally, one: Tally, two: Tally, us: seq<Upsert>, vs: seq<Upsert>, run: nat)
    requires one == InsertAll(start, us, run)
    requires two == InsertAll(Tally(one.relationships, one.discrepancies, 0, 0), vs, run)
    ensures InsertAll(start, us + vs, run)
         == Tally(two.relationships, two.discrepancies, one.matches + two.matches, one.found + two.found)
  {
    InsertAllAppend(start, us, vs, run);
    CountersShift(Tally(one.relationships, one.discrepancies, 0, 0), vs, run, one.matches, one.found);
  }

  lemma {:induction false} InsertAllOne(t: Tally, us: seq<Upsert>, u: Upsert, run: nat)
    ensures InsertAll(t, us + [u], run) == Insert(InsertAll(t, us, run), u, run)
  {
    assert (us + [u])[..|us|] == us;
  }

  lemma {:induction false} OneUpsert(t: Tally, u: Upsert, run: nat)
    ensures InsertAll(t, [u], run) == Insert(t, u, run)
  {
    InsertAllOne(t, [], u, run);
    assert [] + [u] == [u];
  }

  lemma {:induction false} PaymentsSnoc(t: Tally, ps: seq<Payment>, i: nat, clock: Clock, run: nat)
    requires i < |ps|
    ensures InsertAll(t, PaymentsUpserts(ps[..i + 1], clock), run)
         == InsertAll(InsertAll(t, PaymentsUpserts(ps[..i], clock), run), PaymentUpserts(ps[i], clock), run)
    ensures PaymentsSeen(ps[..i + 1], clock) == PaymentsSeen(ps[..i], clock) +
        if InWindow(ps[i].processedAt, clock.payments) then 1 else 0
  {
    assert ps[..i + 1][..i] == ps[..i];
    InsertAllAppend(t, PaymentsUpserts(ps[..i], clock), PaymentUpserts(ps[i], clock), run);
  }

  lemma {:induction false} SettlementsSnoc(t: Tally, ss: seq<Settlement>, i: nat, clock: Clock, run: nat)
    requires i < |ss|
    ensures InsertAll(t, SettlementsUpserts(ss[..i + 1], clock), run)
         == InsertAll(InsertAll(t, SettlementsUpserts(ss[..i], clock), run), SettlementUpserts(ss[i], clock), run)
    ensures SettlementsSeen(ss[..i + 1], clock) == SettlementsSeen(ss[..i], clock) +
        if InWindow(Some(ss[i].date), clock.settlements) then 1 else 0
  {
    assert ss[..i + 1][..i] == ss[..i];
    InsertAllAppend(t, SettlementsUpserts(ss[..i], clock), SettlementUpserts(ss[i], clock), run);
  }

  lemma {:induction false} ItemsSnoc(t: Tally, p: Payment, j: nat, run: nat)
    requires j < |p.items|
    ensures InsertAll(t, ItemsUpserts(p, p.items[..j + 1]), run)
         == InsertAll(InsertAll(t, ItemsUpserts(p, p.items[..j]), run), ItemUpserts(p, p.items[j]), run)
  {
    assert p.items[..j + 1][..j] == p.items[..j];
    InsertAllAppend(t, ItemsUpserts(p, p.items[..j]), ItemUpserts(p, p.items[j]), run);
  }

  lemma {:induction false} TxsSnoc(t: Tally, s: Settlement, j: nat, run: nat)
    requires j < |s.transactions|
    ensures InsertAll(t, TxsUpserts(s, s.transactions[..j + 1]), run)
         == InsertAll(InsertAll(t, TxsUpserts(s, s.transactions[..j]), run), TxUpserts(s, s.transactions[j]), run)
  {
    assert s.transactions[..j + 1][..j] == s.transactions[..j];
    InsertAllAppend(t, TxsUpserts(s, s.transactions[..j]), TxUpserts(s, s.transactions[j]), run);
  }

  function Asked(report: Option<Discrepancy>): seq<Upsert> {
    if report.Some? then [Report(report.value)] else []
  }

  class Engine {
    var relationships: seq<Relationship>
    var discrepancies: seq<Discrepancy>   // flushed: what a SELECT can see
    var pending: seq<Discrepancy>         // added to the session, not flushed yet
    var runs: seq<RunRecord>

    ghost function Reported(): seq<Discrepancy>
      reads this
    {
      discrepancies + pending
    }

    ghost function Tables(matches: nat, found: nat): Tally
      reads this
    {
      Tally(relationships, Reported(), matches, found)
    }

    /** The unflushed rows: missing-settlement cases of payments the loop has left behind. */
    ghost predicate PendingBehind(ids: set<string>)
      reads this
    {
      forall d :: d in pending ==> d.rule == PaymentMissingSettlement && d.source in ids
    }

    constructor ()
      ensures relationships == [] && discrepancies == [] && pending == [] && runs == []
    {
      relationships, discrepancies, pending, runs := [], [], [], [];
    }

    method Flush()
      modifies `discrepancies, `pending
      ensures pending == [] && discrepancies == old(Reported())
    {
      discrepancies, pending := discrepancies + pending, [];
    }

    method FindLink(r: Relationship) returns (found: bool)
      ensures found <==> HasLink(relationships, r)
    {
      for i := 0 to |relationships|
        invariant forall j :: 0 <= j < i ==> !SameLink(relationships[j], r)
      {
        if SameLink(relationships[i], r) { return true; }
      }
      return false;
    }

    method FindCase(d: Discrepancy) returns (found: bool)
      ensures found <==> HasCase(discrepancies, d)
    {
      for i := 0 to |discrepancies|
        invariant forall j :: 0 <= j < i ==> !SameCase(discrepancies[j], d)
      {
        if SameCase(discrepancies[i], d) { return true; }
      }
      return false;
    }

    method UpsertRelationship(r: Relationship, run: nat) returns (created: bool)
      modifies `relationships, `discrepancies, `pending
      ensures created <==> !HasLink(old(relationships), r)
      ensures relationships == old(relationships) + if created then [r.(run := run)] else []
      ensures Reported() == old(Reported())
      ensures pending == if created then [] else old(pending)
    {
      var existing := FindLink(r);
      if existing { return false; }
      relationships := relationships + [r.(run := run)];
      Flush();
      return true;
    }

    /** The lookup misses pending rows, so none of them may carry this key. */
    method UpsertDiscrepancy(d: Discrepancy, run: nat) returns (created: bool)
      requires !HasCase(pending, d)
      modifies `discrepancies, `pending
      ensures created <==> !HasCase(old(Reported()), d)
      ensures Reported() == old(Reported()) + if created then [d.(run := run)] else []
      ensures pending == if created then [] else old(pending)
    {
      CasesOfBoth(d);
      var existing := FindCase(d);
      if existing { return false; }
      pending := pending + [d.(run := run)];
      assert Reported() == old(Reported()) + [d.(run := run)];
      Flush();
      return true;
    }

    /** Adds its row without a flush. */
    method CreateMissingSettlement(p: Payment, run: nat) returns (created: bool)
      requires !HasCase(pending, MissingSettlement(p).disc)
      modifies `pending
      ensures created <==> !HasCase(old(Reported()), MissingSettlement(p).disc)
      ensures pending == old(pending) + if created then [MissingSettlement(p).disc.(run := run)] else []
    {
      var d := Discrepancy(run, PaymentMissingSettlement, p.id, None, Some(p.amount), None, None, p.currency);
      CasesOfBoth(MissingSettlement(p).disc);
      var existing := FindCase(d);
      if existing { return false; }
      pending := pending + [d];
      return true;
    }

    lemma CasesOfBoth(d: Discrepancy)
      ensures HasCase(Reported(), d) <==> HasCase(discrepancies, d) || HasCase(pending, d)
    {
      var n := |discrepancies|;
      if HasCase(discrepancies, d) {
        var i :| 0 <= i < n && SameCase(discrepancies[i], d);
        assert SameCase(Reported()[i], d);
      }
      if HasCase(pending, d) {
        var i :| 0 <= i < |pending| && SameCase(pending[i], d);
        assert SameCase(Reported()[n + i], d);
      }
      if HasCase(Reported(), d) {
        var i :| 0 <= i < |Reported()| && SameCase(Reported()[i], d);
        assert if i < n then SameCase(discrepancies[i], d) else SameCase(pending[i - n], d);
      }
    }

    lemma NothingPending(d: Discrepancy, ids: set<string>)
      requires PendingBehind(ids) && (d.rule != PaymentMissingSettlement || d.source !in ids)
      ensures !HasCase(pending, d)
    {
      forall i | 0 <= i < |pending|
        ensures !SameCase(pending[i], d)
      {
        assert pending[i] in pending;
      }
    }

    /** Asks for one relationship; `m` and `f` are the counts before it. */
    method Link(r: Relationship, run: nat, ghost m: nat, ghost f: nat) returns (matches: nat)
      modifies `relationships, `discrepancies, `pending
      ensures Tables(m + matches, f) == InsertAll(old(Tables(m, f)), [Relate(r)], run)
      ensures pending == old(pending) || pending == []
    {
      OneUpsert(Tables(m, f), Relate(r), run);
      var created := UpsertRelationship(r, run);
      matches := if created then 1 else 0;
    }

    /** Asks for one discrepancy, if there is one to ask for. */
    method ReportCase(report: Option<Discrepancy>, run: nat, ghost m: nat, ghost f: nat) returns (found: nat)
      requires report.Some? ==> !HasCase(pending, report.value)
      modifies `discrepancies, `pending
      ensures Tables(m, f + found) == InsertAll(old(Tables(m, f)), Asked(report), run)
      ensures pending == old(pending) || pending == []
    {
      found := 0;
      if report.Some? {
        OneUpsert(Tables(m, f), Report(report.value), run);
        var created := UpsertDiscrepancy(report.value, run);
        found := if created then 1 else 0;
      }
    }

    method CheckItem(p: Payment, item: Item) returns (status: FinancialStatus, report: Option<Discrepancy>)
      ensures status == StatusOf(ItemCheck(p, item)) && Asked(report) == ItemReport(p, item)
      ensures report.Some? ==> report.value.rule != PaymentMissingSettlement
    {
      status, report := Reconciled, None;
      if p.amount != item.amount {
        status := Discrepant;
        report := Some(Row(PaymentAmount, p.id, Some(item.id), Some(p.amount), Some(item.amount), p.currency));
      } else if p.currency != item.currency {
        status := Discrepant;
        report := Some(Row(PaymentCurrency, p.id, Some(item.id), None, None, p.currency));
      }
    }

    /** One settlement item of a payment: the relationship first, then the discrepancy if any. */
    method MatchItem(p: Payment, item: Item, run: nat, ghost ids: set<string>, ghost m: nat, ghost f: nat)
      returns (matches: nat, found: nat)
      requires PendingBehind(ids)
      modifies `relationships, `discrepancies, `pending
      ensures PendingBehind(ids)
      ensures Tables(m + matches, f + found) == InsertAll(old(Tables(m, f)), ItemUpserts(p, item), run)
    {
      var status, report := CheckItem(p, item);
      var link := Relationship(0, p.id, item.settlement, PaymentToSettlement, status);
      InsertAllAppend(Tables(m, f), [Relate(link)], Asked(report), run);
      matches := Link(link, run, m, f);
      if report.Some? { NothingPending(report.value, ids); }
      found := ReportCase(report, run, m + matches, f);
    }

    method MatchPayments(payments: seq<Payment>, clock: Clock, run: nat)
      returns (processed: nat, matches: nat, found: nat)
      requires forall i, j :: 0 <= i < j < |payments| ==> payments[i].id != payments[j].id
      requires pending == []
      modifies `relationships, `discrepancies, `pending
      ensures processed == PaymentsSeen(payments, clock)
      ensures Tables(matches, found) == InsertAll(old(Tables(0, 0)), PaymentsUpserts(payments, clock), run)
      ensures forall d :: d in pending ==> d.rule == PaymentMissingSettlement
    {
      processed, matches, found := 0, 0, 0;
      ghost var start := Tables(0, 0);
      ghost var ids: set<string> := {};
      for i := 0 to |payments|
        invariant processed == PaymentsSeen(payments[..i], clock)
        invariant PendingBehind(ids)
        invariant forall id :: id in ids ==> exists k :: 0 <= k < i && payments[k].id == id
        invariant Tables(matches, found) == InsertAll(start, PaymentsUpserts(payments[..i], clock), run)
      {
        PaymentsSnoc(start, payments, i, clock, run);
        if InWindow(payments[i].processedAt, clock.payments) {
          processed := processed + 1;
          matches, found := MatchPayment(payments[i], clock, run, ids, matches, found);
        }
        ids := ids + {payments[i].id};
      }
      assert payments[..|payments|] == payments;
    }

    /** One payment of the window: its items, or the age of their absence. */
    method MatchPayment(p: Payment, clock: Clock, run: nat, ghost ids: set<string>, m: nat, f: nat)
      returns (matches: nat, found: nat)
      requires InWindow(p.processedAt, clock.payments)
      requires PendingBehind(ids) && p.id !in ids
      modifies `relationships, `discrepancies, `pending
      ensures PendingBehind(ids + {p.id})
      ensures Tables(matches, found) == InsertAll(old(Tables(m, f)), PaymentUpserts(p, clock), run)
    {
      matches, found := m, f;
      if p.items != [] {
        matches, found := MatchItems(p, run, ids, m, f);
      } else if clock.paymentAt(p.id) - p.processedAt.value > 3 * DAY {
        var created := FlagMissingSettlement(p, run, ids, m, f);
        found := f + created;
      }
    }

    /** Asks for the missing-settlement case, which stays unflushed. */
    method FlagMissingSettlement(p: Payment, run: nat, ghost ids: set<string>, ghost m: nat, ghost f: nat)
      returns (found: nat)
      requires PendingBehind(ids) && p.id !in ids
      modifies `pending
      ensures PendingBehind(ids + {p.id})
      ensures Tables(m, f + found) == InsertAll(old(Tables(m, f)), [MissingSettlement(p)], run)
    {
      NothingPending(MissingSettlement(p).disc, ids);
      OneUpsert(Tables(m, f), MissingSettlement(p), run);
      var created := CreateMissingSettlement(p, run);
      found := if created then 1 else 0;
      assert Reported() == old(Reported()) + if created then [MissingSettlement(p).disc.(run := run)] else [];
    }

    method MatchItems(p: Payment, run: nat, ghost ids: set<string>, m: nat, f: nat) returns (matches: nat, found: nat)
      requires PendingBehind(ids)
      modifies `relationships, `discrepancies, `pending
      ensures PendingBehind(ids)
      ensures Tables(matches, found) == InsertAll(old(Tables(m, f)), ItemsUpserts(p, p.items), run)
    {
      matches, found := m, f;
      ghost var start := Tables(m, f);
      for j := 0 to |p.items|
        invariant PendingBehind(ids)
        invariant Tables(matches, found) == InsertAll(start, ItemsUpserts(p, p.items[..j]), run)
      {
        ItemsSnoc(start, p, j, run);
        var dm, df := MatchItem(p, p.items[j], run, ids, matches, found);
        matches, found := matches + dm, found + df;
      }
      assert p.items[..|p.items|] == p.items;
    }

    method CheckTx(s: Settlement, tx: BankTx) returns (status: FinancialStatus, report: Option<Discrepancy>)
      ensures status == StatusOf(BankCheck(s, tx)) && Asked(report) == TxReport(s, tx)
      ensures report.Some? ==> report.value.rule != PaymentMissingSettlement
    {
      status, report := Reconciled, None;
      var toMatch := if s.actual.Some? && s.actual.value != 0 then s.actual.value else s.gross - s.fee + s.adjustment;
      if tx.amount != toMatch {
        status := Discrepant;
        report := Some(Row(BankAmount, s.id, Some(tx.id), Some(toMatch), Some(tx.amount), s.currency));
      } else if (tx.date - s.date) / DAY > 3 {
        status := Discrepant;
        report := Some(Row(BankTiming, s.id, Some(tx.id), None, None, s.currency));
      } else if s.currency != tx.currency {
        status := Discrepant;
        report := Some(Row(BankCurrency, s.id, Some(tx.id), None, None, s.currency));
      }
    }

    /** One bank transaction of a settlement: the discrepancy if any, then the relationship. */
    method MatchTx(s: Settlement, tx: BankTx, run: nat, ghost ids: set<string>, ghost m: nat, ghost f: nat)
      returns (matches: nat, found: nat)
      requires PendingBehind(ids)
      modifies `relationships, `discrepancies, `pending
      ensures PendingBehind(ids)
      ensures Tables(m + matches, f + found) == InsertAll(old(Tables(m, f)), TxUpserts(s, tx), run)
    {
      var status, report := CheckTx(s, tx);
      var link := Relationship(0, s.id, tx.id, SettlementToBank, status);
      InsertAllAppend(Tables(m, f), Asked(report), [Relate(link)], run);
      if report.Some? { NothingPending(report.value, ids); }
      found := ReportCase(report, run, m, f);
      matches := Link(link, run, m, f + found);
    }

    method MatchTxs(s: Settlement, run: nat, ghost ids: set<string>, m: nat, f: nat) returns (matches: nat, found: nat)
      requires PendingBehind(ids)
      modifies `relationships, `discrepancies, `pending
      ensures PendingBehind(ids)
      ensures Tables(matches, found) == InsertAll(old(Tables(m, f)), TxsUpserts(s, s.transactions), run)
    {
      matches, found := m, f;
      ghost var start := Tables(m, f);
      for j := 0 to |s.transactions|
        invariant PendingBehind(ids)
        invariant Tables(matches, found) == InsertAll(start, TxsUpserts(s, s.transactions[..j]), run)
      {
        TxsSnoc(start, s, j, run);
        var dm, df := MatchTx(s, s.transactions[j], run, ids, matches, found);
        matches, found := matches + dm, found + df;
      }
      assert s.transactions[..|s.transactions|] == s.transactions;
    }

    method CheckFee(s: Settlement) returns (report: Option<Discrepancy>)
      ensures Asked(report) == FeeUpserts(s)
      ensures report.Some? ==> report.value.rule != PaymentMissingSettlement
    {
      var net := s.gross - s.fee + s.adjustment;
      report := None;
      if s.actual.Some? && s.actual.value != 0 && net != s.actual.value {
        report := Some(Row(SettlementFee, s.id, None, Some(net), s.actual, s.currency));
      }
    }

    method MissingBankCase(s: Settlement) returns (d: Discrepancy)
      ensures Report(d) == MissingBank(s)
    {
      var net := s.gross - s.fee + s.adjustment;
      var expected := if s.actual.Some? && s.actual.value != 0 then s.actual.value else net;
      d := Row(SettlementMissingBank, s.id, None, Some(expected), None, s.currency);
    }

    /** One settlement of the window: the fee check, then its bank transactions or their absence. */
    method MatchSettlement(s: Settlement, clock: Clock, run: nat, ghost ids: set<string>, m: nat, f: nat)
      returns (matches: nat, found: nat)
      requires InWindow(Some(s.date), clock.settlements) && PendingBehind(ids)
      modifies `relationships, `discrepancies, `pending
      ensures PendingBehind(ids)
      ensures Tables(matches, found) == InsertAll(old(Tables(m, f)), SettlementUpserts(s, clock), run)
    {
      InsertAllAppend(Tables(m, f), FeeUpserts(s), BankUpserts(s, clock), run);
      var report := CheckFee(s);
      if report.Some? { NothingPending(report.value, ids); }
      var fees := ReportCase(report, run, m, f);
      matches, found := MatchBank(s, clock, run, ids, m, f + fees);
    }

    method MatchBank(s: Settlement, clock: Clock, run: nat, ghost ids: set<string>, m: nat, f: nat)
      returns (matches: nat, found: nat)
      requires PendingBehind(ids)
      modifies `relationships, `discrepancies, `pending
      ensures PendingBehind(ids)
      ensures Tables(matches, found) == InsertAll(old(Tables(m, f)), BankUpserts(s, clock), run)
    {
      matches, found := m, f;
      if s.transactions != [] {
        matches, found := MatchTxs(s, run, ids, m, f);
      } else if clock.settlementAt(s.id) - s.date > 3 * DAY {
        var d := MissingBankCase(s);
        NothingPending(d, ids);
        var missing := ReportCase(Some(d), run, m, f);
        found := found + missing;
      }
    }

    method MatchSettlements(settlements: seq<Settlement>, clock: Clock, run: nat)
      returns (processed: nat, matches: nat, found: nat)
      requires forall d :: d in pending ==> d.rule == PaymentMissingSettlement
      modifies `relationships, `discrepancies, `pending
      ensures processed == SettlementsSeen(settlements, clock)
      ensures Tables(matches, found) == InsertAll(old(Tables(0, 0)), SettlementsUpserts(settlements, clock), run)
    {
      processed, matches, found := 0, 0, 0;
      ghost var start := Tables(0, 0);
      ghost var ids := set d | d in pending :: d.source;
      for i := 0 to |settlements|
        invariant processed == SettlementsSeen(settlements[..i], clock)
        invariant PendingBehind(ids)
        invariant Tables(matches, found) == InsertAll(start, SettlementsUpserts(settlements[..i], clock), run)
      {
        SettlementsSnoc(start, settlements, i, clock, run);
        if InWindow(Some(settlements[i].date), clock.settlements) {
          processed := processed + 1;
          matches, found := MatchSettlement(settlements[i], clock, run, ids, matches, found);
        }
      }
      assert settlements[..|settlements|] == settlements;
    }

    /** The two matchers in turn, each with statistics of its own. */
    method MatchAll(v: Visit, run: nat) returns (record: RunRecord)
      requires forall i, j :: 0 <= i < j < |v.facts.payments| ==> v.facts.payments[i].id != v.facts.payments[j].id
      requires pending == []
      modifies `relationships, `discrepancies, `pending
      ensures record.processed == Processed(v.facts, v.clock)
      ensures Tables(record.matches, record.found) == InsertAll(old(Tables(0, 0)), EngineUpserts(v.facts, v.clock), run)
    {
      ghost var start := Tables(0, 0);
      var p, pm, pf := MatchPayments(v.facts.payments, v.clock, run);
      ghost var one := Tables(pm, pf);
      var s, sm, sf := MatchSettlements(v.facts.settlements, v.clock, run);
      ghost var two := Tables(sm, sf);
      TwoPasses(start, one, two, PaymentsUpserts(v.facts.payments, v.clock),
          SettlementsUpserts(v.facts.settlements, v.clock), run);
      record := RunRecord(p + s, pm + sm, pf + sf);
    }

    /** One engine run and the commit that ends it. */
    method RunReconciliation(v: Visit) returns (record: RunRecord)
      requires forall i, j :: 0 <= i < j < |v.facts.payments| ==> v.facts.payments[i].id != v.facts.payments[j].id
      requires pending == []
      modifies this
      ensures pending == []
      ensures State(relationships, discrepancies, runs) == RunOnce(old(State(relationships, discrepancies, runs)), v)
      ensures runs == old(runs) + [record]
    {
      assert Reported() == discrepancies;
      record := MatchAll(v, |runs|);
      runs := runs + [record];
      Flush();
    }
  }
}
