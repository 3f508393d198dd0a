/**
 The reconciliation engine: two matchers that walk the facts of a sliding window and insert
 relationships and discrepancies, each insert guarded by a lookup on its natural key.

 Amounts are exact, in units of 10^-4 as the Numeric(18,4) columns store them.
 */
module Reconciliation {
  import opened Wrappers

  /** Microseconds, the resolution of the stored timestamps. */
  type Instant = int

  const DAY: int := 86_400_000_000

  datatype Item = Item(id: string, settlement: string, amount: int, currency: string)

  datatype Payment = Payment(id: string, amount: int, currency: string, processedAt: Option<Instant>, items: seq<Item>)

  datatype BankTx = BankTx(id: string, amount: int, currency: string, date: Instant)

  datatype Settlement = Settlement(id: string, gross: int, fee: int, adjustment: int, actual: Option<int>,
                                   currency: string, date: Instant, transactions: seq<BankTx>)

  datatype Facts = Facts(payments: seq<Payment>, settlements: seq<Settlement>)

  /** What one run reads from the clock: a window start per matcher, and once per record that may be overdue. */
  datatype Clock = Clock(payments: Instant, settlements: Instant, paymentAt: string -> Instant,
      settlementAt: string -> Instant)

  datatype Kind = PaymentToSettlement | SettlementToBank

  datatype FinancialStatus = Reconciled | Discrepant

  datatype Rule =
    | PaymentAmount | PaymentCurrency | PaymentMissingSettlement
    | SettlementFee | SettlementMissingBank | BankAmount | BankTiming | BankCurrency

  datatype Relationship = Relationship(run: nat, source: string, target: string, kind: Kind, status: FinancialStatus)

  datatype Discrepancy = Discrepancy(run: nat, rule: Rule, source: string, related: Option<string>,
                                     expected: Option<int>, actual: Option<int>, difference: Option<int>,
                                     currency: string)

  /** A guarded insert: nothing happens when a row with the same key is already there. */
  datatype Upsert = Relate(rel: Relationship) | Report(disc: Discrepancy)

  /** The two tables, with the counters of the run in progress. */
  datatype Tally = Tally(relationships: seq<Relationship>, discrepancies: seq<Discrepancy>, matches: nat, found: nat)

  // ---------------------------------------------------------------- the rules

  predicate InWindow(at: Option<Instant>, now: Instant) {
    at.Some? && at.value >= now - 14 * DAY
  }

  predicate Overdue(at: Instant, now: Instant) {
    now - at > 3 * DAY
  }

  function Abs(x: int): nat {
    if x < 0 then -x else x
  }

  function Row(rule: Rule, source: string, related: Option<string>, expected: Option<int>, actual: Option<int>,
          currency: string): Discrepancy {
    Discrepancy(0, rule, source, related, expected, actual,
                if expected.Some? && actual.Some? then Some(Abs(expected.value - actual.value)) else None, currency)
  }

  function RecomputedNet(gross: int, fee: int, adjustment: int): int {
    gross - fee + adjustment
  }

  function Net(s: Settlement): int {
    RecomputedNet(s.gross, s.fee, s.adjustment)
  }

  /** A settled amount of zero is treated like a missing one. */
  predicate HasActual(s: Settlement) {
    s.actual.Some? && s.actual.value != 0
  }

  function AmountToMatch(s: Settlement): int {
    if HasActual(s) then s.actual.value else Net(s)
  }

  /** The first check a settlement item fails against its payment. */
  function ItemCheck(p: Payment, item: Item): Option<Rule> {
    if p.amount != item.amount then Some(PaymentAmount)
    else if p.currency != item.currency then Some(PaymentCurrency)
    else None
  }

  /** The first check a bank transaction fails against its settlement; whole days, rounded down. */
  function BankCheck(s: Settlement, tx: BankTx): Option<Rule> {
    if tx.amount != AmountToMatch(s) then Some(BankAmount)
    else if (tx.date - s.date) / DAY > 3 then Some(BankTiming)
    else if s.currency != tx.currency then Some(BankCurrency)
    else None
  }

  /** A bank transaction reconciles exactly when amount and currency agree and it is less than four full days late. */
  lemma ReconcilesWithBankIff(s: Settlement, tx: BankTx)
    ensures BankCheck(s, tx).None? <==>
      && tx.amount == (if s.actual.Some? && s.actual.value != 0 then s.actual.value else s.gross - s.fee + s.adjustment)
      && tx.date < s.date + 4 * DAY && tx.currency == s.currency
  {
    var late := tx.date - s.date;
    assert late == DAY * (late / DAY) + late % DAY;
  }

  function StatusOf(check: Option<Rule>): FinancialStatus {
    if check.None? then Reconciled else Discrepant
  }

  // ---------------------------------------------------------------- what a run asks to insert

  function ItemReport(p: Payment, item: Item): seq<Upsert> {
    match ItemCheck(p, item)
    case Some(PaymentAmount) =>
      [Report(Row(PaymentAmount, p.id, Some(item.id), Some(p.amount), Some(item.amount), p.currency))]
    case Some(rule) => [Report(Row(rule, p.id, Some(item.id), None, None, p.currency))]
    case None => []
  }

  function ItemUpserts(p: Payment, item: Item): seq<Upsert> {
    [Relate(Relationship(0, p.id, item.settlement, PaymentToSettlement, StatusOf(ItemCheck(p, item))))] +
        ItemReport(p, item)
  }

  function ItemsUpserts(p: Payment, items: seq<Item>): seq<Upsert> {
    if items == [] then [] else ItemsUpserts(p, items[..|items| - 1]) + ItemUpserts(p, items[|items| - 1])
  }

  function MissingSettlement(p: Payment): Upsert {
    Report(Row(PaymentMissingSettlement, p.id, None, Some(p.amount), None, p.currency))
  }

  function PaymentUpserts(p: Payment, clock: Clock): seq<Upsert> {
    if !InWindow(p.processedAt, clock.payments) then []
    else if p.items != [] then ItemsUpserts(p, p.items)
    else if Overdue(p.processedAt.value, clock.paymentAt(p.id)) then [MissingSettlement(p)]
    else []
  }

  function PaymentsUpserts(ps: seq<Payment>, clock: Clock): seq<Upsert> {
    if ps == [] then [] else PaymentsUpserts(ps[..|ps| - 1], clock) + PaymentUpserts(ps[|ps| - 1], clock)
  }

  function TxReport(s: Settlement, tx: BankTx): seq<Upsert> {
    match BankCheck(s, tx)
    case Some(BankAmount) =>
      [Report(Row(BankAmount, s.id, Some(tx.id), Some(AmountToMatch(s)), Some(tx.amount), s.currency))]
    case Some(rule) => [Report(Row(rule, s.id, Some(tx.id), None, None, s.currency))]
    case None => []
  }

  function TxUpserts(s: Settlement, tx: BankTx): seq<Upsert> {
    TxReport(s, tx) + [Relate(Relationship(0, s.id, tx.id, SettlementToBank, StatusOf(BankCheck(s, tx))))]
  }

  function TxsUpserts(s: Settlement, txs: seq<BankTx>): seq<Upsert> {
    if txs == [] then [] else TxsUpserts(s, txs[..|txs| - 1]) + TxUpserts(s, txs[|txs| - 1])
  }

  function FeeUpserts(s: Settlement): seq<Upsert> {
    if HasActual(s) && Net(s) != s.actual.value
    then [Report(Row(SettlementFee, s.id, None, Some(Net(s)), s.actual, s.currency))]
    else []
  }

  function MissingBank(s: Settlement): Upsert {
    Report(Row(SettlementMissingBank, s.id, None, Some(AmountToMatch(s)), None, s.currency))
  }

  function SettlementUpserts(s: Settlement, clock: Clock): seq<Upsert> {
    if !InWindow(Some(s.date), clock.settlements) then [] else FeeUpserts(s) + BankUpserts(s, clock)
  }

  function BankUpserts(s: Settlement, clock: Clock): seq<Upsert> {
    if s.transactions != [] then TxsUpserts(s, s.transactions)
    else if Overdue(s.date, clock.settlementAt(s.id)) then [MissingBank(s)]
    else []
  }

  function SettlementsUpserts(ss: seq<Settlement>, clock: Clock): seq<Upsert> {
    if ss == [] then [] else SettlementsUpserts(ss[..|ss| - 1], clock) + SettlementUpserts(ss[|ss| - 1], clock)
  }

  /** Everything one run asks to insert, in order. */
  function EngineUpserts(f: Facts, clock: Clock): seq<Upsert> {
    PaymentsUpserts(f.payments, clock) + SettlementsUpserts(f.settlements, clock)
  }

  function Processed(f: Facts, clock: Clock): nat {
    PaymentsSeen(f.payments, clock) + SettlementsSeen(f.settlements, clock)
  }

  function PaymentsSeen(ps: seq<Payment>, clock: Clock): nat {
    if ps == [] then 0
    else PaymentsSeen(ps[..|ps| - 1], clock) + if InWindow(ps[|ps| - 1].processedAt, clock.payments) then 1 else 0
  }

  function SettlementsSeen(ss: seq<Settlement>, clock: Clock): nat {
    if ss == [] then 0
    else SettlementsSeen(ss[..|ss| - 1], clock) + if InWindow(Some(ss[|ss| - 1].date), clock.settlements) then 1 else 0
  }

  // ---------------------------------------------------------------- what the tables do with it

  predicate SameLink(a: Relationship, b: Relationship) {
    a.source == b.source && a.target == b.target && a.kind == b.kind
  }

  predicate SameCase(a: Discrepancy, b: Discrepancy) {
    a.source == b.source && a.rule == b.rule
  }

  predicate HasLink(rels: seq<Relationship>, r: Relationship) {
    exists i :: 0 <= i < |rels| && SameLink(rels[i], r)
  }

  predicate HasCase(discs: seq<Discrepancy>, d: Discrepancy) {
    exists i :: 0 <= i < |discs| && SameCase(discs[i], d)
  }

  predicate Present(t: Tally, u: Upsert) {
    match u
    case Relate(r) => HasLink(t.relationships, r)
    case Report(d) => HasCase(t.discrepancies, d)
  }

  function Insert(t: Tally, u: Upsert, run: nat): Tally {
    if Present(t, u) then t
    else match u
      case Relate(r) => t.(relationships := t.relationships + [r.(run := run)], matches := t.matches + 1)
      case Report(d) => t.(discrepancies := t.discrepancies + [d.(run := run)], found := t.found + 1)
  }

  function InsertAll(t: Tally, us: seq<Upsert>, run: nat): Tally {
    if us == [] then t else Insert(InsertAll(t, us[..|us| - 1], run), us[|us| - 1], run)
  }

  lemma {:induction false} InsertAllAppend(t: Tally, us: seq<Upsert>, vs: seq<Upsert>, run: nat)
    ensures InsertAll(t, us + vs, run) == InsertAll(InsertAll(t, us, run), vs, run)
  {
    if vs == [] {
      assert us + vs == us;
    } else {
      var n := |vs| - 1;
      assert (us + vs)[..|us + vs| - 1] == us + vs[..n];
      InsertAllAppend(t, us, vs[..n], run);
    }
  }

  // ---------------------------------------------------------------- runs

  datatype RunRecord = RunRecord(processed: nat, matches: nat, found: nat)

  datatype State = State(relationships: seq<Relationship>, discrepancies: seq<Discrepancy>, runs: seq<RunRecord>)

  /** The facts a run meets and the readings it takes. */
  datatype Visit = Visit(facts: Facts, clock: Clock)

  const FRESH := State([], [], [])

  function RunTally(s: State, v: Visit): Tally {
    InsertAll(Tally(s.relationships, s.discrepancies, 0, 0), EngineUpserts(v.facts, v.clock), |s.runs|)
  }

  function RunOnce(s: State, v: Visit): State {
    var t := RunTally(s, v);
    State(t.relationships, t.discrepancies, s.runs + [RunRecord(Processed(v.facts, v.clock), t.matches, t.found)])
  }

  function RunMany(s: State, vs: seq<Visit>): State {
    if vs == [] then s else RunOnce(RunMany(s, vs[..|vs| - 1]), vs[|vs| - 1])
  }

  // ---------------------------------------------------------------- keys and counters

  predicate KeysUnique(rels: seq<Relationship>, discs: seq<Discrepancy>) {
    && (forall i, j :: 0 <= i < j < |rels| ==> !SameLink(rels[i], rels[j]))
    && (forall i, j :: 0 <= i < j < |discs| ==> !SameCase(discs[i], discs[j]))
  }

  predicate Extends(t: Tally, t': Tally) {
    && t.relationships <= t'.relationships && t.discrepancies <= t'.discrepancies
    && |t'.relationships| - |t.relationships| == t'.matches - t.matches
    && |t'.discrepancies| - |t.discrepancies| == t'.found - t.found
  }

  lemma {:induction false} InsertAllKeeps(t: Tally, us: seq<Upsert>, run: nat)
    requires KeysUnique(t.relationships, t.discrepancies)
    ensures var t' := InsertAll(t, us, run); KeysUnique(t'.relationships, t'.discrepancies) && Extends(t, t')
  {
    if us != [] { InsertAllKeeps(t, us[..|us| - 1], run); }
  }

  function SumMatches(runs: seq<RunRecord>): nat {
    if runs == [] then 0 else SumMatches(runs[..|runs| - 1]) + runs[|runs| - 1].matches
  }

  function SumFound(runs: seq<RunRecord>): nat {
    if runs == [] then 0 else SumFound(runs[..|runs| - 1]) + runs[|runs| - 1].found
  }

  /**
   Whatever facts the runs meet and whenever they happen: one relationship per (source,
   target, kind), one discrepancy per (source, rule), and the counts that all runs report
   add up to the sizes of the two tables.
   */
  lemma {:induction false} KeysAndCountersOverRuns(vs: seq<Visit>)
    ensures var s := RunMany(FRESH, vs);
      && KeysUnique(s.relationships, s.discrepancies)
      && SumMatches(s.runs) == |s.relationships|
      && SumFound(s.runs) == |s.discrepancies|
      && |s.runs| == |vs|
  {
    if vs != [] {
      var s := RunMany(FRESH, vs[..|vs| - 1]);
      KeysAndCountersOverRuns(vs[..|vs| - 1]);
      InsertAllKeeps(Tally(s.relationships, s.discrepancies, 0, 0),
          EngineUpserts(vs[|vs| - 1].facts, vs[|vs| - 1].clock), |s.runs|);
      assert RunMany(FRESH, vs).runs[..|vs| - 1] == s.runs;
    }
  }

  // ---------------------------------------------------------------- idempotence

  lemma StaysPresent(t: Tally, t': Tally, u: Upsert)
    requires Present(t, u) && t.relationships <= t'.relationships && t.discrepancies <= t'.discrepancies
    ensures Present(t', u)
  {
    match u {
      case Relate(r) =>
        var i :| 0 <= i < |t.relationships| && SameLink(t.relationships[i], r);
        assert SameLink(t'.relationships[i], r);
      case Report(d) =>
        var i :| 0 <= i < |t.discrepancies| && SameCase(t.discrepancies[i], d);
        assert SameCase(t'.discrepancies[i], d);
    }
  }

  lemma InsertMakesPresent(t: Tally, u: Upsert, run: nat)
    ensures Present(Insert(t, u, run), u)
    ensures t.relationships <= Insert(t, u, run).relationships && t.discrepancies <= Insert(t, u, run).discrepancies
  {
    var t' := Insert(t, u, run);
    if t' != t {
      match u {
        case Relate(r) => assert SameLink(t'.relationships[|t.relationships|], r);
        case Report(d) => assert SameCase(t'.discrepancies[|t.discrepancies|], d);
      }
    }
  }

  lemma {:induction false} AllPresentAfter(t: Tally, us: seq<Upsert>, run: nat)
    ensures var t' := InsertAll(t, us, run);
      && t.relationships <= t'.relationships && t.discrepancies <= t'.discrepancies
      && forall u :: u in us ==> Present(t', u)
  {
    if us != [] {
      var n := |us| - 1;
      var mid := InsertAll(t, us[..n], run);
      AllPresentAfter(t, us[..n], run);
      InsertMakesPresent(mid, us[n], run);
      forall u | u in us
        ensures Present(InsertAll(t, us, run), u)
      {
        if u in us[..n] { StaysPresent(mid, InsertAll(t, us, run), u); } else { assert u == us[n]; }
      }
    }
  }

  lemma {:induction false} NothingLeftToInsert(t: Tally, us: seq<Upsert>, run: nat)
    requires forall u :: u in us ==> Present(t, u)
    ensures InsertAll(t, us, run) == t
  {
    if us != [] { NothingLeftToInsert(t, us[..|us| - 1], run); }
  }

  /**
   A second run with the same readings on the same facts changes neither table and reports zero
   matches and zero discrepancies, while it processes the same records.
   */
  lemma SecondRunChangesNothing(s: State, v: Visit)
    ensures var once := RunOnce(s, v);
      var twice := RunOnce(once, v);
      && twice.relationships == once.relationships
      && twice.discrepancies == once.discrepancies
      && twice.runs == once.runs + [RunRecord(once.runs[|s.runs|].processed, 0, 0)]
  {
    var us := EngineUpserts(v.facts, v.clock);
    var once := RunOnce(s, v);
    AllPresentAfter(Tally(s.relationships, s.discrepancies, 0, 0), us, |s.runs|);
    var t := Tally(once.relationships, once.discrepancies, 0, 0);
    forall u | u in us
      ensures Present(t, u)
    {
      StaysPresent(RunTally(s, v), t, u);
    }
    NothingLeftToInsert(t, us, |once.runs|);
  }

  // ---------------------------------------------------------------- where an insert comes from

  lemma {:induction false} FromItem(p: Payment, items: seq<Item>, u: Upsert)
    ensures u in ItemsUpserts(p, items) <==> exists item :: item in items && u in ItemUpserts(p, item)
  {
    if items != [] {
      var n := |items| - 1;
      FromItem(p, items[..n], u);
      assert items == items[..n] + [items[n]];
    }
  }

  lemma {:induction false} FromPayment(ps: seq<Payment>, clock: Clock, u: Upsert)
    ensures u in PaymentsUpserts(ps, clock) <==> exists p :: p in ps && u in PaymentUpserts(p, clock)
  {
    if ps != [] {
      var n := |ps| - 1;
      FromPayment(ps[..n], clock, u);
      assert ps == ps[..n] + [ps[n]];
    }
  }

  lemma {:induction false} FromTx(s: Settlement, txs: seq<BankTx>, u: Upsert)
    ensures u in TxsUpserts(s, txs) <==> exists tx :: tx in txs && u in TxUpserts(s, tx)
  {
    if txs != [] {
      var n := |txs| - 1;
      FromTx(s, txs[..n], u);
      assert txs == txs[..n] + [txs[n]];
    }
  }

  lemma {:induction false} SettlementBehind(ss: seq<Settlement>, clock: Clock, u: Upsert) returns (k: nat)
    requires u in SettlementsUpserts(ss, clock)
    ensures k < |ss| && u in SettlementUpserts(ss[k], clock)
  {
    var n := |ss| - 1;
    if u in SettlementsUpserts(ss[..n], clock) {
      k := SettlementBehind(ss[..n], clock, u);
    } else {
      k := n;
    }
  }

  lemma {:induction false} SettlementHeard(ss: seq<Settlement>, clock: Clock, u: Upsert, k: nat)
    requires k < |ss| && u in SettlementUpserts(ss[k], clock)
    ensures u in SettlementsUpserts(ss, clock)
  {
    if k < |ss| - 1 { SettlementHeard(ss[..|ss| - 1], clock, u, k); }
  }

  lemma {:induction false} FromSettlement(ss: seq<Settlement>, clock: Clock, u: Upsert)
    ensures u in SettlementsUpserts(ss, clock) <==> exists s :: s in ss && u in SettlementUpserts(s, clock)
  {
    if u in SettlementsUpserts(ss, clock) {
      var k := SettlementBehind(ss, clock, u);
      assert ss[k] in ss;
    }
    if s :| s in ss && u in SettlementUpserts(s, clock) {
      var k :| 0 <= k < |ss| && ss[k] == s;
      SettlementHeard(ss, clock, u, k);
    }
  }

  /** What one payment, or one settlement, makes a run ask for. */
  ghost predicate PaymentAsks(p: Payment, clock: Clock, u: Upsert) {
    && InWindow(p.processedAt, clock.payments)
    && if p.items != [] then exists item :: item in p.items && u in ItemUpserts(p, item)
       else Overdue(p.processedAt.value, clock.paymentAt(p.id)) && u == MissingSettlement(p)
  }

  ghost predicate SettlementAsks(s: Settlement, clock: Clock, u: Upsert) {
    && InWindow(Some(s.date), clock.settlements)
    && (u in FeeUpserts(s)
        || if s.transactions != [] then exists tx :: tx in s.transactions && u in TxUpserts(s, tx)
           else Overdue(s.date, clock.settlementAt(s.id)) && u == MissingBank(s))
  }

  ghost predicate AskedBy(f: Facts, clock: Clock, u: Upsert) {
    || (exists p :: p in f.payments && PaymentAsks(p, clock, u))
    || (exists s :: s in f.settlements && SettlementAsks(s, clock, u))
  }

  lemma PaymentAsksIff(p: Payment, clock: Clock, u: Upsert)
    ensures u in PaymentUpserts(p, clock) <==> PaymentAsks(p, clock, u)
  {
    FromItem(p, p.items, u);
  }

  lemma SettlementAsksIff(s: Settlement, clock: Clock, u: Upsert)
    ensures u in SettlementUpserts(s, clock) <==> SettlementAsks(s, clock, u)
  {
    FromTx(s, s.transactions, u);
  }

  lemma AskedByIff(f: Facts, clock: Clock, u: Upsert)
    ensures u in EngineUpserts(f, clock) <==> AskedBy(f, clock, u)
  {
    FromPayment(f.payments, clock, u);
    FromSettlement(f.settlements, clock, u);
    forall p ensures u in PaymentUpserts(p, clock) <==> PaymentAsks(p, clock, u) { PaymentAsksIff(p, clock, u); }
    forall s
      ensures u in SettlementUpserts(s, clock) <==> SettlementAsks(s, clock, u)
    {
      SettlementAsksIff(s, clock, u);
    }
  }

  /** After a run, everything it asked for is present. */
  lemma AskedIsPresent(s: State, v: Visit, u: Upsert)
    requires AskedBy(v.facts, v.clock, u)
    ensures Present(RunTally(s, v), u)
  {
    AskedByIff(v.facts, v.clock, u);
    AllPresentAfter(Tally(s.relationships, s.discrepancies, 0, 0), EngineUpserts(v.facts, v.clock), |s.runs|);
  }

  /** After a run, a row is an old row or one the facts asked for. */
  lemma RowsAfterRun(s: State, v: Visit)
    ensures var t := RunTally(s, v);
      && s.relationships <= t.relationships && s.discrepancies <= t.discrepancies
      && (forall r :: r in t.relationships ==>
            r in s.relationships || exists q :: AskedBy(v.facts, v.clock, Relate(q)) && r == q.(run := |s.runs|))
      && (forall d :: d in t.discrepancies ==>
            d in s.discrepancies || exists q :: AskedBy(v.facts, v.clock, Report(q)) && d == q.(run := |s.runs|))
  {
    var us := EngineUpserts(v.facts, v.clock);
    var start := Tally(s.relationships, s.discrepancies, 0, 0);
    AllPresentAfter(start, us, |s.runs|);
    InsertedRows(start, us, |s.runs|);
    forall u ensures u in us <==> AskedBy(v.facts, v.clock, u) { AskedByIff(v.facts, v.clock, u); }
  }

  /** Every row of a table was there before the run or is one of the run's inserts. */
  lemma {:induction false} InsertedRows(t: Tally, us: seq<Upsert>, run: nat)
    ensures var t' := InsertAll(t, us, run);
      && (forall r :: r in t'.relationships ==>
          r in t.relationships || exists q :: Relate(q) in us && r == q.(run := run))
      && (forall d :: d in t'.discrepancies ==>
          d in t.discrepancies || exists q :: Report(q) in us && d == q.(run := run))
  {
    if us != [] {
      var n := |us| - 1;
      InsertedRows(t, us[..n], run);
      assert us == us[..n] + [us[n]];
    }
  }

  // ---------------------------------------------------------------- what a row says about the facts

  predicate CaseOf(discs: seq<Discrepancy>, source: string, rule: Rule) {
    exists i :: 0 <= i < |discs| && discs[i].source == source && discs[i].rule == rule
  }

  ghost predicate ItemBacks(f: Facts, discs: seq<Discrepancy>, r: Relationship, p: Payment, item: Item) {
    && p in f.payments && item in p.items && p.id == r.source && item.settlement == r.target
    && r.status == StatusOf(ItemCheck(p, item))
    && (ItemCheck(p, item).Some? ==> CaseOf(discs, p.id, ItemCheck(p, item).value))
  }

  ghost predicate TxBacks(f: Facts, discs: seq<Discrepancy>, r: Relationship, s: Settlement, tx: BankTx) {
    && s in f.settlements && tx in s.transactions && s.id == r.source && tx.id == r.target
    && r.status == StatusOf(BankCheck(s, tx))
    && (BankCheck(s, tx).Some? ==> CaseOf(discs, s.id, BankCheck(s, tx).value))
  }

  /**
   A RECONCILED relationship has a witness that passes every check; a DISCREPANCY one has a
   witness and a stored discrepancy of the same source under the first check it fails.
   */
  ghost predicate Backed(f: Facts, discs: seq<Discrepancy>, r: Relationship) {
    match r.kind
    case PaymentToSettlement => exists p, item :: ItemBacks(f, discs, r, p, item)
    case SettlementToBank => exists s, tx :: TxBacks(f, discs, r, s, tx)
  }

  ghost predicate PaymentGrows(p: Payment, q: Payment) {
    q == p.(items := q.items) && forall item :: item in p.items ==> item in q.items
  }

  ghost predicate SettlementGrows(s: Settlement, q: Settlement) {
    q == s.(transactions := q.transactions) && forall tx :: tx in s.transactions ==> tx in q.transactions
  }

  /** Facts only accumulate: a record keeps its columns and may gain items or transactions. */
  ghost predicate Grows(f: Facts, f': Facts) {
    && (forall p :: p in f.payments ==> exists q :: q in f'.payments && PaymentGrows(p, q))
    && (forall s :: s in f.settlements ==> exists q :: q in f'.settlements && SettlementGrows(s, q))
  }

  lemma StaysBacked(f: Facts, f': Facts, discs: seq<Discrepancy>, discs': seq<Discrepancy>, r: Relationship)
    requires Backed(f, discs, r) && Grows(f, f') && discs <= discs'
    ensures Backed(f', discs', r)
  {
    match r.kind {
      case PaymentToSettlement =>
        var p, item :| ItemBacks(f, discs, r, p, item);
        var q :| q in f'.payments && PaymentGrows(p, q);
        if ItemCheck(p, item).Some? { CaseStays(discs, discs', p.id, ItemCheck(p, item).value); }
        assert ItemBacks(f', discs', r, q, item);
      case SettlementToBank =>
        var s, tx :| TxBacks(f, discs, r, s, tx);
        var q :| q in f'.settlements && SettlementGrows(s, q);
        if BankCheck(s, tx).Some? { CaseStays(discs, discs', s.id, BankCheck(s, tx).value); }
        assert BankCheck(q, tx) == BankCheck(s, tx);
        assert TxBacks(f', discs', r, q, tx);
    }
  }

  lemma CaseStays(discs: seq<Discrepancy>, discs': seq<Discrepancy>, source: string, rule: Rule)
    requires CaseOf(discs, source, rule) && discs <= discs'
    ensures CaseOf(discs', source, rule)
  {
    var i :| 0 <= i < |discs| && discs[i].source == source && discs[i].rule == rule;
    assert discs'[i] == discs[i];
  }

  /** A run that asks for a discrepancy has it afterwards. */
  lemma AskedCase(s: State, v: Visit, d: Discrepancy)
    requires AskedBy(v.facts, v.clock, Report(d))
    ensures CaseOf(RunTally(s, v).discrepancies, d.source, d.rule)
  {
    AskedIsPresent(s, v, Report(d));
    ReportedCase(RunTally(s, v), Report(d));
  }

  lemma ItemCase(p: Payment, item: Item, f: Facts, clock: Clock) returns (d: Discrepancy)
    requires p in f.payments && InWindow(p.processedAt, clock.payments) && item in p.items && ItemCheck(p, item).Some?
    ensures AskedBy(f, clock, Report(d)) && d.source == p.id && d.rule == ItemCheck(p, item).value
  {
    var u := ItemReport(p, item)[0];
    d := u.disc;
    assert u in ItemUpserts(p, item) && PaymentAsks(p, clock, u);
  }

  lemma TxCase(x: Settlement, tx: BankTx, f: Facts, clock: Clock) returns (d: Discrepancy)
    requires x in f.settlements && InWindow(Some(x.date), clock.settlements) && tx in x.transactions &&
        BankCheck(x, tx).Some?
    ensures AskedBy(f, clock, Report(d)) && d.source == x.id && d.rule == BankCheck(x, tx).value
  {
    var u := TxReport(x, tx)[0];
    d := u.disc;
    assert u in TxUpserts(x, tx) && SettlementAsks(x, clock, u);
  }

  /** A payment asks for links of its items only, a settlement for links of its bank transactions. */
  lemma LinkOfItem(p: Payment, clock: Clock, r: Relationship) returns (item: Item)
    requires PaymentAsks(p, clock, Relate(r))
    ensures item in p.items
    ensures r == Relationship(0, p.id, item.settlement, PaymentToSettlement, StatusOf(ItemCheck(p, item)))
  {
    item :| item in p.items && Relate(r) in ItemUpserts(p, item);
  }

  lemma LinkOfTx(x: Settlement, clock: Clock, r: Relationship) returns (tx: BankTx)
    requires SettlementAsks(x, clock, Relate(r))
    ensures tx in x.transactions
    ensures r == Relationship(0, x.id, tx.id, SettlementToBank, StatusOf(BankCheck(x, tx)))
  {
    tx :| tx in x.transactions && Relate(r) in TxUpserts(x, tx);
    var us := TxUpserts(x, tx);
    assert us == TxReport(x, tx) + [us[|us| - 1]];
  }

  /** A relationship a run asks for is backed once the whole run is in the tables. */
  lemma PaymentLinkIsBacked(s: State, v: Visit, p: Payment, r: Relationship, run: nat)
    requires p in v.facts.payments && PaymentAsks(p, v.clock, Relate(r))
    ensures Backed(v.facts, RunTally(s, v).discrepancies, r.(run := run))
  {
    var item := LinkOfItem(p, v.clock, r);
    if ItemCheck(p, item).Some? {
      var d := ItemCase(p, item, v.facts, v.clock);
      AskedCase(s, v, d);
    }
    assert ItemBacks(v.facts, RunTally(s, v).discrepancies, r.(run := run), p, item);
  }

  lemma BankLinkIsBacked(s: State, v: Visit, x: Settlement, r: Relationship, run: nat)
    requires x in v.facts.settlements && SettlementAsks(x, v.clock, Relate(r))
    ensures Backed(v.facts, RunTally(s, v).discrepancies, r.(run := run))
  {
    var tx := LinkOfTx(x, v.clock, r);
    if BankCheck(x, tx).Some? {
      var d := TxCase(x, tx, v.facts, v.clock);
      AskedCase(s, v, d);
    }
    assert TxBacks(v.facts, RunTally(s, v).discrepancies, r.(run := run), x, tx);
  }

  lemma ReportedCase(t: Tally, u: Upsert)
    requires u.Report? && Present(t, u)
    ensures CaseOf(t.discrepancies, u.disc.source, u.disc.rule)
  {
    var i :| 0 <= i < |t.discrepancies| && SameCase(t.discrepancies[i], u.disc);
    assert t.discrepancies[i].source == u.disc.source;
  }

  ghost predicate Accumulating(vs: seq<Visit>) {
    forall k :: 0 < k < |vs| ==> Grows(vs[k - 1].facts, vs[k].facts)
  }

  ghost predicate AllBacked(f: Facts, s: State) {
    forall r :: r in s.relationships ==> Backed(f, s.discrepancies, r)
  }

  lemma RunKeepsBacked(s: State, f: Facts, v: Visit)
    requires AllBacked(f, s) && (s.relationships == [] || Grows(f, v.facts))
    ensures AllBacked(v.facts, RunOnce(s, v))
  {
    var discs := RunTally(s, v).discrepancies;
    RowsAfterRun(s, v);
    forall r | r in RunTally(s, v).relationships
      ensures Backed(v.facts, discs, r)
    {
      if r in s.relationships {
        StaysBacked(f, v.facts, s.discrepancies, discs, r);
      } else {
        var q :| AskedBy(v.facts, v.clock, Relate(q)) && r == q.(run := |s.runs|);
        if p :| p in v.facts.payments && PaymentAsks(p, v.clock, Relate(q)) {
          PaymentLinkIsBacked(s, v, p, q, r.run);
        } else {
          var x :| x in v.facts.settlements && SettlementAsks(x, v.clock, Relate(q));
          BankLinkIsBacked(s, v, x, q, r.run);
        }
      }
    }
  }

  /** Over runs that meet ever more facts, every relationship ever stored is backed by the facts of the last run. */
  lemma {:induction false} EveryRelationshipIsBacked(vs: seq<Visit>)
    requires vs != [] && Accumulating(vs)
    ensures AllBacked(vs[|vs| - 1].facts, RunMany(FRESH, vs))
  {
    var n := |vs| - 1;
    if n == 0 {
      assert RunMany(FRESH, vs[..n]) == FRESH;
      RunKeepsBacked(FRESH, vs[n].facts, vs[n]);
    } else {
      EveryRelationshipIsBacked(vs[..n]);
      RunKeepsBacked(RunMany(FRESH, vs[..n]), vs[n - 1].facts, vs[n]);
    }
  }

  /** After a run every settlement link and bank link of the window has its relationship. */
  lemma WindowIsLinked(s: State, v: Visit)
    ensures var s' := RunOnce(s, v);
      && (forall p, item :: p in v.facts.payments && InWindow(p.processedAt, v.clock.payments) && item in p.items ==>
            HasLink(s'.relationships, Relationship(0, p.id, item.settlement, PaymentToSettlement, Reconciled)))
      && (forall x, tx ::
          x in v.facts.settlements && InWindow(Some(x.date), v.clock.settlements) && tx in x.transactions ==>
            HasLink(s'.relationships, Relationship(0, x.id, tx.id, SettlementToBank, Reconciled)))
  {
    var t := RunTally(s, v);
    forall p, item | p in v.facts.payments && InWindow(p.processedAt, v.clock.payments) && item in p.items
      ensures HasLink(t.relationships, Relationship(0, p.id, item.settlement, PaymentToSettlement, Reconciled))
    {
      var u := ItemUpserts(p, item)[0];
      assert PaymentAsks(p, v.clock, u);
      AskedIsPresent(s, v, u);
      LinkIgnoresStatus(t.relationships, u.rel);
    }
    forall x, tx | x in v.facts.settlements && InWindow(Some(x.date), v.clock.settlements) && tx in x.transactions
      ensures HasLink(t.relationships, Relationship(0, x.id, tx.id, SettlementToBank, Reconciled))
    {
      var us := TxUpserts(x, tx);
      var u := us[|us| - 1];
      assert SettlementAsks(x, v.clock, u);
      AskedIsPresent(s, v, u);
      LinkIgnoresStatus(t.relationships, u.rel);
    }
  }

  lemma LinkIgnoresStatus(rels: seq<Relationship>, r: Relationship)
    requires HasLink(rels, r)
    ensures HasLink(rels, r.(run := 0, status := Reconciled))
  {
    var i :| 0 <= i < |rels| && SameLink(rels[i], r);
    assert SameLink(rels[i], r.(run := 0, status := Reconciled));
  }

  // ---------------------------------------------------------------- the amounts of a discrepancy

  predicate DifferenceSound(d: Discrepancy) {
    d.expected.Some? && d.actual.Some? ==>
      d.difference == Some(Abs(d.expected.value - d.actual.value)) && d.difference.value > 0
  }

  lemma ItemDifference(p: Payment, item: Item, d: Discrepancy)
    requires Report(d) in ItemUpserts(p, item)
    ensures DifferenceSound(d)
  {
    assert Report(d) in ItemReport(p, item);
  }

  lemma TxDifference(s: Settlement, tx: BankTx, d: Discrepancy)
    requires Report(d) in TxUpserts(s, tx)
    ensures DifferenceSound(d)
  {
    assert Report(d) in TxReport(s, tx);
  }

  lemma PaymentDifference(p: Payment, clock: Clock, d: Discrepancy)
    requires PaymentAsks(p, clock, Report(d))
    ensures DifferenceSound(d)
  {
    if p.items != [] {
      var item :| item in p.items && Report(d) in ItemUpserts(p, item);
      ItemDifference(p, item, d);
    }
  }

  lemma SettlementDifference(s: Settlement, clock: Clock, d: Discrepancy)
    requires SettlementAsks(s, clock, Report(d))
    ensures DifferenceSound(d)
  {
    if Report(d) !in FeeUpserts(s) && s.transactions != [] {
      var tx :| tx in s.transactions && Report(d) in TxUpserts(s, tx);
      TxDifference(s, tx, d);
    }
  }

  lemma AskedDifferences(f: Facts, clock: Clock, d: Discrepancy)
    requires AskedBy(f, clock, Report(d))
    ensures DifferenceSound(d)
  {
    if p :| p in f.payments && PaymentAsks(p, clock, Report(d)) {
      PaymentDifference(p, clock, d);
    } else {
      var s :| s in f.settlements && SettlementAsks(s, clock, Report(d));
      SettlementDifference(s, clock, d);
    }
  }

  lemma NewRowIsAsked(s: State, v: Visit, d: Discrepancy) returns (q: Discrepancy)
    requires d in RunTally(s, v).discrepancies && d !in s.discrepancies
    ensures AskedBy(v.facts, v.clock, Report(q)) && d == q.(run := |s.runs|)
  {
    RowsAfterRun(s, v);
    q :| AskedBy(v.facts, v.clock, Report(q)) && d == q.(run := |s.runs|);
  }

  lemma RunKeepsDifferences(s: State, v: Visit, d: Discrepancy)
    requires d in RunTally(s, v).discrepancies
    ensures d in s.discrepancies || DifferenceSound(d)
  {
    if d !in s.discrepancies {
      var q := NewRowIsAsked(s, v, d);
      AskedDifferences(v.facts, v.clock, q);
    }
  }

  /** Every stored discrepancy that carries both amounts carries their distance, and it is not zero. */
  lemma {:induction false} EveryDifferenceIsSound(vs: seq<Visit>)
    ensures forall d :: d in RunMany(FRESH, vs).discrepancies ==> DifferenceSound(d)
  {
    if vs != [] {
      EveryDifferenceIsSound(vs[..|vs| - 1]);
      forall d | d in RunMany(FRESH, vs).discrepancies
        ensures DifferenceSound(d)
      {
        RunKeepsDifferences(RunMany(FRESH, vs[..|vs| - 1]), vs[|vs| - 1], d);
      }
    }
  }

  // ---------------------------------------------------------------- schedules

  predicate HasPayment(f: Facts, id: string) {
    exists p :: p in f.payments && p.id == id
  }

  predicate HasSettlement(f: Facts, id: string) {
    exists s :: s in f.settlements && s.id == id
  }

  /** Wherever the payment appears it was processed at this instant and has no settlement item. */
  predicate UnsettledPayment(f: Facts, id: string, at: Instant) {
    forall p :: p in f.payments && p.id == id ==> p.processedAt == Some(at) && p.items == []
  }

  predicate UnbankedSettlement(f: Facts, id: string, at: Instant) {
    forall s :: s in f.settlements && s.id == id ==> s.date == at && s.transactions == []
  }

  /** The run sees the payment inside its window and more than three days old. */
  predicate FlagsPayment(v: Visit, id: string, at: Instant) {
    HasPayment(v.facts, id) && v.clock.payments <= at + 14 * DAY && at + 3 * DAY < v.clock.paymentAt(id)
  }

  predicate FlagsSettlement(v: Visit, id: string, at: Instant) {
    HasSettlement(v.facts, id) && v.clock.settlements <= at + 14 * DAY && at + 3 * DAY < v.clock.settlementAt(id)
  }

  predicate PaymentHit(vs: seq<Visit>, id: string, at: Instant) {
    exists k :: 0 <= k < |vs| && FlagsPayment(vs[k], id, at)
  }

  predicate SettlementHit(vs: seq<Visit>, id: string, at: Instant) {
    exists k :: 0 <= k < |vs| && FlagsSettlement(vs[k], id, at)
  }

  lemma PaymentHitSnoc(vs: seq<Visit>, id: string, at: Instant)
    requires vs != []
    ensures PaymentHit(vs, id, at) <==> PaymentHit(vs[..|vs| - 1], id, at) || FlagsPayment(vs[|vs| - 1], id, at)
  {
    var n := |vs| - 1;
    if PaymentHit(vs[..n], id, at) {
      var k :| 0 <= k < n && FlagsPayment(vs[..n][k], id, at);
      assert FlagsPayment(vs[k], id, at);
    }
    if PaymentHit(vs, id, at) {
      var k :| 0 <= k < |vs| && FlagsPayment(vs[k], id, at);
      assert k < n ==> FlagsPayment(vs[..n][k], id, at);
    }
  }

  lemma SettlementHitSnoc(vs: seq<Visit>, id: string, at: Instant)
    requires vs != []
    ensures SettlementHit(vs, id, at) <==>
        SettlementHit(vs[..|vs| - 1], id, at) || FlagsSettlement(vs[|vs| - 1], id, at)
  {
    var n := |vs| - 1;
    if SettlementHit(vs[..n], id, at) {
      var k :| 0 <= k < n && FlagsSettlement(vs[..n][k], id, at);
      assert FlagsSettlement(vs[k], id, at);
    }
    if SettlementHit(vs, id, at) {
      var k :| 0 <= k < |vs| && FlagsSettlement(vs[k], id, at);
      assert k < n ==> FlagsSettlement(vs[..n][k], id, at);
    }
  }

  ghost predicate Asks(v: Visit, id: string, rule: Rule) {
    exists d :: AskedBy(v.facts, v.clock, Report(d)) && d.source == id && d.rule == rule
  }

  lemma PaymentRules(p: Payment, clock: Clock, d: Discrepancy)
    requires PaymentAsks(p, clock, Report(d))
    ensures d.source == p.id && d.rule in {PaymentAmount, PaymentCurrency, PaymentMissingSettlement}
    ensures d.rule == PaymentMissingSettlement ==> p.items == [] && Overdue(p.processedAt.value, clock.paymentAt(p.id))
  {
    if p.items != [] {
      var item :| item in p.items && Report(d) in ItemUpserts(p, item);
      assert Report(d) in ItemReport(p, item);
    }
  }

  lemma SettlementRules(s: Settlement, clock: Clock, d: Discrepancy)
    requires SettlementAsks(s, clock, Report(d))
    ensures d.source == s.id && d.rule in {SettlementFee, SettlementMissingBank, BankAmount, BankTiming, BankCurrency}
    ensures d.rule == SettlementMissingBank ==> s.transactions == [] && Overdue(s.date, clock.settlementAt(s.id))
  {
    if Report(d) !in FeeUpserts(s) && s.transactions != [] {
      var tx :| tx in s.transactions && Report(d) in TxUpserts(s, tx);
      assert Report(d) in TxReport(s, tx);
    }
  }

  lemma PaymentFlagAsked(v: Visit, id: string, at: Instant)
    requires UnsettledPayment(v.facts, id, at)
    ensures Asks(v, id, PaymentMissingSettlement) <==> FlagsPayment(v, id, at)
  {
    if FlagsPayment(v, id, at) {
      var p :| p in v.facts.payments && p.id == id;
      assert PaymentAsks(p, v.clock, MissingSettlement(p));
      assert AskedBy(v.facts, v.clock, Report(MissingSettlement(p).disc));
    }
    if Asks(v, id, PaymentMissingSettlement) {
      var d :| AskedBy(v.facts, v.clock, Report(d)) && d.source == id && d.rule == PaymentMissingSettlement;
      if s :| s in v.facts.settlements && SettlementAsks(s, v.clock, Report(d)) { SettlementRules(s, v.clock, d); }
      if p :| p in v.facts.payments && PaymentAsks(p, v.clock, Report(d)) { PaymentRules(p, v.clock, d); }
    }
  }

  lemma SettlementFlagAsked(v: Visit, id: string, at: Instant)
    requires UnbankedSettlement(v.facts, id, at)
    ensures Asks(v, id, SettlementMissingBank) <==> FlagsSettlement(v, id, at)
  {
    if FlagsSettlement(v, id, at) {
      var s :| s in v.facts.settlements && s.id == id;
      assert SettlementAsks(s, v.clock, MissingBank(s));
      assert AskedBy(v.facts, v.clock, Report(MissingBank(s).disc));
    }
    if Asks(v, id, SettlementMissingBank) {
      var d :| AskedBy(v.facts, v.clock, Report(d)) && d.source == id && d.rule == SettlementMissingBank;
      if s :| s in v.facts.settlements && SettlementAsks(s, v.clock, Report(d)) { SettlementRules(s, v.clock, d); }
      if p :| p in v.facts.payments && PaymentAsks(p, v.clock, Report(d)) { PaymentRules(p, v.clock, d); }
    }
  }

  /** One run adds a case exactly when it asks for it or the case was there. */
  lemma CaseAfterRun(s: State, v: Visit, id: string, rule: Rule)
    ensures CaseOf(RunOnce(s, v).discrepancies, id, rule) <==> CaseOf(s.discrepancies, id, rule) || Asks(v, id, rule)
  {
    var t := RunTally(s, v);
    RowsAfterRun(s, v);
    if CaseOf(s.discrepancies, id, rule) { CaseStays(s.discrepancies, t.discrepancies, id, rule); }
    if Asks(v, id, rule) {
      var d :| AskedBy(v.facts, v.clock, Report(d)) && d.source == id && d.rule == rule;
      AskedIsPresent(s, v, Report(d));
      ReportedCase(t, Report(d));
    }
    if CaseOf(t.discrepancies, id, rule) {
      var i :| 0 <= i < |t.discrepancies| && t.discrepancies[i].source == id && t.discrepancies[i].rule == rule;
      var d := t.discrepancies[i];
      if d in s.discrepancies {
        var j :| 0 <= j < |s.discrepancies| && s.discrepancies[j] == d;
        assert CaseOf(s.discrepancies, id, rule);
      } else {
        var q :| AskedBy(v.facts, v.clock, Report(q)) && d == q.(run := |s.runs|);
        assert Asks(v, id, rule);
      }
    }
  }

  /** Rows of this source under this rule. */
  ghost function Cases(discs: seq<Discrepancy>, id: string, rule: Rule): set<int> {
    set i | 0 <= i < |discs| && discs[i].source == id && discs[i].rule == rule
  }

  lemma AtMostOneCase(rels: seq<Relationship>, discs: seq<Discrepancy>, id: string, rule: Rule)
    requires KeysUnique(rels, discs)
    ensures |Cases(discs, id, rule)| == if CaseOf(discs, id, rule) then 1 else 0
  {
    if CaseOf(discs, id, rule) {
      var i :| 0 <= i < |discs| && discs[i].source == id && discs[i].rule == rule;
      forall j | j in Cases(discs, id, rule)
        ensures j == i
      {
        assert SameCase(discs[i], discs[j]) && SameCase(discs[j], discs[i]);
      }
      assert Cases(discs, id, rule) == {i};
    } else {
      assert Cases(discs, id, rule) == {};
    }
  }

  lemma {:induction false} PaymentCaseIff(vs: seq<Visit>, id: string, at: Instant)
    requires forall k :: 0 <= k < |vs| ==> UnsettledPayment(vs[k].facts, id, at)
    ensures CaseOf(RunMany(FRESH, vs).discrepancies, id, PaymentMissingSettlement) <==> PaymentHit(vs, id, at)
  {
    if vs != [] {
      var n := |vs| - 1;
      assert forall k :: 0 <= k < n ==> vs[..n][k] == vs[k];
      PaymentCaseIff(vs[..n], id, at);
      CaseAfterRun(RunMany(FRESH, vs[..n]), vs[n], id, PaymentMissingSettlement);
      PaymentFlagAsked(vs[n], id, at);
      PaymentHitSnoc(vs, id, at);
    }
  }

  /**
   A payment that never gets a settlement item, whenever it arrives, is flagged exactly once if
   some run sees it more than 3 days old in a window that opened at most 14 days after it was
   processed, and never otherwise.
   */
  lemma {:induction false} PaymentFlaggedIff(vs: seq<Visit>, id: string, at: Instant)
    requires forall k :: 0 <= k < |vs| ==> UnsettledPayment(vs[k].facts, id, at)
    ensures |Cases(RunMany(FRESH, vs).discrepancies, id, PaymentMissingSettlement)|
         == if PaymentHit(vs, id, at) then 1 else 0
  {
    PaymentCaseIff(vs, id, at);
    KeysAndCountersOverRuns(vs);
    AtMostOneCase(RunMany(FRESH, vs).relationships, RunMany(FRESH, vs).discrepancies, id, PaymentMissingSettlement);
  }

  lemma {:induction false} SettlementCaseIff(vs: seq<Visit>, id: string, at: Instant)
    requires forall k :: 0 <= k < |vs| ==> UnbankedSettlement(vs[k].facts, id, at)
    ensures CaseOf(RunMany(FRESH, vs).discrepancies, id, SettlementMissingBank) <==> SettlementHit(vs, id, at)
  {
    if vs != [] {
      var n := |vs| - 1;
      assert forall k :: 0 <= k < n ==> vs[..n][k] == vs[k];
      SettlementCaseIff(vs[..n], id, at);
      CaseAfterRun(RunMany(FRESH, vs[..n]), vs[n], id, SettlementMissingBank);
      SettlementFlagAsked(vs[n], id, at);
      SettlementHitSnoc(vs, id, at);
    }
  }

  lemma {:induction false} SettlementFlaggedIff(vs: seq<Visit>, id: string, at: Instant)
    requires forall k :: 0 <= k < |vs| ==> UnbankedSettlement(vs[k].facts, id, at)
    ensures |Cases(RunMany(FRESH, vs).discrepancies, id, SettlementMissingBank)|
         == if SettlementHit(vs, id, at) then 1 else 0
  {
    SettlementCaseIff(vs, id, at);
    KeysAndCountersOverRuns(vs);
    AtMostOneCase(RunMany(FRESH, vs).relationships, RunMany(FRESH, vs).discrepancies, id, SettlementMissingBank);
  }

  /**
   Window starts and record readings of a schedule for something of instant `at`: no later than
   3 days after it at first, later at last, pauses of at most `gap` between the starts, and no
   reading before its own run's start.
   */
  predicate Schedule(starts: seq<Instant>, readings: seq<Instant>, at: Instant, gap: int) {
    && |starts| == |readings| > 0
    && starts[0] <= at + 3 * DAY < readings[|readings| - 1]
    && (forall k :: 0 <= k < |starts| ==> starts[k] <= readings[k])
    && (forall k :: 0 < k < |starts| ==> starts[k] - starts[k - 1] <= gap)
  }

  lemma {:induction false} ScheduleMeetsTheWindow(starts: seq<Instant>, readings: seq<Instant>, at: Instant)
    returns (k: nat)
    requires Schedule(starts, readings, at, 11 * DAY)
    ensures k < |starts| && starts[k] <= at + 14 * DAY && at + 3 * DAY < readings[k]
  {
    var n := |starts| - 1;
    if n > 0 && readings[n - 1] > at + 3 * DAY {
      k := ScheduleMeetsTheWindow(starts[..n], readings[..n], at);
    } else {
      k := n;
    }
  }

  function PaymentStarts(vs: seq<Visit>): seq<Instant> {
    seq(|vs|, k requires 0 <= k < |vs| => vs[k].clock.payments)
  }

  function PaymentReads(vs: seq<Visit>, id: string): seq<Instant> {
    seq(|vs|, k requires 0 <= k < |vs| => vs[k].clock.paymentAt(id))
  }

  function SettlementStarts(vs: seq<Visit>): seq<Instant> {
    seq(|vs|, k requires 0 <= k < |vs| => vs[k].clock.settlements)
  }

  function SettlementReads(vs: seq<Visit>, id: string): seq<Instant> {
    seq(|vs|, k requires 0 <= k < |vs| => vs[k].clock.settlementAt(id))
  }

  /** The payment never settles, and the runs that would find it overdue find it stored. */
  predicate PaymentWatched(vs: seq<Visit>, id: string, at: Instant, gap: int) {
    && Schedule(PaymentStarts(vs), PaymentReads(vs, id), at, gap)
    && forall k :: 0 <= k < |vs| ==>
         UnsettledPayment(vs[k].facts, id, at) &&
             (vs[k].clock.paymentAt(id) > at + 3 * DAY ==> HasPayment(vs[k].facts, id))
  }

  predicate SettlementWatched(vs: seq<Visit>, id: string, at: Instant, gap: int) {
    && Schedule(SettlementStarts(vs), SettlementReads(vs, id), at, gap)
    && forall k :: 0 <= k < |vs| ==>
         UnbankedSettlement(vs[k].facts, id, at) &&
             (vs[k].clock.settlementAt(id) > at + 3 * DAY ==> HasSettlement(vs[k].facts, id))
  }

  /**
   Any schedule with pauses of at most 11 days flags a payment that never settles exactly once,
   however many runs there were before the payment was stored.
   */
  lemma {:induction false} ElevenDayScheduleFlagsPayment(vs: seq<Visit>, id: string, at: Instant)
    requires PaymentWatched(vs, id, at, 11 * DAY)
    ensures |Cases(RunMany(FRESH, vs).discrepancies, id, PaymentMissingSettlement)| == 1
  {
    var k := ScheduleMeetsTheWindow(PaymentStarts(vs), PaymentReads(vs, id), at);
    assert FlagsPayment(vs[k], id, at);
    PaymentFlaggedIff(vs, id, at);
  }

  lemma {:induction false} ElevenDayScheduleFlagsSettlement(vs: seq<Visit>, id: string, at: Instant)
    requires SettlementWatched(vs, id, at, 11 * DAY)
    ensures |Cases(RunMany(FRESH, vs).discrepancies, id, SettlementMissingBank)| == 1
  {
    var k := ScheduleMeetsTheWindow(SettlementStarts(vs), SettlementReads(vs, id), at);
    assert FlagsSettlement(vs[k], id, at);
    SettlementFlaggedIff(vs, id, at);
  }

  function Fixed(now: Instant): Clock {
    Clock(now, now, _ => now, _ => now)
  }

  /** Two runs on the same facts, one exactly three days and one fourteen days and a microsecond after `at`. */
  function TwoVisits(f: Facts, at: Instant): seq<Visit> {
    [Visit(f, Fixed(at + 3 * DAY)), Visit(f, Fixed(at + 14 * DAY + 1))]
  }

  function OnePayment(id: string, at: Instant): Facts {
    Facts([Payment(id, 1, "USD", Some(at), [])], [])
  }

  function OneSettlement(id: string, at: Instant): Facts {
    Facts([], [Settlement(id, 1, 0, 0, None, "USD", at, [])])
  }

  lemma TwoVisitsWatch(id: string, at: Instant, gap: int)
    requires gap > 11 * DAY
    ensures PaymentWatched(TwoVisits(OnePayment(id, at), at), id, at, gap)
    ensures SettlementWatched(TwoVisits(OneSettlement(id, at), at), id, at, gap)
  {
    var f, g := OnePayment(id, at), OneSettlement(id, at);
    assert f.payments[0] in f.payments && g.settlements[0] in g.settlements;
    assert HasPayment(f, id) && UnsettledPayment(f, id, at);
    assert HasSettlement(g, id) && UnbankedSettlement(g, id, at);
    assert Schedule(PaymentStarts(TwoVisits(f, at)), PaymentReads(TwoVisits(f, at), id), at, gap);
    assert Schedule(SettlementStarts(TwoVisits(g, at)), SettlementReads(TwoVisits(g, at), id), at, gap);
  }

  /** They miss the payment for good. */
  lemma LongerPauseMisses(id: string, at: Instant)
    ensures |Cases(RunMany(FRESH, TwoVisits(OnePayment(id, at), at)).discrepancies, id, PaymentMissingSettlement)| == 0
  {
    var vs := TwoVisits(OnePayment(id, at), at);
    assert forall k :: 0 <= k < |vs| ==> UnsettledPayment(vs[k].facts, id, at);
    assert !FlagsPayment(vs[0], id, at) && !FlagsPayment(vs[1], id, at);
    assert !PaymentHit(vs, id, at);
    PaymentFlaggedIff(vs, id, at);
  }

  lemma LongerPauseMissesSettlement(id: string, at: Instant)
    ensures |Cases(RunMany(FRESH, TwoVisits(OneSettlement(id, at), at)).discrepancies, id, SettlementMissingBank)| == 0
  {
    var vs := TwoVisits(OneSettlement(id, at), at);
    assert forall k :: 0 <= k < |vs| ==> UnbankedSettlement(vs[k].facts, id, at);
    assert !FlagsSettlement(vs[0], id, at) && !FlagsSettlement(vs[1], id, at);
    assert !SettlementHit(vs, id, at);
    SettlementFlaggedIff(vs, id, at);
  }

  /**
   Eleven days is the exact bound: schedules with pauses up to `gap` all flag the payment if and
   only if gap <= 11 days.
   */
  lemma ElevenDaysIsExact(id: string, at: Instant, gap: int)
    ensures gap <= 11 * DAY
      <==> forall vs :: PaymentWatched(vs, id, at, gap) ==>
          |Cases(RunMany(FRESH, vs).discrepancies, id, PaymentMissingSettlement)| == 1
  {
    if gap <= 11 * DAY {
      forall vs | PaymentWatched(vs, id, at, gap)
        ensures |Cases(RunMany(FRESH, vs).discrepancies, id, PaymentMissingSettlement)| == 1
      {
        ElevenDayScheduleFlagsPayment(vs, id, at);
      }
    } else {
      LongerPauseMisses(id, at);
      TwoVisitsWatch(id, at, gap);
    }
  }

  /** And so it is for settlements. */
  lemma ElevenDaysIsExactForSettlements(id: string, at: Instant, gap: int)
    ensures gap <= 11 * DAY
      <==> forall vs :: SettlementWatched(vs, id, at, gap) ==>
          |Cases(RunMany(FRESH, vs).discrepancies, id, SettlementMissingBank)| == 1
  {
    if gap <= 11 * DAY {
      forall vs | SettlementWatched(vs, id, at, gap)
        ensures |Cases(RunMany(FRESH, vs).discrepancies, id, SettlementMissingBank)| == 1
      {
        ElevenDayScheduleFlagsSettlement(vs, id, at);
      }
    } else {
      LongerPauseMissesSettlement(id, at);
      TwoVisitsWatch(id, at, gap);
    }
  }
}
