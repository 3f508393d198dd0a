/**
 Ingestion runs: rows become facts under a savepoint each, every row leaves a record, failed
 rows can be retried in a new run.

 The five domain tables are one sequence of facts, the entity being part of every key. Ids of
 new facts come from outside, as does an unexpected failure while a row is materialised. The
 hash is any collision-free function.
 */
module Ingestion {
  import opened Wrappers
  import opened Decimals
  import opened Validation
  import opened Fingerprints

  datatype Merchant = Merchant(id: string, externalId: Option<string>)

  datatype Order = Order(id: string, externalId: Option<string>)

  datatype Directory = Directory(merchants: seq<Merchant>, orders: seq<Order>)

  /** Amounts in units of 10^-4. */
  datatype Fact =
    | PaymentFact(id: string, provider: string, externalId: string, merchant: string, order: string, amount: int,
                  currency: string, status: string, paymentMethod: Option<string>, processedAt: Option<int>)
    | RefundFact(id: string, provider: string, externalId: string, merchant: string, payment: string, amount: int,
                 currency: string, status: string, reason: Option<string>, processedAt: Option<int>)
    | FeeFact(id: string, provider: string, externalId: string, merchant: string, feePayment: Option<string>,
              feeSettlement: Option<string>, feeType: string, amount: int, currency: string)
    | SettlementFact(id: string, provider: string, externalId: string, merchant: string, gross: int, fee: int,
                     adjustment: int, expectedNet: int, actual: Option<int>, currency: string, date: int,
                     status: string)
    | BankFact(id: string, provider: string, externalId: string, merchant: string, bankSettlement: Option<string>,
               amount: int, currency: string, transactionType: string, date: int, status: string,
               description: Option<string>)

  datatype LedgerRow = LedgerRow(identity: Identity, fingerprint: nat, run: nat, raw: Raw)

  datatype RecordStatus = Accepted | Duplicate | Rejected | Failed

  /** One record per source row; invalid rows have no normalised fingerprint. */
  datatype RowRecord = RowRecord(run: nat, index: nat, fingerprint: Option<nat>, status: RecordStatus, raw: Raw)

  datatype RunStatus = Running | Completed | CompletedWithErrors | RunFailed

  datatype Run = Run(sourceType: string, fingerprint: nat, status: RunStatus, total: nat,
                     accepted: nat, duplicate: nat, rejected: nat, failed: nat)

  /** A run's id is its position. */
  datatype Tables = Tables(facts: seq<Fact>, ledger: seq<LedgerRow>, records: seq<RowRecord>, runs: seq<Run>)

  /** The new fact's id, and whether materialising the row fails unexpectedly. */
  datatype RowEnv = RowEnv(factId: string, crash: bool)

  function FactEntity(f: Fact): Entity {
    match f
    case PaymentFact(_, _, _, _, _, _, _, _, _, _) => Payment
    case RefundFact(_, _, _, _, _, _, _, _, _, _) => Refund
    case FeeFact(_, _, _, _, _, _, _, _, _) => Fee
    case SettlementFact(_, _, _, _, _, _, _, _, _, _, _, _) => Settlement
    case BankFact(_, _, _, _, _, _, _, _, _, _, _) => BankTransaction
  }

  function FactIdentity(f: Fact): Identity {
    Identity(FactEntity(f), f.provider, f.externalId)
  }

  // ---------------------------------------------------------------- resolving references

  /** What `scalar_one_or_none` makes of a query: it raises on a second row. */
  datatype Lookup<+T> = Missing | Found(row: T) | Ambiguous

  function Only<T>(rows: seq<T>, p: T -> bool): Lookup<T> {
    if rows == [] then Missing
    else
      var rest := Only(rows[..|rows| - 1], p);
      var last := rows[|rows| - 1];
      if !p(last) then rest else if rest.Missing? then Found(last) else Ambiguous
  }

  lemma {:induction false} OnlyFound<T>(rows: seq<T>, p: T -> bool)
    ensures Only(rows, p).Found? ==> Only(rows, p).row in rows && p(Only(rows, p).row)
    ensures Only(rows, p).Missing? <==> forall r :: r in rows ==> !p(r)
  {
    if rows != [] {
      OnlyFound(rows[..|rows| - 1], p);
      assert rows == rows[..|rows| - 1] + [rows[|rows| - 1]];
    }
  }

  datatype Refusal = ReferencedEntityNotFound | DomainRuleViolation

  /** A materialised value, a row-level refusal, or an exception nobody catches for this row. */
  datatype Outcome<+T> = Got(value: T) | Refused(why: Refusal) | Raised {
    predicate IsFailure() { !Got? }
    function PropagateFailure<U>(): Outcome<U>
      requires IsFailure()
    { if Refused? then Refused(why) else Raised }
    function Extract(): T
      requires Got?
    { value }
  }

  function Require<T>(l: Lookup<T>): Outcome<T> {
    match l
    case Missing => Refused(ReferencedEntityNotFound)
    case Found(row) => Got(row)
    case Ambiguous => Raised
  }

  function FindMerchant(dir: Directory, r: Ref): Lookup<Merchant> {
    match r
    case ById(id) => Only(dir.merchants, (m: Merchant) => m.id == id)
    case ByExternalId(x) => Only(dir.merchants, (m: Merchant) => m.externalId == Some(x))
  }

  function FindOrder(dir: Directory, r: Ref): Lookup<Order> {
    match r
    case ById(id) => Only(dir.orders, (o: Order) => o.id == id)
    case ByExternalId(x) => Only(dir.orders, (o: Order) => o.externalId == Some(x))
  }

  /** External ids are scoped by provider when one is given. */
  function FindFact(facts: seq<Fact>, entity: Entity, r: Ref, provider: Option<string>): Lookup<Fact> {
    match r
    case ById(id) => Only(facts, (f: Fact) => FactEntity(f) == entity && f.id == id)
    case ByExternalId(x) =>
      Only(facts, (f: Fact) =>
        FactEntity(f) == entity && f.externalId == x && (provider.None? || f.provider == provider.value))
  }

  function FindOptional(facts: seq<Fact>, entity: Entity, r: Option<Ref>, provider: Option<string>)
    : Outcome<Option<Fact>>
  {
    if r.None? then Got(None) else var f :- Require(FindFact(facts, entity, r.value, provider)); Got(Some(f))
  }

  /** Columns keep the instant, not the offset it was written in. */
  function InstantIfAny(t: Option<Stamp>): Option<int> {
    if t.Some? then Some(t.value.instant) else None
  }

  function IdOf(f: Option<Fact>): Option<string> {
    if f.Some? then Some(f.value.id) else None
  }

  // ---------------------------------------------------------------- materialisation

  function MaterializePayment(dir: Directory, id: string, r: Row): Outcome<Fact>
    requires r.payload.PaymentRow?
  {
    var p := r.payload;
    var merchant :- Require(FindMerchant(dir, p.merchant));
    var order :- Require(FindOrder(dir, p.order));
    Got(PaymentFact(id, r.provider, r.externalId, merchant.id, order.id, Units(p.amount), p.currency, p.status,
                    p.paymentMethod, InstantIfAny(p.processedAt)))
  }

  function MaterializeRefund(facts: seq<Fact>, id: string, r: Row): Outcome<Fact>
    requires r.payload.RefundRow?
  {
    var p := r.payload;
    var payment :- Require(FindFact(facts, Payment, p.payment, Some(r.provider)));
    if !payment.PaymentFact? then Raised
    else if Units(p.amount) > payment.amount || p.currency != payment.currency then Refused(DomainRuleViolation)
    else Got(RefundFact(id, r.provider, r.externalId, payment.merchant, payment.id, Units(p.amount), p.currency,
        p.status,
                        p.reason, InstantIfAny(p.processedAt)))
  }

  function MaterializeFee(dir: Directory, facts: seq<Fact>, id: string, r: Row): Outcome<Fact>
    requires r.payload.FeeRow?
  {
    var p := r.payload;
    var merchant :- Require(FindMerchant(dir, p.merchant));
    var payment :- FindOptional(facts, Payment, p.feePayment, Some(r.provider));
    var settlement :- FindOptional(facts, Settlement, p.feeSettlement, Some(r.provider));
    if payment.Some? && settlement.Some? then Refused(DomainRuleViolation)
    else Got(FeeFact(id, r.provider, r.externalId, merchant.id, IdOf(payment), IdOf(settlement), p.feeType,
                     Units(p.amount), p.currency))
  }

  function MaterializeSettlement(dir: Directory, id: string, r: Row): Outcome<Fact>
    requires r.payload.SettlementRow?
  {
    var p := r.payload;
    var merchant :- Require(FindMerchant(dir, p.merchant));
    var net := Units(p.gross) - Units(p.fee) + Units(p.adjustment);
    if p.expectedNet.Some? && Units(p.expectedNet.value) != net then Refused(DomainRuleViolation)
    else Got(SettlementFact(id, r.provider, r.externalId, merchant.id, Units(p.gross), Units(p.fee),
        Units(p.adjustment),
                            net, if p.actual.Some? then Some(Units(p.actual.value)) else None, p.currency,
                            p.settlementDate.instant, p.status))
  }

  /** A bank feed names a settlement without its provider. */
  function MaterializeBank(dir: Directory, facts: seq<Fact>, id: string, r: Row): Outcome<Fact>
    requires r.payload.BankRow?
  {
    var p := r.payload;
    var merchant :- Require(FindMerchant(dir, p.merchant));
    var settlement :- FindOptional(facts, Settlement, p.bankSettlement, None);
    Got(BankFact(id, r.provider, r.externalId, merchant.id, IdOf(settlement), Units(p.amount), p.currency,
                 p.transactionType, p.transactionDate.instant, p.status, p.description))
  }

  function Materialize(dir: Directory, facts: seq<Fact>, id: string, r: Row): Outcome<Fact> {
    match EntityOf(r.payload)
    case Payment => MaterializePayment(dir, id, r)
    case Refund => MaterializeRefund(facts, id, r)
    case Fee => MaterializeFee(dir, facts, id, r)
    case Settlement => MaterializeSettlement(dir, id, r)
    case BankTransaction => MaterializeBank(dir, facts, id, r)
  }

  // ---------------------------------------------------------------- one row

  predicate InLedger(ledger: seq<LedgerRow>, identity: Identity) {
    exists i :: 0 <= i < |ledger| && ledger[i].identity == identity
  }

  /** Some unique key refuses the pair: a primary key, a natural key, or a fingerprint. */
  predicate Conflict(t: Tables, f: Fact, l: LedgerRow) {
    || (exists i :: 0 <= i < |t.facts| && SameKey(t.facts[i], f))
    || (exists i ::
        0 <= i < |t.ledger| && (t.ledger[i].identity == l.identity || t.ledger[i].fingerprint == l.fingerprint))
  }

  predicate SameKey(a: Fact, b: Fact) {
    FactIdentity(a) == FactIdentity(b) || (FactEntity(a) == FactEntity(b) && a.id == b.id)
  }

  function Note(t: Tables, run: nat, index: nat, fingerprint: Option<nat>, status: RecordStatus, raw: Raw): Tables {
    t.(records := t.records + [RowRecord(run, index, fingerprint, status, raw)])
  }

  /** Tries one valid row: the tables after it and its status, or None for an exception that ends the batch. */
  function TryRow(h: Hash, dir: Directory, t: Tables, run: nat, raw: Raw, row: Row, env: RowEnv)
    : (Tables, Option<RecordStatus>)
  {
    if InLedger(t.ledger, IdentityOf(row)) then (t, Some(Duplicate))
    else if env.crash then (t, None)
    else match Materialize(dir, t.facts, env.factId, row)
      case Raised => (t, None)
      case Refused(_) => (t, Some(Rejected))
      case Got(f) =>
        var l := LedgerRow(IdentityOf(row), RowFingerprint(h, row), run, raw);
        if Conflict(t, f, l) then (t, Some(Failed))
        else (t.(facts := t.facts + [f], ledger := t.ledger + [l]), Some(Accepted))
  }

  /** The tables after one row, and whether an unexpected failure ends the batch there. */
  function ProcessRow(h: Hash, dir: Directory, t: Tables, run: nat, index: nat, raw: Raw, env: RowEnv): (Tables, bool) {
    match Normalize(raw)
    case Err(_) => (Note(t, run, index, None, Rejected, raw), false)
    case Ok(row) =>
      var (t', status) := TryRow(h, dir, t, run, raw, row, env);
      (Note(t', run, index, Some(RowFingerprint(h, row)), if status.Some? then status.value else Failed, raw),
          status.None?)
  }

  function ProcessRows(h: Hash, dir: Directory, t: Tables, run: nat, raws: seq<Raw>, env: nat -> RowEnv)
    : (Tables, bool)
  {
    if raws == [] then (t, false)
    else
      var n := |raws| - 1;
      var (mid, crashed) := ProcessRows(h, dir, t, run, raws[..n], env);
      if crashed then (mid, true) else ProcessRow(h, dir, mid, run, n, raws[n], env(n))
  }

  // ---------------------------------------------------------------- one run

  function RecordsOf(records: seq<RowRecord>, run: nat): seq<RowRecord> {
    if records == [] then []
    else
      var rest := RecordsOf(records[..|records| - 1], run);
      if records[|records| - 1].run == run then rest + [records[|records| - 1]] else rest
  }

  function Count(records: seq<RowRecord>, status: RecordStatus): nat {
    if records == [] then 0
    else Count(records[..|records| - 1], status) + if records[|records| - 1].status == status then 1 else 0
  }

  predicate KnownBatch(t: Tables, fingerprint: nat) {
    exists i :: 0 <= i < |t.runs| && t.runs[i].fingerprint == fingerprint
  }

  function Finish(run: Run, records: seq<RowRecord>): Run {
    var a, d, r, f := Count(records, Accepted), Count(records, Duplicate), Count(records, Rejected),
        Count(records, Failed);
    run.(status := if r + f == 0 then Completed else CompletedWithErrors,
         accepted := a, duplicate := d, rejected := r, failed := f)
  }

  /** A crashed run keeps only the number of its FAILED rows. */
  function Abandon(run: Run, records: seq<RowRecord>): Run {
    run.(status := RunFailed, failed := Count(records, Failed))
  }

  /** `persists` is false when saving the failed run fails as well, and everything is rolled back. */
  function CreateRun(h: Hash, dir: Directory, t: Tables, sourceType: string, raws: seq<Raw>, env: nat -> RowEnv,
          persists: bool): Tables
  {
    var fp := Batch(h, sourceType, raws);
    if KnownBatch(t, fp) then t
    else
      var id := |t.runs|;
      var started := Run(sourceType, fp, Running, |raws|, 0, 0, 0, 0);
      var (done, crashed) := ProcessRows(h, dir, t.(runs := t.runs + [started]), id, raws, env);
      var mine := RecordsOf(done.records, id);
      if !crashed then done.(runs := t.runs + [Finish(started, mine)])
      else if persists then done.(runs := t.runs + [Abandon(started, mine)])
      else t
  }

  /** The raw payloads of a run's FAILED records, in row order. */
  function FailedRaws(records: seq<RowRecord>): seq<Raw> {
    if records == [] then []
    else
      var rest := FailedRaws(records[..|records| - 1]);
      if records[|records| - 1].status == Failed then rest + [records[|records| - 1].raw] else rest
  }

  function RetryRows(t: Tables, run: nat): seq<Raw> {
    FailedRaws(RecordsOf(t.records, run))
  }

  predicate CanRetry(t: Tables, run: nat) {
    run < |t.runs| && RetryRows(t, run) != []
  }

  // ---------------------------------------------------------------- what one row does

  /** The tables grow by one record of row `index`, and by one fact and ledger row exactly when it is ACCEPTED. */
  predicate RowGrows(h: Hash, t: Tables, t': Tables, run: nat, index: nat, raw: Raw) {
    && t'.runs == t.runs && |t'.records| == |t.records| + 1 && t'.records[..|t.records|] == t.records
    && var r := t'.records[|t.records|];
    && r.run == run && r.index == index && r.raw == raw
    && (r.fingerprint.Some? <==> Normalize(raw).Ok?)
    && (r.fingerprint.Some? ==> r.fingerprint.value == RowFingerprint(h, Normalize(raw).value))
    && (r.status in {Accepted, Duplicate, Failed} ==> Normalize(raw).Ok?)
    && if r.status == Accepted then
         var l := LedgerRow(IdentityOf(Normalize(raw).value), r.fingerprint.value, run, raw);
         && t'.ledger == t.ledger + [l]
         && |t'.facts| == |t.facts| + 1 && t'.facts == t.facts + [t'.facts[|t.facts|]]
         && FactIdentity(t'.facts[|t.facts|]) == l.identity
         && !Conflict(t, t'.facts[|t.facts|], l)
       else t'.ledger == t.ledger && t'.facts == t.facts
  }

  lemma MaterializeKeepsIdentity(dir: Directory, facts: seq<Fact>, id: string, r: Row)
    requires Materialize(dir, facts, id, r).Got?
    ensures FactIdentity(Materialize(dir, facts, id, r).value) == IdentityOf(r)
  {
  }

  lemma RowStep(h: Hash, dir: Directory, t: Tables, run: nat, index: nat, raw: Raw, env: RowEnv)
    ensures var (t', crashed) := ProcessRow(h, dir, t, run, index, raw, env);
      && RowGrows(h, t, t', run, index, raw)
      && (crashed ==> t'.records[|t.records|].status == Failed)
  {
    var n := Normalize(raw);
    if n.Ok? && !InLedger(t.ledger, IdentityOf(n.value)) && !env.crash &&
        Materialize(dir, t.facts, env.factId, n.value).Got? {
      MaterializeKeepsIdentity(dir, t.facts, env.factId, n.value);
    }
  }

  // ---------------------------------------------------------------- exactly one fact per accepted row

  function AcceptedOf(records: seq<RowRecord>): seq<RowRecord> {
    if records == [] then []
    else
      var rest := AcceptedOf(records[..|records| - 1]);
      if records[|records| - 1].status == Accepted then rest + [records[|records| - 1]] else rest
  }

  predicate PairedAt(h: Hash, record: RowRecord, l: LedgerRow, f: Fact) {
    && record.run == l.run && record.fingerprint == Some(l.fingerprint) && record.raw == l.raw
    && Normalize(l.raw).Ok?
    && l.identity == IdentityOf(Normalize(l.raw).value) == FactIdentity(f)
    && l.fingerprint == RowFingerprint(h, Normalize(l.raw).value)
  }

  /**
   The k-th ACCEPTED record, the k-th ledger row and the k-th ingested fact belong together,
   and no identity and no fingerprint occurs twice. `seed` are the facts ingestion found.
   */
  predicate OneToOne(h: Hash, seed: seq<Fact>, t: Tables) {
    && seed <= t.facts
    && |AcceptedOf(t.records)| == |t.ledger| == |t.facts| - |seed|
    && (forall k :: 0 <= k < |t.ledger| ==> PairedAt(h, AcceptedOf(t.records)[k], t.ledger[k], t.facts[|seed| + k]))
    && (forall j, k :: 0 <= j < k < |t.ledger| ==>
          t.ledger[j].identity != t.ledger[k].identity && t.ledger[j].fingerprint != t.ledger[k].fingerprint)
    && (forall j, k :: 0 <= j < k < |t.facts| ==> !SameKey(t.facts[j], t.facts[k]))
  }

  lemma RowKeepsOneToOne(h: Hash, seed: seq<Fact>, t: Tables, t': Tables, run: nat, index: nat, raw: Raw)
    requires OneToOne(h, seed, t) && RowGrows(h, t, t', run, index, raw)
    ensures OneToOne(h, seed, t')
  {
  }

  /** Everything a batch of rows keeps. */
  predicate BatchGrows(t: Tables, t': Tables, run: nat, raws: seq<Raw>, crashed: bool) {
    && t'.runs == t.runs && t.facts <= t'.facts && t.ledger <= t'.ledger
    && |t'.records| >= |t.records| && t'.records[..|t.records|] == t.records
    && var made := t'.records[|t.records|..];
    && |made| <= |raws|
    && (forall k :: 0 <= k < |made| ==> made[k].run == run && made[k].index == k && made[k].raw == raws[k])
    && (forall k :: 0 <= k < |made| ==> made[k].status in {Accepted, Duplicate, Failed} ==> Normalize(made[k].raw).Ok?)
    && (!crashed ==> |made| == |raws|)
    && (crashed ==> |made| > 0 && made[|made| - 1].status == Failed)
  }

  lemma RowExtendsBatch(h: Hash, t: Tables, mid: Tables, t': Tables, run: nat, raws: seq<Raw>, crashed: bool)
    requires raws != [] && BatchGrows(t, mid, run, raws[..|raws| - 1], false)
    requires RowGrows(h, mid, t', run, |raws| - 1, raws[|raws| - 1])
    requires crashed ==> t'.records[|mid.records|].status == Failed
    ensures BatchGrows(t, t', run, raws, crashed)
  {
    MadeRecords(t.records, mid.records, t'.records);
  }

  lemma MadeRecords(old_: seq<RowRecord>, mid: seq<RowRecord>, new_: seq<RowRecord>)
    requires |old_| <= |mid| && |new_| == |mid| + 1 && new_[..|mid|] == mid && mid[..|old_|] == old_
    ensures new_[|old_|..] == mid[|old_|..] + [new_[|mid|]] && new_[..|old_|] == old_
  {
    assert new_[..|old_|] == mid[..|old_|];
  }

  lemma {:induction false} RowsAppend(h: Hash, dir: Directory, t: Tables, run: nat, raws: seq<Raw>, env: nat -> RowEnv)
    ensures var (t', crashed) := ProcessRows(h, dir, t, run, raws, env); BatchGrows(t, t', run, raws, crashed)
  {
    if raws != [] {
      var n := |raws| - 1;
      RowsAppend(h, dir, t, run, raws[..n], env);
      var (mid, crashed) := ProcessRows(h, dir, t, run, raws[..n], env);
      if !crashed {
        var (t', crashed') := ProcessRow(h, dir, mid, run, n, raws[n], env(n));
        RowStep(h, dir, mid, run, n, raws[n], env(n));
        RowExtendsBatch(h, t, mid, t', run, raws, crashed');
      }
    }
  }

  lemma {:induction false} RowsKeepOneToOne(h: Hash, dir: Directory, seed: seq<Fact>, t: Tables, run: nat,
          raws: seq<Raw>, env: nat -> RowEnv)
    requires OneToOne(h, seed, t)
    ensures OneToOne(h, seed, ProcessRows(h, dir, t, run, raws, env).0)
  {
    if raws != [] {
      var n := |raws| - 1;
      RowsKeepOneToOne(h, dir, seed, t, run, raws[..n], env);
      var (mid, crashed) := ProcessRows(h, dir, t, run, raws[..n], env);
      if !crashed {
        RowStep(h, dir, mid, run, n, raws[n], env(n));
        RowKeepsOneToOne(h, seed, mid, ProcessRow(h, dir, mid, run, n, raws[n], env(n)).0, run, n, raws[n]);
      }
    }
  }

  /** A run's records are the ones its rows appended; other runs keep theirs. */
  lemma {:induction false} RecordsAfter(old_: seq<RowRecord>, made: seq<RowRecord>, run: nat, j: nat)
    requires forall k :: 0 <= k < |made| ==> made[k].run == run
    requires forall k :: 0 <= k < |old_| ==> old_[k].run < run
    ensures RecordsOf(old_ + made, j) == if j == run then made else RecordsOf(old_, j)
  {
    if made == [] {
      assert old_ + made == old_;
      if j == run { NoRecords(old_, run); }
    } else {
      var n := |made| - 1;
      assert (old_ + made)[..|old_ + made| - 1] == old_ + made[..n];
      RecordsAfter(old_, made[..n], run, j);
      assert made == made[..n] + [made[n]];
    }
  }

  lemma {:induction false} NoRecords(records: seq<RowRecord>, run: nat)
    requires forall k :: 0 <= k < |records| ==> records[k].run < run
    ensures RecordsOf(records, run) == []
  {
    if records != [] { NoRecords(records[..|records| - 1], run); }
  }
}
