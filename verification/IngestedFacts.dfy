/** What the ingested facts say, over any number of submissions and retries. */
module IngestedFacts {
  import opened Wrappers
  import opened Decimals
  import opened Validation
  import opened Fingerprints
  import opened Ingestion
  import opened IngestionRuns
  import Reconciliation

  /** Merchants and orders are only added. */
  predicate DirectoryGrows(dir: Directory, dir': Directory) {
    dir.merchants <= dir'.merchants && dir.orders <= dir'.orders
  }

  // ---------------------------------------------------------------- the facts themselves

  ghost predicate HasMerchant(dir: Directory, id: string) {
    exists m :: m in dir.merchants && m.id == id
  }

  ghost predicate HasFact(facts: seq<Fact>, entity: Entity, id: string) {
    exists f :: f in facts && FactEntity(f) == entity && f.id == id
  }

  ghost predicate ParentOf(refund: Fact, p: Fact)
    requires refund.RefundFact?
  {
    && p.PaymentFact? && p.id == refund.payment && refund.amount <= p.amount
    && refund.currency == p.currency && refund.merchant == p.merchant
  }

  /** References resolve, refunds stay within their payment, settlements add up. */
  ghost predicate FactSound(dir: Directory, facts: seq<Fact>, f: Fact) {
    match f
    case PaymentFact(_, _, _, m, o, _, _, _, _, _) => HasMerchant(dir, m) && exists x :: x in dir.orders && x.id == o
    case RefundFact(_, _, _, _, _, _, _, _, _, _) => exists p :: p in facts && ParentOf(f, p)
    case FeeFact(_, _, _, m, pay, set_, _, _, _) =>
      && HasMerchant(dir, m) && (pay.None? || set_.None?)
      && (pay.Some? ==> HasFact(facts, Payment, pay.value)) && (set_.Some? ==> HasFact(facts, Settlement, set_.value))
    case SettlementFact(_, _, _, m, gross, fee, adjustment, net, _, _, _, _) =>
      HasMerchant(dir, m) && net == Reconciliation.RecomputedNet(gross, fee, adjustment)
    case BankFact(_, _, _, m, set_, _, _, _, _, _, _) =>
      HasMerchant(dir, m) && (set_.Some? ==> HasFact(facts, Settlement, set_.value))
  }

  ghost predicate FactsSound(dir: Directory, facts: seq<Fact>) {
    forall f :: f in facts ==> FactSound(dir, facts, f)
  }

  lemma MoreFactsStaySound(dir: Directory, dir': Directory, facts: seq<Fact>, facts': seq<Fact>, f: Fact)
    requires FactSound(dir, facts, f) && facts <= facts' && DirectoryGrows(dir, dir')
    ensures FactSound(dir', facts', f)
  {
    assert forall g :: g in facts ==> g in facts';
    assert forall m :: m in dir.merchants ==> m in dir'.merchants;
    assert forall o :: o in dir.orders ==> o in dir'.orders;
  }

  predicate Designates(r: Ref, id: string, externalId: Option<string>) {
    match r
    case ById(i) => i == id
    case ByExternalId(x) => externalId == Some(x)
  }

  ghost predicate IsMerchant(dir: Directory, r: Ref, id: string) {
    exists m :: m in dir.merchants && m.id == id && Designates(r, m.id, m.externalId)
  }

  ghost predicate IsOrder(dir: Directory, r: Ref, id: string) {
    exists o :: o in dir.orders && o.id == id && Designates(r, o.id, o.externalId)
  }

  ghost predicate IsFact(facts: seq<Fact>, entity: Entity, r: Ref, provider: Option<string>, id: string) {
    exists g :: g in facts && FactEntity(g) == entity && g.id == id && Designates(r, g.id, Some(g.externalId))
      && (r.ByExternalId? && provider.Some? ==> g.provider == provider.value)
  }

  ghost predicate IsFactIfAny(facts: seq<Fact>, entity: Entity, r: Option<Ref>, provider: Option<string>,
          id: Option<string>)
  {
    (r.Some? <==> id.Some?) && (r.Some? ==> IsFact(facts, entity, r.value, provider, id.value))
  }

  lemma MerchantFound(dir: Directory, r: Ref)
    requires FindMerchant(dir, r).Found?
    ensures var id := FindMerchant(dir, r).row.id; HasMerchant(dir, id) && IsMerchant(dir, r, id)
  {
    match r {
      case ById(id) => OnlyFound(dir.merchants, (m: Merchant) => m.id == id);
      case ByExternalId(x) => OnlyFound(dir.merchants, (m: Merchant) => m.externalId == Some(x));
    }
  }

  lemma OrderFound(dir: Directory, r: Ref)
    requires FindOrder(dir, r).Found?
    ensures FindOrder(dir, r).row in dir.orders && IsOrder(dir, r, FindOrder(dir, r).row.id)
  {
    match r {
      case ById(id) => OnlyFound(dir.orders, (o: Order) => o.id == id);
      case ByExternalId(x) => OnlyFound(dir.orders, (o: Order) => o.externalId == Some(x));
    }
  }

  lemma FactFound(facts: seq<Fact>, entity: Entity, r: Ref, provider: Option<string>)
    requires FindFact(facts, entity, r, provider).Found?
    ensures var f := FindFact(facts, entity, r, provider).row;
      f in facts && FactEntity(f) == entity && IsFact(facts, entity, r, provider, f.id)
  {
    match r {
      case ById(id) => OnlyFound(facts, (f: Fact) => FactEntity(f) == entity && f.id == id);
      case ByExternalId(x) =>
        OnlyFound(facts, (f: Fact) =>
          FactEntity(f) == entity && f.externalId == x && (provider.None? || f.provider == provider.value));
    }
  }

  lemma OptionalFound(facts: seq<Fact>, entity: Entity, r: Option<Ref>, provider: Option<string>)
    requires FindOptional(facts, entity, r, provider).Got?
    ensures var f := FindOptional(facts, entity, r, provider).value;
      IsFactIfAny(facts, entity, r, provider, IdOf(f)) &&
          (f.Some? ==> f.value in facts && FactEntity(f.value) == entity)
  {
    if r.Some? { FactFound(facts, entity, r.value, provider); }
  }

  lemma MaterializedIsSound(dir: Directory, facts: seq<Fact>, id: string, r: Row)
    requires Materialize(dir, facts, id, r).Got?
    ensures FactSound(dir, facts, Materialize(dir, facts, id, r).value)
  {
    match EntityOf(r.payload) {
      case Payment =>
        MerchantFound(dir, r.payload.merchant);
        OrderFound(dir, r.payload.order);
      case Refund => FactFound(facts, Payment, r.payload.payment, Some(r.provider));
      case Fee =>
        MerchantFound(dir, r.payload.merchant);
        OptionalFound(facts, Payment, r.payload.feePayment, Some(r.provider));
        OptionalFound(facts, Settlement, r.payload.feeSettlement, Some(r.provider));
      case Settlement => MerchantFound(dir, r.payload.merchant);
      case BankTransaction =>
        MerchantFound(dir, r.payload.merchant);
        OptionalFound(facts, Settlement, r.payload.bankSettlement, None);
    }
  }

  lemma RowKeepsFactsSound(h: Hash, dir: Directory, t: Tables, run: nat, index: nat, raw: Raw, env: RowEnv)
    requires FactsSound(dir, t.facts)
    ensures FactsSound(dir, ProcessRow(h, dir, t, run, index, raw, env).0.facts)
  {
    var t' := ProcessRow(h, dir, t, run, index, raw, env).0;
    if t'.facts != t.facts {
      var row := Normalize(raw).value;
      MaterializedIsSound(dir, t.facts, env.factId, row);
      forall f | f in t'.facts
        ensures FactSound(dir, t'.facts, f)
      {
        assert f in t.facts || f == Materialize(dir, t.facts, env.factId, row).value;
        MoreFactsStaySound(dir, dir, t.facts, t'.facts, f);
      }
    }
  }

  lemma {:induction false} RowsKeepFactsSound(h: Hash, dir: Directory, t: Tables, run: nat, raws: seq<Raw>,
          env: nat -> RowEnv)
    requires FactsSound(dir, t.facts)
    ensures FactsSound(dir, ProcessRows(h, dir, t, run, raws, env).0.facts)
  {
    if raws != [] {
      var n := |raws| - 1;
      RowsKeepFactsSound(h, dir, t, run, raws[..n], env);
      RowKeepsFactsSound(h, dir, ProcessRows(h, dir, t, run, raws[..n], env).0, run, n, raws[n], env(n));
    }
  }

  /**
   Ingestion keeps the books sound: every refund is within one payment of the same currency
   and merchant, a fee has at most one parent, every reference resolves, and each settlement's
   stored net is the one the bank matcher recomputes.
   */
  lemma {:induction false} FinancialSoundness(h: Hash, w: World, events: seq<Event>)
    requires FactsSound(w.dir, w.t.facts)
    ensures var w' := History(h, w, events); FactsSound(w'.dir, w'.t.facts)
  {
    if events != [] {
      var mid := History(h, w, events[..|events| - 1]);
      FinancialSoundness(h, w, events[..|events| - 1]);
      StepKeepsFactsSound(h, mid, events[|events| - 1]);
    }
  }

  lemma StepKeepsFactsSound(h: Hash, w: World, ev: Event)
    requires FactsSound(w.dir, w.t.facts)
    ensures FactsSound(Step(h, w, ev).dir, Step(h, w, ev).t.facts)
  {
    var s := SubmissionOf(w.t, ev);
    if ev.Onboard? {
      forall f | f in w.t.facts
        ensures FactSound(Step(h, w, ev).dir, w.t.facts, f)
      {
        MoreFactsStaySound(w.dir, Step(h, w, ev).dir, w.t.facts, w.t.facts, f);
      }
    } else if s.Some? {
      var t0 := Begin(w.t, s.value.sourceType, Batch(h, s.value.sourceType, s.value.raws), |s.value.raws|);
      RowsKeepFactsSound(h, w.dir, t0, |w.t.runs|, s.value.raws, ev.env);
    }
  }

  // ---------------------------------------------------------------- facts carry their rows

  /** The fact has the row's amounts, codes and dates, and points at what the row's references name. */
  ghost predicate Carries(dir: Directory, facts: seq<Fact>, f: Fact, r: Row) {
    f.provider == r.provider && f.externalId == r.externalId &&
    match f
    case PaymentFact(_, _, _, m, o, amount, currency, status, paidBy, at) =>
      r.payload.PaymentRow? && IsMerchant(dir, r.payload.merchant, m) && IsOrder(dir, r.payload.order, o)
      && amount == Units(r.payload.amount) && currency == r.payload.currency && status == r.payload.status
      && paidBy == r.payload.paymentMethod && at == InstantIfAny(r.payload.processedAt)
    case RefundFact(_, _, _, _, pay, amount, currency, status, reason, at) =>
      r.payload.RefundRow? && IsFact(facts, Payment, r.payload.payment, Some(r.provider), pay)
      && amount == Units(r.payload.amount) && currency == r.payload.currency && status == r.payload.status
      && reason == r.payload.reason && at == InstantIfAny(r.payload.processedAt)
    case FeeFact(_, _, _, m, pay, set_, feeType, amount, currency) =>
      r.payload.FeeRow? && IsMerchant(dir, r.payload.merchant, m)
      && IsFactIfAny(facts, Payment, r.payload.feePayment, Some(r.provider), pay)
      && IsFactIfAny(facts, Settlement, r.payload.feeSettlement, Some(r.provider), set_)
      && feeType == r.payload.feeType && amount == Units(r.payload.amount) && currency == r.payload.currency
    case SettlementFact(_, _, _, m, gross, fee, adjustment, net, actual, currency, date, status) =>
      r.payload.SettlementRow? && IsMerchant(dir, r.payload.merchant, m)
      && gross == Units(r.payload.gross) && fee == Units(r.payload.fee) && adjustment == Units(r.payload.adjustment)
      && (r.payload.expectedNet.Some? ==> net == Units(r.payload.expectedNet.value))
      && (actual.Some? <==> r.payload.actual.Some?) && (actual.Some? ==> actual.value == Units(r.payload.actual.value))
      && currency == r.payload.currency && date == r.payload.settlementDate.instant && status == r.payload.status
    case BankFact(_, _, _, m, set_, amount, currency, kind, date, status, description) =>
      r.payload.BankRow? && IsMerchant(dir, r.payload.merchant, m)
      && IsFactIfAny(facts, Settlement, r.payload.bankSettlement, None, set_)
      && amount == Units(r.payload.amount) && currency == r.payload.currency && kind == r.payload.transactionType
      && date == r.payload.transactionDate.instant && status == r.payload.status && description == r.payload.description
  }

  lemma MaterializedCarries(dir: Directory, facts: seq<Fact>, id: string, r: Row)
    requires Materialize(dir, facts, id, r).Got?
    ensures Carries(dir, facts, Materialize(dir, facts, id, r).value, r)
  {
    match EntityOf(r.payload) {
      case Payment =>
        MerchantFound(dir, r.payload.merchant);
        OrderFound(dir, r.payload.order);
      case Refund => FactFound(facts, Payment, r.payload.payment, Some(r.provider));
      case Fee =>
        MerchantFound(dir, r.payload.merchant);
        OptionalFound(facts, Payment, r.payload.feePayment, Some(r.provider));
        OptionalFound(facts, Settlement, r.payload.feeSettlement, Some(r.provider));
      case Settlement => MerchantFound(dir, r.payload.merchant);
      case BankTransaction =>
        MerchantFound(dir, r.payload.merchant);
        OptionalFound(facts, Settlement, r.payload.bankSettlement, None);
    }
  }

  lemma MoreFactsStillCarry(dir: Directory, dir': Directory, facts: seq<Fact>, facts': seq<Fact>, f: Fact, r: Row)
    requires Carries(dir, facts, f, r) && facts <= facts' && DirectoryGrows(dir, dir')
    ensures Carries(dir', facts', f, r)
  {
    assert forall g :: g in facts ==> g in facts';
    assert forall m :: m in dir.merchants ==> m in dir'.merchants;
    assert forall o :: o in dir.orders ==> o in dir'.orders;
  }

  ghost predicate CarriesLedger(dir: Directory, facts: seq<Fact>, f: Fact, l: LedgerRow) {
    Normalize(l.raw).Ok? && Carries(dir, facts, f, Normalize(l.raw).value)
  }

  ghost predicate Faithful(dir: Directory, seed: seq<Fact>, t: Tables) {
    && |t.facts| == |seed| + |t.ledger|
    && forall k :: 0 <= k < |t.ledger| ==> CarriesLedger(dir, t.facts, t.facts[|seed| + k], t.ledger[k])
  }

  lemma RowKeepsFaithful(h: Hash, dir: Directory, seed: seq<Fact>, t: Tables, run: nat, index: nat, raw: Raw,
          env: RowEnv)
    requires Faithful(dir, seed, t)
    ensures Faithful(dir, seed, ProcessRow(h, dir, t, run, index, raw, env).0)
  {
    var t' := ProcessRow(h, dir, t, run, index, raw, env).0;
    if t'.facts != t.facts {
      var row := Normalize(raw).value;
      var f := Materialize(dir, t.facts, env.factId, row).value;
      MaterializedCarries(dir, t.facts, env.factId, row);
      assert t'.facts == t.facts + [f] &&
          t'.ledger == t.ledger + [LedgerRow(IdentityOf(row), RowFingerprint(h, row), run, raw)];
      forall k | 0 <= k < |t'.ledger|
        ensures CarriesLedger(dir, t'.facts, t'.facts[|seed| + k], t'.ledger[k])
      {
        if k < |t.ledger| { assert CarriesLedger(dir, t.facts, t.facts[|seed| + k], t.ledger[k]); }
        MoreFactsStillCarry(dir, dir, t.facts, t'.facts, t'.facts[|seed| + k], Normalize(t'.ledger[k].raw).value);
      }
    } else {
      assert t'.ledger == t.ledger;
    }
  }

  lemma {:induction false} RowsKeepFaithful(h: Hash, dir: Directory, seed: seq<Fact>, t: Tables, run: nat,
          raws: seq<Raw>, env: nat -> RowEnv)
    requires Faithful(dir, seed, t)
    ensures Faithful(dir, seed, ProcessRows(h, dir, t, run, raws, env).0)
  {
    if raws != [] {
      var n := |raws| - 1;
      RowsKeepFaithful(h, dir, seed, t, run, raws[..n], env);
      RowKeepsFaithful(h, dir, seed, ProcessRows(h, dir, t, run, raws[..n], env).0, run, n, raws[n], env(n));
    }
  }

  /**
   From source to books: whatever was submitted and retried, the k-th ingested fact carries
   the amounts, codes and dates of the raw row in the k-th ledger entry, and points at the
   very merchant, order, payment or settlement that row names.
   */
  lemma {:induction false} EveryFactCarriesItsRow(h: Hash, dir: Directory, seed: seq<Fact>, events: seq<Event>)
    ensures var w := History(h, Start(dir, seed), events); Faithful(w.dir, seed, w.t)
  {
    if events != [] {
      var mid := History(h, Start(dir, seed), events[..|events| - 1]);
      EveryFactCarriesItsRow(h, dir, seed, events[..|events| - 1]);
      StepKeepsFaithful(h, seed, mid, events[|events| - 1]);
    }
  }

  lemma StepKeepsFaithful(h: Hash, seed: seq<Fact>, w: World, ev: Event)
    requires Faithful(w.dir, seed, w.t)
    ensures Faithful(Step(h, w, ev).dir, seed, Step(h, w, ev).t)
  {
    var s := SubmissionOf(w.t, ev);
    if ev.Onboard? {
      var dir' := Step(h, w, ev).dir;
      forall k | 0 <= k < |w.t.ledger|
        ensures CarriesLedger(dir', w.t.facts, w.t.facts[|seed| + k], w.t.ledger[k])
      {
        assert CarriesLedger(w.dir, w.t.facts, w.t.facts[|seed| + k], w.t.ledger[k]);
        MoreFactsStillCarry(w.dir, dir', w.t.facts, w.t.facts, w.t.facts[|seed| + k],
            Normalize(w.t.ledger[k].raw).value);
      }
    } else if s.Some? {
      var t0 := Begin(w.t, s.value.sourceType, Batch(h, s.value.sourceType, s.value.raws), |s.value.raws|);
      assert Faithful(w.dir, seed, t0);
      RowsKeepFaithful(h, w.dir, seed, t0, |w.t.runs|, s.value.raws, ev.env);
    }
  }
}
