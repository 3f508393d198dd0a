/**
 Fingerprints of rows and batches: the canonical form that is hashed, what it tells apart, and
 what it should not.
 */
module Fingerprints {
  import opened Wrappers
  import opened Decimals
  import opened Validation
  import opened Sorting

  datatype Key =
    | KEntityType | KProvider | KExternalId | KMerchantRef | KOrderRef | KPaymentRef | KSettlementRef
    | KAmount | KCurrency | KStatus | KPaymentMethod | KProcessedAt | KReason | KFeeType
    | KGross | KFee | KAdjustment | KExpectedNet | KActual | KSettlementDate
    | KTransactionType | KTransactionDate | KDescription | KId | KSourceType | KRows

  /** A value of the normalised dictionary. */
  datatype Value = VNone | VText(s: string) | VDecimal(d: Decimal) | VDate(t: Stamp) | VRef(r: Ref)

  /** The JSON that is hashed; a digest is a number, ordered as its fixed-width hex text is. */
  datatype Json =
    | JNull | JText(s: string) | JDecimalText(d: Decimal) | JDateText(t: Stamp) | JEntity(e: Option<Entity>)
    | JDigest(n: nat) | JList(items: seq<Json>) | JObject(fields: map<Key, Json>)

  type Hash = Json -> nat

  ghost predicate CollisionFree(h: Hash) {
    forall a, b :: h(a) == h(b) ==> a == b
  }

  function OptText(o: Option<string>): Value {
    if o.Some? then VText(o.value) else VNone
  }

  function OptDate(o: Option<Stamp>): Value {
    if o.Some? then VDate(o.value) else VNone
  }

  function OptAmount(o: Option<Amount>): Value {
    if o.Some? then VDecimal(o.value) else VNone
  }

  function OptRef(o: Option<Ref>): Value {
    if o.Some? then VRef(o.value) else VNone
  }

  /** The normalised dictionary of a payload, key by key. */
  function Fields(p: Payload): map<Key, Value> {
    match p
    case PaymentRow(m, o, a, c, s, pm, at) =>
      map[KMerchantRef := VRef(m), KOrderRef := VRef(o), KAmount := VDecimal(a), KCurrency := VText(c),
          KStatus := VText(s),
          KPaymentMethod := OptText(pm), KProcessedAt := OptDate(at)]
    case RefundRow(pay, a, c, s, why, at) =>
      map[KPaymentRef := VRef(pay), KAmount := VDecimal(a), KCurrency := VText(c), KStatus := VText(s),
          KReason := OptText(why), KProcessedAt := OptDate(at)]
    case FeeRow(m, pay, set_, ft, a, c) =>
      map[KMerchantRef := VRef(m), KPaymentRef := OptRef(pay), KSettlementRef := OptRef(set_), KFeeType := VText(ft),
          KAmount := VDecimal(a), KCurrency := VText(c)]
    case SettlementRow(m, g, f, adj, net, act, c, at, s) =>
      map[KMerchantRef := VRef(m), KGross := VDecimal(g), KFee := VDecimal(f), KAdjustment := VDecimal(adj),
          KExpectedNet := OptAmount(net), KActual := OptAmount(act), KCurrency := VText(c),
              KSettlementDate := VDate(at),
          KStatus := VText(s)]
    case BankRow(m, set_, a, c, tt, at, s, d) =>
      map[KMerchantRef := VRef(m), KSettlementRef := OptRef(set_), KAmount := VDecimal(a), KCurrency := VText(c),
          KTransactionType := VText(tt), KTransactionDate := VDate(at), KStatus := VText(s), KDescription := OptText(d)]
  }

  function Dictionary(r: Row): map<Key, Value> {
    Fields(r.payload)[KProvider := VText(r.provider)][KExternalId := VText(r.externalId)]
  }

  function RefFields(r: Ref): map<Key, Json> {
    match r
    case ById(id) => map[KEntityType := JEntity(None), KId := JText(id)]
    case ByExternalId(x) => map[KEntityType := JEntity(None), KExternalId := JText(x)]
  }

  /** Decimals and dates become their texts; a nested reference becomes its own digest. */
  function Encode(h: Hash, v: Value): Json {
    match v
    case VNone => JNull
    case VText(s) => JText(s)
    case VDecimal(d) => JDecimalText(d)
    case VDate(t) => JDateText(t)
    case VRef(r) => JDigest(h(JObject(RefFields(r))))
  }

  function Canonical(h: Hash, entity: Entity, dict: map<Key, Value>): map<Key, Json> {
    map[KEntityType := JEntity(Some(entity))] + map k | k in dict :: Encode(h, dict[k])
  }

  function RowFingerprint(h: Hash, r: Row): nat {
    h(JObject(Canonical(h, EntityOf(r.payload), Dictionary(r))))
  }

  /** The loop that fills the canonical dictionary and hashes it. */
  method CanonicalFingerprint(h: Hash, entity: Entity, dict: map<Key, Value>) returns (digest: nat)
    ensures digest == h(JObject(Canonical(h, entity, dict)))
  {
    var canonical: map<Key, Json> := map[KEntityType := JEntity(Some(entity))];
    var todo := dict.Keys;
    while todo != {}
      invariant todo <= dict.Keys
      invariant canonical == map[KEntityType := JEntity(Some(entity))] + map k | k in dict && k !in todo ::
          Encode(h, dict[k])
      decreases |todo|
    {
      var k :| k in todo;
      canonical := canonical[k := Encode(h, dict[k])];
      todo := todo - {k};
    }
    assert (map k | k in dict && k !in todo :: Encode(h, dict[k])) == map k | k in dict :: Encode(h, dict[k]);
    return h(JObject(canonical));
  }

  lemma EncodeInjective(h: Hash, v: Value, w: Value)
    requires CollisionFree(h) && Encode(h, v) == Encode(h, w)
    ensures v == w
  {
    if v.VRef? && w.VRef? {
      assert JObject(RefFields(v.r)) == JObject(RefFields(w.r));
      assert RefFields(v.r)[if v.r.ById? then KId else KExternalId] ==
          RefFields(w.r)[if v.r.ById? then KId else KExternalId];
    }
  }

  /** The payload fields of two equal dictionaries agree key by key. */
  lemma SameFields(a: Row, b: Row)
    requires EntityOf(a.payload) == EntityOf(b.payload) && Dictionary(a) == Dictionary(b)
    ensures a.provider == b.provider && a.externalId == b.externalId
    ensures forall k :: k in Fields(a.payload) && k in Fields(b.payload) ==>
        Fields(a.payload)[k] == Fields(b.payload)[k]
  {
    var m, n := Dictionary(a), Dictionary(b);
    assert m[KProvider] == n[KProvider] && m[KExternalId] == n[KExternalId];
    forall k | k in Fields(a.payload) && k in Fields(b.payload)
      ensures Fields(a.payload)[k] == Fields(b.payload)[k]
    {
      assert m[k] == n[k];
    }
  }

  ghost predicate Agree(m: map<Key, Value>, n: map<Key, Value>) {
    forall k :: k in m && k in n ==> m[k] == n[k]
  }

  lemma PaymentFields(p: Payload, q: Payload)
    requires p.PaymentRow? && q.PaymentRow? && Agree(Fields(p), Fields(q))
    ensures p == q
  {
    var m, n := Fields(p), Fields(q);
    assert m[KMerchantRef] == n[KMerchantRef] && m[KOrderRef] == n[KOrderRef] && m[KAmount] == n[KAmount];
    assert m[KCurrency] == n[KCurrency] && m[KStatus] == n[KStatus];
    assert m[KPaymentMethod] == n[KPaymentMethod] && m[KProcessedAt] == n[KProcessedAt];
  }

  lemma RefundFields(p: Payload, q: Payload)
    requires p.RefundRow? && q.RefundRow? && Agree(Fields(p), Fields(q))
    ensures p == q
  {
    var m, n := Fields(p), Fields(q);
    assert m[KPaymentRef] == n[KPaymentRef] && m[KAmount] == n[KAmount] && m[KCurrency] == n[KCurrency];
    assert m[KStatus] == n[KStatus] && m[KReason] == n[KReason] && m[KProcessedAt] == n[KProcessedAt];
  }

  lemma FeeFields(p: Payload, q: Payload)
    requires p.FeeRow? && q.FeeRow? && Agree(Fields(p), Fields(q))
    ensures p == q
  {
    var m, n := Fields(p), Fields(q);
    assert m[KMerchantRef] == n[KMerchantRef] && m[KPaymentRef] == n[KPaymentRef] &&
        m[KSettlementRef] == n[KSettlementRef];
    assert m[KFeeType] == n[KFeeType] && m[KAmount] == n[KAmount] && m[KCurrency] == n[KCurrency];
  }

  lemma SettlementFields(p: Payload, q: Payload)
    requires p.SettlementRow? && q.SettlementRow? && Agree(Fields(p), Fields(q))
    ensures p == q
  {
    var m, n := Fields(p), Fields(q);
    assert m[KMerchantRef] == n[KMerchantRef] && m[KGross] == n[KGross] && m[KFee] == n[KFee];
    assert m[KAdjustment] == n[KAdjustment] && m[KExpectedNet] == n[KExpectedNet] && m[KActual] == n[KActual];
    assert m[KCurrency] == n[KCurrency] && m[KSettlementDate] == n[KSettlementDate] && m[KStatus] == n[KStatus];
  }

  lemma BankFields(p: Payload, q: Payload)
    requires p.BankRow? && q.BankRow? && Agree(Fields(p), Fields(q))
    ensures p == q
  {
    var m, n := Fields(p), Fields(q);
    assert m[KMerchantRef] == n[KMerchantRef] && m[KSettlementRef] == n[KSettlementRef] && m[KAmount] == n[KAmount];
    assert m[KCurrency] == n[KCurrency] && m[KTransactionType] == n[KTransactionType];
    assert m[KTransactionDate] == n[KTransactionDate] && m[KStatus] == n[KStatus] && m[KDescription] == n[KDescription];
  }

  lemma DictionaryInjective(a: Row, b: Row)
    requires EntityOf(a.payload) == EntityOf(b.payload) && Dictionary(a) == Dictionary(b)
    ensures a == b
  {
    SameFields(a, b);
    match EntityOf(a.payload) {
      case Payment => PaymentFields(a.payload, b.payload);
      case Refund => RefundFields(a.payload, b.payload);
      case Fee => FeeFields(a.payload, b.payload);
      case Settlement => SettlementFields(a.payload, b.payload);
      case BankTransaction => BankFields(a.payload, b.payload);
    }
  }

  lemma CanonicalInjective(h: Hash, e: Entity, m: map<Key, Value>, f: Entity, n: map<Key, Value>)
    requires CollisionFree(h) && KEntityType !in m && KEntityType !in n
    requires Canonical(h, e, m) == Canonical(h, f, n)
    ensures e == f && m == n
  {
    var c, d := Canonical(h, e, m), Canonical(h, f, n);
    assert c[KEntityType] == d[KEntityType];
    assert m.Keys == c.Keys - {KEntityType} && n.Keys == d.Keys - {KEntityType};
    forall k | k in m
      ensures m[k] == n[k]
    {
      assert c[k] == d[k];
      EncodeInjective(h, m[k], n[k]);
    }
  }

  lemma NoEntityKey(r: Row)
    ensures KEntityType !in Dictionary(r)
  {
    assert KEntityType !in Fields(r.payload);
  }

  /** Two rows share a fingerprint exactly when they normalise to the same row, digit for digit. */
  lemma SameFingerprintIff(h: Hash, a: Row, b: Row)
    requires CollisionFree(h)
    ensures RowFingerprint(h, a) == RowFingerprint(h, b) <==> a == b
  {
    if RowFingerprint(h, a) == RowFingerprint(h, b) {
      NoEntityKey(a);
      NoEntityKey(b);
      assert JObject(Canonical(h, EntityOf(a.payload), Dictionary(a))) ==
          JObject(Canonical(h, EntityOf(b.payload), Dictionary(b)));
      CanonicalInjective(h, EntityOf(a.payload), Dictionary(a), EntityOf(b.payload), Dictionary(b));
      DictionaryInjective(a, b);
    }
  }

  // ---------------------------------------------------------------- spelling

  /** The amount in units of 10^-4, and the instant written in UTC: what the columns keep. */
  function PlainAmount(a: Amount): Amount {
    Decimal(Units(a) < 0, if Units(a) < 0 then -Units(a) else Units(a), -4)
  }

  function PlainStamp(t: Stamp): Stamp {
    Stamp(t.instant, 0)
  }

  /** Another spelling of the same number, if there is one. */
  function OtherAmount(a: Amount): Amount {
    if a.exponent > -4 then Decimal(a.negative, 10 * a.digits, a.exponent - 1)
    else if a.digits % 10 == 0 then Decimal(a.negative, a.digits / 10, -3)
    else a
  }

  /** Another spelling of the same instant. */
  function OtherStamp(t: Stamp): Stamp {
    Stamp(t.instant, if t.offset == 0 then 3_600_000_000 else 0)
  }

  function MapAmount(o: Option<Amount>, f: Amount -> Amount): Option<Amount> {
    if o.Some? then Some(f(o.value)) else None
  }

  function MapStamp(o: Option<Stamp>, g: Stamp -> Stamp): Option<Stamp> {
    if o.Some? then Some(g(o.value)) else None
  }

  /** Rewrites every amount and every datetime of a row. */
  function Rewrite(r: Row, f: Amount -> Amount, g: Stamp -> Stamp): Row {
    r.(payload := match r.payload
       case PaymentRow(m, o, a, c, s, pm, at) => PaymentRow(m, o, f(a), c, s, pm, MapStamp(at, g))
       case RefundRow(pay, a, c, s, why, at) => RefundRow(pay, f(a), c, s, why, MapStamp(at, g))
       case FeeRow(m, pay, set_, t, a, c) => FeeRow(m, pay, set_, t, f(a), c)
       case SettlementRow(m, gross, fee, adj, net, act, c, at, s) =>
         SettlementRow(m, f(gross), f(fee), f(adj), MapAmount(net, f), MapAmount(act, f), c, g(at), s)
       case BankRow(m, set_, a, c, t, at, s, d) => BankRow(m, set_, f(a), c, t, g(at), s, d))
  }

  /** What a row means, whatever its spelling. */
  function Meaning(r: Row): Row {
    Rewrite(r, PlainAmount, PlainStamp)
  }

  function Respelled(r: Row): Row {
    Rewrite(r, OtherAmount, OtherStamp)
  }

  /** All four decimals are used, and the last one is not zero. */
  predicate Rigid(a: Amount) {
    a.exponent == -4 && a.digits % 10 != 0
  }

  /** The row can be spelled in one way only: no datetime, and rigid amounts. */
  predicate OneSpelling(r: Row) {
    match r.payload
    case PaymentRow(_, _, a, _, _, _, at) => Rigid(a) && at.None?
    case RefundRow(_, a, _, _, _, at) => Rigid(a) && at.None?
    case FeeRow(_, _, _, _, a, _) => Rigid(a)
    case SettlementRow(_, _, _, _, _, _, _, _, _) => false
    case BankRow(_, _, _, _, _, _, _, _) => false
  }

  lemma OtherAmountMeansTheSame(a: Amount)
    ensures Units(OtherAmount(a)) == Units(a)
    ensures OtherAmount(a) == a <==> Rigid(a)
  {
    if a.exponent > -4 {
      assert Pow10(a.exponent + 4) == 10 * Pow10(a.exponent + 3);
      TimesTen(Signed(a), Pow10(a.exponent + 3));
    } else if a.digits % 10 == 0 {
      assert Pow10(1) == 10 * Pow10(0);
    }
  }

  lemma TimesTen(x: int, p: int)
    ensures (10 * x) * p == x * (10 * p)
  {
  }

  /** A rigid amount is the only spelling of its number. */
  lemma RigidIsAlone(a: Amount, b: Amount)
    requires Rigid(a) && Units(a) == Units(b)
    ensures a == b
  {
    FinestUnits(a);
    EndsInAnotherDigit(a);
    if b.exponent > -4 { CoarseUnits(b); } else { FinestUnits(b); }
  }

  lemma EndsInAnotherDigit(a: Amount)
    requires Rigid(a)
    ensures Signed(a) % 10 != 0
  {
  }

  lemma FinestUnits(a: Amount)
    requires a.exponent == -4
    ensures Units(a) == Signed(a)
  {
    assert Pow10(0) == 1;
  }

  lemma CoarseUnits(a: Amount)
    requires a.exponent > -4
    ensures Units(a) % 10 == 0
  {
    var p := Pow10(a.exponent + 3);
    assert Pow10(a.exponent + 4) == 10 * p;
    TimesTen(Signed(a), p);
    Associates(Signed(a), p);
  }

  lemma Associates(x: int, p: int)
    ensures (10 * x) * p == 10 * (x * p)
  {
  }

  lemma PlainTellsUnits(a: Amount, b: Amount)
    ensures PlainAmount(a) == PlainAmount(b) <==> Units(a) == Units(b)
  {
  }

  lemma RespelledMeansTheSame(r: Row)
    ensures Meaning(Respelled(r)) == Meaning(r)
  {
    forall a: Amount ensures Units(OtherAmount(a)) == Units(a) { OtherAmountMeansTheSame(a); }
    RewrittenMeansTheSame(r, OtherAmount, OtherStamp);
  }

  /**
   The promise that rows that mean the same share a fingerprint whatever their spelling, '100.0'
   or '100.00', 'Z' or '+01:00', is kept for exactly the rows that have one spelling.
   */
  lemma SpellingIsIgnoredIff(h: Hash, r: Row)
    requires CollisionFree(h)
    ensures (forall b :: Meaning(b) == Meaning(r) ==> RowFingerprint(h, b) == RowFingerprint(h, r)) <==> OneSpelling(r)
  {
    if OneSpelling(r) {
      forall b | Meaning(b) == Meaning(r)
        ensures b == r
      {
        OnlySpelling(r, b);
      }
    } else {
      RespelledMeansTheSame(r);
      RespelledDiffers(r);
      SameFingerprintIff(h, Respelled(r), r);
    }
  }

  lemma OnlySpelling(r: Row, b: Row)
    requires OneSpelling(r) && Meaning(b) == Meaning(r)
    ensures b == r
  {
    PlainTellsUnits(r.payload.amount, b.payload.amount);
    RigidIsAlone(r.payload.amount, b.payload.amount);
  }

  lemma RespelledDiffers(r: Row)
    requires !OneSpelling(r)
    ensures Respelled(r) != r
  {
    if !r.payload.SettlementRow? { OtherAmountMeansTheSame(r.payload.amount); }
  }

  /**
   Any change of spelling, trailing zeros in any amount or another offset in any datetime,
   keeps the meaning of the row and changes its fingerprint as soon as it changes anything.
   */
  lemma RespellingChangesFingerprint(h: Hash, r: Row, f: Amount -> Amount, g: Stamp -> Stamp)
    requires CollisionFree(h)
    requires forall a: Amount :: Units(f(a)) == Units(a)
    requires forall t: Stamp :: g(t).instant == t.instant
    ensures Meaning(Rewrite(r, f, g)) == Meaning(r)
    ensures RowFingerprint(h, Rewrite(r, f, g)) == RowFingerprint(h, r) <==> Rewrite(r, f, g) == r
  {
    RewrittenMeansTheSame(r, f, g);
    SameFingerprintIff(h, Rewrite(r, f, g), r);
  }

  lemma RewrittenMeansTheSame(r: Row, f: Amount -> Amount, g: Stamp -> Stamp)
    requires forall a: Amount :: Units(f(a)) == Units(a)
    requires forall t: Stamp :: g(t).instant == t.instant
    ensures Meaning(Rewrite(r, f, g)) == Meaning(r)
  {
    forall a: Amount ensures PlainAmount(f(a)) == PlainAmount(a) { PlainTellsUnits(f(a), a); }
  }

  // ---------------------------------------------------------------- the batch fingerprint

  const ASCENDING: (nat, nat) -> bool := (x: nat, y: nat) => x <= y

  function SortDigests(s: seq<nat>): seq<nat> {
    Sort(ASCENDING, s)
  }

  function DigestList(s: seq<nat>): seq<Json> {
    seq(|s|, i requires 0 <= i < |s| => JDigest(s[i]))
  }

  function BatchFingerprint(h: Hash, sourceType: string, rows: seq<nat>): nat {
    h(JObject(map[KSourceType := JText(sourceType), KRows := JList(DigestList(SortDigests(rows)))]))
  }

  /** The valid rows of a submission, in order. */
  function ValidRows(raws: seq<Raw>): seq<Row> {
    if raws == [] then []
    else
      var rest := ValidRows(raws[..|raws| - 1]);
      var last := Normalize(raws[|raws| - 1]);
      if last.Ok? then rest + [last.value] else rest
  }

  function Fingerprints(h: Hash, rows: seq<Row>): seq<nat> {
    if rows == [] then [] else Fingerprints(h, rows[..|rows| - 1]) + [RowFingerprint(h, rows[|rows| - 1])]
  }

  function Batch(h: Hash, sourceType: string, raws: seq<Raw>): nat {
    BatchFingerprint(h, sourceType, Fingerprints(h, ValidRows(raws)))
  }

  lemma DigestListInjective(s: seq<nat>, t: seq<nat>)
    requires DigestList(s) == DigestList(t)
    ensures s == t
  {
    assert |s| == |DigestList(s)| == |t|;
    forall i | 0 <= i < |s|
      ensures s[i] == t[i]
    {
      assert DigestList(s)[i] == DigestList(t)[i];
    }
  }

  lemma {:induction false} FingerprintsAt(h: Hash, rows: seq<Row>)
    ensures |Fingerprints(h, rows)| == |rows|
    ensures forall k :: 0 <= k < |rows| ==> Fingerprints(h, rows)[k] == RowFingerprint(h, rows[k])
  {
    if rows != [] { FingerprintsAt(h, rows[..|rows| - 1]); }
  }

  lemma {:induction false} SameCounts(rows: seq<Row>, digests: seq<nat>, r: Row, d: nat)
    requires |rows| == |digests|
    requires forall k :: 0 <= k < |rows| ==> (rows[k] == r <==> digests[k] == d)
    ensures multiset(rows)[r] == multiset(digests)[d]
  {
    if rows != [] {
      var n := |rows| - 1;
      SameCounts(rows[..n], digests[..n], r, d);
      assert rows == rows[..n] + [rows[n]] && digests == digests[..n] + [digests[n]];
    }
  }

  lemma {:induction false} FingerprintCounts(h: Hash, rows: seq<Row>, r: Row)
    requires CollisionFree(h)
    ensures multiset(Fingerprints(h, rows))[RowFingerprint(h, r)] == multiset(rows)[r]
  {
    FingerprintsAt(h, rows);
    forall k | 0 <= k < |rows|
      ensures rows[k] == r <==> Fingerprints(h, rows)[k] == RowFingerprint(h, r)
    {
      SameFingerprintIff(h, rows[k], r);
    }
    SameCounts(rows, Fingerprints(h, rows), r, RowFingerprint(h, r));
  }

  lemma {:induction false} SameDigestsIff(h: Hash, a: seq<Row>, b: seq<Row>)
    requires CollisionFree(h)
    ensures multiset(Fingerprints(h, a)) == multiset(Fingerprints(h, b)) <==> multiset(a) == multiset(b)
  {
    var x, y := multiset(Fingerprints(h, a)), multiset(Fingerprints(h, b));
    if x == y {
      forall r ensures multiset(a)[r] == multiset(b)[r] {
        FingerprintCounts(h, a, r);
        FingerprintCounts(h, b, r);
      }
    }
    if multiset(a) == multiset(b) {
      forall d ensures x[d] == y[d] {
        DigestCountEqual(h, a, b, d);
      }
    }
  }

  lemma {:induction false} DigestCountEqual(h: Hash, a: seq<Row>, b: seq<Row>, d: nat)
    requires CollisionFree(h) && multiset(a) == multiset(b)
    ensures multiset(Fingerprints(h, a))[d] == multiset(Fingerprints(h, b))[d]
  {
    if r :| RowFingerprint(h, r) == d {
      FingerprintCounts(h, a, r);
      FingerprintCounts(h, b, r);
    } else {
      NotADigest(h, a, d);
      NotADigest(h, b, d);
    }
  }

  lemma {:induction false} NotADigest(h: Hash, rows: seq<Row>, d: nat)
    requires forall r :: RowFingerprint(h, r) != d
    ensures multiset(Fingerprints(h, rows))[d] == 0
  {
    if rows != [] { NotADigest(h, rows[..|rows| - 1], d); }
  }

  /**
   Two submissions are the same batch exactly when they have the same source type and the same
   normalised valid rows with the same multiplicities: the order of the rows does not matter,
   and neither do the invalid ones.
   */
  lemma {:induction false} SameBatchIff(h: Hash, s: string, a: seq<Raw>, t: string, b: seq<Raw>)
    requires CollisionFree(h)
    ensures Batch(h, s, a) == Batch(h, t, b) <==> s == t && multiset(ValidRows(a)) == multiset(ValidRows(b))
  {
    var x, y := Fingerprints(h, ValidRows(a)), Fingerprints(h, ValidRows(b));
    SameDigestsIff(h, ValidRows(a), ValidRows(b));
    SameListsIff(x, y);
    if Batch(h, s, a) == Batch(h, t, b) { SameBatchJson(h, s, x, t, y); }
  }

  lemma SameListsIff(x: seq<nat>, y: seq<nat>)
    ensures SortDigests(x) == SortDigests(y) <==> multiset(x) == multiset(y)
  {
    SortSorts(ASCENDING, x);
    SortSorts(ASCENDING, y);
    if multiset(x) == multiset(y) { SortedIsUnique(ASCENDING, SortDigests(x), SortDigests(y)); }
  }

  lemma {:induction false} SameBatchJson(h: Hash, s: string, x: seq<nat>, t: string, y: seq<nat>)
    requires CollisionFree(h) && BatchFingerprint(h, s, x) == BatchFingerprint(h, t, y)
    ensures s == t && SortDigests(x) == SortDigests(y)
  {
    var m := map[KSourceType := JText(s), KRows := JList(DigestList(SortDigests(x)))];
    var n := map[KSourceType := JText(t), KRows := JList(DigestList(SortDigests(y)))];
    assert JObject(m) == JObject(n);
    assert m[KSourceType] == n[KSourceType] && m[KRows] == n[KRows];
    DigestListInjective(SortDigests(x), SortDigests(y));
  }
}
