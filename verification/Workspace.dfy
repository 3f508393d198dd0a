/**
 The unified transaction listing: five tables filtered by one filter, counted per type, united,
 ordered by creation time and id, cut into pages and decorated with derived flags.

 ORDER BY may answer with any sorted arrangement of the rows it gets. How text search matches
 is a parameter.
 */
module Workspace {
  import opened Pagination
  import opened Sorting
  import opened Wrappers

  datatype Kind = Payment | Refund | Fee | Settlement | BankTransaction

  const KINDS: seq<Kind> := [Payment, Refund, Fee, Settlement, BankTransaction]

  function Name(k: Kind): string {
    match k
    case Payment => "PAYMENT"
    case Refund => "REFUND"
    case Fee => "FEE"
    case Settlement => "SETTLEMENT"
    case BankTransaction => "BANK_TRANSACTION"
  }

  /** The columns the listing reads; fees have no status, settlements list their expected net. */
  datatype Row = Row(id: string, externalId: string, merchant: string, provider: string, amount: int,
                     currency: string, status: string, created: int)

  datatype Merchant = Merchant(id: string, name: string)

  datatype Link = Link(sourceType: string, sourceId: string, targetType: string, targetId: string)

  datatype Finding = Finding(sourceType: string, sourceId: string, relatedType: Option<string>,
      relatedId: Option<string>)

  datatype Store = Store(payments: seq<Row>, refunds: seq<Row>, fees: seq<Row>, settlements: seq<Row>, banks: seq<Row>,
                         merchants: seq<Merchant>, links: seq<Link>, findings: seq<Finding>)

  function Table(db: Store, k: Kind): seq<Row> {
    match k
    case Payment => db.payments
    case Refund => db.refunds
    case Fee => db.fees
    case Settlement => db.settlements
    case BankTransaction => db.banks
  }

  type Like = (string, string) -> bool

  /** An empty text filters nothing, like a missing one. */
  datatype Filter = Filter(recordType: Option<string>, status: Option<string>, currency: Option<string>,
                           merchant: Option<string>, dateFrom: Option<int>, dateTo: Option<int>,
                           minAmount: Option<int>, maxAmount: Option<int>,
                           reconciled: Option<bool>, hasDiscrepancy: Option<bool>, search: Option<string>)

  predicate Given(o: Option<string>) {
    o.Some? && o.value != ""
  }

  // ---------------------------------------------------------------- what the filter means

  predicate Reconciled(db: Store, k: Kind, id: string) {
    exists l :: l in db.links &&
      ((l.sourceType == Name(k) && l.sourceId == id) || (l.targetType == Name(k) && l.targetId == id))
  }

  predicate HasDiscrepancy(db: Store, k: Kind, id: string) {
    exists d :: d in db.findings &&
      ((d.sourceType == Name(k) && d.sourceId == id) || (d.relatedType == Some(Name(k)) && d.relatedId == Some(id)))
  }

  predicate Found(db: Store, like: Like, text: string, r: Row) {
    || like(r.id, text) || like(r.externalId, text)
    || exists m :: m in db.merchants && like(m.name, text) && m.id == r.merchant
  }

  /** A row of table `k` that the filter lets through. */
  predicate Matches(db: Store, like: Like, f: Filter, k: Kind, r: Row) {
    && (Given(f.recordType) ==> f.recordType.value == Name(k))
    && (Given(f.status) ==> k != Fee && r.status == f.status.value)
    && (Given(f.currency) ==> r.currency == f.currency.value)
    && (Given(f.merchant) ==> r.merchant == f.merchant.value)
    && (f.dateFrom.Some? ==> r.created >= f.dateFrom.value)
    && (f.dateTo.Some? ==> r.created <= f.dateTo.value)
    && (f.minAmount.Some? ==> r.amount >= f.minAmount.value)
    && (f.maxAmount.Some? ==> r.amount <= f.maxAmount.value)
    && (Given(f.search) ==> Found(db, like, f.search.value, r))
    && (f.reconciled.Some? ==> f.reconciled.value == Reconciled(db, k, r.id))
    && (f.hasDiscrepancy.Some? ==> f.hasDiscrepancy.value == HasDiscrepancy(db, k, r.id))
  }

  // ---------------------------------------------------------------- what a query carries

  function ResolveMerchants(merchants: seq<Merchant>, like: Like, text: string): seq<string> {
    if merchants == [] then []
    else
      var rest := ResolveMerchants(merchants[..|merchants| - 1], like, text);
      var last := merchants[|merchants| - 1];
      if like(last.name, text) then rest + [last.id] else rest
  }

  function MerchantIds(db: Store, like: Like, f: Filter): seq<string> {
    if Given(f.search) then ResolveMerchants(db.merchants, like, f.search.value) else []
  }

  /** The shared predicates; a search is one OR group over id, external id and the merchants resolved by name. */
  predicate Common(like: Like, f: Filter, merchantIds: seq<string>, r: Row) {
    && (Given(f.currency) ==> r.currency == f.currency.value)
    && (Given(f.merchant) ==> r.merchant == f.merchant.value)
    && (f.dateFrom.Some? ==> r.created >= f.dateFrom.value)
    && (f.dateTo.Some? ==> r.created <= f.dateTo.value)
    && (f.minAmount.Some? ==> r.amount >= f.minAmount.value)
    && (f.maxAmount.Some? ==> r.amount <= f.maxAmount.value)
    && (Given(f.search) ==>
          like(r.id, f.search.value) || like(r.externalId, f.search.value) || r.merchant in merchantIds)
  }

  /** The WHERE clause of one table's count query and of its part of the union. */
  predicate Where(db: Store, like: Like, f: Filter, merchantIds: seq<string>, k: Kind, r: Row) {
    && Common(like, f, merchantIds, r)
    && (Given(f.status) ==> r.status == f.status.value)
    && (f.reconciled == Some(true) ==> Reconciled(db, k, r.id))
    && (f.reconciled == Some(false) ==> !Reconciled(db, k, r.id))
    && (f.hasDiscrepancy == Some(true) ==> HasDiscrepancy(db, k, r.id))
    && (f.hasDiscrepancy == Some(false) ==> !HasDiscrepancy(db, k, r.id))
  }

  /** Tables that the type filter or the status filter excludes are not queried at all. */
  predicate Skipped(f: Filter, k: Kind) {
    (Given(f.recordType) && f.recordType.value != Name(k)) || (k == Fee && Given(f.status))
  }

  lemma {:induction false} ResolvedIff(merchants: seq<Merchant>, like: Like, text: string, id: string)
    ensures id in ResolveMerchants(merchants, like, text) <==>
        exists m :: m in merchants && like(m.name, text) && m.id == id
  {
    if merchants != [] {
      ResolvedIff(merchants[..|merchants| - 1], like, text, id);
      assert merchants == merchants[..|merchants| - 1] + [merchants[|merchants| - 1]];
    }
  }

  /** The queries select exactly what the filter means. */
  lemma QueriesMean(db: Store, like: Like, f: Filter, k: Kind, r: Row)
    ensures Matches(db, like, f, k, r) <==> !Skipped(f, k) && Where(db, like, f, MerchantIds(db, like, f), k, r)
  {
    if Given(f.search) { ResolvedIff(db.merchants, like, f.search.value, r.merchant); }
  }

  // ---------------------------------------------------------------- the union

  datatype Item = Item(kind: Kind, id: string, externalId: string, merchant: string, provider: string, amount: int,
                       currency: string, status: string, created: int)

  function Project(k: Kind, r: Row): Item {
    Item(k, r.id, r.externalId, r.merchant, r.provider, r.amount, r.currency,
         if k == Fee then "N/A" else r.status, r.created)
  }

  function SelectFrom(db: Store, like: Like, f: Filter, k: Kind, rows: seq<Row>): seq<Item> {
    if rows == [] then []
    else
      var rest := SelectFrom(db, like, f, k, rows[..|rows| - 1]);
      if Matches(db, like, f, k, rows[|rows| - 1]) then rest + [Project(k, rows[|rows| - 1])] else rest
  }

  function SelectOf(db: Store, like: Like, f: Filter, k: Kind): seq<Item> {
    SelectFrom(db, like, f, k, Table(db, k))
  }

  /** The matching records of the first `n` tables. */
  function Union(db: Store, like: Like, f: Filter, n: nat): seq<Item>
    requires n <= 5
  {
    if n == 0 then [] else Union(db, like, f, n - 1) + SelectOf(db, like, f, KINDS[n - 1])
  }

  /** Every record that matches, of all five tables. */
  function Selected(db: Store, like: Like, f: Filter): seq<Item> {
    Union(db, like, f, 5)
  }

  function Sum(counts: map<Kind, nat>, n: nat): nat
    requires n <= 5
  {
    if n == 0 then 0
    else Sum(counts, n - 1) + if KINDS[n - 1] in counts then counts[KINDS[n - 1]] else 0
  }

  lemma {:induction false} SelectedRows(db: Store, like: Like, f: Filter, k: Kind, rows: seq<Row>, x: Item)
    ensures x in SelectFrom(db, like, f, k, rows) <==>
        exists r :: r in rows && Matches(db, like, f, k, r) && x == Project(k, r)
  {
    if rows != [] {
      SelectedRows(db, like, f, k, rows[..|rows| - 1], x);
      assert rows == rows[..|rows| - 1] + [rows[|rows| - 1]];
    }
  }

  lemma {:induction false} UnionMembers(db: Store, like: Like, f: Filter, n: nat, x: Item)
    requires n <= 5
    ensures x in Union(db, like, f, n) <==> exists i :: 0 <= i < n && x in SelectOf(db, like, f, KINDS[i])
  {
    if n > 0 { UnionMembers(db, like, f, n - 1, x); }
  }

  /** The union holds exactly the matching records of the five tables. */
  lemma SelectedIff(db: Store, like: Like, f: Filter, x: Item)
    ensures x in Selected(db, like, f)
       <==> exists r :: r in Table(db, x.kind) && Matches(db, like, f, x.kind, r) && x == Project(x.kind, r)
  {
    UnionMembers(db, like, f, 5, x);
    SelectedRows(db, like, f, x.kind, Table(db, x.kind), x);
    if x in Selected(db, like, f) {
      var i :| 0 <= i < 5 && x in SelectOf(db, like, f, KINDS[i]);
      SelectedRows(db, like, f, KINDS[i], Table(db, KINDS[i]), x);
    }
    var at := match x.kind
      case Payment => 0 case Refund => 1 case Fee => 2 case Settlement => 3 case BankTransaction => 4;
    assert KINDS[at] == x.kind;
  }

  // ---------------------------------------------------------------- order

  /** Text order, character by character. */
  predicate Less(a: string, b: string) {
    if b == "" then false
    else if a == "" then true
    else a[0] < b[0] || (a[0] == b[0] && Less(a[1..], b[1..]))
  }

  lemma {:induction false} LessIsTotal(a: string, b: string)
    ensures a == b || Less(a, b) || Less(b, a)
    ensures !(Less(a, b) && Less(b, a))
  {
    if a != "" && b != "" {
      LessIsTotal(a[1..], b[1..]);
      assert a == [a[0]] + a[1..] && b == [b[0]] + b[1..];
    }
  }

  lemma {:induction false} LessIsTransitive(a: string, b: string, c: string)
    requires !Less(a, b) && !Less(b, c)
    ensures !Less(a, c)
  {
    if a != "" && b != "" && c != "" && a[0] == b[0] == c[0] { LessIsTransitive(a[1..], b[1..], c[1..]); }
  }

  /** Newest first, ties by descending id. */
  predicate Before(a: Item, b: Item) {
    a.created > b.created || (a.created == b.created && Less(b.id, a.id))
  }

  predicate NotAfter(a: Item, b: Item) {
    !Before(b, a)
  }

  function SortItems(items: seq<Item>): seq<Item> {
    Sort(NotAfter, items)
  }

  lemma NotAfterIsTotal()
    ensures TotalOrder(NotAfter)
  {
    forall a, b
      ensures NotAfter(a, b) || NotAfter(b, a)
    {
      LessIsTotal(a.id, b.id);
    }
    forall a, b, c | NotAfter(a, b) && NotAfter(b, c)
      ensures NotAfter(a, c)
    {
      if a.created == b.created == c.created { LessIsTransitive(a.id, b.id, c.id); }
    }
  }

  lemma TiesIff(a: Item, b: Item)
    ensures NotAfter(a, b) && NotAfter(b, a) <==> a.created == b.created && a.id == b.id
  {
    LessIsTotal(a.id, b.id);
  }

  // ---------------------------------------------------------------- pages

  /** Each table has its primary key; nothing keeps two tables from using one id. */
  predicate PrimaryKeys(db: Store) {
    forall k, i, j :: 0 <= i < j < |Table(db, k)| ==> Table(db, k)[i].id != Table(db, k)[j].id
  }

  predicate SharedKey(db: Store, k: Kind, m: Kind) {
    exists r, q :: r in Table(db, k) && q in Table(db, m) && r.id == q.id && r.created == q.created
  }

  lemma {:induction false} TableItemsDiffer(db: Store, like: Like, f: Filter, k: Kind, rows: seq<Row>)
    requires forall i, j :: 0 <= i < j < |rows| ==> rows[i].id != rows[j].id
    ensures Distinct(SelectFrom(db, like, f, k, rows))
  {
    if rows != [] {
      var n := |rows| - 1;
      TableItemsDiffer(db, like, f, k, rows[..n]);
      SelectedRows(db, like, f, k, rows[..n], Project(k, rows[n]));
    }
  }

  lemma KindOfSelected(db: Store, like: Like, f: Filter, k: Kind, x: Item)
    ensures x in SelectOf(db, like, f, k) ==> x.kind == k
  {
    SelectedRows(db, like, f, k, Table(db, k), x);
  }

  lemma {:induction false} UnionIsDistinct(db: Store, like: Like, f: Filter, n: nat)
    requires n <= 5 && PrimaryKeys(db)
    ensures Distinct(Union(db, like, f, n))
  {
    if n > 0 {
      var k := KINDS[n - 1];
      UnionIsDistinct(db, like, f, n - 1);
      TableItemsDiffer(db, like, f, k, Table(db, k));
      forall x | x in Union(db, like, f, n - 1)
        ensures x !in SelectOf(db, like, f, k)
      {
        UnionMembers(db, like, f, n - 1, x);
        var i :| 0 <= i < n - 1 && x in SelectOf(db, like, f, KINDS[i]);
        KindOfSelected(db, like, f, KINDS[i], x);
        KindOfSelected(db, like, f, k, x);
      }
      DistinctParts(Union(db, like, f, n - 1), SelectOf(db, like, f, k));
    }
  }

  /**
   When no two tables share an id and a creation time, the pages at 0, L, 2L and so on, put
   together, are the whole matching list in descending order, each record once, however
   ORDER BY arranges its rows from page to page.
   */
  lemma {:induction false} PagesConcatenate(db: Store, like: Like, f: Filter, limit: nat, answers: seq<seq<Item>>)
    requires PrimaryKeys(db) && forall k, m :: k != m ==> !SharedKey(db, k, m)
    requires Answers(NotAfter, Selected(db, like, f), limit, answers)
    ensures Pages(answers, limit) == SortItems(Selected(db, like, f))
    ensures Ordered(NotAfter, Selected(db, like, f), Pages(answers, limit))
  {
    var all := Selected(db, like, f);
    NotAfterIsTotal();
    SortSorts(NotAfter, all);
    forall x, y | x in all && y in all && NotAfter(x, y) && NotAfter(y, x)
      ensures x == y
    {
      TiesIff(x, y);
      TiedIsSame(db, like, f, x, y);
    }
    PagesAreTheList(NotAfter, all, limit, answers);
  }

  lemma TiedIsSame(db: Store, like: Like, f: Filter, x: Item, y: Item)
    requires PrimaryKeys(db) && (x.kind == y.kind || !SharedKey(db, x.kind, y.kind))
    requires x in Selected(db, like, f) && y in Selected(db, like, f) && x.created == y.created && x.id == y.id
    ensures x == y
  {
    SelectedIff(db, like, f, x);
    SelectedIff(db, like, f, y);
    var r :| r in Table(db, x.kind) && x == Project(x.kind, r);
    var q :| q in Table(db, y.kind) && y == Project(y.kind, q);
    if x.kind == y.kind {
      var rows := Table(db, x.kind);
      var i :| 0 <= i < |rows| && rows[i] == r;
      var j :| 0 <= j < |rows| && rows[j] == q;
    }
  }

  /**
   For every page size: some answers of ORDER BY lose a matching record on the way through the
   pages exactly when two records that share id and creation time stand, in sorted order, on
   either side of a page boundary.
   */
  lemma {:induction false} PagesLoseIff(db: Store, like: Like, f: Filter, limit: nat)
    requires PrimaryKeys(db) && limit > 0
    ensures var all := Selected(db, like, f);
      (exists answers, x :: Answers(NotAfter, all, limit, answers) && x in all && x !in Pages(answers, limit))
      <==> Straddles(NotAfter, SortItems(all), limit)
  {
    NotAfterIsTotal();
    UnionIsDistinct(db, like, f, 5);
    LosesIff(NotAfter, Selected(db, like, f), limit);
  }

  const NO_FILTER := Filter(None, None, None, None, None, None, None, None, None, None, None)

  /** The tables admit such records: a payment and a refund that agree on id and creation time. */
  lemma SharedKeyLosesARecord(like: Like, p: Row, r: Row) returns (db: Store)
    requires p.id == r.id && p.created == r.created
    ensures PrimaryKeys(db) && db.payments == [p] && db.refunds == [r]
    ensures Straddles(NotAfter, SortItems(Selected(db, like, NO_FILTER)), 1)
  {
    db := Store([p], [r], [], [], [], [], [], []);
    var all := Selected(db, like, NO_FILTER);
    var x, y := Project(Payment, p), Project(Refund, r);
    TwoItems(db, like, p, r);
    NotAfterIsTotal();
    SortSorts(NotAfter, all);
    var s := SortItems(all);
    assert |s| == |multiset(s)| == |multiset(all)| == 2;
    assert s[0] in multiset(all) && s[1] in multiset(all);
    TiesIff(s[0], s[1]);
    assert Torn(NotAfter, s, Offset(1, 1));
  }

  lemma TwoItems(db: Store, like: Like, p: Row, r: Row)
    requires db == Store([p], [r], [], [], [], [], [], [])
    ensures Selected(db, like, NO_FILTER) == [Project(Payment, p), Project(Refund, r)]
  {
    OneRow(db, like, Payment, p);
    OneRow(db, like, Refund, r);
    assert Union(db, like, NO_FILTER, 1) == SelectOf(db, like, NO_FILTER, KINDS[0]);
    assert Union(db, like, NO_FILTER, 2) == [Project(Payment, p), Project(Refund, r)];
    assert Union(db, like, NO_FILTER, 3) == Union(db, like, NO_FILTER, 2);
    assert Union(db, like, NO_FILTER, 4) == Union(db, like, NO_FILTER, 2);
  }

  lemma {:induction false} OneRow(db: Store, like: Like, k: Kind, r: Row)
    ensures SelectFrom(db, like, NO_FILTER, k, [r]) == [Project(k, r)]
  {
    assert [r][..0] == [];
  }

  // ---------------------------------------------------------------- counts

  lemma {:induction false} CountsAddUp(db: Store, like: Like, f: Filter, counts: map<Kind, nat>, n: nat)
    requires n <= 5
    requires forall i :: 0 <= i < n ==> KINDS[i] in counts && counts[KINDS[i]] == |SelectOf(db, like, f, KINDS[i])|
    ensures Sum(counts, n) == |Union(db, like, f, n)|
  {
    if n > 0 { CountsAddUp(db, like, f, counts, n - 1); }
  }

  /** A table that is not queried has nothing to contribute. */
  lemma {:induction false} SkippedIsEmpty(db: Store, like: Like, f: Filter, k: Kind, rows: seq<Row>)
    requires Skipped(f, k)
    ensures SelectFrom(db, like, f, k, rows) == []
  {
    if rows != [] { SkippedIsEmpty(db, like, f, k, rows[..|rows| - 1]); }
  }

  // ---------------------------------------------------------------- derived flags

  type Keys = set<(string, string)>

  predicate Touches(l: Link, keys: Keys) {
    (l.sourceType, l.sourceId) in keys || (l.targetType, l.targetId) in keys
  }

  predicate Concerns(d: Finding, keys: Keys) {
    || (d.sourceType, d.sourceId) in keys
    || (d.relatedType.Some? && d.relatedId.Some? && (d.relatedType.value, d.relatedId.value) in keys)
  }

  predicate Ends(l: Link, key: (string, string)) {
    key == (l.sourceType, l.sourceId) || key == (l.targetType, l.targetId)
  }

  /** What a finding flags; an empty related type or id flags nothing. */
  predicate Flags(d: Finding, key: (string, string)) {
    || key == (d.sourceType, d.sourceId)
    || (Given(d.relatedType) && Given(d.relatedId) && key == (d.relatedType.value, d.relatedId.value))
  }

  /** The key of a listed record. */
  function KeyOf(x: Item): (string, string) {
    (Name(x.kind), x.id)
  }

  datatype Listed = Listed(item: Item, merchantName: string, reconciled: bool, hasDiscrepancy: bool)

  function MerchantName(merchants: seq<Merchant>, id: string): string {
    if merchants == [] then "Unknown merchant"
    else if merchants[|merchants| - 1].id == id then merchants[|merchants| - 1].name
    else MerchantName(merchants[..|merchants| - 1], id)
  }

  class Listing {
    const db: Store
    const like: Like

    constructor (db: Store, like: Like)
      ensures this.db == db && this.like == like
    {
      this.db, this.like := db, like;
    }

    method CountRows(f: Filter, k: Kind, merchantIds: seq<string>) returns (count: nat)
      requires !Skipped(f, k) && merchantIds == MerchantIds(db, like, f)
      ensures count == |SelectOf(db, like, f, k)|
    {
      var rows := Table(db, k);
      count := 0;
      for i := 0 to |rows|
        invariant count == |SelectFrom(db, like, f, k, rows[..i])|
      {
        assert rows[..i + 1][..i] == rows[..i];
        QueriesMean(db, like, f, k, rows[i]);
        if Where(db, like, f, merchantIds, k, rows[i]) { count := count + 1; }
      }
      assert rows[..|rows|] == rows;
    }

    method SelectRows(f: Filter, k: Kind, merchantIds: seq<string>) returns (items: seq<Item>)
      requires !Skipped(f, k) && merchantIds == MerchantIds(db, like, f)
      ensures items == SelectOf(db, like, f, k)
    {
      var rows := Table(db, k);
      items := [];
      for i := 0 to |rows|
        invariant items == SelectFrom(db, like, f, k, rows[..i])
      {
        assert rows[..i + 1][..i] == rows[..i];
        QueriesMean(db, like, f, k, rows[i]);
        if Where(db, like, f, merchantIds, k, rows[i]) { items := items + [Project(k, rows[i])]; }
      }
      assert rows[..|rows|] == rows;
    }

    method Counts(f: Filter, merchantIds: seq<string>) returns (summary: map<Kind, nat>, total: nat)
      requires merchantIds == MerchantIds(db, like, f)
      ensures forall k :: k in summary && summary[k] == |SelectOf(db, like, f, k)|
      ensures total == |Selected(db, like, f)| == Sum(summary, 5)
    {
      summary := map[Payment := 0, Refund := 0, Fee := 0, Settlement := 0, BankTransaction := 0];
      total := 0;
      for i := 0 to 5
        invariant forall j :: 0 <= j < 5 ==> KINDS[j] in summary
        invariant forall j :: 0 <= j < i ==> summary[KINDS[j]] == |SelectOf(db, like, f, KINDS[j])|
        invariant forall j :: i <= j < 5 ==> summary[KINDS[j]] == 0
        invariant total == |Union(db, like, f, i)|
      {
        if Skipped(f, KINDS[i]) {
          SkippedIsEmpty(db, like, f, KINDS[i], Table(db, KINDS[i]));
        } else {
          var count := CountRows(f, KINDS[i], merchantIds);
          summary := summary[KINDS[i] := count];
          total := total + count;
        }
      }
      CountsAddUp(db, like, f, summary, 5);
      forall k ensures k in summary && summary[k] == |SelectOf(db, like, f, k)| {
        assert k == KINDS[0] || k == KINDS[1] || k == KINDS[2] || k == KINDS[3] || k == KINDS[4];
      }
    }

    method UnionAll(f: Filter, merchantIds: seq<string>) returns (items: seq<Item>)
      requires merchantIds == MerchantIds(db, like, f)
      ensures items == Selected(db, like, f)
    {
      items := [];
      for i := 0 to 5
        invariant items == Union(db, like, f, i)
      {
        if Skipped(f, KINDS[i]) {
          SkippedIsEmpty(db, like, f, KINDS[i], Table(db, KINDS[i]));
        } else {
          var part := SelectRows(f, KINDS[i], merchantIds);
          items := items + part;
        }
      }
    }

    /** The ids of the links that touch the page, both ends of each. */
    method ReconciledIds(keys: Keys) returns (ids: Keys)
      ensures forall k, id :: (Name(k), id) in keys ==> ((Name(k), id) in ids <==> Reconciled(db, k, id))
    {
      ids := {};
      for i := 0 to |db.links|
        invariant forall key :: key in ids <==>
            exists j :: 0 <= j < i && Touches(db.links[j], keys) && Ends(db.links[j], key)
      {
        var l := db.links[i];
        if Touches(l, keys) {
          ids := ids + {(l.sourceType, l.sourceId), (l.targetType, l.targetId)};
        }
      }
    }

    /** The ids of the findings that concern the page; an empty related id is left out. */
    method DiscrepancyIds(keys: Keys) returns (ids: Keys)
      ensures forall k, id :: (Name(k), id) in keys && id != "" ==>
          ((Name(k), id) in ids <==> HasDiscrepancy(db, k, id))
    {
      ids := {};
      for i := 0 to |db.findings|
        invariant forall key :: key in ids <==>
            exists j :: 0 <= j < i && Concerns(db.findings[j], keys) && Flags(db.findings[j], key)
      {
        var d := db.findings[i];
        if Concerns(d, keys) {
          ids := ids + {(d.sourceType, d.sourceId)};
          if Given(d.relatedType) && Given(d.relatedId) { ids := ids + {(d.relatedType.value, d.relatedId.value)}; }
        }
      }
    }

    /** One page of the listing, with its counts and the derived flags of its records. */
    method ListTransactions(f: Filter, limit: nat, offset: nat)
      returns (page: seq<Listed>, total: nat, summary: map<Kind, nat>)
      ensures var items := Page(SortItems(Selected(db, like, f)), offset, limit);
        && |page| == |items|
        && (forall i :: 0 <= i < |page| ==> page[i].item == items[i] && DecoratedRight(page[i]))
      ensures total == |Selected(db, like, f)| == Sum(summary, 5)
      ensures forall k :: k in summary && summary[k] == |SelectOf(db, like, f, k)|
    {
      var merchantIds := MerchantIds(db, like, f);
      summary, total := Counts(f, merchantIds);
      var union := UnionAll(f, merchantIds);
      var items := Page(SortItems(union), offset, limit);
      page := Decorate(items);
    }

    /** The merchant's name and the flags that the filter predicates would give the record. */
    ghost predicate DecoratedRight(x: Listed) {
      && x.merchantName == MerchantName(db.merchants, x.item.merchant)
      && x.reconciled == Reconciled(db, x.item.kind, x.item.id)
      && (x.item.id != "" ==> x.hasDiscrepancy == HasDiscrepancy(db, x.item.kind, x.item.id))
    }

    method Decorate(items: seq<Item>) returns (page: seq<Listed>)
      ensures |page| == |items|
      ensures forall i :: 0 <= i < |page| ==> page[i].item == items[i] && DecoratedRight(page[i])
    {
      var keys := set x | x in items :: KeyOf(x);
      var reconciled := ReconciledIds(keys);
      var flagged := DiscrepancyIds(keys);
      page := [];
      for i := 0 to |items|
        invariant |page| == i
        invariant forall j :: 0 <= j < i ==> page[j].item == items[j] && DecoratedRight(page[j])
      {
        var x := items[i];
        assert KeyOf(x) in keys;
        page := page + [Listed(x, MerchantName(db.merchants, x.merchant), KeyOf(x) in reconciled, KeyOf(x) in flagged)];
      }
    }
  }
}
