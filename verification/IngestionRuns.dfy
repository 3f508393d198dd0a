/** What any number of submissions and retries keep. */
module IngestionRuns {
  import opened Wrappers
  import opened Validation
  import opened Fingerprints
  import opened Ingestion

  /** What one stored run was given. */
  datatype Submission = Submission(sourceType: string, raws: seq<Raw>)

  /** The tables with the merchants and orders of the moment, and beside them the submission behind each run. */
  datatype World = World(t: Tables, log: seq<Submission>, dir: Directory)

  datatype Event =
    | Submit(sourceType: string, raws: seq<Raw>, env: nat -> RowEnv, persists: bool)
    | Retry(run: nat, env: nat -> RowEnv, persists: bool)
    | Onboard(merchants: seq<Merchant>, orders: seq<Order>)

  /** The batch an event hands to `create_run`, if it gets that far. */
  function SubmissionOf(t: Tables, ev: Event): Option<Submission> {
    match ev
    case Submit(s, raws, _, _) => Some(Submission(s, raws))
    case Retry(run, _, _) =>
      if CanRetry(t, run) then Some(Submission(t.runs[run].sourceType, RetryRows(t, run))) else None
    case Onboard(_, _) => None
  }

  function Submitted(h: Hash, w: World, s: Submission, env: nat -> RowEnv, persists: bool): World {
    var t := CreateRun(h, w.dir, w.t, s.sourceType, s.raws, env, persists);
    World(t, if |t.runs| > |w.t.runs| then w.log + [s] else w.log, w.dir)
  }

  function Step(h: Hash, w: World, ev: Event): World {
    var s := SubmissionOf(w.t, ev);
    if ev.Onboard? then w.(dir := Directory(w.dir.merchants + ev.merchants, w.dir.orders + ev.orders))
    else if s.None? then w
    else Submitted(h, w, s.value, ev.env, ev.persists)
  }

  function History(h: Hash, w: World, events: seq<Event>): World {
    if events == [] then w else Step(h, History(h, w, events[..|events| - 1]), events[|events| - 1])
  }

  function Start(dir: Directory, seed: seq<Fact>): World {
    World(Tables(seed, [], [], []), [], dir)
  }

  // ---------------------------------------------------------------- the invariant

  /** A finished run has one record per row and its counters count them; a crashed one a prefix that ends FAILED. */
  predicate RunSound(h: Hash, run: Run, mine: seq<RowRecord>, s: Submission) {
    && run.sourceType == s.sourceType && run.fingerprint == Batch(h, s.sourceType, s.raws) && run.total == |s.raws|
    && |mine| <= |s.raws|
    && (forall k :: 0 <= k < |mine| ==> mine[k].index == k && mine[k].raw == s.raws[k])
    && (forall k :: 0 <= k < |mine| ==> mine[k].status in {Accepted, Duplicate, Failed} ==> Normalize(mine[k].raw).Ok?)
    && run.failed == Count(mine, Failed)
    && match run.status
       case Running => false
       case RunFailed => mine != [] && mine[|mine| - 1].status == Failed &&
           run.accepted == run.duplicate == run.rejected == 0
       case _ =>
         && |mine| == |s.raws|
         && run.accepted == Count(mine, Accepted) && run.duplicate == Count(mine, Duplicate)
         && run.rejected == Count(mine, Rejected)
         && run.total == run.accepted + run.duplicate + run.rejected + run.failed
         && (run.status == Completed <==> run.rejected + run.failed == 0)
  }

  predicate RunsSound(h: Hash, w: World) {
    && |w.log| == |w.t.runs|
    && (forall i :: 0 <= i < |w.log| ==> RunSound(h, w.t.runs[i], RecordsOf(w.t.records, i), w.log[i]))
    && (forall i, j :: 0 <= i < j < |w.log| ==> w.t.runs[i].fingerprint != w.t.runs[j].fingerprint)
    && (forall k :: 0 <= k < |w.t.records| ==> w.t.records[k].run < |w.t.runs|)
  }

  predicate Sound(h: Hash, seed: seq<Fact>, w: World) {
    OneToOne(h, seed, w.t) && RunsSound(h, w)
  }

  lemma {:induction false} CountsAddUp(records: seq<RowRecord>)
    ensures Count(records, Accepted) + Count(records, Duplicate) + Count(records, Rejected) +
        Count(records, Failed) == |records|
  {
    if records != [] { CountsAddUp(records[..|records| - 1]); }
  }

  // ---------------------------------------------------------------- one submission

  /** Later tables keep every fact, ledger row, record and run of earlier ones, in place. */
  predicate Keeps(t: Tables, t': Tables) {
    t.facts <= t'.facts && t.ledger <= t'.ledger && t.records <= t'.records && t.runs <= t'.runs
  }

  /** The tables `create_run` processes its rows in. */
  function Begin(t: Tables, sourceType: string, fingerprint: nat, total: nat): Tables {
    t.(runs := t.runs + [Run(sourceType, fingerprint, Running, total, 0, 0, 0, 0)])
  }

  lemma OneToOneIgnoresRuns(h: Hash, seed: seq<Fact>, t: Tables, runs: seq<Run>)
    requires OneToOne(h, seed, t)
    ensures OneToOne(h, seed, t.(runs := runs))
  {
  }

  lemma {:induction false} AppendedAreOwn(t: Tables, t': Tables, run: nat, raws: seq<Raw>, crashed: bool)
    requires BatchGrows(t, t', run, raws, crashed)
    requires forall k :: 0 <= k < |t.records| ==> t.records[k].run < run
    ensures t'.records == t.records + t'.records[|t.records|..]
    ensures RecordsOf(t'.records, run) == t'.records[|t.records|..]
  {
    assert t'.records == t.records + t'.records[|t.records|..];
    RecordsAfter(t.records, t'.records[|t.records|..], run, run);
  }

  /** The rows of a new run append their own records, and nobody else's. */
  lemma {:induction false} RowsOfANewRun(h: Hash, seed: seq<Fact>, w: World, s: Submission, fp: nat, env: nat -> RowEnv)
    requires Sound(h, seed, w)
    ensures var t0 := Begin(w.t, s.sourceType, fp, |s.raws|);
      var (done, crashed) := ProcessRows(h, w.dir, t0, |w.t.runs|, s.raws, env);
      && OneToOne(h, seed, done) && BatchGrows(t0, done, |w.t.runs|, s.raws, crashed)
      && done.records == w.t.records + done.records[|w.t.records|..]
      && RecordsOf(done.records, |w.t.runs|) == done.records[|w.t.records|..]
  {
    var t0 := Begin(w.t, s.sourceType, fp, |s.raws|);
    OneToOneIgnoresRuns(h, seed, w.t, t0.runs);
    RowsAppend(h, w.dir, t0, |w.t.runs|, s.raws, env);
    RowsKeepOneToOne(h, w.dir, seed, t0, |w.t.runs|, s.raws, env);
    var (done, crashed) := ProcessRows(h, w.dir, t0, |w.t.runs|, s.raws, env);
    AppendedAreOwn(t0, done, |w.t.runs|, s.raws, crashed);
  }

  /** The run that `create_run` saves over its rows. */
  function Saved(h: Hash, s: Submission, mine: seq<RowRecord>, crashed: bool): Run {
    var started := Run(s.sourceType, Batch(h, s.sourceType, s.raws), Running, |s.raws|, 0, 0, 0, 0);
    if crashed then Abandon(started, mine) else Finish(started, mine)
  }

  /** What `create_run` stores about a run agrees with the records its rows made. */
  lemma ClosedRunIsSound(h: Hash, t: Tables, t': Tables, s: Submission, crashed: bool)
    requires BatchGrows(t, t', |t.runs|, s.raws, crashed)
    ensures var made := t'.records[|t.records|..]; RunSound(h, Saved(h, s, made, crashed), made, s)
  {
    CountsAddUp(t'.records[|t.records|..]);
  }

  lemma NewRunIsSound(h: Hash, w: World, s: Submission, done: Tables, made: seq<RowRecord>, run: Run)
    requires RunsSound(h, w) && !KnownBatch(w.t, run.fingerprint)
    requires done.records == w.t.records + made
    requires forall k :: 0 <= k < |made| ==> made[k].run == |w.t.runs|
    requires RunSound(h, run, made, s)
    ensures RunsSound(h, World(done.(runs := w.t.runs + [run]), w.log + [s], w.dir))
  {
    var w' := World(done.(runs := w.t.runs + [run]), w.log + [s], w.dir);
    forall i | 0 <= i < |w'.log|
      ensures RunSound(h, w'.t.runs[i], RecordsOf(w'.t.records, i), w'.log[i])
    {
      RecordsAfter(w.t.records, made, |w.t.runs|, i);
    }
  }

  /** The rows of one batch behind everything that was stored before. */
  predicate Extends(w: World, s: Submission, done: Tables, crashed: bool) {
    && w.t.records <= done.records
    && BatchGrows(w.t, done.(runs := w.t.runs), |w.t.runs|, s.raws, crashed)
  }

  lemma SavedRunIsSound(h: Hash, w: World, s: Submission, done: Tables, crashed: bool)
    requires RunsSound(h, w) && !KnownBatch(w.t, Batch(h, s.sourceType, s.raws)) && Extends(w, s, done, crashed)
    ensures var run := Saved(h, s, done.records[|w.t.records|..], crashed);
      RunsSound(h, World(done.(runs := w.t.runs + [run]), w.log + [s], w.dir))
  {
    var made := done.records[|w.t.records|..];
    var run := Saved(h, s, made, crashed);
    assert done.records == w.t.records + made;
    ClosedRunIsSound(h, w.t, done.(runs := w.t.runs), s, crashed);
    NewRunIsSound(h, w, s, done, made, run);
  }

  lemma GrowthIgnoresRuns(t: Tables, t': Tables, runs: seq<Run>, run: nat, raws: seq<Raw>, crashed: bool)
    requires BatchGrows(t.(runs := runs), t', run, raws, crashed)
    ensures BatchGrows(t, t'.(runs := t.runs), run, raws, crashed)
  {
    var grown := t'.(runs := t.runs);
    assert grown.records[|t.records|..] == t'.records[|t.records|..];
  }

  lemma NewRunExtends(h: Hash, w: World, s: Submission, done: Tables, crashed: bool)
    requires BatchGrows(Begin(w.t, s.sourceType, Batch(h, s.sourceType, s.raws), |s.raws|), done, |w.t.runs|,
        s.raws, crashed)
    ensures Extends(w, s, done, crashed)
  {
    var t0 := Begin(w.t, s.sourceType, Batch(h, s.sourceType, s.raws), |s.raws|);
    GrowthIgnoresRuns(w.t, done, t0.runs, |w.t.runs|, s.raws, crashed);
    assert done.records == w.t.records + done.records[|w.t.records|..];
  }

  /** What a submission of a new batch leaves: the saved run, or nothing when the failure cannot be saved. */
  lemma SubmittedIs(h: Hash, w: World, s: Submission, env: nat -> RowEnv, persists: bool, done: Tables, crashed: bool)
    requires !KnownBatch(w.t, Batch(h, s.sourceType, s.raws)) && |done.records| >= |w.t.records|
    requires (done, crashed) == ProcessRows(h, w.dir,
        Begin(w.t, s.sourceType, Batch(h, s.sourceType, s.raws), |s.raws|), |w.t.runs|, s.raws, env)
    requires RecordsOf(done.records, |w.t.runs|) == done.records[|w.t.records|..]
    ensures Submitted(h, w, s, env, persists) ==
      if crashed && !persists then w
      else World(done.(runs := w.t.runs + [Saved(h, s, done.records[|w.t.records|..], crashed)]), w.log + [s], w.dir)
  {
  }

  lemma SubmissionKeepsSound(h: Hash, seed: seq<Fact>, w: World, s: Submission, env: nat -> RowEnv, persists: bool)
    requires Sound(h, seed, w)
    ensures Keeps(w.t, Submitted(h, w, s, env, persists).t) && Sound(h, seed, Submitted(h, w, s, env, persists))
  {
    var fp := Batch(h, s.sourceType, s.raws);
    if !KnownBatch(w.t, fp) {
      var (done, crashed) := ProcessRows(h, w.dir, Begin(w.t, s.sourceType, fp, |s.raws|), |w.t.runs|, s.raws, env);
      RowsOfANewRun(h, seed, w, s, fp, env);
      NewRunExtends(h, w, s, done, crashed);
      SubmittedIs(h, w, s, env, persists, done, crashed);
      SavedRunIsSound(h, w, s, done, crashed);
      OneToOneIgnoresRuns(h, seed, done, w.t.runs + [Saved(h, s, done.records[|w.t.records|..], crashed)]);
    }
  }

  lemma StepKeepsSound(h: Hash, seed: seq<Fact>, w: World, ev: Event)
    requires Sound(h, seed, w)
    ensures Sound(h, seed, Step(h, w, ev)) && Keeps(w.t, Step(h, w, ev).t) && w.log <= Step(h, w, ev).log
  {
    var s := SubmissionOf(w.t, ev);
    if !ev.Onboard? && s.Some? { SubmissionKeepsSound(h, seed, w, s.value, ev.env, ev.persists); }
  }

  predicate DistinctFacts(facts: seq<Fact>) {
    forall j, k :: 0 <= j < k < |facts| ==> !SameKey(facts[j], facts[k])
  }

  lemma {:induction false} RunKeepsSound(h: Hash, seed: seq<Fact>, w: World, events: seq<Event>)
    requires Sound(h, seed, w)
    ensures var w' := History(h, w, events); Sound(h, seed, w') && Keeps(w.t, w'.t) && w.log <= w'.log
  {
    if events != [] {
      RunKeepsSound(h, seed, w, events[..|events| - 1]);
      StepKeepsSound(h, seed, History(h, w, events[..|events| - 1]), events[|events| - 1]);
    }
  }

  /**
   After any sequence of submissions and retries, with rollbacks, crashes and repeated rows:
   accepted records, ledger rows and ingested facts correspond one to one, and every stored
   run's records and counters agree.
   */
  lemma {:induction false} ExactlyOnce(h: Hash, dir: Directory, seed: seq<Fact>, events: seq<Event>)
    requires DistinctFacts(seed)
    ensures Sound(h, seed, History(h, Start(dir, seed), events))
  {
    RunKeepsSound(h, seed, Start(dir, seed), events);
  }

  /** Whatever happens later, no fact, ledger row, row record or run of today changes or moves. */
  lemma {:induction false} NothingStoredChanges(h: Hash, dir: Directory, seed: seq<Fact>, before: seq<Event>,
          after: seq<Event>)
    requires DistinctFacts(seed)
    ensures var w := History(h, Start(dir, seed), before);
      Keeps(w.t, History(h, w, after).t)
  {
    ExactlyOnce(h, dir, seed, before);
    RunKeepsSound(h, seed, History(h, Start(dir, seed), before), after);
  }

  // ---------------------------------------------------------------- duplicate batches

  predicate SameBatch(a: Submission, b: Submission) {
    a.sourceType == b.sourceType && multiset(ValidRows(a.raws)) == multiset(ValidRows(b.raws))
  }

  /**
   A submission is answered as a duplicate exactly when a stored run has its source type and
   its normalised valid rows, in any order and whatever the invalid rows; it then changes
   nothing. Any other submission opens a run, unless its crash cannot even be saved.
   */
  lemma DuplicateIff(h: Hash, seed: seq<Fact>, w: World, s: Submission, env: nat -> RowEnv, persists: bool)
    requires CollisionFree(h) && Sound(h, seed, w)
    ensures var t := CreateRun(h, w.dir, w.t, s.sourceType, s.raws, env, persists);
      var known := exists i :: 0 <= i < |w.log| && SameBatch(w.log[i], s);
      && (KnownBatch(w.t, Batch(h, s.sourceType, s.raws)) <==> known)
      && (known ==> t == w.t)
      && (!known && persists ==> |t.runs| == |w.t.runs| + 1)
  {
    var fp := Batch(h, s.sourceType, s.raws);
    forall i | 0 <= i < |w.log|
      ensures w.t.runs[i].fingerprint == fp <==> SameBatch(w.log[i], s)
    {
      SameBatchIff(h, w.log[i].sourceType, w.log[i].raws, s.sourceType, s.raws);
      assert RunSound(h, w.t.runs[i], RecordsOf(w.t.records, i), w.log[i]);
    }
    if KnownBatch(w.t, fp) {
      var i :| 0 <= i < |w.t.runs| && w.t.runs[i].fingerprint == fp;
      assert SameBatch(w.log[i], s);
    }
  }

  /** Batches without a valid row are all one batch per source type: the second one leaves no trace. */
  lemma InvalidBatchesCollide(h: Hash, seed: seq<Fact>, w: World, i: nat, s: Submission, env: nat -> RowEnv,
          persists: bool)
    requires CollisionFree(h) && Sound(h, seed, w)
    requires i < |w.log| && w.log[i].sourceType == s.sourceType
    requires ValidRows(w.log[i].raws) == [] && ValidRows(s.raws) == []
    ensures CreateRun(h, w.dir, w.t, s.sourceType, s.raws, env, persists) == w.t
  {
    DuplicateIff(h, seed, w, s, env, persists);
    assert SameBatch(w.log[i], s);
  }

  // ---------------------------------------------------------------- crashes

  /**
   A run that is saved as FAILED has records for a prefix of its rows only. The rows behind
   the crash cannot be retried from it, and submitting the same rows again is answered as a
   duplicate.
   */
  lemma {:induction false} RowsBehindACrash(h: Hash, seed: seq<Fact>, w: World, i: nat, env: nat -> RowEnv,
          persists: bool)
    requires CollisionFree(h) && Sound(h, seed, w) && i < |w.t.runs| && w.t.runs[i].status == RunFailed
    ensures var mine := RecordsOf(w.t.records, i);
      && 0 < |mine| <= |w.log[i].raws|
      && (forall x :: x in RetryRows(w.t, i) ==> x in w.log[i].raws[..|mine|])
      && CreateRun(h, w.dir, w.t, w.log[i].sourceType, w.log[i].raws, env, persists) == w.t
  {
    var mine := RecordsOf(w.t.records, i);
    assert RunSound(h, w.t.runs[i], mine, w.log[i]);
    FailedAreRecorded(mine);
    forall x | x in RetryRows(w.t, i)
      ensures x in w.log[i].raws[..|mine|]
    {
      var r :| r in mine && r.raw == x;
      var k :| 0 <= k < |mine| && mine[k] == r;
      assert w.log[i].raws[..|mine|][k] == x;
    }
    DuplicateIff(h, seed, w, w.log[i], env, persists);
    assert SameBatch(w.log[i], w.log[i]);
  }

  lemma {:induction false} FailedAreRecorded(records: seq<RowRecord>)
    ensures forall x :: x in FailedRaws(records) ==> exists r :: r in records && r.raw == x && r.status == Failed
  {
    if records != [] {
      FailedAreRecorded(records[..|records| - 1]);
      assert records == records[..|records| - 1] + [records[|records| - 1]];
    }
  }

  /** The guard of an unexpected failure: a valid row of a new identity whose materialisation raises. */
  predicate Raises(dir: Directory, t: Tables, raw: Raw, env: RowEnv) {
    && Normalize(raw).Ok? && !InLedger(t.ledger, IdentityOf(Normalize(raw).value))
    && (env.crash || Materialize(dir, t.facts, env.factId, Normalize(raw).value).Raised?)
  }

  /** Row `k` is reached, and raises on the tables its predecessors left. */
  predicate RaisesAt(h: Hash, dir: Directory, t: Tables, run: nat, raws: seq<Raw>, env: nat -> RowEnv, k: nat) {
    && k < |raws|
    && var (before, crashed) := ProcessRows(h, dir, t, run, raws[..k], env);
      !crashed && Raises(dir, before, raws[k], env(k))
  }

  lemma RaisesAtPrefix(h: Hash, dir: Directory, t: Tables, run: nat, raws: seq<Raw>, env: nat -> RowEnv, k: nat)
    requires raws != [] && k < |raws| - 1
    ensures RaisesAt(h, dir, t, run, raws, env, k) <==> RaisesAt(h, dir, t, run, raws[..|raws| - 1], env, k)
  {
    assert raws[..|raws| - 1][..k] == raws[..k];
  }

  lemma RaisingCrashes(h: Hash, dir: Directory, t: Tables, run: nat, index: nat, raw: Raw, env: RowEnv)
    ensures ProcessRow(h, dir, t, run, index, raw, env).1 <==> Raises(dir, t, raw, env)
  {
  }

  lemma {:induction false} CrashCarries(h: Hash, dir: Directory, t: Tables, run: nat, raws: seq<Raw>,
          env: nat -> RowEnv)
    requires raws != [] && ProcessRows(h, dir, t, run, raws[..|raws| - 1], env).1
    ensures ProcessRows(h, dir, t, run, raws, env) == ProcessRows(h, dir, t, run, raws[..|raws| - 1], env)
  {
  }

  /** A row that raises ends its batch, which then has records up to that row. */
  lemma {:induction false} RaisingEnds(h: Hash, dir: Directory, t: Tables, run: nat, raws: seq<Raw>,
          env: nat -> RowEnv, k: nat)
    requires RaisesAt(h, dir, t, run, raws, env, k)
    ensures var (t', crashed) := ProcessRows(h, dir, t, run, raws, env);
      crashed && |t'.records| == |t.records| + k + 1
  {
    if k < |raws| - 1 {
      RaisesAtPrefix(h, dir, t, run, raws, env, k);
      RaisingEnds(h, dir, t, run, raws[..|raws| - 1], env, k);
      CrashCarries(h, dir, t, run, raws, env);
    } else {
      LastRaises(h, dir, t, run, raws, env);
    }
  }

  lemma {:induction false} LastRaises(h: Hash, dir: Directory, t: Tables, run: nat, raws: seq<Raw>, env: nat -> RowEnv)
    requires raws != [] && RaisesAt(h, dir, t, run, raws, env, |raws| - 1)
    ensures var (t', crashed) := ProcessRows(h, dir, t, run, raws, env);
      crashed && |t'.records| == |t.records| + |raws|
  {
    var n := |raws| - 1;
    var (before, _) := ProcessRows(h, dir, t, run, raws[..n], env);
    RowsAppend(h, dir, t, run, raws[..n], env);
    RaisingCrashes(h, dir, before, run, n, raws[n], env(n));
    RowStep(h, dir, before, run, n, raws[n], env(n));
  }

  /** And every crash has such a row. */
  lemma {:induction false} RaiserOf(h: Hash, dir: Directory, t: Tables, run: nat, raws: seq<Raw>, env: nat -> RowEnv)
    returns (k: nat)
    requires ProcessRows(h, dir, t, run, raws, env).1
    ensures RaisesAt(h, dir, t, run, raws, env, k)
  {
    var n := |raws| - 1;
    if ProcessRows(h, dir, t, run, raws[..n], env).1 {
      k := RaiserOf(h, dir, t, run, raws[..n], env);
      RaisesAtPrefix(h, dir, t, run, raws, env, k);
    } else {
      k := n;
    }
  }

  /**
   A saved run lacks the record of some row if and only if a row other than its last raised:
   one that was valid, had a new identity, and met an unexpected failure or an ambiguous
   reference. The run then has records up to that row and none behind it.
   */
  lemma MissingRecordsIff(h: Hash, seed: seq<Fact>, w: World, s: Submission, env: nat -> RowEnv)
    requires Sound(h, seed, w) && !KnownBatch(w.t, Batch(h, s.sourceType, s.raws))
    ensures var t := CreateRun(h, w.dir, w.t, s.sourceType, s.raws, env, true);
      var t0 := Begin(w.t, s.sourceType, Batch(h, s.sourceType, s.raws), |s.raws|);
      var id := |w.t.runs|;
      && |t.runs| == id + 1 && t.runs[id].total == |s.raws|
      && (|RecordsOf(t.records, id)| < t.runs[id].total
          <==> exists k: nat :: k < |s.raws| - 1 && RaisesAt(h, w.dir, t0, id, s.raws, env, k))
      && forall k: nat :: RaisesAt(h, w.dir, t0, id, s.raws, env, k) ==> |RecordsOf(t.records, id)| == k + 1
  {
    var fp := Batch(h, s.sourceType, s.raws);
    var t0 := Begin(w.t, s.sourceType, fp, |s.raws|);
    RowsOfANewRun(h, seed, w, s, fp, env);
    if ProcessRows(h, w.dir, t0, |w.t.runs|, s.raws, env).1 {
      var k := RaiserOf(h, w.dir, t0, |w.t.runs|, s.raws, env);
      RaisingEnds(h, w.dir, t0, |w.t.runs|, s.raws, env, k);
    }
    forall k: nat | RaisesAt(h, w.dir, t0, |w.t.runs|, s.raws, env, k)
      ensures |ProcessRows(h, w.dir, t0, |w.t.runs|, s.raws, env).0.records| == |w.t.records| + k + 1
    {
      RaisingEnds(h, w.dir, t0, |w.t.runs|, s.raws, env, k);
    }
  }

  // ---------------------------------------------------------------- retries

  /** A retry works on FAILED rows alone, and each of them is a valid row. */
  lemma {:induction false} RetriedRowsAreValid(h: Hash, seed: seq<Fact>, w: World, i: nat)
    requires Sound(h, seed, w) && i < |w.t.runs|
    ensures forall x :: x in RetryRows(w.t, i) ==>
      Normalize(x).Ok? && exists r :: r in RecordsOf(w.t.records, i) && r.raw == x && r.status == Failed
  {
    var mine := RecordsOf(w.t.records, i);
    assert RunSound(h, w.t.runs[i], mine, w.log[i]);
    FailedAreRecorded(mine);
    forall x | x in RetryRows(w.t, i)
      ensures Normalize(x).Ok?
    {
      var r :| r in mine && r.raw == x && r.status == Failed;
      var k :| 0 <= k < |mine| && mine[k] == r;
      assert Normalize(mine[k].raw).Ok?;
    }
  }

  /** No event adds a fact whose identity the ledger already holds; new facts are exactly the new ledger rows. */
  lemma NoIdentityTwice(h: Hash, seed: seq<Fact>, w: World, ev: Event)
    requires Sound(h, seed, w)
    ensures var t := Step(h, w, ev).t;
      && |t.facts| - |w.t.facts| == |t.ledger| - |w.t.ledger|
      && forall k :: |w.t.facts| <= k < |t.facts| ==> !InLedger(w.t.ledger, FactIdentity(t.facts[k]))
  {
    var t := Step(h, w, ev).t;
    StepKeepsSound(h, seed, w, ev);
    forall k | |w.t.facts| <= k < |t.facts|
      ensures !InLedger(w.t.ledger, FactIdentity(t.facts[k]))
    {
      var l := k - |seed|;
      assert PairedAt(h, AcceptedOf(t.records)[l], t.ledger[l], t.facts[|seed| + l]);
      forall j | 0 <= j < |w.t.ledger|
        ensures w.t.ledger[j].identity != FactIdentity(t.facts[k])
      {
        assert w.t.ledger[j] == t.ledger[j];
      }
    }
  }

  /**
   A retry opens a new run exactly when the run exists, has FAILED rows, and no stored run has
   their source type and rows already. Otherwise it leaves the world as it is.
   */
  lemma RetryOpensARunIff(h: Hash, seed: seq<Fact>, w: World, i: nat, env: nat -> RowEnv)
    requires CollisionFree(h) && Sound(h, seed, w)
    ensures var w' := Step(h, w, Retry(i, env, true));
      var opens := i < |w.t.runs| && RetryRows(w.t, i) != []
        && !exists j :: 0 <= j < |w.log| && SameBatch(w.log[j], Submission(w.t.runs[i].sourceType, RetryRows(w.t, i)));
      && (opens ==> |w'.t.runs| == |w.t.runs| + 1 && w'.t.runs[|w.t.runs|].total == |RetryRows(w.t, i)|)
      && (!opens ==> w' == w)
  {
    var s := SubmissionOf(w.t, Retry(i, env, true));
    if s.Some? { DuplicateIff(h, seed, w, s.value, env, true); }
  }

  lemma {:induction false} FailedCoverValid(records: seq<RowRecord>, raws: seq<Raw>)
    requires |records| == |raws|
    requires forall k :: 0 <= k < |records| ==> records[k].raw == raws[k]
    requires forall k :: 0 <= k < |records| ==>
        if Normalize(raws[k]).Ok? then records[k].status == Failed else records[k].status != Failed
    ensures ValidRows(FailedRaws(records)) == ValidRows(raws)
  {
    if records != [] {
      var n := |records| - 1;
      FailedCoverValid(records[..n], raws[..n]);
      if records[n].status == Failed {
        assert (FailedRaws(records[..n]) + [raws[n]])[..|FailedRaws(records[..n])|] == FailedRaws(records[..n]);
      }
    }
  }

  /**
   When every valid row of a run failed, retrying that run does nothing, now or ever: the
   retried rows are the run's own batch. So a single failed row cannot be retried.
   */
  lemma {:induction false} RetryOfAFullFailureIsSwallowed(h: Hash, seed: seq<Fact>, w: World, i: nat,
          env: nat -> RowEnv, persists: bool)
    requires CollisionFree(h) && Sound(h, seed, w) && i < |w.t.runs|
    requires var mine := RecordsOf(w.t.records, i);
      |mine| == w.t.runs[i].total && forall r :: r in mine && Normalize(r.raw).Ok? ==> r.status == Failed
    ensures Step(h, w, Retry(i, env, persists)) == w
  {
    var mine := RecordsOf(w.t.records, i);
    assert RunSound(h, w.t.runs[i], mine, w.log[i]);
    if CanRetry(w.t, i) {
      assert forall k :: 0 <= k < |mine| ==> mine[k] in mine;
      FailedCoverValid(mine, w.log[i].raws);
      var s := Submission(w.t.runs[i].sourceType, RetryRows(w.t, i));
      assert SameBatch(w.log[i], s);
      DuplicateIff(h, seed, w, s, env, persists);
    }
  }

  /** No event adds a record to a run that exists already. */
  lemma {:induction false} OldRunsKeepTheirRecords(h: Hash, seed: seq<Fact>, w: World, events: seq<Event>, i: nat)
    requires Sound(h, seed, w) && i < |w.t.runs|
    ensures RecordsOf(History(h, w, events).t.records, i) == RecordsOf(w.t.records, i)
  {
    if events != [] {
      var mid := History(h, w, events[..|events| - 1]);
      var ev := events[|events| - 1];
      OldRunsKeepTheirRecords(h, seed, w, events[..|events| - 1], i);
      RunKeepsSound(h, seed, w, events[..|events| - 1]);
      StepKeepsRecords(h, seed, mid, ev, i);
    }
  }

  lemma {:induction false} StepKeepsRecords(h: Hash, seed: seq<Fact>, w: World, ev: Event, i: nat)
    requires Sound(h, seed, w) && i < |w.t.runs|
    ensures RecordsOf(Step(h, w, ev).t.records, i) == RecordsOf(w.t.records, i)
  {
    var s := SubmissionOf(w.t, ev);
    if s.Some? {
      SubmissionKeepsRecords(h, seed, w, s.value, ev.env, i);
    }
  }

  lemma {:induction false} SubmissionKeepsRecords(h: Hash, seed: seq<Fact>, w: World, s: Submission,
          env: nat -> RowEnv, i: nat)
    requires Sound(h, seed, w) && i < |w.t.runs|
    ensures RecordsOf(ProcessRows(h, w.dir, Begin(w.t, s.sourceType, Batch(h, s.sourceType, s.raws), |s.raws|),
        |w.t.runs|, s.raws, env).0.records, i)
         == RecordsOf(w.t.records, i)
  {
    var fp := Batch(h, s.sourceType, s.raws);
    RowsOfANewRun(h, seed, w, s, fp, env);
    var made := ProcessRows(h, w.dir, Begin(w.t, s.sourceType, fp, |s.raws|), |w.t.runs|, s.raws,
        env).0.records[|w.t.records|..];
    assert forall k :: 0 <= k < |made| ==> made[k].run == |w.t.runs|;
    RecordsAfter(w.t.records, made, |w.t.runs|, i);
  }

  /**
   A run can be retried once. After a retry that could be saved, and whatever else happens in
   between, every further retry of the same run leaves the world as it is.
   */
  lemma {:induction false} RetryWorksOnce(h: Hash, seed: seq<Fact>, w: World, i: nat, env: nat -> RowEnv,
                       between: seq<Event>, env': nat -> RowEnv, persists': bool)
    requires Sound(h, seed, w) && i < |w.t.runs|
    ensures var w1 := Step(h, w, Retry(i, env, true));
      var w2 := History(h, w1, between);
      Step(h, w2, Retry(i, env', persists')) == w2
  {
    var w1 := Step(h, w, Retry(i, env, true));
    var w2 := History(h, w1, between);
    StepKeepsSound(h, seed, w, Retry(i, env, true));
    StepKeepsRecords(h, seed, w, Retry(i, env, true), i);
    RunKeepsSound(h, seed, w1, between);
    OldRunsKeepTheirRecords(h, seed, w1, between, i);
    assert RetryRows(w2.t, i) == RetryRows(w.t, i);
    if CanRetry(w.t, i) {
      var fp := Batch(h, w.t.runs[i].sourceType, RetryRows(w.t, i));
      RetryIsKnown(h, w, i, env);
      KnownStaysKnown(w1.t, w2.t, fp);
      assert w2.t.runs[i] == w.t.runs[i];
    }
  }

  lemma KnownStaysKnown(t: Tables, t': Tables, fp: nat)
    requires KnownBatch(t, fp) && t.runs <= t'.runs
    ensures KnownBatch(t', fp)
  {
    var k :| 0 <= k < |t.runs| && t.runs[k].fingerprint == fp;
    assert t'.runs[k] == t.runs[k];
  }

  lemma RetryIsKnown(h: Hash, w: World, i: nat, env: nat -> RowEnv)
    requires CanRetry(w.t, i)
    ensures KnownBatch(Step(h, w, Retry(i, env, true)).t, Batch(h, w.t.runs[i].sourceType, RetryRows(w.t, i)))
  {
    var fp := Batch(h, w.t.runs[i].sourceType, RetryRows(w.t, i));
    var t := Step(h, w, Retry(i, env, true)).t;
    if !KnownBatch(w.t, fp) {
      assert t.runs[|w.t.runs|].fingerprint == fp;
    }
  }
}
