/**
 The ingestion service over its tables: a record is stored as FAILED before its row is tried,
 the row is tried under a savepoint, and the record then takes its real outcome in place.
 Every method is tied to the functions of module Ingestion.
 */
module IngestionService {
  import opened Wrappers
  import opened Validation
  import opened Fingerprints
  import opened Ingestion

  /** What a caller of the service hears. */
  datatype Answer = Summary(run: nat, duplicate: bool) | Failure | RunNotFound | NothingToRetry

  /** The outcomes of a batch, row by row, counted as the service counts them. */
  function Tally(outcomes: seq<RecordStatus>, status: RecordStatus): nat {
    if outcomes == [] then 0
    else Tally(outcomes[..|outcomes| - 1], status) + if outcomes[|outcomes| - 1] == status then 1 else 0
  }

  lemma {:induction false} TallyIsCount(outcomes: seq<RecordStatus>, records: seq<RowRecord>, status: RecordStatus)
    requires |outcomes| == |records|
    requires forall k :: 0 <= k < |records| ==> records[k].status == outcomes[k]
    ensures Tally(outcomes, status) == Count(records, status)
  {
    if records != [] {
      TallyIsCount(outcomes[..|outcomes| - 1], records[..|records| - 1], status);
    }
  }

  /** The new run's records are the tail its rows appended. */
  lemma {:induction false} NewRecords(h: Hash, dir: Directory, t: Tables, run: nat, raws: seq<Raw>, env: nat -> RowEnv)
    requires forall k :: 0 <= k < |t.records| ==> t.records[k].run < run
    ensures var (t', crashed) := ProcessRows(h, dir, t, run, raws, env);
      && BatchGrows(t, t', run, raws, crashed)
      && RecordsOf(t'.records, run) == t'.records[|t.records|..]
      && forall k :: 0 <= k < |t'.records| ==> t'.records[k].run <= run
  {
    RowsAppend(h, dir, t, run, raws, env);
    var (t', crashed) := ProcessRows(h, dir, t, run, raws, env);
    var made := t'.records[|t.records|..];
    assert t'.records == t.records + made;
    RecordsAfter(t.records, made, run, run);
    forall k | 0 <= k < |t'.records|
      ensures t'.records[k].run <= run
    {
      assert k >= |t.records| ==> t'.records[k] == made[k - |t.records|];
    }
  }

  /** Trying a row neither reads nor changes the row records. */
  lemma TryIgnoresRecords(h: Hash, dir: Directory, t: Tables, run: nat, raw: Raw, row: Row, env: RowEnv,
          record: RowRecord)
    ensures var noted := t.(records := t.records + [record]);
      var (t', status) := TryRow(h, dir, t, run, raw, row, env);
      TryRow(h, dir, noted, run, raw, row, env) == (t'.(records := noted.records), status)
  {
    var noted := t.(records := t.records + [record]);
    assert forall f, l :: Conflict(noted, f, l) == Conflict(t, f, l);
  }

  /** What `create_run` leaves for a batch that is not known, given how its rows went. */
  lemma {:induction false} NewRunTables(h: Hash, dir: Directory, t: Tables, sourceType: string, raws: seq<Raw>,
          env: nat -> RowEnv, persists: bool,
                     begun: Tables, done: Tables, crashed: bool)
    requires !KnownBatch(t, Batch(h, sourceType, raws))
    requires begun == t.(runs := t.runs + [Run(sourceType, Batch(h, sourceType, raws), Running, |raws|, 0, 0, 0, 0)])
    requires (done, crashed) == ProcessRows(h, dir, begun, |t.runs|, raws, env)
    requires forall k :: 0 <= k < |t.records| ==> t.records[k].run < |t.runs|
    ensures |t.records| <= |done.records| && done.runs == begun.runs
    ensures forall k :: 0 <= k < |done.records| ==> done.records[k].run <= |t.runs|
    ensures var mine := done.records[|t.records|..];
      var started := begun.runs[|t.runs|];
      && RecordsOf(done.records, |t.runs|) == mine
      && Ingestion.CreateRun(h, dir, t, sourceType, raws, env, persists)
         == if !crashed then done.(runs := t.runs + [Finish(started, mine)])
            else if persists then done.(runs := t.runs + [Abandon(started, mine)])
            else t
  {
    NewRecords(h, dir, begun, |t.runs|, raws, env);
  }

  lemma LastUpdated(runs: seq<Run>, last: Run, updated: Run)
    ensures (runs + [last])[|runs| := updated] == runs + [updated]
  {
  }

  class Service {
    const hash: Hash
    const directory: Directory
    var facts: seq<Fact>
    var ledger: seq<LedgerRow>
    var records: seq<RowRecord>
    var runs: seq<Run>

    ghost function State(): Tables
      reads this
    {
      Tables(facts, ledger, records, runs)
    }

    /** A record's foreign key holds. */
    ghost predicate Valid()
      reads this
    {
      forall k :: 0 <= k < |records| ==> records[k].run < |runs|
    }

    constructor (hash: Hash, directory: Directory, facts: seq<Fact>)
      ensures Valid() && State() == Tables(facts, [], [], []) && this.hash == hash && this.directory == directory
    {
      this.hash, this.directory := hash, directory;
      this.facts, ledger, records, runs := facts, [], [], [];
    }

    method FindExistingRecord(identity: Identity) returns (found: bool)
      ensures found <==> InLedger(ledger, identity)
    {
      for i := 0 to |ledger|
        invariant forall j :: 0 <= j < i ==> ledger[j].identity != identity
      {
        if ledger[i].identity == identity { return true; }
      }
      return false;
    }

    /** Flushes a fact and its ledger row; a broken unique key undoes both. */
    method InsertPair(f: Fact, l: LedgerRow) returns (ok: bool)
      modifies `facts, `ledger
      ensures ok <==> !Conflict(old(State()), f, l)
      ensures facts == if ok then old(facts) + [f] else old(facts)
      ensures ledger == if ok then old(ledger) + [l] else old(ledger)
    {
      var savedFacts, savedLedger := facts, ledger;
      facts, ledger := facts + [f], ledger + [l];
      ok := true;
      for i := 0 to |savedFacts|
        invariant ok <==> forall j :: 0 <= j < i ==> !SameKey(savedFacts[j], f)
      {
        if SameKey(facts[i], f) { ok := false; }
      }
      for i := 0 to |savedLedger|
        invariant ok ==> forall j :: 0 <= j < |savedFacts| ==> !SameKey(savedFacts[j], f)
        invariant ok ==> forall j :: 0 <= j < i ==>
            savedLedger[j].identity != l.identity && savedLedger[j].fingerprint != l.fingerprint
        invariant !ok ==> Conflict(old(State()), f, l)
      {
        if ledger[i].identity == l.identity || ledger[i].fingerprint == l.fingerprint { ok := false; }
      }
      if !ok { facts, ledger := savedFacts, savedLedger; }
    }

    /** Tries one valid row under a savepoint; None is an exception that ends the batch. */
    method TryRow(run: nat, raw: Raw, row: Row, env: RowEnv) returns (outcome: Option<RecordStatus>)
      modifies `facts, `ledger
      ensures (State(), outcome) == Ingestion.TryRow(hash, directory, old(State()), run, raw, row, env)
    {
      var known := FindExistingRecord(IdentityOf(row));
      if known { return Some(Duplicate); }
      if env.crash { return None; }
      match Materialize(directory, facts, env.factId, row) {
        case Raised => return None;
        case Refused(_) => return Some(Rejected);
        case Got(f) =>
          var ok := InsertPair(f, LedgerRow(IdentityOf(row), RowFingerprint(hash, row), run, raw));
          if ok { return Some(Accepted); }
          // A conflict is a duplicate only if the identity is in the ledger after the rollback.
          var appeared := FindExistingRecord(IdentityOf(row));
          return Some(if appeared then Duplicate else Failed);
      }
    }

    /** One source row; `outcome` is None when the batch ends here. */
    method ProcessOne(run: nat, index: nat, raw: Raw, env: RowEnv) returns (outcome: Option<RecordStatus>)
      modifies `facts, `ledger, `records
      ensures (State(), outcome.None?) == ProcessRow(hash, directory, old(State()), run, index, raw, env)
      ensures |records| == |old(records)| + 1 && records[..|old(records)|] == old(records)
      ensures outcome.Some? ==> records[|old(records)|].status == outcome.value
    {
      var n := |records|;
      var normal := Normalize(raw);
      var fp := if normal.Ok? then Some(RowFingerprint(hash, normal.value)) else None;
      ghost var before := State();
      if normal.Ok? {
        TryIgnoresRecords(hash, directory, before, run, raw, normal.value, env, RowRecord(run, index, fp, Failed, raw));
      }
      records := records + [RowRecord(run, index, fp, Failed, raw)];
      if normal.Ok? {
        outcome := TryRow(run, raw, normal.value, env);
      } else {
        outcome := Some(Rejected);
      }
      if outcome.Some? {
        records := records[n := records[n].(status := outcome.value)];
        assert records == old(records) + [RowRecord(run, index, fp, outcome.value, raw)];
      }
    }

    method ProcessAll(run: nat, raws: seq<Raw>, env: nat -> RowEnv) returns (crashed: bool, outcomes: seq<RecordStatus>)
      modifies `facts, `ledger, `records
      ensures (State(), crashed) == ProcessRows(hash, directory, old(State()), run, raws, env)
      ensures |records| >= |old(records)|
      ensures !crashed ==> |outcomes| == |records| - |old(records)|
      ensures !crashed ==> forall k :: 0 <= k < |outcomes| ==> records[|old(records)| + k].status == outcomes[k]
    {
      outcomes := [];
      ghost var start, n := State(), |records|;
      for i := 0 to |raws|
        invariant runs == old(runs)
        invariant (State(), false) == ProcessRows(hash, directory, start, run, raws[..i], env)
        invariant |records| == n + |outcomes|
        invariant forall k :: 0 <= k < |outcomes| ==> records[n + k].status == outcomes[k]
      {
        assert raws[..i + 1][..i] == raws[..i];
        ghost var mid := records;
        var outcome := ProcessOne(run, i, raws[i], env(i));
        if outcome.None? {
          CrashEnds(hash, directory, start, run, raws, i + 1, env);
          return true, outcomes;
        }
        outcomes := outcomes + [outcome.value];
        assert forall k :: 0 <= k < |mid| ==> records[k] == records[..|mid|][k];
      }
      assert raws[..|raws|] == raws;
      return false, outcomes;
    }

    /** `CreateRun` of module Ingestion, with the answer its caller gets. */
    method CreateRun(sourceType: string, raws: seq<Raw>, env: nat -> RowEnv, persists: bool) returns (answer: Answer)
      requires Valid()
      modifies this
      ensures Valid()
      ensures State() == Ingestion.CreateRun(hash, directory, old(State()), sourceType, raws, env, persists)
      ensures answer.Summary? ==> answer.run < |runs| && runs[answer.run].fingerprint == Batch(hash, sourceType, raws)
      ensures answer.Summary? ==> (answer.duplicate <==> KnownBatch(old(State()), Batch(hash, sourceType, raws)))
      ensures answer.Summary? && answer.duplicate ==> State() == old(State())
      ensures answer.Summary? || answer.Failure?
    {
      var fp := Batch(hash, sourceType, raws);
      var existing := FindRun(fp);
      if existing.Some? { return Summary(existing.value, true); }
      var crashed := ExecuteRun(sourceType, fp, raws, env, persists);
      answer := if crashed then Failure else Summary(|runs| - 1, false);
    }

    /** Opens a run for a batch that is not known, processes its rows and closes it, or undoes everything. */
    method ExecuteRun(sourceType: string, fp: nat, raws: seq<Raw>, env: nat -> RowEnv, persists: bool)
      returns (crashed: bool)
      requires Valid() && fp == Batch(hash, sourceType, raws) && !KnownBatch(State(), fp)
      modifies this
      ensures Valid()
      ensures State() == Ingestion.CreateRun(hash, directory, old(State()), sourceType, raws, env, persists)
      ensures !crashed ==> |runs| == |old(runs)| + 1 && runs[|old(runs)|].fingerprint == fp
    {
      ghost var before := State();
      var savedFacts, savedLedger, savedRecords, savedRuns := facts, ledger, records, runs;
      var run := |runs|;
      runs := runs + [Run(sourceType, fp, Running, |raws|, 0, 0, 0, 0)];
      ghost var begun := State();
      var outcomes;
      crashed, outcomes := ProcessAll(run, raws, env);
      NewRunTables(hash, directory, before, sourceType, raws, env, persists, begun, State(), crashed);
      if crashed && !persists {
        facts, ledger, records, runs := savedFacts, savedLedger, savedRecords, savedRuns;
      } else {
        CloseRun(run, crashed, outcomes, |before.records|);
        LastUpdated(before.runs, begun.runs[run], runs[run]);
      }
    }

    /** Counters and final status of a finished run; the FAILED count of a crashed one. */
    method CloseRun(run: nat, crashed: bool, outcomes: seq<RecordStatus>, ghost from: nat)
      requires run < |runs| && from <= |records| && RecordsOf(records, run) == records[from..]
      requires !crashed ==> |outcomes| == |records| - from
      requires !crashed ==> forall k :: 0 <= k < |outcomes| ==> records[from + k].status == outcomes[k]
      modifies `runs
      ensures var mine := records[from..];
        runs == old(runs)[run := if crashed then Abandon(old(runs)[run], mine) else Finish(old(runs)[run], mine)]
    {
      if crashed { AbandonRun(run); } else { FinishRun(run, outcomes, from); }
    }

    /** The flush of a new run: its unique batch fingerprint refuses a known batch. */
    method FindRun(fingerprint: nat) returns (run: Option<nat>)
      ensures run.Some? <==> KnownBatch(State(), fingerprint)
      ensures run.Some? ==> run.value < |runs| && runs[run.value].fingerprint == fingerprint
    {
      for i := 0 to |runs|
        invariant forall j :: 0 <= j < i ==> runs[j].fingerprint != fingerprint
      {
        if runs[i].fingerprint == fingerprint { return Some(i); }
      }
      return None;
    }

    method AbandonRun(run: nat)
      requires run < |runs|
      modifies `runs
      ensures runs == old(runs)[run := Abandon(old(runs)[run], RecordsOf(records, run))]
    {
      var failed := CountFailed(run);
      runs := runs[run := runs[run].(status := RunFailed, failed := failed)];
    }

    /** The counters and the final status of a run whose rows all have an outcome. */
    method FinishRun(run: nat, outcomes: seq<RecordStatus>, ghost from: nat)
      requires run < |runs| && from <= |records| && |outcomes| == |records| - from
      requires forall k :: 0 <= k < |outcomes| ==> records[from + k].status == outcomes[k]
      modifies `runs
      ensures runs == old(runs)[run := Finish(old(runs)[run], records[from..])]
    {
      forall status ensures Tally(outcomes, status) == Count(records[from..], status) {
        TallyIsCount(outcomes, records[from..], status);
      }
      var a, d, r, f := 0, 0, 0, 0;
      for i := 0 to |outcomes|
        invariant a == Tally(outcomes[..i], Accepted) && d == Tally(outcomes[..i], Duplicate)
        invariant r == Tally(outcomes[..i], Rejected) && f == Tally(outcomes[..i], Failed)
      {
        assert outcomes[..i + 1][..i] == outcomes[..i];
        match outcomes[i] {
          case Accepted => a := a + 1;
          case Duplicate => d := d + 1;
          case Rejected => r := r + 1;
          case Failed => f := f + 1;
        }
      }
      assert outcomes[..|outcomes|] == outcomes;
      runs := runs[run := runs[run].(accepted := a, duplicate := d, rejected := r, failed := f)];
      runs := runs[run := runs[run].(status := if r + f == 0 then Completed else CompletedWithErrors)];
    }

    method CountFailed(run: nat) returns (failed: nat)
      ensures failed == Count(RecordsOf(records, run), Failed)
    {
      failed := 0;
      for i := 0 to |records|
        invariant failed == Count(RecordsOf(records[..i], run), Failed)
      {
        assert records[..i + 1][..i] == records[..i];
        if records[i].run == run {
          assert (RecordsOf(records[..i], run) + [records[i]])[..|RecordsOf(records[..i], run)|] ==
              RecordsOf(records[..i], run);
          if records[i].status == Failed { failed := failed + 1; }
        }
      }
      assert records[..|records|] == records;
    }

    /** The FAILED rows of a run go through `CreateRun` as a new batch, invalid run ids are refused. */
    method RetryRun(run: nat, env: nat -> RowEnv, persists: bool) returns (answer: Answer, retried: nat)
      requires Valid()
      modifies this
      ensures Valid()
      ensures answer.RunNotFound? <==> run >= |old(runs)|
      ensures answer.NothingToRetry? <==> run < |old(runs)| && RetryRows(old(State()), run) == []
      ensures State() == if CanRetry(old(State()), run)
        then Ingestion.CreateRun(hash, directory, old(State()), old(runs)[run].sourceType,
            RetryRows(old(State()), run), env, persists)
        else old(State())
      ensures retried == if answer.Summary? then |RetryRows(old(State()), run)| else 0
    {
      if run >= |runs| { return RunNotFound, 0; }
      var failed := FailedRows(run);
      if failed == [] { return NothingToRetry, 0; }
      answer := CreateRun(runs[run].sourceType, failed, env, persists);
      retried := if answer.Summary? then |failed| else 0;
    }

    method FailedRows(run: nat) returns (failed: seq<Raw>)
      ensures failed == RetryRows(State(), run)
    {
      failed := [];
      for i := 0 to |records|
        invariant failed == FailedRaws(RecordsOf(records[..i], run))
      {
        assert records[..i + 1][..i] == records[..i];
        if records[i].run == run {
          assert (RecordsOf(records[..i], run) + [records[i]])[..|RecordsOf(records[..i], run)|] ==
              RecordsOf(records[..i], run);
          if records[i].status == Failed { failed := failed + [records[i].raw]; }
        }
      }
      assert records[..|records|] == records;
    }
  }

  /** Once a row ends the batch, the rows behind it are never looked at. */
  lemma {:induction false} CrashEnds(h: Hash, dir: Directory, t: Tables, run: nat, raws: seq<Raw>, i: nat,
          env: nat -> RowEnv)
    requires i <= |raws| && ProcessRows(h, dir, t, run, raws[..i], env).1
    ensures ProcessRows(h, dir, t, run, raws, env) == ProcessRows(h, dir, t, run, raws[..i], env)
  {
    if i == |raws| {
      assert raws[..i] == raws;
    } else {
      assert raws[..|raws| - 1][..i] == raws[..i];
      CrashEnds(h, dir, t, run, raws[..|raws| - 1], i, env);
    }
  }
}
