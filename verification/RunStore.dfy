/** The lifecycle of a run, in internal/store/store.go and internal/store/artifact.go. */
module RunStore {
  import opened Domain

  // claimRun, the body and markRunFailed of Persist, and RegisterReport. Any number of workers interleave; every
  // transaction is one step, whose commit may be acknowledged, may take effect without the worker learning of it,
  // or may not happen.

  datatype Stage = Claimed | Reconciled | Reported | FailedStage

  datatype RunStatus = NotChecked | FailStatus | PassStatus | DiagnosticStatus

  datatype RunRow = RunRow(name: string, fingerprint: string, mode: Mode, stage: Stage, status: RunStatus, attempt: nat)

  datatype ArtifactId = ArtifactId(run: nat, kind: string)

  /** What Persist is doing for one worker: between calls; between claim and commit of the body, with the run
      claimed; between a failed body and the end of markRunFailed; after a successful return. */
  datatype Worker = Idle | Holding(run: nat) | Failing(run: nat) | Reporting(run: nat)

  /** The tables runs and report_artifacts, how often the rows of each run's body were inserted, and the
      workers; a worker that is not in the map is idle. */
  datatype State = State(
    runs: map<nat, RunRow>,
    nextRun: nat,
    bodies: multiset<nat>,
    artifacts: map<ArtifactId, string>,
    workers: map<nat, Worker>)

  datatype Commit = Acknowledged | LostAcknowledgement | RolledBack

  datatype Event =
    | Claim(worker: nat, name: string, fingerprint: string, mode: Mode, retry: bool, commit: Commit)
    | Body(worker: nat, commit: Commit)
    | MarkFailed(worker: nat, delivered: bool)
    | Report(worker: nat, kind: string, path: string, commit: Commit)
    | Finish(worker: nat)
    | Crash(worker: nat)

  predicate Done(stage: Stage) {
    stage == Reconciled || stage == Reported
  }

  predicate DoneRun(st: State, r: nat) {
    r in st.runs && Done(st.runs[r].stage)
  }

  function WorkerAt(st: State, w: nat): Worker {
    if w in st.workers then st.workers[w] else Idle
  }

  function Becomes(st: State, w: nat, next: Worker): State {
    st.(workers := st.workers[w := next])
  }

  /** runs.mode is checked by the table. */
  predicate KnownMode(m: Mode) {
    m == Diagnostic || m == Strict
  }

  predicate RunNameTaken(st: State, name: string) {
    exists r :: r in st.runs && st.runs[r].name == name
  }

  predicate HasFingerprint(st: State, fingerprint: string) {
    exists r :: r in st.runs && st.runs[r].fingerprint == fingerprint
  }

  ghost function RunWith(st: State, fingerprint: string): (r: nat)
    requires HasFingerprint(st, fingerprint)
    ensures r in st.runs && st.runs[r].fingerprint == fingerprint
  {
    var r :| r in st.runs && st.runs[r].fingerprint == fingerprint;
    r
  }

  // ----- claimRun

  function Inserted(st: State, name: string, fingerprint: string, mode: Mode): State {
    st.(runs := st.runs[st.nextRun := RunRow(name, fingerprint, mode, Claimed, NotChecked, 1)], nextRun := st.nextRun + 1)
  }

  function Retried(st: State, r: nat): State
    requires r in st.runs
  {
    var row := st.runs[r];
    st.(runs := st.runs[r := row.(stage := Claimed, status := NotChecked, attempt := row.attempt + 1)])
  }

  /** The worker holds the run only when it learns that the claim was committed. */
  function Granted(before: State, after: State, w: nat, r: nat, commit: Commit): State {
    match commit
    case Acknowledged => Becomes(after, w, Holding(r))
    case LostAcknowledgement => after
    case RolledBack => before
  }

  function ExistingStep(st: State, w: nat, r: nat, retry: bool, commit: Commit): State
    requires r in st.runs
  {
    if Done(st.runs[r].stage) then if commit == Acknowledged then Becomes(st, w, Reporting(r)) else st
    else if st.runs[r].stage == FailedStage && retry then Granted(st, Retried(st, r), w, r, commit)
    else st
  }

  ghost function ClaimStep(st: State, w: nat, name: string, fingerprint: string, mode: Mode, retry: bool, commit: Commit): State {
    if WorkerAt(st, w) != Idle then st
    else if HasFingerprint(st, fingerprint) then ExistingStep(st, w, RunWith(st, fingerprint), retry, commit)
    else if RunNameTaken(st, name) || !KnownMode(mode) then st
    else Granted(st, Inserted(st, name, fingerprint, mode), w, st.nextRun, commit)
  }

  // ----- The body of Persist, and markRunFailed

  /** The body inserts its rows and sets the stage, whatever the stage was. */
  function BodyCommitted(st: State, r: nat): State
    requires r in st.runs
  {
    st.(runs := st.runs[r := st.runs[r].(stage := Reconciled, status := NotChecked)], bodies := st.bodies + multiset{r})
  }

  function BodyStep(st: State, w: nat, commit: Commit): State {
    match WorkerAt(st, w)
    case Holding(r) =>
      if r !in st.runs then st
      else
        (match commit
         case Acknowledged => Becomes(BodyCommitted(st, r), w, Reporting(r))
         case LostAcknowledgement => Becomes(BodyCommitted(st, r), w, Failing(r))
         case RolledBack => Becomes(st, w, Failing(r)))
    case _ => st
  }

  function Failed(st: State, r: nat): State {
    if r in st.runs && st.runs[r].stage == Claimed
    then st.(runs := st.runs[r := st.runs[r].(stage := FailedStage, status := FailStatus)])
    else st
  }

  /** Errors of the update are ignored: the worker gives up either way. */
  function MarkStep(st: State, w: nat, delivered: bool): State {
    match WorkerAt(st, w)
    case Failing(r) => Becomes(if delivered then Failed(st, r) else st, w, Idle)
    case _ => st
  }

  // ----- RegisterReport

  function FinalStatus(m: Mode): RunStatus {
    if m == Strict then PassStatus else DiagnosticStatus
  }

  function Registered(st: State, r: nat, kind: string, path: string): State {
    var stored := st.(artifacts := st.artifacts[ArtifactId(r, kind) := path]);
    if DoneRun(st, r)
    then stored.(runs := st.runs[r := st.runs[r].(stage := Reported, status := FinalStatus(st.runs[r].mode))])
    else stored
  }

  function ReportStep(st: State, w: nat, kind: string, path: string, commit: Commit): State {
    match WorkerAt(st, w)
    case Reporting(r) => if commit == RolledBack || r !in st.runs then st else Registered(st, r, kind, path)
    case _ => st
  }

  function FinishStep(st: State, w: nat): State {
    if WorkerAt(st, w).Reporting? then Becomes(st, w, Idle) else st
  }

  ghost function Step(st: State, e: Event): State {
    match e
    case Claim(w, name, fingerprint, mode, retry, commit) => ClaimStep(st, w, name, fingerprint, mode, retry, commit)
    case Body(w, commit) => BodyStep(st, w, commit)
    case MarkFailed(w, delivered) => MarkStep(st, w, delivered)
    case Report(w, kind, path, commit) => ReportStep(st, w, kind, path, commit)
    case Finish(w) => FinishStep(st, w)
    case Crash(w) => Becomes(st, w, Idle)
  }

  const EMPTY := State(map[], 0, multiset{}, map[], map[])

  ghost function Run(st: State, trace: seq<Event>): State
    decreases |trace|
  {
    if trace == [] then st else Run(Step(st, trace[0]), trace[1..])
  }

  // ----- What every interleaving keeps

  type Runs = map<nat, RunRow>
  type Artifacts = map<ArtifactId, string>
  type Workers = map<nat, Worker>

  predicate UniqueRuns(runs: Runs, nextRun: nat) {
    && (forall r | r in runs :: r < nextRun)
    && (forall r, s | r in runs && s in runs && r != s ::
          runs[r].fingerprint != runs[s].fingerprint && runs[r].name != runs[s].name)
  }

  /** The only (stage, status) pairs, and the table's checks. */
  predicate Paired(row: RunRow) {
    && row.attempt >= 1 && KnownMode(row.mode)
    && match row.stage
       case Claimed => row.status == NotChecked
       case Reconciled => row.status == NotChecked
       case FailedStage => row.status == FailStatus
       case Reported => row.status == FinalStatus(row.mode)
  }

  /** The rows of a run are there once if it is done and not at all otherwise. */
  ghost predicate RowsExact(runs: Runs, bodies: multiset<nat>) {
    forall r :: bodies[r] == if r in runs && Done(runs[r].stage) then 1 else 0
  }

  predicate HasArtifact(artifacts: Artifacts, r: nat) {
    exists a :: a in artifacts && a.run == r
  }

  /** A report is registered for a run exactly when the run is REPORTED. */
  ghost predicate ReportsExact(runs: Runs, artifacts: Artifacts) {
    forall r :: HasArtifact(artifacts, r) <==> r in runs && runs[r].stage == Reported
  }

  predicate Engaged(worker: Worker) {
    worker.Holding? || worker.Failing?
  }

  /** A worker holds only a claimed run; a worker whose body failed waits on a run that is still claimed or,
      if only the acknowledgement was lost, done; a worker that may report has a run that is done. */
  predicate WorkerFits(runs: Runs, worker: Worker) {
    match worker
    case Idle => true
    case Holding(r) => r in runs && runs[r].stage == Claimed
    case Failing(r) => r in runs && (runs[r].stage == Claimed || Done(runs[r].stage))
    case Reporting(r) => r in runs && Done(runs[r].stage)
  }

  predicate WorkersFit(runs: Runs, workers: Workers) {
    forall w | w in workers :: WorkerFits(runs, workers[w])
  }

  /** At most one live worker is engaged with a claimed run. */
  predicate OneHolder(runs: Runs, workers: Workers) {
    forall v, w | v in workers && w in workers && v != w && Engaged(workers[v]) && Engaged(workers[w]) ::
      workers[v].run == workers[w].run && workers[v].run in runs ==> runs[workers[v].run].stage != Claimed
  }

  ghost predicate DataSafe(runs: Runs, nextRun: nat, bodies: multiset<nat>, artifacts: Artifacts) {
    && UniqueRuns(runs, nextRun) && RowsExact(runs, bodies) && ReportsExact(runs, artifacts)
    && (forall r | r in runs :: Paired(runs[r]))
  }

  predicate WorkersSafe(runs: Runs, workers: Workers) {
    WorkersFit(runs, workers) && OneHolder(runs, workers)
  }

  ghost predicate Safe(st: State) {
    DataSafe(st.runs, st.nextRun, st.bodies, st.artifacts) && WorkersSafe(st.runs, st.workers)
  }

  /** What no step undoes. */
  predicate Advances(row: RunRow, row': RunRow) {
    && row'.name == row.name && row'.fingerprint == row.fingerprint && row'.mode == row.mode
    && (Done(row.stage) ==> Done(row'.stage)) && (row.stage == Reported ==> row'.stage == Reported)
    && row'.attempt == row.attempt + if row.stage == FailedStage && row'.stage == Claimed then 1 else 0
  }

  predicate Progress(st: State, st': State) {
    forall r | r in st.runs :: r in st'.runs && Advances(st.runs[r], st'.runs[r])
  }

  lemma WorkerOnly(st: State, w: nat, next: Worker)
    requires Safe(st) && WorkerFits(st.runs, next)
    requires Engaged(next) ==> Engaged(WorkerAt(st, w)) && WorkerAt(st, w).run == next.run
    ensures Safe(Becomes(st, w, next)) && Progress(st, Becomes(st, w, next))
  {
  }

  /** One run changes, without a report being registered. */
  lemma RowChanged(st: State, r: nat, row: RunRow, bodies: multiset<nat>)
    requires DataSafe(st.runs, st.nextRun, st.bodies, st.artifacts) && r in st.runs
    requires bodies == st.bodies + if Done(row.stage) && !Done(st.runs[r].stage) then multiset{r} else multiset{}
    requires Advances(st.runs[r], row) && Paired(row) && (row.stage == Reported <==> st.runs[r].stage == Reported)
    ensures DataSafe(st.runs[r := row], st.nextRun, bodies, st.artifacts)
  {
  }

  /** The only worker engaged with a run, if any, moves it. */
  lemma HolderMoves(runs: Runs, workers: Workers, r: nat, row: RunRow, w: nat, next: Worker)
    requires WorkersSafe(runs, workers) && r in runs
    requires WorkerFits(runs[r := row], next) && (Engaged(next) ==> next.run == r)
    requires Free(workers, w, r)
    ensures WorkersSafe(runs[r := row], workers[w := next])
  {
    assert forall v | v in workers && v != w :: WorkerFits(runs, workers[v]);
  }

  /** No worker but `w` has anything to do with run `r`. */
  predicate Free(workers: Workers, w: nat, r: nat) {
    forall v | v in workers && v != w :: workers[v].Idle? || workers[v].run != r
  }

  /** Nobody is engaged with a failed run, and only one worker with a claimed one. */
  lemma Alone(st: State, w: nat, r: nat)
    requires Safe(st) && r in st.runs
    requires st.runs[r].stage == FailedStage
      || (st.runs[r].stage == Claimed && Engaged(WorkerAt(st, w)) && WorkerAt(st, w).run == r)
    ensures Free(st.workers, w, r)
  {
    assert forall v | v in st.workers && v != w :: WorkerFits(st.runs, st.workers[v]);
  }

  lemma OneRunProgress(st: State, st': State, r: nat)
    requires r in st.runs && r in st'.runs && st'.runs == st.runs[r := st'.runs[r]] && Advances(st.runs[r], st'.runs[r])
    ensures Progress(st, st')
  {
  }

  lemma RunAndWorker(st: State, st': State, r: nat, w: nat)
    requires Safe(st) && r in st.runs && w in st'.workers && Free(st.workers, w, r)
    requires r in st'.runs && st'.runs == st.runs[r := st'.runs[r]] && st'.workers == st.workers[w := st'.workers[w]]
    requires st'.nextRun == st.nextRun && st'.artifacts == st.artifacts
    requires var row := st'.runs[r];
      && st'.bodies == st.bodies + (if Done(row.stage) && !Done(st.runs[r].stage) then multiset{r} else multiset{})
      && Advances(st.runs[r], row) && Paired(row) && (row.stage == Reported <==> st.runs[r].stage == Reported)
    requires WorkerFits(st'.runs, st'.workers[w]) && (Engaged(st'.workers[w]) ==> st'.workers[w].run == r)
    ensures Safe(st') && Progress(st, st')
  {
    RowChanged(st, r, st'.runs[r], st'.bodies);
    HolderMoves(st.runs, st.workers, r, st'.runs[r], w, st'.workers[w]);
    OneRunProgress(st, st', r);
  }

  lemma InsertedData(st: State, row: RunRow)
    requires DataSafe(st.runs, st.nextRun, st.bodies, st.artifacts)
    requires !HasFingerprint(st, row.fingerprint) && !RunNameTaken(st, row.name) && Paired(row) && row.stage == Claimed
    ensures DataSafe(st.runs[st.nextRun := row], st.nextRun + 1, st.bodies, st.artifacts)
  {
    assert forall r | r in st.runs :: r < st.nextRun && st.runs[r].fingerprint != row.fingerprint && st.runs[r].name != row.name;
  }

  lemma InsertedWorkers(runs: Runs, workers: Workers, r: nat, row: RunRow, w: nat, next: Worker)
    requires WorkersSafe(runs, workers) && r !in runs && row.stage == Claimed && (next == Idle || next == Holding(r))
    ensures WorkersSafe(runs[r := row], workers[w := next])
  {
    assert forall v | v in workers && v != w :: WorkerFits(runs, workers[v]);
  }

  lemma InsertedSafe(st: State, w: nat, name: string, fingerprint: string, mode: Mode, next: Worker)
    requires Safe(st) && WorkerAt(st, w) == Idle
    requires !HasFingerprint(st, fingerprint) && !RunNameTaken(st, name) && KnownMode(mode)
    requires next == Idle || next == Holding(st.nextRun)
    ensures var st' := Becomes(Inserted(st, name, fingerprint, mode), w, next); Safe(st') && Progress(st, st')
  {
    var row := RunRow(name, fingerprint, mode, Claimed, NotChecked, 1);
    InsertedData(st, row);
    assert st.nextRun !in st.runs;
    InsertedWorkers(st.runs, st.workers, st.nextRun, row, w, next);
  }

  /** A worker that is idle need not be listed. */
  lemma SafeWithoutIdle(st: State, w: nat)
    requires WorkerAt(st, w) == Idle && Safe(Becomes(st, w, Idle))
    ensures Safe(st)
  {
    assert w in st.workers ==> st.workers[w := Idle] == st.workers;
    assert w !in st.workers ==> forall v | v in st.workers :: v != w && st.workers[w := Idle][v] == st.workers[v];
  }

  lemma FoundByFingerprint(st: State, r: nat)
    requires Safe(st) && r in st.runs
    ensures HasFingerprint(st, st.runs[r].fingerprint) && RunWith(st, st.runs[r].fingerprint) == r
  {
  }

  lemma GrantedKeeps(st: State, w: nat, name: string, fingerprint: string, mode: Mode, commit: Commit)
    requires Safe(st) && WorkerAt(st, w) == Idle
    requires !HasFingerprint(st, fingerprint) && !RunNameTaken(st, name) && KnownMode(mode)
    ensures var st' := Granted(st, Inserted(st, name, fingerprint, mode), w, st.nextRun, commit); Safe(st') && Progress(st, st')
  {
    if commit == Acknowledged {
      InsertedSafe(st, w, name, fingerprint, mode, Holding(st.nextRun));
    } else if commit == LostAcknowledgement {
      InsertedSafe(st, w, name, fingerprint, mode, Idle);
      SafeWithoutIdle(Inserted(st, name, fingerprint, mode), w);
    }
  }

  lemma ExistingKeeps(st: State, w: nat, r: nat, retry: bool, commit: Commit)
    requires Safe(st) && WorkerAt(st, w) == Idle && r in st.runs
    ensures var st' := ExistingStep(st, w, r, retry, commit); Safe(st') && Progress(st, st')
  {
    if Done(st.runs[r].stage) {
      WorkerOnly(st, w, Reporting(r));
    } else if st.runs[r].stage == FailedStage && retry {
      RetriedKeeps(st, w, r, commit);
    }
  }

  lemma ClaimKeeps(st: State, w: nat, name: string, fingerprint: string, mode: Mode, retry: bool, commit: Commit)
    requires Safe(st)
    ensures var st' := ClaimStep(st, w, name, fingerprint, mode, retry, commit); Safe(st') && Progress(st, st')
  {
    if WorkerAt(st, w) == Idle {
      if HasFingerprint(st, fingerprint) {
        ExistingKeeps(st, w, RunWith(st, fingerprint), retry, commit);
      } else if !RunNameTaken(st, name) && KnownMode(mode) {
        GrantedKeeps(st, w, name, fingerprint, mode, commit);
      }
    }
  }

  lemma RetriedKeeps(st: State, w: nat, r: nat, commit: Commit)
    requires Safe(st) && WorkerAt(st, w) == Idle && r in st.runs && st.runs[r].stage == FailedStage
    ensures var st' := Granted(st, Retried(st, r), w, r, commit); Safe(st') && Progress(st, st')
  {
    Alone(st, w, r);
    assert Paired(st.runs[r]);
    if commit == Acknowledged {
      RunAndWorker(st, Becomes(Retried(st, r), w, Holding(r)), r, w);
    } else if commit == LostAcknowledgement {
      RunAndWorker(st, Becomes(Retried(st, r), w, Idle), r, w);
      SafeWithoutIdle(Retried(st, r), w);
    }
  }

  lemma BodyKeeps(st: State, w: nat, commit: Commit)
    requires Safe(st)
    ensures var st' := BodyStep(st, w, commit); Safe(st') && Progress(st, st')
  {
    if WorkerAt(st, w).Holding? {
      var r := WorkerAt(st, w).run;
      assert WorkerFits(st.runs, WorkerAt(st, w)) && Paired(st.runs[r]);
      Alone(st, w, r);
      match commit
      case Acknowledged => RunAndWorker(st, Becomes(BodyCommitted(st, r), w, Reporting(r)), r, w);
      case LostAcknowledgement => RunAndWorker(st, Becomes(BodyCommitted(st, r), w, Failing(r)), r, w);
      case RolledBack => WorkerOnly(st, w, Failing(r));
    }
  }

  lemma MarkKeeps(st: State, w: nat, delivered: bool)
    requires Safe(st)
    ensures var st' := MarkStep(st, w, delivered); Safe(st') && Progress(st, st')
  {
    if WorkerAt(st, w).Failing? {
      var r := WorkerAt(st, w).run;
      assert WorkerFits(st.runs, WorkerAt(st, w)) && Paired(st.runs[r]);
      if delivered && st.runs[r].stage == Claimed {
        Alone(st, w, r);
        RunAndWorker(st, Becomes(Failed(st, r), w, Idle), r, w);
      } else {
        WorkerOnly(st, w, Idle);
      }
    }
  }

  lemma RegisteredReports(runs: Runs, artifacts: Artifacts, r: nat, row: RunRow, kind: string, path: string)
    requires ReportsExact(runs, artifacts) && r in runs && row.stage == Reported
    ensures ReportsExact(runs[r := row], artifacts[ArtifactId(r, kind) := path])
  {
    var artifacts' := artifacts[ArtifactId(r, kind) := path];
    assert ArtifactId(r, kind) in artifacts';
    forall s | s != r
      ensures HasArtifact(artifacts', s) == HasArtifact(artifacts, s)
    {
      if a :| a in artifacts && a.run == s {
        assert a in artifacts';
      }
    }
  }

  lemma RegisteredWorkers(runs: Runs, workers: Workers, r: nat, row: RunRow)
    requires WorkersSafe(runs, workers) && r in runs && Done(runs[r].stage) && Done(row.stage)
    ensures WorkersSafe(runs[r := row], workers)
  {
    assert forall v | v in workers :: WorkerFits(runs, workers[v]);
  }

  lemma RegisteredData(st: State, r: nat, row: RunRow, kind: string, path: string)
    requires DataSafe(st.runs, st.nextRun, st.bodies, st.artifacts) && r in st.runs && Done(st.runs[r].stage)
    requires row.stage == Reported && Paired(row) && Advances(st.runs[r], row)
    ensures DataSafe(st.runs[r := row], st.nextRun, st.bodies, st.artifacts[ArtifactId(r, kind) := path])
  {
    RegisteredReports(st.runs, st.artifacts, r, row, kind, path);
  }

  lemma PairedAt(st: State, r: nat)
    requires Safe(st) && r in st.runs
    ensures Paired(st.runs[r])
  {
  }

  lemma RegisteredKeeps(st: State, r: nat, kind: string, path: string)
    requires Safe(st) && DoneRun(st, r)
    ensures Safe(Registered(st, r, kind, path)) && Progress(st, Registered(st, r, kind, path))
  {
    var row := st.runs[r].(stage := Reported, status := FinalStatus(st.runs[r].mode));
    PairedAt(st, r);
    RegisteredData(st, r, row, kind, path);
    RegisteredWorkers(st.runs, st.workers, r, row);
    OneRunProgress(st, Registered(st, r, kind, path), r);
  }

  /** Registering a report, whenever it takes effect, leaves its run REPORTED with the status of its mode and the
      report under the given path, and changes no other run. */
  lemma ReportKeeps(st: State, w: nat, kind: string, path: string, commit: Commit)
    requires Safe(st)
    ensures var st' := ReportStep(st, w, kind, path, commit); Safe(st') && Progress(st, st')
    ensures WorkerAt(st, w).Reporting? && commit != RolledBack ==>
      var st', r := ReportStep(st, w, kind, path, commit), WorkerAt(st, w).run;
      && r in st'.runs && st'.runs[r].stage == Reported && st'.runs[r].status == FinalStatus(st'.runs[r].mode)
      && ArtifactId(r, kind) in st'.artifacts && st'.artifacts[ArtifactId(r, kind)] == path
      && st'.runs == st.runs[r := st'.runs[r]] && st'.bodies == st.bodies && st'.workers == st.workers
    ensures !(WorkerAt(st, w).Reporting? && commit != RolledBack) ==> ReportStep(st, w, kind, path, commit) == st
  {
    if WorkerAt(st, w).Reporting? && commit != RolledBack {
      assert WorkerFits(st.runs, WorkerAt(st, w));
      RegisteredKeeps(st, WorkerAt(st, w).run, kind, path);
    }
  }

  /** Every step of every worker keeps the database safe and undoes nothing. */
  lemma StepKeeps(st: State, e: Event)
    requires Safe(st)
    ensures Safe(Step(st, e)) && Progress(st, Step(st, e))
  {
    match e
    case Claim(w, name, fingerprint, mode, retry, commit) => ClaimKeeps(st, w, name, fingerprint, mode, retry, commit);
    case Body(w, commit) => BodyKeeps(st, w, commit);
    case MarkFailed(w, delivered) => MarkKeeps(st, w, delivered);
    case Report(w, kind, path, commit) => ReportKeeps(st, w, kind, path, commit);
    case Finish(w) => if WorkerAt(st, w).Reporting? { WorkerOnly(st, w, Idle); }
    case Crash(w) => WorkerOnly(st, w, Idle);
  }

  lemma EmptySafe()
    ensures Safe(EMPTY)
  {
  }

  // ----- Whole histories

  /** How often a history moved run `r` from FAILED back to CLAIMED. */
  ghost function Retries(st: State, trace: seq<Event>, r: nat): nat
    decreases |trace|
  {
    if trace == [] then 0
    else
      var next := Step(st, trace[0]);
      (if r in st.runs && r in next.runs && st.runs[r].stage == FailedStage && next.runs[r].stage == Claimed then 1 else 0)
      + Retries(next, trace[1..], r)
  }

  lemma {:induction false} RunKeeps(st: State, trace: seq<Event>)
    requires Safe(st)
    ensures Safe(Run(st, trace))
    ensures forall r | r in st.runs :: r in Run(st, trace).runs
    ensures forall r | r in st.runs ::
      var row, row' := st.runs[r], Run(st, trace).runs[r];
      && row'.name == row.name && row'.fingerprint == row.fingerprint && row'.mode == row.mode
      && (Done(row.stage) ==> Done(row'.stage)) && (row.stage == Reported ==> row'.stage == Reported)
      && row'.attempt == row.attempt + Retries(st, trace, r)
    decreases |trace|
  {
    if trace != [] {
      StepKeeps(st, trace[0]);
      RunKeeps(Step(st, trace[0]), trace[1..]);
    }
  }

  /** Under any interleaving from an empty database: one run for each fingerprint; at most one live worker
      engaged with a claimed run; the rows of a run there exactly once if it is done and never otherwise;
      the stage paired with the verification status; reports registered for exactly the REPORTED runs. */
  lemma EveryInterleavingSafe(trace: seq<Event>)
    ensures Safe(Run(EMPTY, trace))
  {
    EmptySafe();
    RunKeeps(EMPTY, trace);
  }

  lemma ClaimedFirst(st: State, w: nat, name: string, fingerprint: string, mode: Mode, retry: bool, commit: Commit, r: nat)
    requires r !in st.runs && r in ClaimStep(st, w, name, fingerprint, mode, retry, commit).runs
    ensures ClaimStep(st, w, name, fingerprint, mode, retry, commit).runs[r].attempt == 1
  {
  }

  lemma OnlyClaimsInsert(st: State, e: Event)
    requires !e.Claim?
    ensures Step(st, e).runs.Keys == st.runs.Keys
  {
  }

  /** A new run is at its first attempt. */
  lemma NewRunsFirstAttempt(st: State, e: Event, r: nat)
    requires r !in st.runs && r in Step(st, e).runs
    ensures Step(st, e).runs[r].attempt == 1
  {
    if e.Claim? {
      ClaimedFirst(st, e.worker, e.name, e.fingerprint, e.mode, e.retry, e.commit, r);
    } else {
      OnlyClaimsInsert(st, e);
    }
  }

  /** The attempt number of a run is one more than the number of retries it was granted. */
  lemma {:induction false} AttemptsCountRetries(st: State, trace: seq<Event>, r: nat)
    requires Safe(st) && r !in st.runs && r in Run(st, trace).runs
    ensures Run(st, trace).runs[r].attempt == 1 + Retries(st, trace, r)
    decreases |trace|
  {
    if trace != [] {
      var next := Step(st, trace[0]);
      StepKeeps(st, trace[0]);
      if r in next.runs {
        NewRunsFirstAttempt(st, trace[0], r);
        RunKeeps(next, trace[1..]);
      } else {
        AttemptsCountRetries(next, trace[1..], r);
      }
    }
  }

  /** A run that is done stays done, and its rows stay, whatever happens next. */
  lemma DoneForever(st: State, trace: seq<Event>, r: nat)
    requires Safe(st) && DoneRun(st, r)
    ensures DoneRun(Run(st, trace), r) && Run(st, trace).bodies[r] == 1
    ensures Run(st, trace).runs[r].attempt == st.runs[r].attempt + Retries(st, trace, r)
  {
    RunKeeps(st, trace);
  }

  /** The body never meets rows of an earlier attempt: the rows it inserts are the first of its run. */
  lemma BodyFindsNoRows(st: State, w: nat)
    requires Safe(st) && WorkerAt(st, w).Holding?
    ensures WorkerAt(st, w).run in st.runs && st.bodies[WorkerAt(st, w).run] == 0
  {
    assert WorkerFits(st.runs, WorkerAt(st, w));
  }

  /** Asking for a run that is done returns that run and changes nothing in the database, whoever asks,
      whenever, with or without --retry. */
  lemma DoneRunsAreReturned(st: State, trace: seq<Event>, r: nat, w: nat, name: string, mode: Mode, retry: bool)
    requires Safe(st) && DoneRun(st, r) && WorkerAt(Run(st, trace), w) == Idle
    ensures
      var later := Run(st, trace);
      ClaimStep(later, w, name, st.runs[r].fingerprint, mode, retry, Acknowledged) == Becomes(later, w, Reporting(r))
  {
    RunKeeps(st, trace);
    assert HasFingerprint(Run(st, trace), st.runs[r].fingerprint);
  }

  // ----- Claims nobody holds

  predicate Orphaned(st: State, r: nat) {
    && r in st.runs && st.runs[r].stage == Claimed
    && forall v | v in st.workers :: st.workers[v].Idle? || st.workers[v].run != r
  }

  lemma OrphanStep(st: State, e: Event, r: nat)
    requires Safe(st) && Orphaned(st, r)
    ensures Orphaned(Step(st, e), r) && Step(st, e).runs[r] == st.runs[r]
  {
    match e
    case Claim(w, name, fingerprint, mode, retry, commit) => OrphanClaim(st, w, name, fingerprint, mode, retry, commit, r);
    case Body(w, commit) => OrphanBody(st, w, commit, r);
    case MarkFailed(w, delivered) => OrphanMark(st, w, delivered, r);
    case Report(w, kind, path, commit) => OrphanReport(st, w, kind, path, commit, r);
    case Finish(w) =>
    case Crash(w) =>
  }

  lemma OrphanBody(st: State, w: nat, commit: Commit, r: nat)
    requires Orphaned(st, r)
    ensures Orphaned(BodyStep(st, w, commit), r) && BodyStep(st, w, commit).runs[r] == st.runs[r]
  {
  }

  lemma OrphanMark(st: State, w: nat, delivered: bool, r: nat)
    requires Orphaned(st, r)
    ensures Orphaned(MarkStep(st, w, delivered), r) && MarkStep(st, w, delivered).runs[r] == st.runs[r]
  {
  }

  lemma OrphanReport(st: State, w: nat, kind: string, path: string, commit: Commit, r: nat)
    requires Orphaned(st, r)
    ensures Orphaned(ReportStep(st, w, kind, path, commit), r) && ReportStep(st, w, kind, path, commit).runs[r] == st.runs[r]
  {
  }

  lemma OrphanExisting(st: State, w: nat, s: nat, retry: bool, commit: Commit, r: nat)
    requires Orphaned(st, r) && s in st.runs
    ensures var st' := ExistingStep(st, w, s, retry, commit); Orphaned(st', r) && st'.runs[r] == st.runs[r]
  {
  }

  lemma OrphanClaim(st: State, w: nat, name: string, fingerprint: string, mode: Mode, retry: bool, commit: Commit, r: nat)
    requires Safe(st) && Orphaned(st, r)
    ensures var st' := ClaimStep(st, w, name, fingerprint, mode, retry, commit); Orphaned(st', r) && st'.runs[r] == st.runs[r]
  {
    assert r < st.nextRun;
    if HasFingerprint(st, fingerprint) {
      OrphanExisting(st, w, RunWith(st, fingerprint), retry, commit, r);
    }
  }

  /** The price of that safety: a claim whose worker has crashed, or whose acknowledgement was lost, is never
      taken over, not even with --retry. */
  lemma {:induction false} OrphansStayClaimed(st: State, trace: seq<Event>, r: nat)
    requires Safe(st) && Orphaned(st, r)
    ensures Orphaned(Run(st, trace), r) && Run(st, trace).runs[r] == st.runs[r]
    decreases |trace|
  {
    if trace != [] {
      OrphanStep(st, trace[0], r);
      StepKeeps(st, trace[0]);
      OrphansStayClaimed(Step(st, trace[0]), trace[1..], r);
    }
  }
}
