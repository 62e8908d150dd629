/** The tables runs and report_artifacts as one mutable database, with the operations of Persist and
    RegisterReport that update them; and which requests share a run. */
module RunDatabase {
  import opened Domain
  import opened ConfigStream
  import opened RunStore

  class Database {
    var runs: map<nat, RunRow>
    var nextRun: nat
    ghost var bodies: multiset<nat>
    var artifacts: map<ArtifactId, string>
    var workers: map<nat, Worker>

    ghost function Tables(): State
      reads this
    {
      State(runs, nextRun, bodies, artifacts, workers)
    }

    constructor ()
      ensures Tables() == EMPTY && Safe(Tables())
    {
      runs, nextRun, bodies, artifacts, workers := map[], 0, multiset{}, map[], map[];
    }

    predicate IsIdle(w: nat)
      reads this
    {
      w in workers ==> workers[w] == Idle
    }

    /** INSERT ... ON CONFLICT(fingerprint) DO NOTHING, when there is no conflict. */
    method InsertRun(w: nat, name: string, fingerprint: string, mode: Mode, commit: Commit)
      modifies this
      ensures Tables() ==
        if RunNameTaken(old(Tables()), name) || !KnownMode(mode) then old(Tables())
        else Granted(old(Tables()), Inserted(old(Tables()), name, fingerprint, mode), w, old(nextRun), commit)
    {
      if exists r :: r in runs && runs[r].name == name {
        return;
      }
      if (mode == Diagnostic || mode == Strict) && commit != RolledBack {
        var r := nextRun;
        runs, nextRun := runs[r := RunRow(name, fingerprint, mode, Claimed, NotChecked, 1)], nextRun + 1;
        if commit == Acknowledged {
          workers := workers[w := Holding(r)];
        }
      }
    }

    /** SELECT ... FOR UPDATE of the conflicting run, and what its stage allows. */
    method ClaimExisting(w: nat, r: nat, retry: bool, commit: Commit)
      requires r in runs
      modifies this
      ensures Tables() == ExistingStep(old(Tables()), w, r, retry, commit)
    {
      var stage := runs[r].stage;
      if stage == Reported || stage == Reconciled {
        if commit == Acknowledged {
          workers := workers[w := Reporting(r)];
        }
        return;
      }
      if stage == FailedStage && retry && commit != RolledBack {
        runs := runs[r := runs[r].(stage := Claimed, status := NotChecked, attempt := runs[r].attempt + 1)];
        if commit == Acknowledged {
          workers := workers[w := Holding(r)];
        }
      }
    }

    /** claimRun: insert the run, or find it, or take a failed one up again. */
    method Claim(w: nat, name: string, fingerprint: string, mode: Mode, retry: bool, commit: Commit)
      requires Safe(Tables())
      modifies this
      ensures Tables() == ClaimStep(old(Tables()), w, name, fingerprint, mode, retry, commit)
      ensures Safe(Tables()) && Progress(old(Tables()), Tables())
    {
      ClaimKeeps(Tables(), w, name, fingerprint, mode, retry, commit);
      if !IsIdle(w) {
        return;
      }
      if r :| r in runs && runs[r].fingerprint == fingerprint {
        FoundByFingerprint(Tables(), r);
        ClaimExisting(w, r, retry, commit);
      } else {
        InsertRun(w, name, fingerprint, mode, commit);
      }
    }

    /** The body transaction of Persist and what its outcome means for the worker. */
    method PersistBody(w: nat, commit: Commit)
      requires Safe(Tables())
      modifies this
      ensures Tables() == BodyStep(old(Tables()), w, commit)
      ensures Safe(Tables()) && Progress(old(Tables()), Tables())
    {
      BodyKeeps(Tables(), w, commit);
      if w in workers && workers[w].Holding? && workers[w].run in runs {
        var r := workers[w].run;
        if commit != RolledBack {
          bodies := bodies + multiset{r};
          runs := runs[r := runs[r].(stage := Reconciled, status := NotChecked)];
        }
        workers := workers[w := if commit == Acknowledged then Reporting(r) else Failing(r)];
      }
    }

    method MarkRunFailed(w: nat, delivered: bool)
      requires Safe(Tables())
      modifies this
      ensures Tables() == MarkStep(old(Tables()), w, delivered)
      ensures Safe(Tables()) && Progress(old(Tables()), Tables())
    {
      MarkKeeps(Tables(), w, delivered);
      if w in workers && workers[w].Failing? {
        var r := workers[w].run;
        if delivered && r in runs && runs[r].stage == Claimed {
          runs := runs[r := runs[r].(stage := FailedStage, status := FailStatus)];
        }
        workers := workers[w := Idle];
      }
    }

    method RegisterReport(w: nat, kind: string, path: string, commit: Commit)
      requires Safe(Tables())
      modifies this
      ensures Tables() == ReportStep(old(Tables()), w, kind, path, commit)
      ensures Safe(Tables()) && Progress(old(Tables()), Tables())
    {
      ReportKeeps(Tables(), w, kind, path, commit);
      if w in workers && workers[w].Reporting? && workers[w].run in runs && commit != RolledBack {
        var r := workers[w].run;
        artifacts := artifacts[ArtifactId(r, kind) := path];
        if runs[r].stage == Reconciled || runs[r].stage == Reported {
          var status := if runs[r].mode == Strict then PassStatus else DiagnosticStatus;
          runs := runs[r := runs[r].(stage := Reported, status := status)];
        }
      }
    }
  }

  // ----- Which requests share a run

  datatype Request = Request(
    payment: string, settlement: string, selected: string, mode: Mode, version: nat, rules: seq<ConfigRule>)

  function ModeText(m: Mode): string {
    match m
    case Diagnostic => "diagnostic-baseline"
    case Strict => "strict"
    case OtherMode(name) => name
  }

  function RequestBytes(q: Request): string {
    FingerprintBytes(q.payment, q.settlement, q.selected, ModeText(q.mode), q.version, q.rules)
  }

  predicate SameRequest(q: Request, q': Request) {
    && q.payment == q'.payment && q.settlement == q'.settlement && q.selected == q'.selected
    && q.mode == q'.mode && q.version == q'.version && multiset(q.rules) == multiset(q'.rules)
  }

  predicate WellFormed(q: Request) {
    KnownMode(q.mode) && DistinctKeys(q.rules) && forall r | r in q.rules :: KnownSource(r.source)
  }

  /** Requests have one fingerprint text exactly when they ask for the same files, settlement, mode,
      configuration version and rules, in whatever order the rules come. */
  lemma RequestBytesIff(q: Request, q': Request)
    requires WellFormed(q) && WellFormed(q')
    ensures RequestBytes(q) == RequestBytes(q') <==> SameRequest(q, q')
  {
    assert |ModeText(Diagnostic)| == 19 && |ModeText(Strict)| == 6;
    FingerprintBytesDetermine(q.payment, q.settlement, q.selected, ModeText(q.mode), q.version, q.rules,
      q'.payment, q'.settlement, q'.selected, ModeText(q'.mode), q'.version, q'.rules);
  }

  /** Once the run of a request is done, an idle worker that asks is given that run, at any later time and
      without any change to the tables, exactly when it asks for the same thing, barring a collision of the
      two texts. */
  lemma SharedRunIff(digest: string -> string, st: State, trace: seq<Event>, r: nat, q: Request,
      w: nat, name: string, q': Request, retry: bool)
    requires Safe(st) && DoneRun(st, r) && st.runs[r].fingerprint == digest(RequestBytes(q))
    requires WellFormed(q) && WellFormed(q') && WorkerAt(Run(st, trace), w) == Idle
    requires digest(RequestBytes(q)) == digest(RequestBytes(q')) ==> RequestBytes(q) == RequestBytes(q')
    ensures
      var later := Run(st, trace);
      var asked := ClaimStep(later, w, name, digest(RequestBytes(q')), q'.mode, retry, Acknowledged);
      && (WorkerAt(asked, w) == Reporting(r) <==> SameRequest(q, q'))
      && (SameRequest(q, q') ==> asked == Becomes(later, w, Reporting(r)))
  {
    RequestBytesIff(q, q');
    RunKeeps(st, trace);
    if SameRequest(q, q') {
      DoneRunsAreReturned(st, trace, r, w, name, q'.mode, retry);
    } else {
      OtherRunReturned(Run(st, trace), r, w, name, digest(RequestBytes(q')), q'.mode, retry);
    }
  }

  lemma OtherRunReturned(st: State, r: nat, w: nat, name: string, fingerprint: string, mode: Mode, retry: bool)
    requires Safe(st) && r in st.runs && st.runs[r].fingerprint != fingerprint && WorkerAt(st, w) == Idle
    ensures WorkerAt(ClaimStep(st, w, name, fingerprint, mode, retry, Acknowledged), w) != Reporting(r)
  {
  }
}
