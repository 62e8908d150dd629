/** What the workers of internal/store/store.go leave in the tables of each run, over whole histories. RunStore
    says which run is in which stage; here every claim carries the call of Persist that makes it, and every body
    the tables it commits. */
module RunHistories {
  import opened Domain
  import opened Grouping
  import opened Gate
  import opened RunTables
  import opened Verify
  import opened EndToEnd
  import opened DiagnosticVerification
  import opened RunStore
  import Requests = RunDatabase

  /** One call of Persist: the request it is named by, the inputs, and what was computed from them. */
  datatype Call = Call(request: Requests.Request, x: Inputs, groups: seq<GroupValue>, merged: Summary)

  /** What holds of a call before it claims a run: the request describes the inputs, the header control has
      passed, and in strict mode the gate. */
  ghost predicate Sound(c: Call) {
    && Requests.WellFormed(c.request)
    && c.request.mode == c.x.mode && c.request.selected == c.x.selected
    && c.request.rules == c.x.paymentRules + c.x.settlementRules
    && Computed(c.x, c.groups, c.merged) && HeaderPasses(c.x)
    && (c.x.mode == Strict ==> GatePasses(c.merged, c.groups))
  }

  /** The rows a body committed, and the call it was made in. */
  datatype Content = Content(call: Call, tables: Tables)

  /** An event of the run store; `call` belongs to a claim and `tables` to a body. */
  datatype Act = Act(event: Event, call: Call, tables: Tables)

  /** The run store, the call each worker is in, and the rows in the tables of each run. */
  datatype World = World(st: State, calls: map<nat, Call>, contents: map<nat, Content>)

  type Digest = string -> string

  /** What a history keeps to: how requests are named, which are made, and what calls and bodies promise. */
  datatype Terms = Terms(digest: Digest, requests: set<Requests.Request>, sound: Call -> bool, stored: Content -> bool)

  function Fingerprint(terms: Terms, q: Requests.Request): string {
    terms.digest(Requests.RequestBytes(q))
  }

  /** Requests made are well formed, and no two of them share a name without asking for the same text. */
  predicate Separates(terms: Terms) {
    && (forall q | q in terms.requests :: Requests.WellFormed(q))
    && forall q, q' | q in terms.requests && q' in terms.requests && Fingerprint(terms, q) == Fingerprint(terms, q') ::
         Requests.RequestBytes(q) == Requests.RequestBytes(q')
  }

  // ----- Steps

  /** The body of a worker that holds a run takes effect, whether or not the worker learns of it. */
  predicate Commits(world: World, a: Act) {
    && a.event.Body? && a.event.commit != RolledBack
    && WorkerAt(world.st, a.event.worker).Holding? && a.event.worker in world.calls
  }

  predicate Calls(world: World, a: Act) {
    a.event.Claim? && WorkerAt(world.st, a.event.worker) == Idle
  }

  ghost function Next(world: World, a: Act): World {
    World(
      Step(world.st, a.event),
      if Calls(world, a) then world.calls[a.event.worker := a.call] else world.calls,
      if Commits(world, a) then
        world.contents[WorkerAt(world.st, a.event.worker).run := Content(world.calls[a.event.worker], a.tables)]
      else world.contents)
  }

  /** A claim names a sound call by its own fingerprint and mode; a body that commits has inserted the tables of
      its call. Nothing else is asked of a worker. */
  predicate Legal(terms: Terms, world: World, a: Act) {
    && (a.event.Claim? ==>
          && terms.sound(a.call) && a.call.request in terms.requests
          && a.event.fingerprint == Fingerprint(terms, a.call.request) && a.event.mode == a.call.request.mode)
    && (Commits(world, a) ==> terms.stored(Content(world.calls[a.event.worker], a.tables)))
  }

  const NOBODY := World(EMPTY, map[], map[])

  ghost function After(world: World, acts: seq<Act>): World
    decreases |acts|
  {
    if acts == [] then world else After(Next(world, acts[0]), acts[1..])
  }

  ghost predicate AllLegal(terms: Terms, world: World, acts: seq<Act>)
    decreases |acts|
  {
    acts == [] || (Legal(terms, world, acts[0]) && AllLegal(terms, Next(world, acts[0]), acts[1..]))
  }

  // ----- What every history keeps

  /** The run was claimed for this request. */
  predicate ClaimedFor(terms: Terms, row: RunRow, q: Requests.Request) {
    row.fingerprint == Fingerprint(terms, q) && row.mode == q.mode
  }

  ghost predicate RunsClaimed(terms: Terms, runs: Runs) {
    forall r | r in runs :: exists q :: q in terms.requests && ClaimedFor(terms, runs[r], q)
  }

  /** The call is sound and asks for the run. */
  ghost predicate CallFor(terms: Terms, row: RunRow, c: Call) {
    terms.sound(c) && c.request in terms.requests && ClaimedFor(terms, row, c.request)
  }

  ghost predicate HoldersCall(terms: Terms, st: State, calls: map<nat, Call>) {
    forall w | w in st.workers && st.workers[w].Holding? :: w in calls && HolderCall(terms, st, st.workers[w].run, calls[w])
  }

  ghost predicate HolderCall(terms: Terms, st: State, r: nat, c: Call) {
    r in st.runs && CallFor(terms, st.runs[r], c)
  }

  /** The tables hold rows of a run exactly when it is done, and they are those of a sound call for it. */
  ghost predicate ContentsExact(terms: Terms, st: State, contents: map<nat, Content>) {
    && (forall r :: r in contents <==> DoneRun(st, r))
    && (forall r | r in contents :: r in st.runs && ContentFor(terms, st.runs[r], contents[r]))
  }

  ghost predicate ContentFor(terms: Terms, row: RunRow, content: Content) {
    CallFor(terms, row, content.call) && terms.stored(content)
  }

  ghost predicate Faithful(terms: Terms, world: World) {
    && Safe(world.st) && RunsClaimed(terms, world.st.runs)
    && HoldersCall(terms, world.st, world.calls) && ContentsExact(terms, world.st, world.contents)
  }

  /** A call for a run that a request with the same fingerprint claimed has the mode of the run. */
  lemma SameFingerprint(terms: Terms, row: RunRow, q: Requests.Request)
    requires Separates(terms) && q in terms.requests
    requires exists p :: p in terms.requests && ClaimedFor(terms, row, p)
    requires row.fingerprint == Fingerprint(terms, q)
    ensures ClaimedFor(terms, row, q)
  {
    var p :| p in terms.requests && ClaimedFor(terms, row, p);
    Requests.RequestBytesIff(p, q);
  }

  // ----- A claim

  lemma NewRunAsked(st: State, e: Event, r: nat)
    requires e.Claim? && r !in st.runs && r in Step(st, e).runs
    ensures Step(st, e).runs[r].fingerprint == e.fingerprint && Step(st, e).runs[r].mode == e.mode
  {
  }

  lemma AdvancedRow(st: State, st': State, r: nat)
    requires Progress(st, st') && r in st.runs
    ensures r in st'.runs && st'.runs[r].fingerprint == st.runs[r].fingerprint && st'.runs[r].mode == st.runs[r].mode
    ensures Done(st.runs[r].stage) ==> Done(st'.runs[r].stage)
  {
    assert Advances(st.runs[r], st'.runs[r]);
  }

  lemma ClaimRuns(terms: Terms, world: World, a: Act)
    requires Faithful(terms, world) && Legal(terms, world, a) && a.event.Claim?
    ensures RunsClaimed(terms, Step(world.st, a.event).runs)
  {
    var st' := Step(world.st, a.event);
    StepKeeps(world.st, a.event);
    forall r | r in st'.runs
      ensures exists q :: q in terms.requests && ClaimedFor(terms, st'.runs[r], q)
    {
      if r in world.st.runs {
        AdvancedRow(world.st, st', r);
        var q :| q in terms.requests && ClaimedFor(terms, world.st.runs[r], q);
        assert ClaimedFor(terms, st'.runs[r], q);
      } else {
        NewRunAsked(world.st, a.event, r);
        assert ClaimedFor(terms, st'.runs[r], a.call.request);
      }
    }
  }

  /** A worker that holds a run after a claim held it before, or has just asked for it. */
  predicate HeldOrAsked(st: State, st': State, e: Event, w: nat)
    requires e.Claim?
  {
    w in st'.workers && st'.workers[w].Holding? ==>
      var r := st'.workers[w].run;
      if w == e.worker && WorkerAt(st, w) == Idle then r in st'.runs && st'.runs[r].fingerprint == e.fingerprint
      else w in st.workers && st.workers[w] == st'.workers[w]
  }

  lemma HolderAfterClaim(st: State, e: Event, w: nat)
    requires e.Claim?
    ensures HeldOrAsked(st, Step(st, e), e, w)
  {
  }

  /** A claim finishes no run. */
  lemma ClaimDone(st: State, e: Event)
    requires Safe(st) && e.Claim?
    ensures forall r :: DoneRun(Step(st, e), r) <==> DoneRun(st, r)
  {
    StepKeeps(st, e);
    forall r
      ensures DoneRun(Step(st, e), r) ==> DoneRun(st, r)
    {
      if DoneRun(Step(st, e), r) {
        ClaimFinishesNone(st, e, r);
      }
    }
    assert forall r | r in st.runs :: Advances(st.runs[r], Step(st, e).runs[r]);
  }

  lemma ClaimFinishesNone(st: State, e: Event, r: nat)
    requires e.Claim? && DoneRun(Step(st, e), r)
    ensures DoneRun(st, r)
  {
  }

  lemma ClaimHolders(terms: Terms, world: World, st': State, a: Act)
    requires Faithful(terms, world) && Separates(terms) && Legal(terms, world, a) && a.event.Claim?
    requires Progress(world.st, st') && RunsClaimed(terms, st'.runs)
    requires forall w :: HeldOrAsked(world.st, st', a.event, w)
    ensures HoldersCall(terms, st', if Calls(world, a) then world.calls[a.event.worker := a.call] else world.calls)
  {
    forall w | w in st'.workers && st'.workers[w].Holding?
      ensures Calls(world, a) && w == a.event.worker ==> HolderCall(terms, st', st'.workers[w].run, a.call)
      ensures !(Calls(world, a) && w == a.event.worker) ==>
        w in world.calls && HolderCall(terms, st', st'.workers[w].run, world.calls[w])
    {
      assert HeldOrAsked(world.st, st', a.event, w);
      var r := st'.workers[w].run;
      if Calls(world, a) && w == a.event.worker {
        SameFingerprint(terms, st'.runs[r], a.call.request);
      } else {
        AdvancedRow(world.st, st', r);
      }
    }
  }

  /** Contents survive a step that finishes no run. */
  lemma ContentsKept(terms: Terms, st: State, st': State, contents: map<nat, Content>)
    requires ContentsExact(terms, st, contents) && Progress(st, st')
    requires forall r :: DoneRun(st', r) <==> DoneRun(st, r)
    ensures ContentsExact(terms, st', contents)
  {
    forall r | r in contents
      ensures r in st'.runs && ContentFor(terms, st'.runs[r], contents[r])
    {
      AdvancedRow(st, st', r);
      assert ContentFor(terms, st.runs[r], contents[r]);
    }
  }

  lemma ClaimFaithful(terms: Terms, world: World, a: Act)
    requires Faithful(terms, world) && Separates(terms) && Legal(terms, world, a) && a.event.Claim?
    ensures Faithful(terms, Next(world, a))
  {
    var st' := Step(world.st, a.event);
    StepKeeps(world.st, a.event);
    ClaimRuns(terms, world, a);
    forall w
      ensures HeldOrAsked(world.st, st', a.event, w)
    {
      HolderAfterClaim(world.st, a.event, w);
    }
    ClaimHolders(terms, world, st', a);
    ClaimDone(world.st, a.event);
    ContentsKept(terms, world.st, st', world.contents);
  }

  // ----- The other steps

  /** No run is made, and no worker is given a run to hold. */
  predicate HoldersKept(st: State, st': State) {
    && st'.runs.Keys == st.runs.Keys
    && forall w | w in st'.workers && st'.workers[w].Holding? :: w in st.workers && st.workers[w] == st'.workers[w]
  }

  lemma BodyHolders(st: State, w: nat, commit: Commit)
    ensures HoldersKept(st, BodyStep(st, w, commit))
  {
  }

  lemma MarkHolders(st: State, w: nat, delivered: bool)
    requires Safe(st)
    ensures HoldersKept(st, MarkStep(st, w, delivered))
    ensures forall r :: DoneRun(MarkStep(st, w, delivered), r) <==> DoneRun(st, r)
  {
  }

  lemma ReportHolders(st: State, w: nat, kind: string, path: string, commit: Commit)
    requires Safe(st)
    ensures HoldersKept(st, ReportStep(st, w, kind, path, commit))
    ensures forall r :: DoneRun(ReportStep(st, w, kind, path, commit), r) <==> DoneRun(st, r)
  {
    ReportKeeps(st, w, kind, path, commit);
    if WorkerAt(st, w).Reporting? {
      assert WorkerFits(st.runs, WorkerAt(st, w));
    }
  }

  /** Any step but a claim makes no run and gives no worker a run to hold, and only a body finishes one. */
  lemma OtherSteps(st: State, e: Event)
    requires Safe(st) && !e.Claim?
    ensures HoldersKept(st, Step(st, e))
    ensures !e.Body? ==> forall r :: DoneRun(Step(st, e), r) <==> DoneRun(st, r)
  {
    match e
    case Body(w, commit) => BodyHolders(st, w, commit);
    case MarkFailed(w, delivered) => MarkHolders(st, w, delivered);
    case Report(w, kind, path, commit) => ReportHolders(st, w, kind, path, commit);
    case Finish(w) =>
    case Crash(w) =>
  }

  lemma BodyDone(st: State, w: nat, commit: Commit)
    requires Safe(st)
    ensures forall r :: DoneRun(BodyStep(st, w, commit), r) <==>
      DoneRun(st, r) || (WorkerAt(st, w).Holding? && WorkerAt(st, w).run == r && commit != RolledBack)
  {
    if WorkerAt(st, w).Holding? {
      assert WorkerFits(st.runs, WorkerAt(st, w));
    }
  }

  lemma OtherRuns(terms: Terms, st: State, st': State, calls: map<nat, Call>)
    requires RunsClaimed(terms, st.runs) && HoldersCall(terms, st, calls)
    requires Progress(st, st') && HoldersKept(st, st')
    ensures RunsClaimed(terms, st'.runs) && HoldersCall(terms, st', calls)
  {
    forall r | r in st'.runs
      ensures exists q :: q in terms.requests && ClaimedFor(terms, st'.runs[r], q)
    {
      AdvancedRow(st, st', r);
      var q :| q in terms.requests && ClaimedFor(terms, st.runs[r], q);
      assert ClaimedFor(terms, st'.runs[r], q);
    }
    forall w | w in st'.workers && st'.workers[w].Holding?
      ensures w in calls && HolderCall(terms, st', st'.workers[w].run, calls[w])
    {
      AdvancedRow(st, st', st'.workers[w].run);
    }
  }

  /** A body that takes effect adds the rows of its call to a run that had none. */
  lemma ContentAdded(terms: Terms, st: State, st': State, contents: map<nat, Content>, r: nat, content: Content)
    requires ContentsExact(terms, st, contents) && Progress(st, st')
    requires r in st.runs && ContentFor(terms, st.runs[r], content)
    requires forall s :: DoneRun(st', s) <==> DoneRun(st, s) || s == r
    ensures ContentsExact(terms, st', contents[r := content])
  {
    forall s | s in contents[r := content]
      ensures s in st'.runs && ContentFor(terms, st'.runs[s], contents[r := content][s])
    {
      assert s in st.runs && ContentFor(terms, st.runs[s], contents[r := content][s]);
      AdvancedRow(st, st', s);
    }
  }

  lemma BodyContents(terms: Terms, world: World, a: Act)
    requires Faithful(terms, world) && Legal(terms, world, a) && a.event.Body?
    ensures ContentsExact(terms, Step(world.st, a.event), Next(world, a).contents)
  {
    var st, w := world.st, a.event.worker;
    var st' := Step(st, a.event);
    StepKeeps(st, a.event);
    BodyDone(st, w, a.event.commit);
    if Commits(world, a) {
      var r := WorkerAt(st, w).run;
      assert HolderCall(terms, st, r, world.calls[w]);
      ContentAdded(terms, st, st', world.contents, r, Content(world.calls[w], a.tables));
    } else {
      ContentsKept(terms, st, st', world.contents);
    }
  }

  lemma OtherFaithful(terms: Terms, world: World, a: Act)
    requires Faithful(terms, world) && Legal(terms, world, a) && !a.event.Claim?
    ensures Faithful(terms, Next(world, a))
  {
    StepKeeps(world.st, a.event);
    OtherSteps(world.st, a.event);
    OtherRuns(terms, world.st, Step(world.st, a.event), world.calls);
    if a.event.Body? {
      BodyContents(terms, world, a);
    } else {
      ContentsKept(terms, world.st, Step(world.st, a.event), world.contents);
    }
  }

  /** Every step of every worker keeps the tables of each run those of a sound call for it, and never replaces
      the rows of a run. */
  lemma NextFaithful(terms: Terms, world: World, a: Act)
    requires Faithful(terms, world) && Separates(terms) && Legal(terms, world, a)
    ensures Faithful(terms, Next(world, a))
    ensures Preserves(world.contents, Next(world, a).contents)
  {
    if a.event.Claim? {
      ClaimFaithful(terms, world, a);
    } else {
      OtherFaithful(terms, world, a);
    }
    CommitsFresh(terms, world, a);
  }

  predicate Preserves(contents: map<nat, Content>, contents': map<nat, Content>) {
    forall r | r in contents :: r in contents' && contents'[r] == contents[r]
  }

  lemma CommitsFresh(terms: Terms, world: World, a: Act)
    requires Safe(world.st) && ContentsExact(terms, world.st, world.contents)
    ensures Preserves(world.contents, Next(world, a).contents)
  {
    if Commits(world, a) {
      HolderNotDone(world.st, a.event.worker);
    }
  }

  lemma HolderNotDone(st: State, w: nat)
    requires Safe(st) && WorkerAt(st, w).Holding?
    ensures !DoneRun(st, WorkerAt(st, w).run)
  {
    assert WorkerFits(st.runs, WorkerAt(st, w));
  }

  lemma {:induction false} AfterFaithful(terms: Terms, world: World, acts: seq<Act>)
    requires Faithful(terms, world) && Separates(terms) && AllLegal(terms, world, acts)
    ensures Faithful(terms, After(world, acts))
    ensures Preserves(world.contents, After(world, acts).contents)
    decreases |acts|
  {
    if acts != [] {
      NextFaithful(terms, world, acts[0]);
      AfterFaithful(terms, Next(world, acts[0]), acts[1..]);
    }
  }

  // ----- Every reported run of every history

  function HeaderOf(row: RunRow, selected: string): RunHeader {
    RunHeader(row.mode, row.stage, row.status, selected)
  }

  /** The runs table gives a reported run the header verification asks of its mode, and the verdict on its
      tables is the one that mode promises of the call that filled them. */
  ghost predicate Verdict(row: RunRow, content: Content) {
    var c := content.call;
    if row.mode == Strict then
      HeaderOf(row, c.x.selected) == ReportedStrict(c.x.selected) && StrictVerdict(c.x, c.groups, content.tables)
    else
      && HeaderOf(row, c.x.selected) == RunHeader(Diagnostic, Reported, row.status, c.x.selected)
      && DiagnosticVerdict(c.x, c.groups, content.tables, row.status)
  }

  ghost function SoundCall(): Call -> bool {
    (c: Call) => Sound(c)
  }

  ghost function StoredContent(): Content -> bool {
    (content: Content) => Stored(content.call.x, content.call.groups, content.call.merged, content.tables)
  }

  /** The terms Persist keeps: calls past their controls, and bodies that commit the tables of their call. */
  ghost function PersistTerms(digest: Digest, requests: set<Requests.Request>): Terms {
    Terms(digest, requests, SoundCall(), StoredContent())
  }

  /** Over every history of any number of workers from an empty database: a REPORTED run has rows in its tables,
      those a sound call for it committed, and they verify exactly under the condition of its mode. */
  lemma ReportedRunsVerify(digest: Digest, requests: set<Requests.Request>, acts: seq<Act>, r: nat)
    requires var terms := PersistTerms(digest, requests); Separates(terms) && AllLegal(terms, NOBODY, acts)
    requires var st := After(NOBODY, acts).st; r in st.runs && st.runs[r].stage == Reported
    ensures var world := After(NOBODY, acts);
      && r in world.contents && ContentFor(PersistTerms(digest, requests), world.st.runs[r], world.contents[r])
      && Verdict(world.st.runs[r], world.contents[r])
  {
    var terms := PersistTerms(digest, requests);
    NobodyFaithful(terms);
    AfterFaithful(terms, NOBODY, acts);
    var world := After(NOBODY, acts);
    assert DoneRun(world.st, r);
    PairedAt(world.st, r);
    ContentVerdict(digest, requests, world.st.runs[r], world.contents[r]);
  }

  lemma NobodyFaithful(terms: Terms)
    ensures Faithful(terms, NOBODY)
  {
    EmptySafe();
  }

  lemma ContentVerdict(digest: Digest, requests: set<Requests.Request>, row: RunRow, content: Content)
    requires ContentFor(PersistTerms(digest, requests), row, content)
    requires Paired(row) && row.stage == Reported
    ensures Verdict(row, content)
  {
    assert SoundCall()(content.call) && StoredContent()(content);
    if row.mode == Strict {
      StrictRunVerifies(content.call.x, content.call.groups, content.call.merged, content.tables);
    } else {
      DiagnosticRunVerifies(content.call.x, content.call.groups, content.call.merged, content.tables, row.status);
    }
  }

  /** The rows of a finished run are never replaced, whatever happens afterwards. */
  lemma ContentsForever(terms: Terms, world: World, acts: seq<Act>, r: nat)
    requires Faithful(terms, world) && Separates(terms) && AllLegal(terms, world, acts)
    requires DoneRun(world.st, r)
    ensures r in After(world, acts).contents && After(world, acts).contents[r] == world.contents[r]
    ensures DoneRun(After(world, acts).st, r)
  {
    AfterFaithful(terms, world, acts);
  }
}
