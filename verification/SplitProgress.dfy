/** Calls of the Go agent whose messages get through, from the commit token to the answer: what they
    answer and leave behind, told from agent, worker, table and fault script before the call. */
module SplitProgress {
  import opened DeviceTable
  import opened Transaction
  import opened Connections
  import opened AgentModel
  import opened Forecast
  import opened WorkerForecast
  import opened GoCore
  import opened Split
  import opened SplitSafety
  import opened SplitRuns
  import opened SplitJobs
  import opened Wrappers
  import DeviceWorker

  /** Nobody holds the commit token, and nothing is left over under this id. */
  predicate Idle(s: System, id: nat) {
    s.tokens == 0 && s.ops == map[] && id !in s.net.requests && id !in s.net.replies
  }

  /** The commit token is back, so that the next call can take it. */
  predicate FreeAgain(s: System) {
    s.tokens == 0 && s.ops == map[]
  }

  lemma {:induction false} ConfigStays(r: Run, k: nat)
    requires IsRun(r) && k < |r.states|
    ensures r.states[k].config == r.states[0].config
  {
    if k > 0 {
      ConfigStays(r, k - 1);
      assert StepsAt(r, k - 1);
      LeaseOfStep(r.states[k - 1], r.events[k - 1]);
    }
  }

  lemma FinishFrees(s: System, id: nat, heard: bool)
    requires Safe(s) && id in s.ops && s.ops[id].Called()
    ensures FreeAgain(Step(s, Finish(id, heard)).0)
  {
    OnlyOp(s, id);
  }

  // ---------------------------------------------------------------- writes

  function Change(job: Job): Option<Mode> {
    if job.ChangeMode? then Some(job.mode) else None
  }

  function ModeFor(job: Job): Mode {
    if job.ChangeMode? then job.mode else OCS
  }

  /** What the worker will be sent. */
  function WriteCall(s: System, job: Job, target: ValidSet, terms: Terms): DeviceWorker.Call {
    ApplyCall(s.agent.client, CurrentPairs(s.agent.core.model), PairsFor(target, ModeFor(job)), terms)
  }

  /** The job is a write that its caller may make now and that can be carried out. */
  predicate MayStart(s: System, id: nat, job: Job, target: ValidSet, terms: Terms, now: real) {
    && Idle(s, id) && GoodJob(Ports(s), job)
    && WantsTarget(job, s.agent.core.model, target) && UnderTerms(job, terms)
    && Accepted(s.config.backend, terms.strategy, terms.delay, terms.transport)
    && MayWrite(s.agent.core, s.agent.control, s.agent.client, Change(job), terms, now)
  }

  /** The model is already as the job wants it. */
  ghost predicate AsWanted(s: System, job: Job, target: ValidSet) {
    SameItems(target, s.agent.core.model.connections) && ModeFor(job) == s.agent.core.model.mode
  }

  function PreparedState(s: System, id: nat, job: Job, target: ValidSet, terms: Terms): System {
    s.(tokens := 1, ops := map[id := Prepared(target, Change(job), terms)])
  }

  lemma AcquirePrepare(s: System, id: nat, job: Job, target: ValidSet, terms: Terms)
    requires Idle(s, id) && GoodJob(Ports(s), job)
    requires WantsTarget(job, s.agent.core.model, target) && UnderTerms(job, terms)
    ensures var s1 := Step(s, Acquire(id, job)).0;
            && s1 == s.(tokens := 1, ops := map[id := Holding(job)])
            && Step(s1, Prepare(id)) == (PreparedState(s, id, job, target, terms), Nothing)
  {
    var phase := Prepared(target, Change(job), terms);
    assert map[id := Holding(job)][id := phase] == map[id := phase];
    assert s.ops[id := Holding(job)] == map[id := Holding(job)];
  }

  lemma SameTarget(s: System, job: Job, target: ValidSet)
    requires GoodJob(Ports(s), job) && WantsTarget(job, s.agent.core.model, target)
    ensures target.n == Ports(s)
  {
    if job.Operations? {
      assert job.edits[..|job.edits|] == job.edits;
      EditsKeepValid(s.agent.core.model.connections, job.edits, |job.edits|);
    }
  }

  /** The section that admits a prepared write decides by what may be done and what is wanted. */
  lemma AdmissionDecides(s: System, id: nat, job: Job, target: ValidSet, terms: Terms, now: real)
    requires MayStart(s, id, job, target, terms, now)
    ensures var plan := AdmitWrite(s.config, s.agent.core, s.agent.control, s.agent.client, target, Change(job), terms,
                                   now).2;
            if AsWanted(s, job, target) then plan == Declined(Same)
            else plan == Admitted(target, ModeFor(job), WriteCall(s, job, target, terms))
  {
    SameTarget(s, job, target);
    AdmitsIff(s.config, s.agent.core, s.agent.control, s.agent.client, target, Change(job), terms, now);
    AdmissionMeans(s.config, s.agent.core, s.agent.control, s.agent.client, target, Change(job), terms, now);
  }

  /** Admission of a prepared write: sent to the worker, or "unchanged" because it would change nothing. */
  lemma Admission(s: System, id: nat, job: Job, target: ValidSet, terms: Terms, now: real)
    requires MayStart(s, id, job, target, terms, now)
    ensures var (s3, note) := Step(PreparedState(s, id, job, target, terms), Admit(id, now));
            var call := WriteCall(s, job, target, terms);
            if AsWanted(s, job, target) then
              note == Done(Same) && FreeAgain(s3) && s3.worker == s.worker && s3.agent.core == s.agent.core
              && s3.net.requests == s.net.requests
            else
              && id in s3.ops && s3.ops[id] == Writing(target, ModeFor(job), terms, s.agent.core.model, call)
              && id in s3.net.requests && s3.net.requests[id] == call
              && s3.worker == s.worker && s3.agent.client == s.agent.client && s3.agent.core.gate == s.agent.core.gate
              && s3.agent.core.model == s.agent.core.model
  {
    AdmissionDecides(s, id, job, target, terms, now);
    AdmissionMeans(s.config, s.agent.core, s.agent.control, s.agent.client, target, Change(job), terms, now);
  }

  /** "Unchanged" is answered exactly if the connections and the mode are as wanted already. */
  lemma UnchangedIff(r: Run, id: nat, job: Job, target: ValidSet, terms: Terms, now: real)
    requires SafeRun(r) && r.events == [Acquire(id, job), Prepare(id), Admit(id, now)]
    requires MayStart(r.states[0], id, job, target, terms, now)
    ensures r.notes[2] == Done(Same) <==> AsWanted(r.states[0], job, target)
    ensures r.notes[2] == Done(Same) ==>
              FreeAgain(r.states[3]) && r.states[3].worker == r.states[0].worker
              && r.states[3].net.requests == r.states[0].net.requests
  {
    assert StepsAt(r, 0) && StepsAt(r, 1) && StepsAt(r, 2);
    AcquirePrepare(r.states[0], id, job, target, terms);
    Admission(r.states[0], id, job, target, terms, now);
    if !AsWanted(r.states[0], job, target) { NotDone(r.states[2], id, now); }
  }

  lemma NotDone(s: System, id: nat, now: real)
    requires id in Step(s, Admit(id, now)).0.ops
    ensures !Step(s, Admit(id, now)).1.Done?
  {
  }

  /** The end of a write, by what is heard. */
  function WriteAnswer(reply: DeviceWorker.Reply): Answer {
    if reply.RpcError? then Unavailable
    else if reply.success then Updated
    else if reply.code == DeviceWorker.FAILED_PRECONDITION then Disagreed
    else if reply.restored then Restored
    else Broken
  }

  /** What the end of a call leaves of the status. */
  predicate SettledBy(core: Core, answer: Answer) {
    && (core.status == Ready <==> answer == Updated || answer == Recovered || answer == Restored)
    && (core.status == Failed <==> !(answer == Updated || answer == Recovered || answer == Restored))
    && (core.lastError == NoError <==> answer == Updated || answer == Recovered)
    && core.lastError != DriftDetected
  }

  lemma HeardWrite(s: System, id: nat, reply: DeviceWorker.Reply)
    requires id in s.ops && s.ops[id].Writing? && id in s.net.replies && s.net.replies[id] == reply
    ensures var (s', note) := Step(s, Finish(id, true));
            && note == Done(WriteAnswer(reply)) && SettledBy(s'.agent.core, WriteAnswer(reply))
            && s'.agent.client == Capture(s.agent.client, reply) && s'.worker == s.worker
            && s'.agent.core.gate == s.agent.core.gate
  {
  }

  /** The worker is where the agent believes it to be. */
  predicate UpToDate(s: System) {
    && s.worker.cache == DeviceWorker.READY && s.agent.client.generation == s.worker.generation
    && s.worker.entries == CurrentPairs(s.agent.core.model) && s.worker.backend == s.config.backend
  }

  lemma UpToDateIsGuarded(s: System, job: Job, target: ValidSet, terms: Terms)
    requires UpToDate(s)
    ensures Guarded(s.worker, WriteCall(s, job, target, terms))
  {
  }

  /** What will become of a write that meets the worker as it expects it. */
  datatype Fate = Commits | RollsBack | Breaks | Drifts | FallsSilent

  /** Told from worker, table and script before it. */
  function FateOf(w: DeviceWorker.Worker, call: DeviceWorker.Call): Fate
    requires call.ApplyTransition?
  {
    var d := AfterPrecheck(w);
    if w.strict && !ReadWorks(w.device) then FallsSilent
    else if w.strict && w.device.table != w.entries then Drifts
    else if WillReturn(w.backend, d, w.entries, call.target, call.strategy, call.delay, call.transport) then Commits
    else if WillRollBack(w.backend, d, w.entries, call.target, call.strategy, call.delay, call.transport) then RollsBack
    else Breaks
  }

  function AnswerFor(fate: Fate): Answer {
    match fate
    case Commits => Updated
    case RollsBack => Restored
    case Breaks => Broken
    case Drifts => Disagreed
    case FallsSilent => Unavailable
  }

  /** The cache status that the client reports then. */
  function CacheFor(fate: Fate): DeviceWorker.CacheStatus {
    match fate
    case Commits => DeviceWorker.READY
    case RollsBack => DeviceWorker.READY
    case Breaks => DeviceWorker.UNKNOWN
    case Drifts => DeviceWorker.DRIFTED
    case FallsSilent => DeviceWorker.UNKNOWN
  }

  /** What the worker makes of it, and what the client hears. */
  predicate Meets(w: DeviceWorker.Worker, call: DeviceWorker.Call, fate: Fate, w': DeviceWorker.Worker,
                  reply: DeviceWorker.Reply)
    requires call.ApplyTransition?
  {
    && WriteAnswer(reply) == AnswerFor(fate)
    && (fate == FallsSilent <==> reply.RpcError?)
    && (reply.Reply? ==> reply.cache == w'.cache == CacheFor(fate) && reply.generation == w'.generation)
    && (fate == FallsSilent ==> w'.cache == w.cache)
    && w'.entries == (if fate == Commits then call.target else w.entries)
    && w'.generation == w.generation + (if fate == Commits then 1 else 0)
    && w'.backend == w.backend
  }

  lemma WorkerAnswers(w: DeviceWorker.Worker, call: DeviceWorker.Call)
    requires call.ApplyTransition? && Guarded(w, call)
    ensures var (w', reply) := DeviceWorker.Step(w, call); Meets(w, call, FateOf(w, call), w', reply)
  {
    ApplyRepliesIff(w, call);
    CacheAfterIff(w, call);
    EntriesChangeIff(w, call);
    DeviceWorker.StepKeeps(w, call);
  }

  /** The last two legs of a write. */
  lemma ExecuteFinish(s: System, id: nat, call: DeviceWorker.Call)
    requires id in s.ops && s.ops[id].Writing? && id in s.net.requests && s.net.requests[id] == call
    ensures var (w, reply) := DeviceWorker.Step(s.worker, call);
            var s4 := Step(s, Execute(id)).0;
            var (s5, note) := Step(s4, Finish(id, true));
            && s5.worker == w && note == Done(WriteAnswer(reply)) && SettledBy(s5.agent.core, WriteAnswer(reply))
            && s5.agent.client == Capture(s.agent.client, reply)
            && s5.agent.core.gate == s.agent.core.gate
  {
    Executed(s, id);
    HeardWrite(Step(s, Execute(id)).0, id, DeviceWorker.Step(s.worker, call).1);
  }

  /** A write from the commit token to its answer, when its messages get through to an up-to-date worker:
      which answer it gets, what becomes of the model, and what agent, client and worker hold then.
      "Updated" is answered exactly if the transition will return, and then everything is as the job
      wanted it.  If it will be rolled back, everything is as it was, and the next write may follow. */
  lemma WriteJobAnswers(r: Run, id: nat, job: Job, target: ValidSet, terms: Terms, now: real)
    requires SafeRun(r)
    requires r.events == [Acquire(id, job), Prepare(id), Admit(id, now), Execute(id), Finish(id, true)]
    requires MayStart(r.states[0], id, job, target, terms, now) && UpToDate(r.states[0])
    requires !AsWanted(r.states[0], job, target)
    ensures var s, s' := r.states[0], r.states[5];
            var fate := FateOf(s.worker, WriteCall(s, job, target, terms));
            && r.notes[4] == Done(AnswerFor(fate)) && SettledBy(s'.agent.core, AnswerFor(fate))
            && FreeAgain(s') && !s'.agent.core.gate && LeavesBehind(s, s', job, target, fate)
  {
    var s, call := r.states[0], WriteCall(r.states[0], job, target, terms);
    var reply := WriteLegs(r, id, job, target, terms, now);
    LeftBehind(r, id, job, target, call, FateOf(s.worker, call), r.states[5].worker, reply);
  }

  /** What becomes of model, client and worker. */
  predicate LeavesBehind(s: System, s': System, job: Job, target: ValidSet, fate: Fate) {
    && s'.agent.core.model == (if fate == Commits then Model(target, ModeFor(job), s.agent.core.model.revision + 1)
                               else s.agent.core.model)
    && s'.agent.client.cache == CacheFor(fate)
    && (fate == Commits || fate == RollsBack ==> UpToDate(s'))
    && s'.worker.entries == CurrentPairs(s'.agent.core.model)
  }

  lemma LeftBehind(r: Run, id: nat, job: Job, target: ValidSet, call: DeviceWorker.Call, fate: Fate,
                   w: DeviceWorker.Worker, reply: DeviceWorker.Reply)
    requires SafeRun(r) && |r.events| == 5 && r.events[0] == Acquire(id, job)
    requires HeldThroughout(r, id) && r.notes[4] == Done(WriteAnswer(reply))
    requires WantsTarget(job, ModelAt(r, 0), target) && UpToDate(r.states[0])
    requires call.ApplyTransition? && Meets(r.states[0].worker, call, fate, w, reply)
    requires call.target == PairsFor(target, ModeFor(job))
    requires r.states[5].worker == w && r.states[5].config == r.states[0].config
    requires r.states[5].agent.client == Capture(r.states[0].agent.client, reply)
    ensures LeavesBehind(r.states[0], r.states[5], job, target, fate)
  {
    WriteModel(r, id, job, target);
  }

  predicate HeldThroughout(r: Run, id: nat)
    requires |r.states| == 6
  {
    && id !in r.states[0].ops && id in r.states[1].ops && id in r.states[2].ops && id in r.states[3].ops
    && id in r.states[4].ops && id !in r.states[5].ops
  }

  lemma WriteModel(r: Run, id: nat, job: Job, target: ValidSet)
    requires SafeRun(r) && |r.events| == 5 && r.events[0] == Acquire(id, job)
    requires HeldThroughout(r, id) && r.notes[4].Done? && SettledAnswer(r.notes[4].answer)
    requires WantsTarget(job, ModelAt(r, 0), target)
    ensures ModelAt(r, 5)
            == if r.notes[4].answer == Updated then Model(target, ModeFor(job), ModelAt(r, 0).revision + 1)
               else ModelAt(r, 0)
  {
    assert Takes(r, 0, id, job);
    AnswersTheJob(r, 0, 4, id, job);
  }

  /** The answers that a write can end with. */
  predicate SettledAnswer(answer: Answer) {
    answer == Updated || answer == Restored || answer == Broken || answer == Disagreed || answer == Unavailable
  }

  /** The five legs, one after the other. */
  lemma WriteLegs(r: Run, id: nat, job: Job, target: ValidSet, terms: Terms, now: real)
    returns (reply: DeviceWorker.Reply)
    requires SafeRun(r)
    requires r.events == [Acquire(id, job), Prepare(id), Admit(id, now), Execute(id), Finish(id, true)]
    requires MayStart(r.states[0], id, job, target, terms, now) && UpToDate(r.states[0])
    requires !AsWanted(r.states[0], job, target)
    ensures var s, s' := r.states[0], r.states[5];
            var call := WriteCall(s, job, target, terms);
            && Meets(s.worker, call, FateOf(s.worker, call), s'.worker, reply)
            && s'.config == s.config && FreeAgain(s') && s'.agent.core.gate == s.agent.core.gate
            && r.notes[4] == Done(WriteAnswer(reply)) && SettledBy(s'.agent.core, WriteAnswer(reply))
            && s'.agent.client == Capture(s.agent.client, reply)
    ensures HeldThroughout(r, id)
  {
    var s, call := r.states[0], WriteCall(r.states[0], job, target, terms);
    FirstThreeLegs(r, id, job, target, terms, now);
    reply := LastTwoLegs(r, id, call);
  }

  lemma FirstThreeLegs(r: Run, id: nat, job: Job, target: ValidSet, terms: Terms, now: real)
    requires SafeRun(r)
    requires r.events == [Acquire(id, job), Prepare(id), Admit(id, now), Execute(id), Finish(id, true)]
    requires MayStart(r.states[0], id, job, target, terms, now) && UpToDate(r.states[0])
    requires !AsWanted(r.states[0], job, target)
    ensures var s, s3 := r.states[0], r.states[3];
            var call := WriteCall(s, job, target, terms);
            && id in s3.ops && s3.ops[id].Writing? && id in s3.net.requests && s3.net.requests[id] == call
            && s3.worker == s.worker && s3.agent.client == s.agent.client && s3.agent.core.gate == s.agent.core.gate
            && Guarded(s3.worker, call)
    ensures id in r.states[1].ops && id in r.states[2].ops
  {
    assert StepsAt(r, 0) && StepsAt(r, 1) && StepsAt(r, 2);
    AcquirePrepare(r.states[0], id, job, target, terms);
    Admission(r.states[0], id, job, target, terms, now);
    UpToDateIsGuarded(r.states[0], job, target, terms);
  }

  lemma LastTwoLegs(r: Run, id: nat, call: DeviceWorker.Call) returns (reply: DeviceWorker.Reply)
    requires SafeRun(r) && |r.events| == 5 && r.events[3] == Execute(id) && r.events[4] == Finish(id, true)
    requires id in r.states[3].ops && r.states[3].ops[id].Writing?
    requires id in r.states[3].net.requests && r.states[3].net.requests[id] == call
    requires call.ApplyTransition? && Guarded(r.states[3].worker, call)
    ensures var s, s' := r.states[3], r.states[5];
            && Meets(s.worker, call, FateOf(s.worker, call), s'.worker, reply)
            && FreeAgain(s') && id in r.states[4].ops && s'.config == r.states[0].config
            && r.notes[4] == Done(WriteAnswer(reply)) && SettledBy(s'.agent.core, WriteAnswer(reply))
            && s'.agent.client == Capture(s.agent.client, reply) && s'.agent.core.gate == s.agent.core.gate
  {
    assert StepsAt(r, 3) && StepsAt(r, 4);
    Executed(r.states[3], id);
    ExecuteFinish(r.states[3], id, call);
    StaysSafe(r, 4);
    FinishFrees(r.states[4], id, true);
    ConfigStays(r, 5);
    WorkerAnswers(r.states[3].worker, call);
    reply := DeviceWorker.Step(r.states[3].worker, call).1;
  }

  lemma WorkerLeg(r: Run, id: nat, call: DeviceWorker.Call)
    requires IsRun(r) && |r.events| == 5 && r.events[3] == Execute(id) && r.events[4] == Finish(id, true)
    requires id in r.states[3].ops && r.states[3].ops[id].Writing?
    requires id in r.states[3].net.requests && r.states[3].net.requests[id] == call
    ensures r.states[5].worker == DeviceWorker.Step(r.states[3].worker, call).0
  {
    assert StepsAt(r, 3) && StepsAt(r, 4);
    ExecuteFinish(r.states[3], id, call);
  }

  lemma UndisturbedFate(w: DeviceWorker.Worker, call: DeviceWorker.Call)
    requires call.ApplyTransition? && Guarded(w, call) && DeviceWorker.Truthful(w)
    requires Accepted(w.backend, call.strategy, call.delay, call.transport) && (call.delay == 0 || w.backend.sleeps)
    requires Failures(DeviceWorker.Step(w, call).0.device.log) == Failures(w.device.log)
    ensures FateOf(w, call) == Commits && DeviceWorker.Step(w, call).0.device.table == call.target
  {
    DeviceWorker.UndisturbedSwap(w, call);
    DeviceWorker.SwapKeepsTruth(w, call);
    WorkerAnswers(w, call);
  }

  /** So every write that its caller may make is committed, from the commit token on, when its messages get
      through, unless a request to the device fails. */
  lemma UndisturbedJobCommits(r: Run, id: nat, job: Job, target: ValidSet, terms: Terms, now: real)
    requires SafeRun(r)
    requires r.events == [Acquire(id, job), Prepare(id), Admit(id, now), Execute(id), Finish(id, true)]
    requires MayStart(r.states[0], id, job, target, terms, now) && UpToDate(r.states[0])
    requires !AsWanted(r.states[0], job, target) && !r.states[0].edited
    requires terms.delay == 0 || r.states[0].config.backend.sleeps
    requires Failures(r.states[5].worker.device.log) == Failures(r.states[0].worker.device.log)
    ensures r.notes[4] == Done(Updated) && LeavesBehind(r.states[0], r.states[5], job, target, Commits)
    ensures r.states[5].worker.device.table == CurrentPairs(r.states[5].agent.core.model)
  {
    var call := WriteCall(r.states[0], job, target, terms);
    FirstThreeLegs(r, id, job, target, terms, now);
    WorkerLeg(r, id, call);
    UndisturbedFate(r.states[0].worker, call);
    WriteJobAnswers(r, id, job, target, terms, now);
  }

  // ---------------------------------------------------------------- recovery

  function RecoverCall(s: System): DeviceWorker.Call {
    DeviceWorker.Recover(CurrentPairs(s.agent.core.model), FULL, SEQUENTIAL, 0)
  }

  /** What will become of a recovery, whatever state the worker is in. */
  function RecoveryFate(w: DeviceWorker.Worker, call: DeviceWorker.Call): Fate
    requires call.Recover?
  {
    if RecoveryReturns(w, call) then Commits
    else if ReadWorks(w.device)
            && WillRollBack(w.backend, WorkerForecast.AfterRead(w), w.device.table, call.desired, call.strategy,
                            call.delay, call.transport) then RollsBack
    else Breaks
  }

  function RecoveryAnswer(fate: Fate): Answer {
    match fate
    case Commits => Recovered
    case RollsBack => Restored
    case _ => Broken
  }

  function RecoveryCache(fate: Fate): DeviceWorker.CacheStatus {
    match fate
    case Commits => DeviceWorker.READY
    case RollsBack => DeviceWorker.DRIFTED
    case _ => DeviceWorker.UNKNOWN
  }

  predicate MeetsRecovery(w: DeviceWorker.Worker, call: DeviceWorker.Call, fate: Fate, w': DeviceWorker.Worker,
                          reply: DeviceWorker.Reply)
    requires call.Recover?
  {
    && reply.Reply? && reply.cache == w'.cache == RecoveryCache(fate) && reply.generation == w'.generation
    && (reply.success <==> fate == Commits) && reply.code != DeviceWorker.FAILED_PRECONDITION
    && (!reply.success ==> (reply.restored <==> fate == RollsBack))
    && w'.generation == w.generation + (if fate == Commits then 1 else 0)
    && (fate == Commits ==> w'.entries == w'.device.table == call.desired)
    && (fate != Commits ==> w'.entries == w.entries)
  }

  lemma WorkerRecovers(w: DeviceWorker.Worker, call: DeviceWorker.Call)
    requires call.Recover?
    ensures var (w', reply) := DeviceWorker.Step(w, call); MeetsRecovery(w, call, RecoveryFate(w, call), w', reply)
  {
    RecoverRepliesIff(w, call);
    RecoveryReturnsIff(w, call);
    CacheAfterIff(w, call);
    DeviceWorker.StepKeeps(w, call);
  }

  lemma AdmitsRecovery(s: System, id: nat, job: Job, now: real)
    requires Idle(s, id) && job.RecoverState?
    requires MayRecover(s.agent.core, s.agent.control, Terms(FULL, SEQUENTIAL, 0, job.expected, job.token), now)
    ensures var s1 := Step(s, Acquire(id, job)).0;
            var s2 := Step(s1, Admit(id, now)).0;
            && id in s1.ops && id in s2.ops && s2.ops[id].Recovering? && s2.ops[id].call == RecoverCall(s)
            && id in s2.net.requests && s2.net.requests[id] == RecoverCall(s)
            && s2.worker == s.worker && s2.agent.client == s.agent.client
            && s2.agent.core == s.agent.core.(status := Updating)
  {
  }

  lemma HeardRecovery(s: System, id: nat, reply: DeviceWorker.Reply, fate: Fate)
    requires Safe(s) && id in s.ops && s.ops[id].Recovering? && id in s.net.replies && s.net.replies[id] == reply
    requires reply.Reply? && (reply.success <==> fate == Commits) && reply.code != DeviceWorker.FAILED_PRECONDITION
    requires !reply.success ==> (reply.restored <==> fate == RollsBack)
    ensures var (s', note) := Step(s, Finish(id, true));
            && note == Done(RecoveryAnswer(fate)) && SettledBy(s'.agent.core, RecoveryAnswer(fate))
            && s'.agent.client == Client(reply.generation, reply.cache) && s'.worker == s.worker && FreeAgain(s')
            && s'.agent.core.gate == (s.agent.core.gate && fate != Commits)
            && s'.agent.core.model
               == if fate == Commits then s.agent.core.model.(revision := s.agent.core.model.revision + 1)
                  else s.agent.core.model
  {
    FinishFrees(s, id, true);
  }

  lemma RecoveryLegs(r: Run, id: nat, call: DeviceWorker.Call)
    requires SafeRun(r) && |r.events| == 4 && r.events[2] == Execute(id) && r.events[3] == Finish(id, true)
    requires id in r.states[2].ops && r.states[2].ops[id].Recovering?
    requires id in r.states[2].net.requests && r.states[2].net.requests[id] == call && call.Recover?
    ensures var s, s', fate := r.states[2], r.states[4], RecoveryFate(r.states[2].worker, call);
            && r.notes[3] == Done(RecoveryAnswer(fate)) && SettledBy(s'.agent.core, RecoveryAnswer(fate))
            && s'.agent.client == Client(s'.worker.generation, RecoveryCache(fate)) && FreeAgain(s')
            && s'.worker.cache == RecoveryCache(fate)
            && (fate == Commits ==> s'.worker.entries == s'.worker.device.table == call.desired)
            && s'.agent.core.gate == (s.agent.core.gate && fate != Commits)
            && s'.agent.core.model
               == if fate == Commits then s.agent.core.model.(revision := s.agent.core.model.revision + 1)
                  else s.agent.core.model
  {
    assert StepsAt(r, 2) && StepsAt(r, 3);
    StaysSafe(r, 3);
    Executed(r.states[2], id);
    WorkerRecovers(r.states[2].worker, call);
    HeardRecovery(r.states[3], id, DeviceWorker.Step(r.states[2].worker, call).1,
                  RecoveryFate(r.states[2].worker, call));
  }

  /** A recovery from the commit token to its answer, from any state whatever -- gate closed, table edited,
      cache unknown, worker and client apart -- by the lease holder at the current revision: it answers
      "recovered" exactly if its transition will return and be read back, and then gate, status, client,
      worker and table are right.  A recovery that is rolled back leaves the cache DRIFTED, and one that
      is not leaves it UNKNOWN. */
  lemma RecoverJobAnswers(r: Run, id: nat, job: Job, now: real)
    requires SafeRun(r) && r.events == [Acquire(id, job), Admit(id, now), Execute(id), Finish(id, true)]
    requires Idle(r.states[0], id) && job.RecoverState?
    requires MayRecover(r.states[0].agent.core, r.states[0].agent.control,
                        Terms(FULL, SEQUENTIAL, 0, job.expected, job.token), now)
    ensures var s, s' := r.states[0], r.states[4];
            var fate := RecoveryFate(s.worker, RecoverCall(s));
            && r.notes[3] == Done(RecoveryAnswer(fate)) && SettledBy(s'.agent.core, RecoveryAnswer(fate))
            && s'.agent.client == Client(s'.worker.generation, RecoveryCache(fate)) && FreeAgain(s')
            && s'.worker.cache == RecoveryCache(fate)
            && s'.agent.core.gate == (s.agent.core.gate && fate != Commits)
            && CurrentPairs(s'.agent.core.model) == CurrentPairs(s.agent.core.model)
            && s'.agent.core.model.revision == s.agent.core.model.revision + (if fate == Commits then 1 else 0)
            && (fate == Commits ==>
                  s'.worker.entries == s'.worker.device.table == CurrentPairs(s'.agent.core.model))
  {
    assert StepsAt(r, 0) && StepsAt(r, 1);
    AdmitsRecovery(r.states[0], id, job, now);
    RecoveryLegs(r, id, RecoverCall(r.states[0]));
  }

  // ---------------------------------------------------------------- reconciliation

  lemma SendsReconcile(s: System, id: nat)
    requires Idle(s, id)
    ensures var s1 := Step(s, Acquire(id, ReconcileState)).0;
            var s2 := Step(s1, Prepare(id)).0;
            var call := DeviceWorker.Reconcile(CurrentPairs(s.agent.core.model));
            && id in s2.ops && s2.ops[id] == Reconciling(call) && id in s2.net.requests && s2.net.requests[id] == call
            && s2.worker == s.worker && s2.agent == s.agent
  {
  }

  lemma HeardReconcile(s: System, id: nat, reply: DeviceWorker.Reply)
    requires id in s.ops && s.ops[id].Reconciling? && PhaseFits(s.agent.core, s.ops[id])
    requires id in s.net.replies && s.net.replies[id] == reply
    ensures var (s', note) := Step(s, Finish(id, true));
            && note == Done(if reply.RpcError? then Unavailable else Reconciled)
            && s'.agent.core == FinishReconcile(s.agent.core, CurrentPairs(s.agent.core.model), reply).0
            && s'.agent.client == Capture(s.agent.client, reply) && s'.worker == s.worker
  {
  }

  /** Table, cached entries and model agree. */
  predicate AllAgree(s: System) {
    s.worker.device.table == s.worker.entries == CurrentPairs(s.agent.core.model)
  }

  /** A reconciliation from the commit token to its answer: READY exactly if table, worker and model agree,
      whatever the cache status was before.  A drift that is over is forgotten -- outside the gate -- and
      a new one is reported. */
  lemma ReconcileJobAnswers(r: Run, id: nat)
    requires SafeRun(r) && r.events == [Acquire(id, ReconcileState), Prepare(id), Execute(id), Finish(id, true)]
    requires Idle(r.states[0], id)
    ensures var s, s', core, core' := r.states[0], r.states[4], r.states[0].agent.core, r.states[4].agent.core;
            && FreeAgain(s') && core'.model == core.model && core'.gate == core.gate
            && s'.worker.entries == s.worker.entries && s'.worker.device.table == s.worker.device.table
            && if !ReadWorks(s.worker.device) then
                 && r.notes[3] == Done(Unavailable) && core'.status == Failed && core'.lastError == OtherError
                 && s'.agent.client.cache == DeviceWorker.UNKNOWN && s'.worker.cache == s.worker.cache
               else
                 && r.notes[3] == Done(Reconciled)
                 && s'.agent.client
                    == Client(s.worker.generation, if AllAgree(s) then DeviceWorker.READY else DeviceWorker.DRIFTED)
                 && s'.worker.cache == s'.agent.client.cache
                 && (core'.status, core'.lastError)
                    == if !AllAgree(s) then (Failed, DriftDetected)
                       else if core.lastError == DriftDetected && !core.gate then (Ready, NoError)
                       else (core.status, core.lastError)
  {
    assert StepsAt(r, 0) && StepsAt(r, 1) && StepsAt(r, 2) && StepsAt(r, 3);
    var s, call := r.states[0], DeviceWorker.Reconcile(CurrentPairs(r.states[0].agent.core.model));
    SendsReconcile(s, id);
    Executed(r.states[2], id);
    ReconcileJudges(s.worker, call.desired);
    DeviceWorker.StepKeeps(s.worker, call);
    StaysSafe(r, 3);
    FinishFrees(r.states[3], id, true);
    assert PhaseFits(r.states[3].agent.core, r.states[3].ops[id]);
    HeardReconcile(r.states[3], id, DeviceWorker.Step(s.worker, call).1);
  }

  // ---------------------------------------------------------------- startup

  /** The startup read shows the worker's entries, whatever its cache status.  The agent comes up exactly if
      they are the configured ones, or a mismatch is to be left alone, or the transition to the configured
      ones will land.  It is ready unless it has left a mismatch alone, and then the gate is closed; it is
      never "updating". */
  lemma BootsIff(c: Config, initial: ValidSet, policy: StartupPolicy, w: DeviceWorker.Worker,
                 requests: map<nat, DeviceWorker.Call>)
    ensures var boot, desired := Boot(c, initial, policy, w, requests), DirectedPairs(initial);
            var call := DeviceWorker.ApplyTransition(w.entries, desired, FULL, SEQUENTIAL, 0, w.generation);
            && DeviceWorker.Step(w, DeviceWorker.ReadEntries)
               == (w, DeviceWorker.Reply(true, true, DeviceWorker.NoCode, w.entries, w.generation, w.cache))
            && (boot.Some? <==> w.entries == desired || policy == REQUIRE_MATCH || Lands(w, call))
            && (boot.Some? ==>
                  var core := boot.value.agent.core;
                  && core.model == Model(initial, OCS, 0) && FreeAgain(boot.value)
                  && core.status == (if core.gate then Failed else Ready)
                  && core.lastError == (if core.gate then OtherError else NoError)
                  && (core.gate <==> w.entries != desired && policy == REQUIRE_MATCH)
                  && (!core.gate ==> boot.value.worker.entries == desired)
                  && boot.value.agent.client == Client(boot.value.worker.generation, boot.value.worker.cache))
  {
    var call := DeviceWorker.ApplyTransition(w.entries, DirectedPairs(initial), FULL, SEQUENTIAL, 0, w.generation);
    ApplyRepliesIff(w, call);
    EntriesChangeIff(w, call);
    DeviceWorker.StepKeeps(w, call);
    assert Lands(w, call) ==> Guarded(w, call);
  }
}
