/** From the moment a caller of the Go agent gets the commit token to its answer: the answer is about
    what the caller asked for, under every interleaving. */
module SplitJobs {
  import opened Transaction
  import opened Connections
  import opened AgentModel
  import opened GoCore
  import opened Split
  import opened SplitSafety
  import opened SplitRuns
  import opened Wrappers
  import DeviceWorker

  // ---------------------------------------------------------------- what was asked for

  /** The connections that a job asks for, given the model it is carried out on. */
  predicate WantsTarget(job: Job, m: Model, target: ValidSet) {
    match job
    case Assign(given, _) => target == given
    case Operations(edits, _, _) => m.mode == OCS && ApplyEdits(m.connections, edits) == Success(target)
    case ChangeMode(_, _) => target == m.connections
    case _ => false
  }

  predicate WantsMode(job: Job, m: Model, mode: Mode) {
    if job.ChangeMode? then mode == job.mode else mode == m.mode == OCS
  }

  /** The terms that a job is carried out under: a batch of edits in single DELTA requests, a change of
      mode in full, a recovery in full and in single requests, none of them with a pause. */
  predicate UnderTerms(job: Job, terms: Terms) {
    match job
    case Assign(_, asked) => terms == asked
    case Operations(_, expected, token) => terms == Terms(DELTA, SEQUENTIAL, 0, expected, token)
    case ChangeMode(_, asked) => terms == Terms(FULL, asked.transport, asked.delay, asked.expected, asked.token)
    case RecoverState(expected, token) => terms == Terms(FULL, SEQUENTIAL, 0, expected, token)
    case ReconcileState => false
  }

  /** The revision that the caller expects. */
  function Expected(job: Job): Option<nat> {
    match job
    case Assign(_, terms) => terms.expected
    case Operations(_, expected, _) => expected
    case ChangeMode(_, terms) => terms.expected
    case RecoverState(expected, _) => expected
    case ReconcileState => None
  }

  /** What goes to the worker for it. */
  predicate Sends(m: Model, target: ValidSet, mode: Mode, terms: Terms, call: DeviceWorker.Call) {
    && call.ApplyTransition? && call.expected == CurrentPairs(m)
    && call.target == (if mode == OCS then DirectedPairs(target) else AllToAll(target.n))
    && call.strategy == terms.strategy && call.transport == terms.transport && call.delay == terms.delay
  }

  /** A phase in which the job may be, on the way to what it asks for. */
  predicate Serves(job: Job, m: Model, phase: Phase) {
    match phase
    case Holding(held) => held == job
    case Prepared(target, change, terms) =>
      && WantsTarget(job, m, target) && UnderTerms(job, terms)
      && change == (if job.ChangeMode? then Some(job.mode) else None)
    case Writing(target, mode, terms, before, call) =>
      && before == m && WantsTarget(job, m, target) && WantsMode(job, m, mode) && UnderTerms(job, terms)
      && Sends(m, target, mode, terms, call)
    case Recovering(terms, before, call) =>
      && before == m && job.RecoverState? && UnderTerms(job, terms)
      && call == DeviceWorker.Recover(CurrentPairs(m), FULL, SEQUENTIAL, 0)
    case Reconciling(call) => job.ReconcileState? && call == DeviceWorker.Reconcile(CurrentPairs(m))
  }

  /** What an answer says about the job, and what has become of the model. */
  ghost predicate Fulfils(job: Job, m: Model, m': Model, answer: Answer) {
    match answer
    case Updated =>
      && WantsTarget(job, m, m'.connections) && WantsMode(job, m, m'.mode) && m'.revision == m.revision + 1
      && Expected(job) == Some(m.revision)
    case Recovered =>
      && m' == m.(revision := m.revision + 1) && job.RecoverState? && Expected(job) == Some(m.revision)
    case Reconciled => m' == m && job.ReconcileState?
    case Same =>
      && m' == m
      && match job {
           case Assign(target, _) => SameItems(target, m.connections)
           case Operations(edits, _, _) =>
             var r := ApplyEdits(m.connections, edits);
             r.Success? && SameItems(r.value, m.connections)
           case ChangeMode(mode, _) => mode == m.mode
           case _ => false
         }
    case Refused(EditRefused) =>
      m' == m && job.Operations? && (m.mode != OCS || ApplyEdits(m.connections, job.edits).Failure?)
    case _ => m' == m
  }

  // ---------------------------------------------------------------- event by event

  lemma PrepareServes(s: System, id: nat, job: Job)
    requires Safe(s) && id in s.ops && Serves(job, s.agent.core.model, s.ops[id])
    ensures ServedOn(s, Prepare(id), id, job)
  {
    OnlyOp(s, id);
    assert PhaseFits(s.agent.core, s.ops[id]);
  }

  /** The call has gone on in the job's service, or has been answered. */
  ghost predicate ServedOn(s: System, e: Event, id: nat, job: Job) {
    var (s', note) := Step(s, e);
    var m, m' := s.agent.core.model, s'.agent.core.model;
    if id in s'.ops then m' == m && Serves(job, m, s'.ops[id])
    else note.Done? && Fulfils(job, m, m', note.answer)
  }

  lemma AdmitWriteServes(s: System, id: nat, now: real, job: Job)
    requires Safe(s) && id in s.ops && s.ops[id].Prepared? && Serves(job, s.agent.core.model, s.ops[id])
    ensures ServedOn(s, Admit(id, now), id, job)
  {
    OnlyOp(s, id);
    var phase := s.ops[id];
    assert PhaseFits(s.agent.core, phase);
    AdmissionMeans(s.config, s.agent.core, s.agent.control, s.agent.client, phase.target, phase.change, phase.terms,
                   now);
    AdmitsIff(s.config, s.agent.core, s.agent.control, s.agent.client, phase.target, phase.change, phase.terms, now);
  }

  lemma AdmitServes(s: System, id: nat, now: real, job: Job)
    requires Safe(s) && id in s.ops && Serves(job, s.agent.core.model, s.ops[id])
    ensures ServedOn(s, Admit(id, now), id, job)
  {
    OnlyOp(s, id);
    if s.ops[id].Prepared? { AdmitWriteServes(s, id, now, job); }
  }

  /** The last section of a write keeps to what was asked for. */
  lemma CommitFulfils(core: Core, phase: Phase, job: Job, reply: DeviceWorker.Reply)
    requires phase.Writing? && Serves(job, core.model, phase) && PhaseFits(core, phase)
    ensures var (core', answer) := CommitWrite(core, phase.target, phase.mode, reply);
            Fulfils(job, core.model, core'.model, answer)
  {
  }

  lemma WriteEnds(s: System, id: nat, heard: bool)
    requires id in s.ops && s.ops[id].Writing?
    ensures var (s', note) := Step(s, Finish(id, heard));
            var (core, answer) := CommitWrite(s.agent.core, s.ops[id].target, s.ops[id].mode, Heard(s, id, heard));
            id !in s'.ops && s'.agent.core == core && note == Done(answer)
  {
  }

  lemma FinishWriteServes(s: System, id: nat, heard: bool, job: Job)
    requires id in s.ops && s.ops[id].Writing? && Serves(job, s.agent.core.model, s.ops[id])
    requires PhaseFits(s.agent.core, s.ops[id])
    ensures ServedOn(s, Finish(id, heard), id, job)
  {
    WriteEnds(s, id, heard);
    CommitFulfils(s.agent.core, s.ops[id], job, Heard(s, id, heard));
  }

  lemma FinishRecoverServes(s: System, id: nat, heard: bool, job: Job)
    requires id in s.ops && s.ops[id].Recovering? && Serves(job, s.agent.core.model, s.ops[id])
    requires PhaseFits(s.agent.core, s.ops[id])
    ensures ServedOn(s, Finish(id, heard), id, job)
  {
  }

  lemma FinishReconcileServes(s: System, id: nat, heard: bool, job: Job)
    requires id in s.ops && s.ops[id].Reconciling? && Serves(job, s.agent.core.model, s.ops[id])
    ensures ServedOn(s, Finish(id, heard), id, job)
  {
  }

  lemma FinishServes(s: System, id: nat, heard: bool, job: Job)
    requires Safe(s) && id in s.ops && Serves(job, s.agent.core.model, s.ops[id])
    ensures ServedOn(s, Finish(id, heard), id, job)
  {
    assert PhaseFits(s.agent.core, s.ops[id]);
    match s.ops[id]
    case Writing(_, _, _, _, _) => FinishWriteServes(s, id, heard, job);
    case Recovering(_, _, _) => FinishRecoverServes(s, id, heard, job);
    case Reconciling(_) => FinishReconcileServes(s, id, heard, job);
    case _ =>
  }

  lemma ElsewhereServes(s: System, e: Event, id: nat, job: Job)
    requires Safe(s) && id in s.ops && Serves(job, s.agent.core.model, s.ops[id])
    requires (e.Prepare? || e.Admit? || e.Finish?) ==> e.id != id
    ensures ServedOn(s, e, id, job)
  {
    OnlyOp(s, id);
  }

  lemma StepServes(s: System, e: Event, id: nat, job: Job)
    requires Safe(s) && id in s.ops && Serves(job, s.agent.core.model, s.ops[id])
    ensures ServedOn(s, e, id, job)
  {
    if (e.Prepare? || e.Admit? || e.Finish?) && e.id == id {
      match e
      case Prepare(_) => PrepareServes(s, id, job);
      case Admit(_, now) => AdmitServes(s, id, now, job);
      case Finish(_, heard) => FinishServes(s, id, heard, job);
    } else {
      ElsewhereServes(s, e, id, job);
    }
  }

  // ---------------------------------------------------------------- over runs

  /** Event i gives the commit token to this job. */
  predicate Takes(r: Run, i: nat, id: nat, job: Job)
    requires i < |r.events| && |r.states| == |r.events| + 1
  {
    r.events[i] == Acquire(id, job) && id !in r.states[i].ops && id in r.states[i + 1].ops
  }

  lemma ServedMoves(r: Run, k: nat, id: nat, job: Job)
    requires SafeRun(r) && k < |r.events| && id in r.states[k].ops
    requires Serves(job, ModelAt(r, k), r.states[k].ops[id])
    ensures if id in r.states[k + 1].ops then
              ModelAt(r, k + 1) == ModelAt(r, k) && Serves(job, ModelAt(r, k), r.states[k + 1].ops[id])
            else r.notes[k].Done? && Fulfils(job, ModelAt(r, k), ModelAt(r, k + 1), r.notes[k].answer)
  {
    StaysSafe(r, k);
    assert StepsAt(r, k);
    StepServes(r.states[k], r.events[k], id, job);
  }

  lemma TakesServes(r: Run, i: nat, id: nat, job: Job)
    requires SafeRun(r) && i < |r.events| && Takes(r, i, id, job)
    ensures ModelAt(r, i + 1) == ModelAt(r, i) && Serves(job, ModelAt(r, i), r.states[i + 1].ops[id])
  {
    assert StepsAt(r, i);
  }

  lemma {:induction false} StillServed(r: Run, i: nat, k: nat, id: nat, job: Job)
    requires SafeRun(r) && i < k <= |r.events| && Takes(r, i, id, job)
    requires forall m | i < m <= k :: id in r.states[m].ops
    ensures ModelAt(r, k) == ModelAt(r, i) && Serves(job, ModelAt(r, i), r.states[k].ops[id])
    decreases k
  {
    if k == i + 1 {
      TakesServes(r, i, id, job);
    } else {
      StillServed(r, i, k - 1, id, job);
      ServedMoves(r, k - 1, id, job);
    }
  }

  /** From the commit token to the answer, over every run: the answer is about the job and about the model
      that was there when the token was taken.  "Updated" means that the connections assigned, or the
      result of the edits, or the mode asked for, are now the model's; "unchanged" that they were all
      along; and nothing else moves the model. */
  lemma AnswersTheJob(r: Run, i: nat, j: nat, id: nat, job: Job)
    requires SafeRun(r) && i < j < |r.events| && Takes(r, i, id, job)
    requires forall m | i < m <= j :: id in r.states[m].ops
    requires id !in r.states[j + 1].ops
    ensures r.notes[j].Done? && Fulfils(job, ModelAt(r, i), ModelAt(r, j + 1), r.notes[j].answer)
  {
    StillServed(r, i, j, id, job);
    ServedMoves(r, j, id, job);
  }

  // ---------------------------------------------------------------- the status "updating"

  /** The status is "updating" only while a write or a recovery is under way. */
  ghost predicate UpdatingMeanwhile(s: System) {
    s.agent.core.status == Updating ==> exists id :: id in s.ops && UnderWay(Some(s.ops[id]))
  }

  lemma FinishSettles(s: System, id: nat, heard: bool)
    requires Safe(s) && UpdatingMeanwhile(s) && id in s.ops && s.ops[id].Called()
    ensures UpdatingMeanwhile(Step(s, Finish(id, heard)).0)
  {
    OnlyOp(s, id);
    assert PhaseFits(s.agent.core, s.ops[id]);
  }

  lemma AdmitUpdates(s: System, id: nat, now: real)
    requires Safe(s) && UpdatingMeanwhile(s) && id in s.ops
    ensures UpdatingMeanwhile(Step(s, Admit(id, now)).0)
  {
    OnlyOp(s, id);
    var s' := Step(s, Admit(id, now)).0;
    assert (id in s'.ops && UnderWay(Some(s'.ops[id]))) || s'.agent.core.status == s.agent.core.status;
    assert s.agent.core.status == Updating ==> UnderWay(Some(s.ops[id]));
  }

  lemma StepSettles(s: System, e: Event)
    requires Safe(s) && UpdatingMeanwhile(s)
    ensures UpdatingMeanwhile(Step(s, e).0)
  {
    match e
    case Prepare(id) => if id in s.ops { PrepareSettles(s, id); }
    case Admit(id, now) => if id in s.ops { AdmitUpdates(s, id, now); }
    case Finish(id, heard) => if id in s.ops && s.ops[id].Called() { FinishSettles(s, id, heard); }
    case Acquire(id, job) => AcquireSettles(s, id, job);
    case _ => QuietSettles(s, e);
  }

  lemma PrepareSettles(s: System, id: nat)
    requires Safe(s) && UpdatingMeanwhile(s) && id in s.ops
    ensures UpdatingMeanwhile(Step(s, Prepare(id)).0)
  {
    OnlyOp(s, id);
    var s' := Step(s, Prepare(id)).0;
    if s.ops[id].Holding? {
      assert s'.agent.core == s.agent.core && s.agent.core.status != Updating;
    } else {
      assert s' == s;
    }
  }

  lemma AcquireSettles(s: System, id: nat, job: Job)
    requires Safe(s) && UpdatingMeanwhile(s)
    ensures UpdatingMeanwhile(AcquireStep(s, id, job))
  {
    if s.tokens == 0 { assert s.ops == map[]; }
  }

  lemma QuietSettles(s: System, e: Event)
    requires UpdatingMeanwhile(s) && (e.LeaseCall? || e.Execute? || e.Lose? || e.OutsideEdit?)
    ensures UpdatingMeanwhile(Step(s, e).0)
  {
    var s' := Step(s, e).0;
    assert s'.ops == s.ops && s'.agent.core == s.agent.core;
  }

  lemma SettlesAt(r: Run, k: nat)
    requires SafeRun(r) && k < |r.events| && UpdatingMeanwhile(r.states[k])
    ensures UpdatingMeanwhile(r.states[k + 1])
  {
    StaysSafe(r, k);
    assert StepsAt(r, k);
    StepSettles(r.states[k], r.events[k]);
  }

  /** In every run of the Go agent the status is settled between calls: "updating" is reported only while
      an admitted write or recovery waits for the worker. */
  lemma {:induction false} NeverLeftUpdating(r: Run, i: nat)
    requires SafeRun(r) && r.states[0].agent.core.status != Updating && i < |r.states|
    ensures UpdatingMeanwhile(r.states[i])
  {
    if i > 0 {
      NeverLeftUpdating(r, i - 1);
      SettlesAt(r, i - 1);
    }
  }
}
