/**
  The checkpointed runner of `crates/workflow`.

  The checkpoint file is replaced atomically, so it is one durable cell.  A
  crash is modelled by a write budget: the run stops at the first checkpoint
  write for which no budget is left.  Checkpoints are assumed to stay under the
  size limit and to decode to what was encoded.
*/
module Workflow {
  import opened Wrappers
  import opened Strings

  /** A version 5 UUID in the runner's namespace, as the symbol of its name. */
  datatype StepKey = UuidV5(name: string)

  datatype StepReceipt<O> = StepReceipt(index: nat, name: string, idempotencyKey: StepKey, output: Digest<O>)

  datatype Checkpoint<O> = Checkpoint(workflowId: string, completed: seq<StepReceipt<O>>, done: bool)

  datatype Divergence = FewerSteps | MissingStepIndex | StepNameChanged

  datatype WorkflowError =
    | WorkflowMismatch
    | StepDivergence(divergence: Divergence)
    | StepFailed(step: string, reason: string)

  /** A step sees the workflow id and the receipts before it. */
  datatype Step<!O> = Step(name: string, run: (string, seq<StepReceipt<O>>) -> Result<O, string>)

  datatype Summary<O> = Summary(receipts: seq<StepReceipt<O>>, executedNow: seq<nat>)

  datatype Outcome<O> = Finished(summary: Summary<O>) | Stopped(error: WorkflowError) | Crashed

  const NUL: char := '\U{0000}'

  function StepIdempotencyKey(workflowId: string, index: nat, name: string): StepKey {
    UuidV5(KeyText(workflowId, index, name))
  }

  function KeyText(workflowId: string, index: nat, name: string): string {
    workflowId + [NUL] + (Decimal(index) + [NUL] + name)
  }

  function Receipt<O>(workflowId: string, index: nat, name: string, output: O): StepReceipt<O> {
    StepReceipt(index, name, StepIdempotencyKey(workflowId, index, name), Sha256(output))
  }

  // ---------------------------------------------------------- specification

  /** The check of one receipt against the declared step names. */
  function ReceiptDivergence<O>(receipt: StepReceipt<O>, names: seq<string>): Check<Divergence> {
    if receipt.index >= |names| then Fail(MissingStepIndex)
    else if names[receipt.index] != receipt.name then Fail(StepNameChanged)
    else Pass
  }

  function ReceiptsDivergence<O>(completed: seq<StepReceipt<O>>, names: seq<string>): Check<Divergence> {
    if completed == [] then Pass
    else
      var first := ReceiptDivergence(completed[0], names);
      if first.Fail? then first else ReceiptsDivergence(completed[1..], names)
  }

  function Diverges<O>(completed: seq<StepReceipt<O>>, names: seq<string>): Check<Divergence> {
    if |completed| > |names| then Fail(FewerSteps) else ReceiptsDivergence(completed, names)
  }

  function Names<O>(steps: seq<Step<O>>): (names: seq<string>)
    ensures |names| == |steps|
    ensures forall i | 0 <= i < |steps| :: names[i] == steps[i].name
  {
    if steps == [] then [] else [steps[0].name] + Names(steps[1..])
  }

  datatype Halt = AllComplete | FailedStep(step: string, reason: string) | OutOfBudget

  datatype Progress<O> = Progress(completed: seq<StepReceipt<O>>, writesLeft: nat, halt: Halt)

  /** Run the remaining steps, one durable checkpoint after each. */
  function RunSteps<O>(workflowId: string, steps: seq<Step<O>>, completed: seq<StepReceipt<O>>, budget: nat): Progress<O>
    decreases |steps| - |completed|
  {
    var n := |completed|;
    if n >= |steps| then Progress(completed, budget, AllComplete)
    else
      match steps[n].run(workflowId, completed)
      case Err(reason) => Progress(completed, budget, FailedStep(steps[n].name, reason))
      case Ok(output) =>
        if budget == 0 then Progress(completed, 0, OutOfBudget)
        else RunSteps(workflowId, steps, completed + [Receipt(workflowId, n, steps[n].name, output)], budget - 1)
  }

  function Loaded<O>(stored: Option<Checkpoint<O>>, workflowId: string): Checkpoint<O> {
    if stored.Some? then stored.value else Checkpoint(workflowId, [], false)
  }

  function Range(low: nat, high: nat): (r: seq<nat>)
    requires low <= high
    ensures |r| == high - low
    ensures forall i | 0 <= i < |r| :: r[i] == low + i
    decreases high - low
  {
    if low == high then [] else [low] + Range(low + 1, high)
  }

  lemma RangeGrows(low: nat, high: nat)
    requires low <= high
    ensures Range(low, high + 1) == Range(low, high) + [high]
  {
  }

  /** What the caller sees of a halted loop. */
  function StopOf<O>(halt: Halt): Option<Outcome<O>> {
    match halt
    case AllComplete => None
    case FailedStep(step, reason) => Some(Stopped(StepFailed(step, reason)))
    case OutOfBudget => Some(Crashed)
  }

  /** One unfolding of the steps that remain. */
  lemma RunStepsNext<O>(workflowId: string, steps: seq<Step<O>>, completed: seq<StepReceipt<O>>, budget: nat)
    requires |completed| < |steps|
    ensures var step, result := steps[|completed|], steps[|completed|].run(workflowId, completed);
      RunSteps(workflowId, steps, completed, budget) ==
        (if result.Err? then Progress(completed, budget, FailedStep(step.name, result.error))
         else if budget == 0 then Progress(completed, budget, OutOfBudget)
         else RunSteps(workflowId, steps, completed + [Receipt(workflowId, |completed|, step.name, result.value)], budget - 1))
  {
  }

  /** Index equals position, and the key belongs to the step. */
  predicate ReceiptInPlace<O>(r: StepReceipt<O>, workflowId: string, i: nat) {
    r.index == i && r.idempotencyKey == StepIdempotencyKey(workflowId, i, r.name)
  }

  lemma {:induction false} RunStepsExtends<O(!new)>(workflowId: string, steps: seq<Step<O>>, completed: seq<StepReceipt<O>>, budget: nat)
    ensures var p := RunSteps(workflowId, steps, completed, budget);
      && completed <= p.completed
      && |p.completed| + p.writesLeft == |completed| + budget
      && (|completed| <= |steps| ==> |p.completed| <= |steps|)
      && (p.halt.AllComplete? && |completed| <= |steps| ==> |p.completed| == |steps|)
      && (forall i | |completed| <= i < |p.completed| ::
            i < |steps| && p.completed[i].name == steps[i].name && ReceiptInPlace(p.completed[i], workflowId, i))
    decreases |steps| - |completed|
  {
    var n := |completed|;
    if n < |steps| && steps[n].run(workflowId, completed).Ok? && budget > 0 {
      var output := steps[n].run(workflowId, completed).value;
      RunStepsExtends(workflowId, steps, completed + [Receipt(workflowId, n, steps[n].name, output)], budget - 1);
    }
  }

  /** One attempt: what is stored afterwards, and what the caller sees. */
  function Run<O>(stored: Option<Checkpoint<O>>, workflowId: string, steps: seq<Step<O>>, budget: nat)
    : (Option<Checkpoint<O>>, Outcome<O>)
  {
    var checkpoint := Loaded(stored, workflowId);
    if checkpoint.workflowId != workflowId then (stored, Stopped(WorkflowMismatch))
    else
      var divergence := Diverges(checkpoint.completed, Names(steps));
      if divergence.Fail? then (stored, Stopped(StepDivergence(divergence.error)))
      else
        var p := RunSteps(workflowId, steps, checkpoint.completed, budget);
        var reached := checkpoint.(completed := p.completed);
        var kept := if |p.completed| > |checkpoint.completed| then Some(reached) else stored;
        match p.halt
        case OutOfBudget => (kept, Crashed)
        case FailedStep(step, reason) => (kept, Stopped(StepFailed(step, reason)))
        case AllComplete =>
          if !checkpoint.done && p.writesLeft == 0 then (kept, Crashed)
          else
            var last := if checkpoint.done then kept else Some(reached.(done := true));
            assert |checkpoint.completed| <= |p.completed| by {
              PrefixLength(workflowId, steps, checkpoint.completed, budget);
            }
            (last, Finished(Summary(p.completed, Range(|checkpoint.completed|, |p.completed|))))
  }

  lemma {:induction false} PrefixLength<O>(workflowId: string, steps: seq<Step<O>>, completed: seq<StepReceipt<O>>, budget: nat)
    ensures |completed| <= |RunSteps(workflowId, steps, completed, budget).completed|
    decreases |steps| - |completed|
  {
    var n := |completed|;
    if n < |steps| && steps[n].run(workflowId, completed).Ok? && budget > 0 {
      var output := steps[n].run(workflowId, completed).value;
      PrefixLength(workflowId, steps, completed + [Receipt(workflowId, n, steps[n].name, output)], budget - 1);
    }
  }

  // ------------------------------------------ resuming equals running through

  /** The definition and crash point of one attempt. */
  datatype Attempt<!O> = Attempt(steps: seq<Step<O>>, budget: nat)

  function Attempts<O>(stored: Option<Checkpoint<O>>, workflowId: string, attempts: seq<Attempt<O>>): Option<Checkpoint<O>>
    decreases |attempts|
  {
    if attempts == [] then stored
    else Attempts(Run(stored, workflowId, attempts[0].steps, attempts[0].budget).0, workflowId, attempts[1..])
  }

  /** The receipts of the definition `full`, run from nothing without interruption. */
  function Through<O>(workflowId: string, full: seq<Step<O>>): Progress<O> {
    RunSteps(workflowId, full, [], |full|)
  }

  /**
    `steps` is the definition `full` or one it extends, and each of its steps
    either fails on this attempt or returns what the step of `full` returns.
  */
  ghost predicate Agrees<O>(workflowId: string, steps: seq<Step<O>>, full: seq<Step<O>>) {
    var receipts := Through(workflowId, full).completed;
    && |steps| <= |full|
    && forall i: nat | i < |steps| ::
      && steps[i].name == full[i].name
      && (i <= |receipts| ==>
          var result := steps[i].run(workflowId, receipts[..i]);
          result.Err? || result == full[i].run(workflowId, receipts[..i]))
  }

  /** The stored checkpoint holds a prefix of the uninterrupted receipts. */
  ghost predicate OnTrack<O>(stored: Option<Checkpoint<O>>, workflowId: string, full: seq<Step<O>>) {
    stored.Some? ==> stored.value.workflowId == workflowId && stored.value.completed <= Through(workflowId, full).completed
  }

  /** Each receipt of an uninterrupted run is what its step returns on the receipts before it. */
  lemma {:induction false} RunStepsUnfold<O(!new)>(workflowId: string, full: seq<Step<O>>, completed: seq<StepReceipt<O>>, budget: nat, i: nat)
    requires budget >= |full| - |completed|
    requires |completed| <= i < |RunSteps(workflowId, full, completed, budget).completed| && i < |full|
    ensures var receipts := RunSteps(workflowId, full, completed, budget).completed;
      && full[i].run(workflowId, receipts[..i]).Ok?
      && receipts[i] == Receipt(workflowId, i, full[i].name, full[i].run(workflowId, receipts[..i]).value)
    decreases |full| - |completed|
  {
    var n := |completed|;
    RunStepsExtends(workflowId, full, completed, budget);
    var receipts := RunSteps(workflowId, full, completed, budget).completed;
    if i == n {
      assert receipts[..i] == completed;
      if full[n].run(workflowId, completed).Ok? {
        var next := completed + [Receipt(workflowId, n, full[n].name, full[n].run(workflowId, completed).value)];
        RunStepsExtends(workflowId, full, next, budget - 1);
        assert next[n] == receipts[n];
      }
    } else {
      var next := completed + [Receipt(workflowId, n, full[n].name, full[n].run(workflowId, completed).value)];
      RunStepsUnfold(workflowId, full, next, budget - 1, i);
    }
  }

  /** An agreeing attempt from a prefix of the receipts only adds the next receipts. */
  lemma {:induction false} StepsStayOnTrack<O(!new)>(
    workflowId: string, steps: seq<Step<O>>, full: seq<Step<O>>, completed: seq<StepReceipt<O>>, budget: nat)
    requires Through(workflowId, full).halt.AllComplete?
    requires Agrees(workflowId, steps, full)
    requires completed <= Through(workflowId, full).completed
    ensures RunSteps(workflowId, steps, completed, budget).completed <= Through(workflowId, full).completed
    decreases |steps| - |completed|
  {
    var receipts := Through(workflowId, full).completed;
    var n := |completed|;
    if n < |steps| && steps[n].run(workflowId, completed).Ok? && budget > 0 {
      assert receipts[..n] == completed;
      NextReceipt(workflowId, full, completed);
      StepsStayOnTrack(workflowId, steps, full, completed + [receipts[n]], budget - 1);
    }
  }

  /** From a proper prefix of the receipts, the next step of the full definition gives the next receipt. */
  lemma NextReceipt<O(!new)>(workflowId: string, full: seq<Step<O>>, completed: seq<StepReceipt<O>>)
    requires Through(workflowId, full).halt.AllComplete?
    requires completed <= Through(workflowId, full).completed && |completed| < |full|
    ensures var receipts := Through(workflowId, full).completed;
      && |completed| < |receipts|
      && full[|completed|].run(workflowId, completed).Ok?
      && receipts[|completed|]
           == Receipt(workflowId, |completed|, full[|completed|].name, full[|completed|].run(workflowId, completed).value)
      && completed + [receipts[|completed|]] <= receipts
  {
    RunStepsExtends(workflowId, full, [], |full|);
    RunStepsUnfold(workflowId, full, [], |full|, |completed|);
    assert Through(workflowId, full).completed[..|completed|] == completed;
  }

  /** From a prefix of the receipts, the full definition with budget enough runs to the same end. */
  lemma {:induction false} StepsRejoin<O(!new)>(workflowId: string, full: seq<Step<O>>, completed: seq<StepReceipt<O>>, budget: nat)
    requires Through(workflowId, full).halt.AllComplete?
    requires completed <= Through(workflowId, full).completed
    requires budget >= |full| - |completed|
    ensures var p := RunSteps(workflowId, full, completed, budget);
      p.halt.AllComplete? && p.completed == Through(workflowId, full).completed
    decreases |full| - |completed|
  {
    var receipts := Through(workflowId, full).completed;
    var n := |completed|;
    if n < |full| {
      NextReceipt(workflowId, full, completed);
      StepsRejoin(workflowId, full, completed + [receipts[n]], budget - 1);
    } else {
      RunStepsExtends(workflowId, full, [], |full|);
      assert completed == receipts;
    }
  }

  lemma {:induction false} PrefixDoesNotDiverge<O>(completed: seq<StepReceipt<O>>, names: seq<string>, from: nat)
    requires forall i | 0 <= i < |completed| ::
      completed[i].index == from + i && from + i < |names| && completed[i].name == names[from + i]
    ensures ReceiptsDivergence(completed, names).Pass?
  {
    if completed != [] {
      assert forall i | 0 <= i < |completed| - 1 :: completed[1..][i] == completed[i + 1];
      PrefixDoesNotDiverge(completed[1..], names, from + 1);
    }
  }

  lemma AttemptStaysOnTrack<O(!new)>(stored: Option<Checkpoint<O>>, workflowId: string, steps: seq<Step<O>>,
                                     full: seq<Step<O>>, budget: nat)
    requires Through(workflowId, full).halt.AllComplete?
    requires Agrees(workflowId, steps, full) && OnTrack(stored, workflowId, full)
    ensures OnTrack(Run(stored, workflowId, steps, budget).0, workflowId, full)
    ensures Loaded(stored, workflowId).completed <= Loaded(Run(stored, workflowId, steps, budget).0, workflowId).completed
  {
    var completed := Loaded(stored, workflowId).completed;
    StepsStayOnTrack(workflowId, steps, full, completed, budget);
    RunStepsExtends(workflowId, steps, completed, budget);
    RunStores(stored, workflowId, steps, budget);
  }

  /** What a run stores: nothing new, or its own workflow's checkpoint with what the steps completed. */
  lemma RunStores<O>(stored: Option<Checkpoint<O>>, workflowId: string, steps: seq<Step<O>>, budget: nat)
    ensures var after := Run(stored, workflowId, steps, budget).0;
      || after == stored
      || (&& after.Some? && after.value.workflowId == workflowId
          && after.value.completed == RunSteps(workflowId, steps, Loaded(stored, workflowId).completed, budget).completed)
  {
  }

  lemma {:induction false} AttemptsStayOnTrack<O(!new)>(
    stored: Option<Checkpoint<O>>, workflowId: string, attempts: seq<Attempt<O>>, full: seq<Step<O>>)
    requires Through(workflowId, full).halt.AllComplete?
    requires OnTrack(stored, workflowId, full)
    requires forall a <- attempts :: Agrees(workflowId, a.steps, full)
    ensures OnTrack(Attempts(stored, workflowId, attempts), workflowId, full)
    decreases |attempts|
  {
    if attempts != [] {
      AttemptStaysOnTrack(stored, workflowId, attempts[0].steps, full, attempts[0].budget);
      AttemptsStayOnTrack(
        Run(stored, workflowId, attempts[0].steps, attempts[0].budget).0, workflowId, attempts[1..], full);
    }
  }

  /**
    Any number of interrupted or failing attempts over the same definition or
    shorter ones, then one full run: the receipts are those of a single
    uninterrupted run, and exactly the missing steps execute.
  */
  lemma ResumeEqualsUninterrupted<O(!new)>(
    workflowId: string, attempts: seq<Attempt<O>>, full: seq<Step<O>>, budget: nat)
    requires Run(None, workflowId, full, |full| + 1).1.Finished?
    requires forall a <- attempts :: Agrees(workflowId, a.steps, full)
    requires budget > |full|
    ensures var stored := Attempts(None, workflowId, attempts);
      var once := Run(None, workflowId, full, |full| + 1).1.summary;
      var done := Loaded(stored, workflowId).completed;
      && done <= once.receipts
      && |once.receipts| == |full|
      && Run(stored, workflowId, full, budget).1 == Finished(Summary(once.receipts, Range(|done|, |full|)))
  {
    OneMoreWrite(workflowId, full, [], |full|);
    AttemptsStayOnTrack(None, workflowId, attempts, full);
    RunStepsExtends(workflowId, full, [], |full|);
    var stored := Attempts(None, workflowId, attempts);
    var done := Loaded(stored, workflowId).completed;
    StepsRejoin(workflowId, full, done, budget);
    StepsRejoin(workflowId, full, [], |full| + 1);
    RunStepsExtends(workflowId, full, done, budget);
    PrefixDoesNotDiverge(done, Names(full), 0);
  }

  /** One more unit of budget changes nothing but what is left. */
  lemma {:induction false} OneMoreWrite<O(!new)>(workflowId: string, full: seq<Step<O>>, completed: seq<StepReceipt<O>>, budget: nat)
    requires budget >= |full| - |completed|
    ensures var p, q := RunSteps(workflowId, full, completed, budget), RunSteps(workflowId, full, completed, budget + 1);
      p.completed == q.completed && p.halt == q.halt && q.writesLeft == p.writesLeft + 1
    decreases |full| - |completed|
  {
    var n := |completed|;
    if n < |full| && full[n].run(workflowId, completed).Ok? {
      var output := full[n].run(workflowId, completed).value;
      OneMoreWrite(workflowId, full, completed + [Receipt(workflowId, n, full[n].name, output)], budget - 1);
    }
  }

  ghost predicate InPlace<O>(stored: Option<Checkpoint<O>>, workflowId: string) {
    stored.Some? ==>
      && stored.value.workflowId == workflowId
      && AllInPlace(stored.value.completed, workflowId)
  }

  ghost predicate AllInPlace<O>(completed: seq<StepReceipt<O>>, workflowId: string) {
    forall i: nat | i < |completed| :: ReceiptInPlace(completed[i], workflowId, i)
  }

  /** What is stored after an attempt, in terms of its steps. */
  lemma AttemptShape<O(!new)>(stored: Option<Checkpoint<O>>, workflowId: string, steps: seq<Step<O>>, budget: nat)
    requires stored.Some? ==> stored.value.workflowId == workflowId
    ensures var (after, outcome) := Run(stored, workflowId, steps, budget);
      var before := Loaded(stored, workflowId).completed;
      var p := RunSteps(workflowId, steps, before, budget);
      && (after.Some? ==> after.value.workflowId == workflowId)
      && (Loaded(after, workflowId).completed == before || Loaded(after, workflowId).completed == p.completed)
      && (outcome.Finished? ==>
            |before| <= |steps| && p.halt.AllComplete? && |before| <= |p.completed|
            && outcome.summary.executedNow == Range(|before|, |p.completed|))
  {
    PrefixLength(workflowId, steps, Loaded(stored, workflowId).completed, budget);
    RunStepsExtends(workflowId, steps, Loaded(stored, workflowId).completed, budget);
  }

  /**
    Whatever the definition and crash point, an attempt only appends receipts
    in place, and a finished one has executed exactly the missing steps.
  */
  lemma AttemptOnlyAppends<O(!new)>(stored: Option<Checkpoint<O>>, workflowId: string, steps: seq<Step<O>>, budget: nat)
    requires InPlace(stored, workflowId)
    ensures var (after, outcome) := Run(stored, workflowId, steps, budget);
      var before := Loaded(stored, workflowId).completed;
      && InPlace(after, workflowId)
      && before <= Loaded(after, workflowId).completed
      && (outcome.Finished? ==>
            |before| <= |steps| && outcome.summary.executedNow == Range(|before|, |steps|))
  {
    var before := Loaded(stored, workflowId).completed;
    AttemptShape(stored, workflowId, steps, budget);
    AllInPlaceGrows(workflowId, steps, before, budget);
    RunStepsExtends(workflowId, steps, before, budget);
  }

  lemma AllInPlaceGrows<O(!new)>(workflowId: string, steps: seq<Step<O>>, completed: seq<StepReceipt<O>>, budget: nat)
    requires AllInPlace(completed, workflowId)
    ensures AllInPlace(RunSteps(workflowId, steps, completed, budget).completed, workflowId)
  {
    RunStepsExtends(workflowId, steps, completed, budget);
    var after := RunSteps(workflowId, steps, completed, budget).completed;
    forall i: nat | i < |after| ensures ReceiptInPlace(after[i], workflowId, i) {
      if i < |completed| {
        assert after[i] == completed[i];
      }
    }
  }

  /**
    A definition that contradicts the receipts is refused, and nothing is
    stored, exactly when a completed step is missing from it or renamed in it.
  */
  lemma DivergenceIsExact<O(!new)>(stored: Option<Checkpoint<O>>, workflowId: string, steps: seq<Step<O>>, budget: nat)
    requires InPlace(stored, workflowId)
    ensures var (after, outcome) := Run(stored, workflowId, steps, budget);
      var before := Loaded(stored, workflowId).completed;
      && ((outcome.Stopped? && outcome.error.StepDivergence?)
          <==> (|before| > |steps| || exists i: nat :: i < |before| && before[i].name != steps[i].name))
      && (outcome.Stopped? && outcome.error.StepDivergence? ==>
            && after == stored
            && outcome.error.divergence == if |before| > |steps| then FewerSteps else StepNameChanged)
  {
    var before := Loaded(stored, workflowId).completed;
    if |before| <= |steps| {
      DivergenceIsRenaming(before, Names(steps), 0);
    }
  }

  lemma {:induction false} DivergenceIsRenaming<O>(completed: seq<StepReceipt<O>>, names: seq<string>, from: nat)
    requires from + |completed| <= |names|
    requires forall i | 0 <= i < |completed| :: completed[i].index == from + i
    ensures ReceiptsDivergence(completed, names)
      == if forall i | 0 <= i < |completed| :: completed[i].name == names[from + i] then Pass else Fail(StepNameChanged)
  {
    if completed != [] {
      DivergenceIsRenaming(completed[1..], names, from + 1);
      assert forall i | 1 <= i < |completed| :: completed[i] == completed[1..][i - 1];
    }
  }

  /** Another workflow's checkpoint, and nothing else, is refused as such and left as it is. */
  lemma MismatchIsExact<O(!new)>(stored: Option<Checkpoint<O>>, workflowId: string, steps: seq<Step<O>>, budget: nat)
    ensures var (after, outcome) := Run(stored, workflowId, steps, budget);
      && (outcome == Stopped(WorkflowMismatch) <==> stored.Some? && stored.value.workflowId != workflowId)
      && (outcome == Stopped(WorkflowMismatch) ==> after == stored)
  {
  }

  // ------------------------------------------------- what one attempt does, exactly

  /**
    Receipts grown by one attempt: each new one records what its step returned
    on the receipts before it, and no more of them fit.
  */
  ghost predicate GrownBy<O>(workflowId: string, steps: seq<Step<O>>, before: seq<StepReceipt<O>>, budget: nat,
                             after: seq<StepReceipt<O>>)
  {
    && before <= after && |after| - |before| <= budget
    && (|before| <= |steps| ==> |after| <= |steps|)
    && (forall i: nat | |before| <= i < |after| ::
          && i < |steps| && steps[i].run(workflowId, after[..i]).Ok?
          && after[i].index == i && after[i].name == steps[i].name
          && after[i].idempotencyKey == StepIdempotencyKey(workflowId, i, steps[i].name)
          && after[i].output == Sha256(steps[i].run(workflowId, after[..i]).value))
    && (|after| >= |steps| || |after| - |before| == budget || steps[|after|].run(workflowId, after).Err?)
  }

  lemma {:induction false} RunStepsGrows<O(!new)>(workflowId: string, steps: seq<Step<O>>, completed: seq<StepReceipt<O>>, budget: nat)
    ensures GrownBy(workflowId, steps, completed, budget, RunSteps(workflowId, steps, completed, budget).completed)
    decreases |steps| - |completed|
  {
    var n := |completed|;
    if n < |steps| && steps[n].run(workflowId, completed).Ok? && budget > 0 {
      var next := completed + [Receipt(workflowId, n, steps[n].name, steps[n].run(workflowId, completed).value)];
      var after := RunSteps(workflowId, steps, next, budget - 1).completed;
      RunStepsGrows(workflowId, steps, next, budget - 1);
      assert after[..n] == next[..n] == completed && after[n] == next[n];
    }
  }

  /** The receipts an attempt leaves are determined by that. */
  lemma {:induction false} GrownByIsUnique<O(!new)>(workflowId: string, steps: seq<Step<O>>, before: seq<StepReceipt<O>>, budget: nat,
                                                    a: seq<StepReceipt<O>>, b: seq<StepReceipt<O>>, n: nat)
    requires GrownBy(workflowId, steps, before, budget, a) && GrownBy(workflowId, steps, before, budget, b)
    requires |before| <= n
    requires n <= |a| && n <= |b| && a[..n] == b[..n]
    ensures a == b
    decreases |a| - n
  {
    if n < |a| && n < |b| {
      assert a[n] == b[n];
      assert a[..n + 1] == a[..n] + [a[n]] && b[..n + 1] == b[..n] + [b[n]];
      GrownByIsUnique(workflowId, steps, before, budget, a, b, n + 1);
    } else {
      assert a[..n] == b[..n];
      assert n == |a| ==> a == a[..n];
      assert n == |b| ==> b == b[..n];
    }
  }

  /** A definition that agrees with the receipts stored for this workflow. */
  ghost predicate Accepts<O>(stored: Option<Checkpoint<O>>, workflowId: string, steps: seq<Step<O>>) {
    && InPlace(stored, workflowId)
    && var before := Loaded(stored, workflowId).completed;
       |before| <= |steps| && forall i: nat | i < |before| :: before[i].name == steps[i].name
  }

  /** What the caller is told, from the receipts stored before and after. */
  ghost predicate Told<O>(workflowId: string, steps: seq<Step<O>>, budget: nat, was: Checkpoint<O>, now: Checkpoint<O>,
                          outcome: Outcome<O>)
  {
    var n := |now.completed|;
    if n < |steps| then
      match steps[n].run(workflowId, now.completed)
      case Err(reason) => outcome == Stopped(StepFailed(steps[n].name, reason)) && now.done == was.done
      case Ok(_) => outcome == Crashed && now.done == was.done
    else if !was.done && n - |was.completed| == budget then outcome == Crashed && !now.done
    else
      && outcome.Finished? && now.done
      && outcome.summary.receipts == now.completed
      && |outcome.summary.executedNow| == n - |was.completed|
      && forall i | 0 <= i < n - |was.completed| :: outcome.summary.executedNow[i] == |was.completed| + i
  }

  lemma AcceptsDoesNotDiverge<O(!new)>(stored: Option<Checkpoint<O>>, workflowId: string, steps: seq<Step<O>>)
    requires Accepts(stored, workflowId, steps)
    ensures Loaded(stored, workflowId).workflowId == workflowId
    ensures Diverges(Loaded(stored, workflowId).completed, Names(steps)).Pass?
  {
    var before := Loaded(stored, workflowId).completed;
    PrefixDoesNotDiverge(before, Names(steps), 0);
  }

  /** What is stored afterwards is what the steps completed. */
  lemma RunStoresAll<O(!new)>(stored: Option<Checkpoint<O>>, workflowId: string, steps: seq<Step<O>>, budget: nat)
    requires Accepts(stored, workflowId, steps)
    ensures var was := Loaded(stored, workflowId);
      var now := Loaded(Run(stored, workflowId, steps, budget).0, workflowId);
      now.completed == RunSteps(workflowId, steps, was.completed, budget).completed && now.workflowId == workflowId
  {
    AcceptsDoesNotDiverge(stored, workflowId, steps);
    RunStepsExtends(workflowId, steps, Loaded(stored, workflowId).completed, budget);
  }

  /** What the caller is told, and whether the checkpoint is done, in terms of the loop. */
  lemma RunFromProgress<O(!new)>(stored: Option<Checkpoint<O>>, workflowId: string, steps: seq<Step<O>>, budget: nat)
    requires Accepts(stored, workflowId, steps)
    ensures var was := Loaded(stored, workflowId);
      var p := RunSteps(workflowId, steps, was.completed, budget);
      var (after, outcome) := Run(stored, workflowId, steps, budget);
      var finished := p.halt.AllComplete? && (was.done || p.writesLeft > 0);
      && |was.completed| <= |p.completed|
      && Loaded(after, workflowId) == Checkpoint(workflowId, p.completed, was.done || finished)
      && outcome == (if finished then Finished(Summary(p.completed, Range(|was.completed|, |p.completed|)))
                     else match p.halt
                          case FailedStep(step, reason) => Stopped(StepFailed(step, reason))
                          case _ => Crashed)
  {
    AcceptsDoesNotDiverge(stored, workflowId, steps);
    RunStepsExtends(workflowId, steps, Loaded(stored, workflowId).completed, budget);
  }

  lemma RunTells<O(!new)>(stored: Option<Checkpoint<O>>, workflowId: string, steps: seq<Step<O>>, budget: nat)
    requires Accepts(stored, workflowId, steps)
    ensures var (after, outcome) := Run(stored, workflowId, steps, budget);
      Told(workflowId, steps, budget, Loaded(stored, workflowId), Loaded(after, workflowId), outcome)
  {
    var was := Loaded(stored, workflowId);
    RunFromProgress(stored, workflowId, steps, budget);
    HaltTells(workflowId, steps, was, budget, RunSteps(workflowId, steps, was.completed, budget));
  }

  /** The halt of the loop, read from where it halts. */
  lemma HaltTells<O(!new)>(workflowId: string, steps: seq<Step<O>>, was: Checkpoint<O>, budget: nat, p: Progress<O>)
    requires p == RunSteps(workflowId, steps, was.completed, budget) && |was.completed| <= |steps|
    ensures |was.completed| <= |p.completed|
    ensures var finished := p.halt.AllComplete? && (was.done || p.writesLeft > 0);
      Told(workflowId, steps, budget, was, Checkpoint(workflowId, p.completed, was.done || finished),
        if finished then Finished(Summary(p.completed, Range(|was.completed|, |p.completed|)))
        else match p.halt
             case FailedStep(step, reason) => Stopped(StepFailed(step, reason))
             case _ => Crashed)
  {
    RunStepsExtends(workflowId, steps, was.completed, budget);
    RunStepsHalts(workflowId, steps, was.completed, budget);
  }

  /** Why the loop halts, from where it halts. */
  lemma {:induction false} RunStepsHalts<O(!new)>(workflowId: string, steps: seq<Step<O>>, completed: seq<StepReceipt<O>>, budget: nat)
    ensures var p := RunSteps(workflowId, steps, completed, budget);
      var n := |p.completed|;
      p.halt == (if n >= |steps| then AllComplete
                 else match steps[n].run(workflowId, p.completed)
                      case Err(reason) => FailedStep(steps[n].name, reason)
                      case Ok(_) => OutOfBudget)
    decreases |steps| - |completed|
  {
    var n := |completed|;
    if n < |steps| && steps[n].run(workflowId, completed).Ok? && budget > 0 {
      var next := completed + [Receipt(workflowId, n, steps[n].name, steps[n].run(workflowId, completed).value)];
      RunStepsHalts(workflowId, steps, next, budget - 1);
    }
  }

  /**
    One attempt, exactly: every step that succeeds and whose receipt still fits
    the budget is kept, up to the first failure, whatever the outcome; and the
    caller is told why it stopped, or which steps ran.
  */
  lemma AttemptKeepsEveryReceipt<O(!new)>(stored: Option<Checkpoint<O>>, workflowId: string, steps: seq<Step<O>>, budget: nat)
    requires Accepts(stored, workflowId, steps)
    ensures var (after, outcome) := Run(stored, workflowId, steps, budget);
      var was, now := Loaded(stored, workflowId), Loaded(after, workflowId);
      && GrownBy(workflowId, steps, was.completed, budget, now.completed)
      && Told(workflowId, steps, budget, was, now, outcome)
      && (now.completed == was.completed && now.done == was.done ==> after == stored)
      && (stored.None? ==> was == Checkpoint(workflowId, [], false))
      && (outcome.Finished? ==> after.Some? && after.value == Checkpoint(workflowId, outcome.summary.receipts, true))
  {
    FinishedIsStored(stored, workflowId, steps, budget);
    RunStepsGrows(workflowId, steps, Loaded(stored, workflowId).completed, budget);
    RunStoresAll(stored, workflowId, steps, budget);
    RunTells(stored, workflowId, steps, budget);
    RunWritesOnlyProgress(stored, workflowId, steps, budget);
  }

  lemma FinishedIsStored<O(!new)>(stored: Option<Checkpoint<O>>, workflowId: string, steps: seq<Step<O>>, budget: nat)
    requires Accepts(stored, workflowId, steps)
    ensures var (after, outcome) := Run(stored, workflowId, steps, budget);
      outcome.Finished? ==> after.Some? && after.value == Checkpoint(workflowId, outcome.summary.receipts, true)
  {
    AcceptsDoesNotDiverge(stored, workflowId, steps);
    RunStepsExtends(workflowId, steps, Loaded(stored, workflowId).completed, budget);
  }

  lemma RunWritesOnlyProgress<O(!new)>(stored: Option<Checkpoint<O>>, workflowId: string, steps: seq<Step<O>>, budget: nat)
    requires Accepts(stored, workflowId, steps)
    ensures var after := Run(stored, workflowId, steps, budget).0;
      var was, now := Loaded(stored, workflowId), Loaded(after, workflowId);
      now.completed == was.completed && now.done == was.done ==> after == stored
  {
    AcceptsDoesNotDiverge(stored, workflowId, steps);
    RunStepsExtends(workflowId, steps, Loaded(stored, workflowId).completed, budget);
  }

  // ------------------------------------------------------- no step runs twice

  lemma {:induction false} RunStepsIgnores<O>(workflowId: string, steps: seq<Step<O>>, other: seq<Step<O>>,
                                              completed: seq<StepReceipt<O>>, budget: nat)
    requires |steps| == |other| && forall i | |completed| <= i < |steps| :: steps[i] == other[i]
    ensures RunSteps(workflowId, steps, completed, budget) == RunSteps(workflowId, other, completed, budget)
    decreases |steps| - |completed|
  {
    var n := |completed|;
    if n < |steps| && steps[n].run(workflowId, completed).Ok? && budget > 0 {
      var next := completed + [Receipt(workflowId, n, steps[n].name, steps[n].run(workflowId, completed).value)];
      RunStepsIgnores(workflowId, steps, other, next, budget - 1);
    }
  }

  /** A step with a receipt is not executed: whatever it would do, the attempt is the same. */
  lemma CompletedStepsDoNotRun<O(!new)>(stored: Option<Checkpoint<O>>, workflowId: string, steps: seq<Step<O>>,
                                        other: seq<Step<O>>, budget: nat)
    requires |steps| == |other| && Names(steps) == Names(other)
    requires forall i | |Loaded(stored, workflowId).completed| <= i < |steps| :: steps[i] == other[i]
    ensures Run(stored, workflowId, steps, budget) == Run(stored, workflowId, other, budget)
  {
    RunStepsIgnores(workflowId, steps, other, Loaded(stored, workflowId).completed, budget);
  }

  lemma {:induction false} AttemptsOnlyAppend<O(!new)>(stored: Option<Checkpoint<O>>, workflowId: string, attempts: seq<Attempt<O>>)
    requires InPlace(stored, workflowId)
    ensures var after := Attempts(stored, workflowId, attempts);
      InPlace(after, workflowId) && Loaded(stored, workflowId).completed <= Loaded(after, workflowId).completed
    decreases |attempts|
  {
    if attempts != [] {
      AttemptOnlyAppends(stored, workflowId, attempts[0].steps, attempts[0].budget);
      AttemptsOnlyAppend(Run(stored, workflowId, attempts[0].steps, attempts[0].budget).0, workflowId, attempts[1..]);
    }
  }

  /**
    A step that succeeds in an attempt and whose receipt fits its budget never
    runs again, whatever attempts follow: each later one is the same whatever
    that step would do.
  */
  lemma NoStepRunsTwice<O(!new)>(stored: Option<Checkpoint<O>>, workflowId: string, steps: seq<Step<O>>, budget: nat, m: nat,
                                 between: seq<Attempt<O>>, later: seq<Step<O>>, other: seq<Step<O>>, laterBudget: nat)
    requires Accepts(stored, workflowId, steps)
    requires var before := Loaded(stored, workflowId).completed;
      |before| <= m <= |steps| && m - |before| <= budget && SucceedsUpTo(workflowId, steps, before, m)
    requires |later| == |other| && Names(later) == Names(other)
    requires forall i | m <= i < |later| :: later[i] == other[i]
    ensures var after := Attempts(Run(stored, workflowId, steps, budget).0, workflowId, between);
      && |Loaded(after, workflowId).completed| >= m
      && Run(after, workflowId, later, laterBudget) == Run(after, workflowId, other, laterBudget)
  {
    var first := Run(stored, workflowId, steps, budget).0;
    AttemptKeepsEveryReceipt(stored, workflowId, steps, budget);
    SucceedsAreKept(workflowId, steps, Loaded(stored, workflowId).completed, budget, Loaded(first, workflowId).completed, m);
    AttemptOnlyAppends(stored, workflowId, steps, budget);
    AttemptsOnlyAppend(first, workflowId, between);
    CompletedStepsDoNotRun(Attempts(first, workflowId, between), workflowId, later, other, laterBudget);
  }

  /** The steps from the completed ones up to `m` return Ok, each on the receipts before it. */
  ghost predicate SucceedsUpTo<O>(workflowId: string, steps: seq<Step<O>>, completed: seq<StepReceipt<O>>, m: nat)
    requires |completed| <= m <= |steps|
    decreases m - |completed|
  {
    |completed| == m ||
    (var n := |completed|;
     && steps[n].run(workflowId, completed).Ok?
     && SucceedsUpTo(workflowId, steps, completed + [StepReceipt(
          n, steps[n].name, StepIdempotencyKey(workflowId, n, steps[n].name),
          Sha256(steps[n].run(workflowId, completed).value))], m))
  }

  lemma {:induction false} SucceedsAreKept<O(!new)>(workflowId: string, steps: seq<Step<O>>, completed: seq<StepReceipt<O>>, budget: nat,
                                                    after: seq<StepReceipt<O>>, m: nat)
    requires GrownBy(workflowId, steps, completed, budget, after)
    requires |completed| <= m <= |steps| && m - |completed| <= budget && SucceedsUpTo(workflowId, steps, completed, m)
    ensures |after| >= m
    decreases m - |completed|
  {
    var n := |completed|;
    if n < m {
      assert |after| == n ==> after == completed;
      assert after[..n] == completed;
      var next := completed + [StepReceipt(n, steps[n].name, StepIdempotencyKey(workflowId, n, steps[n].name),
                                           Sha256(steps[n].run(workflowId, completed).value))];
      assert after[n] == next[n];
      assert next <= after;
      SucceedsAreKept(workflowId, steps, next, budget - 1, after, m);
    }
  }

  // -------------------------------------------------------- idempotency keys

  /** Keys of one workflow are distinct for distinct steps, whatever its id holds. */
  lemma KeyFixesStepOfWorkflow(w: string, i: nat, name: string, j: nat, name': string)
    requires StepIdempotencyKey(w, i, name) == StepIdempotencyKey(w, j, name')
    ensures i == j && name == name'
  {
    assert KeyText(w, i, name)[|w| + 1..] == Decimal(i) + [NUL] + name;
    assert KeyText(w, j, name')[|w| + 1..] == Decimal(j) + [NUL] + name';
    DecimalHoldsNoNul(i);
    DecimalHoldsNoNul(j);
    FrontOfKey(Decimal(i), name, Decimal(j), name');
    DecimalInjective(i, j);
  }

  /** `b` nests `a`: it continues `a` by a NUL and an index, and then ends or has another NUL. */
  ghost predicate Nests(a: string, b: string) { exists i: nat :: NestsAt(a, i, b) }

  predicate NestsAt(a: string, i: nat, b: string) {
    b == a + [NUL] + Decimal(i) || a + [NUL] + Decimal(i) + [NUL] <= b
  }

  /** Some steps of the two workflows have one key. */
  ghost predicate SharesKey(w: string, w': string) {
    exists i: nat, name, j: nat, name' :: StepIdempotencyKey(w, i, name) == StepIdempotencyKey(w', j, name')
  }

  /** An id that is longer than the other but begins the same key text nests it. */
  lemma SharedTextNests(w: string, i: nat, name: string, w': string, j: nat, name': string)
    requires |w| < |w'| && KeyText(w, i, name) == KeyText(w', j, name')
    ensures NestsAt(w, i, w')
  {
    var text, index := KeyText(w, i, name), w + [NUL] + Decimal(i);
    assert text == index + ([NUL] + name);
    assert text[..|w'|] == w' && text[|w'|] == NUL;
    if |w'| < |index| {
      assert text[|w'|] == Decimal(i)[|w'| - |w| - 1];
      DecimalHoldsNoNul(i);
    } else if |w'| == |index| {
      assert w' == index;
    } else {
      assert text[..|index| + 1] == index + [NUL];
      assert w'[..|index| + 1] == text[..|index| + 1];
    }
  }

  lemma SameLengthSameId(w: string, i: nat, name: string, w': string, j: nat, name': string)
    requires |w| == |w'| && KeyText(w, i, name) == KeyText(w', j, name')
    ensures w == w'
  {
    assert KeyText(w, i, name)[..|w|] == w && KeyText(w', j, name')[..|w'|] == w';
  }

  /** A step of the outer id that has the key of a step of the id nesting it. */
  lemma NestedSharesKey(a: string, i: nat, b: string)
    requires NestsAt(a, i, b)
    ensures exists name :: StepIdempotencyKey(a, i, name) == StepIdempotencyKey(b, 0, "")
  {
    var index := a + [NUL] + Decimal(i);
    var first := Decimal(0) + [NUL] + "";
    if b == index {
      assert KeyText(a, i, first) == index + [NUL] + first == KeyText(b, 0, "");
      assert StepIdempotencyKey(a, i, first) == StepIdempotencyKey(b, 0, "");
    } else {
      var rest := b[|index| + 1..];
      assert b == index + [NUL] + rest;
      var name := rest + [NUL] + first;
      assert KeyText(a, i, name) == index + [NUL] + rest + [NUL] + first == KeyText(b, 0, "");
      assert StepIdempotencyKey(a, i, name) == StepIdempotencyKey(b, 0, "");
    }
  }

  lemma SharedKeyNests(w: string, i: nat, name: string, w': string, j: nat, name': string)
    requires w != w' && StepIdempotencyKey(w, i, name) == StepIdempotencyKey(w', j, name')
    ensures NestsAt(w, i, w') || NestsAt(w', j, w)
  {
    if |w| < |w'| {
      SharedTextNests(w, i, name, w', j, name');
    } else if |w'| < |w| {
      SharedTextNests(w', j, name', w, i, name);
    } else {
      SameLengthSameId(w, i, name, w', j, name');
    }
  }

  /** Two workflows can share a key exactly if one id nests the other. */
  lemma KeysCollideExactly(w: string, w': string)
    requires w != w'
    ensures SharesKey(w, w') <==> Nests(w, w') || Nests(w', w)
  {
    if SharesKey(w, w') {
      var i: nat, name, j: nat, name' :| StepIdempotencyKey(w, i, name) == StepIdempotencyKey(w', j, name');
      SharedKeyNests(w, i, name, w', j, name');
    }
    if Nests(w, w') {
      var i: nat :| NestsAt(w, i, w');
      NestedSharesKey(w, i, w');
    }
    if Nests(w', w) {
      var i: nat :| NestsAt(w', i, w);
      NestedSharesKey(w', i, w);
    }
  }

  /** Of ids none of which nests another, a key fixes workflow, index and name. */
  lemma KeyFixesStep(w: string, i: nat, name: string, w': string, j: nat, name': string)
    requires !Nests(w, w') && !Nests(w', w)
    requires StepIdempotencyKey(w, i, name) == StepIdempotencyKey(w', j, name')
    ensures w == w' && i == j && name == name'
  {
    if w != w' {
      SharedKeyNests(w, i, name, w', j, name');
    }
    KeyFixesStepOfWorkflow(w, i, name, j, name');
  }

  lemma NestingHasNul(a: string, i: nat, b: string)
    requires NestsAt(a, i, b)
    ensures |a| < |b| && b[|a|] == NUL
  {
    var index := a + [NUL] + Decimal(i);
    assert index[|a|] == NUL && (index + [NUL])[|a|] == NUL;
  }

  /** No id nests itself, and none is nested by an id without a NUL. */
  lemma NulFreeNestsNothing(a: string, b: string)
    requires Free(b, NUL) || a == b
    ensures !Nests(a, b)
  {
    forall i: nat ensures !NestsAt(a, i, b) {
      if NestsAt(a, i, b) {
        NestingHasNul(a, i, b);
      }
    }
  }

  lemma DecimalHoldsNoNul(n: nat)
    ensures Free(Decimal(n), NUL)
  {
  }

  lemma FrontOfKey(a: string, rest: string, b: string, rest': string)
    requires Free(a, NUL) && Free(b, NUL)
    requires a + [NUL] + rest == b + [NUL] + rest'
    ensures a == b && rest == rest'
  {
    SplitAtSeparator(a, rest, NUL);
    SplitAtSeparator(b, rest', NUL);
    assert a == Split(a + [NUL] + rest, NUL)[0] && b == Split(b + [NUL] + rest', NUL)[0];
    assert (a + [NUL] + rest)[|a| + 1..] == rest;
    assert (b + [NUL] + rest')[|b| + 1..] == rest';
  }

  /** With a NUL in an id two different steps can share a key. */
  lemma KeysCanCollide()
    ensures StepIdempotencyKey("x", 1, "y" + [NUL] + "2" + [NUL] + "z")
         == StepIdempotencyKey("x" + [NUL] + "1" + [NUL] + "y", 2, "z")
  {
    assert Decimal(1) == "1" && Decimal(2) == "2";
    assert "x" + [NUL] + ("1" + [NUL] + ("y" + [NUL] + "2" + [NUL] + "z"))
        == "x" + [NUL] + "1" + [NUL] + "y" + [NUL] + ("2" + [NUL] + "z");
  }

  // ---------------------------------------------------------------- the runner

  class WorkflowRunner<O(!new)> {
    const workflowId: string
    var stored: Option<Checkpoint<O>>
    var writesLeft: nat

    constructor (workflowId: string, stored: Option<Checkpoint<O>>, budget: nat)
      ensures this.workflowId == workflowId && this.stored == stored && writesLeft == budget
    {
      this.workflowId, this.stored, writesLeft := workflowId, stored, budget;
    }

    method LoadCheckpoint() returns (r: Result<Checkpoint<O>, WorkflowError>)
      ensures r == if Loaded(stored, workflowId).workflowId != workflowId then Err(WorkflowMismatch)
                   else Ok(Loaded(stored, workflowId))
    {
      if stored.None? {
        return Ok(Checkpoint(workflowId, [], false));
      }
      if stored.value.workflowId != workflowId {
        return Err(WorkflowMismatch);
      }
      return Ok(stored.value);
    }

    method Persist(checkpoint: Checkpoint<O>) returns (survived: bool)
      modifies this
      ensures survived == (old(writesLeft) > 0)
      ensures survived ==> stored == Some(checkpoint) && writesLeft == old(writesLeft) - 1
      ensures !survived ==> stored == old(stored) && writesLeft == 0
    {
      survived := writesLeft > 0;
      if survived {
        stored := Some(checkpoint);
        writesLeft := writesLeft - 1;
      }
    }

    method CheckDefinition(completed: seq<StepReceipt<O>>, steps: seq<Step<O>>) returns (r: Check<Divergence>)
      ensures r == Diverges(completed, Names(steps))
    {
      if |completed| > |steps| {
        return Fail(FewerSteps);
      }
      ghost var names := Names(steps);
      for i := 0 to |completed|
        invariant ReceiptsDivergence(completed, names) == ReceiptsDivergence(completed[i..], names)
      {
        var receipt := completed[i];
        assert completed[i..][1..] == completed[i + 1..];
        if receipt.index >= |steps| {
          return Fail(MissingStepIndex);
        }
        if steps[receipt.index].name != receipt.name {
          return Fail(StepNameChanged);
        }
      }
      return Pass;
    }

    /** Why a step of the loop stops it. */
    ghost function StopHalt(step: Step<O>, completed: seq<StepReceipt<O>>): Halt {
      match step.run(workflowId, completed)
      case Err(reason) => FailedStep(step.name, reason)
      case Ok(_) => OutOfBudget
    }

    /** One step of the loop: run it and persist its receipt. */
    method RunOne(step: Step<O>, index: nat, checkpoint: Checkpoint<O>)
      returns (longer: Checkpoint<O>, stopped: Option<Outcome<O>>)
      requires index == |checkpoint.completed|
      modifies this
      ensures stopped.None? <==> step.run(workflowId, checkpoint.completed).Ok? && old(writesLeft) > 0
      ensures stopped.None? ==>
        && longer == checkpoint.(completed := checkpoint.completed
             + [Receipt(workflowId, index, step.name, step.run(workflowId, checkpoint.completed).value)])
        && stored == Some(longer) && writesLeft == old(writesLeft) - 1
      ensures stopped.Some? ==> longer == checkpoint && stored == old(stored) && writesLeft == old(writesLeft)
      ensures stopped.Some? ==> stopped == StopOf(StopHalt(step, checkpoint.completed))
    {
      longer, stopped := checkpoint, None;
      var result := step.run(workflowId, checkpoint.completed);
      if result.Err? {
        stopped := Some(Stopped(StepFailed(step.name, result.error)));
        return;
      }
      var next := checkpoint.(completed := checkpoint.completed + [Receipt(workflowId, index, step.name, result.value)]);
      var survived := Persist(next);
      if survived {
        longer := next;
      } else {
        stopped := Some(Crashed);
      }
    }

    /** The loop over the declared steps; `None` means every step has its receipt. */
    method RunRemaining(steps: seq<Step<O>>, loaded: Checkpoint<O>)
      returns (checkpoint: Checkpoint<O>, executedNow: seq<nat>, stopped: Option<Outcome<O>>)
      requires |loaded.completed| <= |steps|
      modifies this
      ensures var p := RunSteps(workflowId, steps, loaded.completed, old(writesLeft));
        && checkpoint == loaded.(completed := p.completed)
        && writesLeft == p.writesLeft
        && stopped == StopOf(p.halt)
      ensures stored == if |checkpoint.completed| > |loaded.completed| then Some(checkpoint) else old(stored)
      ensures |loaded.completed| <= |checkpoint.completed|
      ensures executedNow == Range(|loaded.completed|, |checkpoint.completed|)
    {
      checkpoint, executedNow, stopped := loaded, [], None;
      ghost var p := RunSteps(workflowId, steps, loaded.completed, writesLeft);
      ghost var first := |loaded.completed|;
      for index := 0 to |steps|
        invariant |checkpoint.completed| == if index <= first then first else index
        invariant checkpoint == loaded.(completed := checkpoint.completed)
        invariant stored == if |checkpoint.completed| > first then Some(checkpoint) else old(stored)
        invariant executedNow == Range(first, |checkpoint.completed|)
        invariant RunSteps(workflowId, steps, checkpoint.completed, writesLeft) == p
        invariant stopped == None
      {
        if index < |checkpoint.completed| {
          continue;
        }
        ghost var before, left := checkpoint.completed, writesLeft;
        RunStepsNext(workflowId, steps, before, left);
        checkpoint, stopped := RunOne(steps[index], index, checkpoint);
        if stopped.Some? {
          assert p == Progress(before, left, StopHalt(steps[index], before));
          return;
        }
        assert RunSteps(workflowId, steps, checkpoint.completed, writesLeft) == p;
        RangeGrows(first, index);
        executedNow := executedNow + [index];
      }
    }

    method Execute(steps: seq<Step<O>>) returns (outcome: Outcome<O>)
      modifies this
      ensures (stored, outcome) == Run(old(stored), workflowId, steps, old(writesLeft))
    {
      var loaded := LoadCheckpoint();
      if loaded.Err? {
        return Stopped(loaded.error);
      }
      var divergence := CheckDefinition(loaded.value.completed, steps);
      if divergence.Fail? {
        return Stopped(StepDivergence(divergence.error));
      }
      var checkpoint, executedNow, stopped := RunRemaining(steps, loaded.value);
      if stopped.Some? {
        return stopped.value;
      }
      if !checkpoint.done {
        checkpoint := checkpoint.(done := true);
        var survived := Persist(checkpoint);
        if !survived {
          return Crashed;
        }
      }
      return Finished(Summary(checkpoint.completed, executedNow));
    }
  }
}
