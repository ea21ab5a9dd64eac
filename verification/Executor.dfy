/**
  The verified executor of `crates/sandbox`: durable intent, then the one-use
  capability, then the started record, then the guest, then the verdict.

  Every journal byte is one act, so a crash or a failed write may fall between
  any two bytes.  What the validator and the guest answer are inputs.
*/
module Executor {
  import opened Wrappers
  import opened Strings
  import opened ExecutionJournal

  datatype GuestFailure =
    | FuelExhausted | DeadlineExceeded | ResourceLimitExceeded | GuestTrap | MissingEntrypoint | InvalidEntrypoint
    | InvalidModule | InstantiationFailed | ForbiddenImport | ModuleTooLarge | OtherFailure

  datatype ExecutionResult = ExecutionResult(exitCode: int, fuel: nat)

  datatype GuestAnswer = GuestReturned(result: ExecutionResult) | GuestFailed(failure: GuestFailure)

  datatype Guest = NotStarted | Running | Finished(answer: GuestAnswer)

  /** What is durable, and where the guest is. */
  datatype World = World(file: Option<string>, consumed: bool, guest: Guest)

  datatype Act = CreateFile | Byte(c: char) | Consume | StartGuest | EndGuest(answer: GuestAnswer)

  datatype SandboxError = ArtifactNotAdmitted | OperationNotAllowed | AuthorizationDenied | JournalFailed | GuestError(failure: GuestFailure)

  /** One execution: the checks before the journal, and what the validator and the guest answer. */
  datatype Execution = Execution(
    admitted: bool,
    allowed: bool,
    intent: ExecutionIntent,
    authorized: bool,
    burnt: bool,
    answer: GuestAnswer)

  const AUTHORIZATION_DENIED := "authorization_denied"

  function StableCode(failure: GuestFailure): (code: string)
    ensures code != AUTHORIZATION_DENIED
  {
    match failure
    case FuelExhausted => "fuel_exhausted"
    case DeadlineExceeded => "deadline_exceeded"
    case ResourceLimitExceeded => "resource_limit"
    case GuestTrap => "guest_trap"
    case MissingEntrypoint => "missing_abi"
    case InvalidEntrypoint => "incompatible_abi"
    case InvalidModule => "invalid_module"
    case InstantiationFailed => "instantiate_failed"
    case ForbiddenImport => "forbidden_import"
    case ModuleTooLarge => "module_too_large"
    case OtherFailure => "execution_failed"
  }

  /** The digest of the result descriptor, as the symbol of what it digests. */
  function ResultHash(result: ExecutionResult): string {
    Decimal(if result.exitCode < 0 then -result.exitCode else result.exitCode)
    + (if result.exitCode < 0 then "-" else "+") + Decimal(result.fuel)
  }

  lemma MarkSeparates(a: string, m: char, b: string, a': string, m': char, b': string)
    requires (forall c <- a :: IsDigit(c)) && (forall c <- a' :: IsDigit(c)) && !IsDigit(m) && !IsDigit(m')
    requires a + [m] + b == a' + [m'] + b'
    ensures a == a' && m == m' && b == b'
  {
    var s, s' := a + [m] + b, a' + [m'] + b';
    assert s[|a|] == m && s'[|a'|] == m';
    assert forall i | 0 <= i < |a| :: IsDigit(s[i]);
    assert forall i | 0 <= i < |a'| :: IsDigit(s'[i]);
    assert s[..|a|] == a && s'[..|a'|] == a';
    assert s[|a| + 1..] == b && s'[|a'| + 1..] == b';
  }

  /** The digest of a result determines its exit code and its fuel. */
  lemma ResultHashInjective(a: ExecutionResult, b: ExecutionResult)
    ensures ResultHash(a) == ResultHash(b) <==> a == b
  {
    if ResultHash(a) == ResultHash(b) {
      var m, n := if a.exitCode < 0 then -a.exitCode else a.exitCode, if b.exitCode < 0 then -b.exitCode else b.exitCode;
      var p, q := if a.exitCode < 0 then '-' else '+', if b.exitCode < 0 then '-' else '+';
      MarkSeparates(Decimal(m), p, Decimal(a.fuel), Decimal(n), q, Decimal(b.fuel));
      DecimalInjective(m, n);
      DecimalInjective(a.fuel, b.fuel);
    }
  }

  /** The failure a code stands for: its length and first letter already tell. */
  function FailureOf(code: string): GuestFailure
    requires code != ""
  {
    var first := code[0];
    if |code| == 14 then if first == 'f' then FuelExhausted else if first == 'r' then ResourceLimitExceeded else InvalidModule
    else if |code| == 16 then
      if first == 'i' then InvalidEntrypoint
      else if first == 'f' then ForbiddenImport
      else if first == 'm' then ModuleTooLarge
      else OtherFailure
    else if |code| == 17 then DeadlineExceeded
    else if |code| == 10 then GuestTrap
    else if |code| == 11 then MissingEntrypoint
    else InstantiationFailed
  }

  /** A code tells its failure. */
  lemma CodeFixesFailure(failure: GuestFailure)
    ensures StableCode(failure) != "" && FailureOf(StableCode(failure)) == failure
  {
  }

  function OutcomeOf(answer: GuestAnswer): ExecutionOutcome {
    match answer
    case GuestReturned(result) => Completed(ResultHash(result))
    case GuestFailed(failure) => Failed(StableCode(failure))
  }

  // -------------------------------------------------------------------- plan

  function Bytes(text: string): (acts: seq<Act>)
    ensures |acts| == |text|
    ensures forall i | 0 <= i < |text| :: acts[i] == Byte(text[i])
  {
    seq(|text|, i requires 0 <= i < |text| => Byte(text[i]))
  }

  function LineOf(codec: Codec, record: JournalRecord): string { codec.encode(record) + ['\n'] }

  /** The acts of an uninterrupted execution, in order. */
  function Plan(codec: Codec, x: Execution): seq<Act> {
    if !x.admitted || !x.allowed then []
    else if !x.authorized then
      [CreateFile] + (Bytes(LineOf(codec, Requested(x.intent)))
      + ((if x.burnt then [Consume] else []) + Bytes(LineOf(codec, Terminal(Failed(AUTHORIZATION_DENIED))))))
    else
      [CreateFile] + (Bytes(LineOf(codec, Requested(x.intent))) + ([Consume] + (Bytes(LineOf(codec, Started))
      + ([StartGuest] + ([EndGuest(x.answer)] + Bytes(LineOf(codec, Terminal(OutcomeOf(x.answer)))))))))
  }

  function Do(w: World, act: Act): World {
    match act
    case CreateFile => w.(file := Some(""))
    case Byte(c) => if w.file.None? then w else w.(file := Some(w.file.value + [c]))
    case Consume => w.(consumed := true)
    case StartGuest => w.(guest := Running)
    case EndGuest(answer) => w.(guest := Finished(answer))
  }

  function DoAll(w: World, acts: seq<Act>): World {
    if acts == [] then w else Do(DoAll(w, acts[..|acts| - 1]), acts[|acts| - 1])
  }

  /** The part of the acts that was done when the execution stopped after `n`. */
  function Cut(acts: seq<Act>, n: nat): seq<Act> { if n < |acts| then acts[..n] else acts }

  const BEFORE := World(None, false, NotStarted)

  /** The world when the execution stops after `n` acts. */
  function StoppedAfter(codec: Codec, x: Execution, n: nat): World {
    DoAll(BEFORE, Cut(Plan(codec, x), n))
  }

  lemma {:induction false} DoAllConcat(w: World, a: seq<Act>, b: seq<Act>)
    ensures DoAll(w, a + b) == DoAll(DoAll(w, a), b)
    decreases |b|
  {
    if b == [] {
      assert a + b == a;
    } else {
      assert (a + b)[..|a + b| - 1] == a + b[..|b| - 1];
      DoAllConcat(w, a, b[..|b| - 1]);
    }
  }

  lemma {:induction false} DoBytes(w: World, text: string)
    requires w.file.Some?
    ensures DoAll(w, Bytes(text)) == w.(file := Some(w.file.value + text))
  {
    if text == "" {
      assert w.file.value + text == w.file.value;
    } else {
      var front := text[..|text| - 1];
      assert Bytes(text)[..|text| - 1] == Bytes(front);
      DoBytes(w, front);
      assert w.file.value + text == w.file.value + front + [text[|text| - 1]];
    }
  }

  // ----------------------------------------------------------- crash prefixes

  /** Stopping inside the first part, or after it inside the rest. */
  lemma Peel(w: World, a: seq<Act>, rest: seq<Act>, n: nat)
    ensures DoAll(w, Cut(a + rest, n))
      == if n <= |a| then DoAll(w, Cut(a, n)) else DoAll(DoAll(w, a), Cut(rest, n - |a|))
  {
    if n > |a| {
      assert Cut(a + rest, n) == a + Cut(rest, n - |a|);
      DoAllConcat(w, a, Cut(rest, n - |a|));
    } else {
      assert Cut(a + rest, n) == Cut(a, n);
    }
  }

  lemma PeelOne(w: World, act: Act, rest: seq<Act>, n: nat)
    ensures DoAll(w, Cut([act] + rest, n)) == if n == 0 then w else DoAll(Do(w, act), Cut(rest, n - 1))
  {
    Peel(w, [act], rest, n);
    assert [act][..0] == [];
    if n == 1 {
      assert Cut(rest, 0) == [];
    }
  }

  lemma {:induction false} WrittenAppend(codec: Codec, records: seq<JournalRecord>, next: JournalRecord)
    ensures Written(codec, records + [next]) == Written(codec, records) + LineOf(codec, next)
  {
    if records == [] {
      assert records + [next] == [next] && [next][1..] == [];
      assert Written(codec, [next]) == codec.encode(next) + ['\n'] + "";
    } else {
      assert (records + [next])[1..] == records[1..] + [next];
      WrittenAppend(codec, records[1..], next);
    }
  }

  /** The journal holds the first `c` records, and `k` bytes of the next one. */
  ghost predicate Holds(codec: Codec, all: seq<JournalRecord>, file: Option<string>, c: nat, k: nat) {
    && c <= |all|
    && k <= (if c < |all| then |codec.encode(all[c])| else 0)
    && file == Some(Written(codec, all[..c]) + (if c < |all| then codec.encode(all[c])[..k] else ""))
  }

  /** Stopping inside or after the line of record `c`, which `rest` follows. */
  lemma LineCut(codec: Codec, all: seq<JournalRecord>, w: World, c: nat, rest: seq<Act>, n: nat)
    requires c < |all| && w.file == Some(Written(codec, all[..c]))
    ensures var line := LineOf(codec, all[c]);
      var after := DoAll(w, Cut(Bytes(line) + rest, n));
      && (n < |line| ==> after == w.(file := after.file) && Holds(codec, all, after.file, c, n))
      && (n >= |line| ==>
            after == DoAll(w.(file := Some(Written(codec, all[..c + 1]))), Cut(rest, n - |line|)))
  {
    var line := LineOf(codec, all[c]);
    Peel(w, Bytes(line), rest, n);
    if n < |line| {
      assert Cut(Bytes(line), n) == Bytes(line[..n]);
      DoBytes(w, line[..n]);
      assert line[..n] == codec.encode(all[c])[..n];
    } else {
      assert all[..c + 1] == all[..c] + [all[c]];
      WrittenAppend(codec, all[..c], all[c]);
      DoBytes(w, line);
      if n == |line| {
        assert Cut(rest, 0) == [] && Cut(Bytes(line), n) == Bytes(line);
      }
    }
  }

  lemma Complete(codec: Codec, all: seq<JournalRecord>, file: Option<string>, c: nat)
    requires c <= |all| && file == Some(Written(codec, all[..c]))
    ensures Holds(codec, all, file, c, 0)
  {
    assert Written(codec, all[..c]) + "" == Written(codec, all[..c]);
  }

  function Records(x: Execution): seq<JournalRecord> {
    if x.authorized then [Requested(x.intent), Started, Terminal(OutcomeOf(x.answer))]
    else [Requested(x.intent), Terminal(Failed(AUTHORIZATION_DENIED))]
  }

  /** What a stop may leave once the journal exists: `c` records and `k` bytes of the next. */
  ghost predicate Stage(codec: Codec, x: Execution, w: World, c: nat, k: nat) {
    && Holds(codec, Records(x), w.file, c, k)
    && (if x.authorized then
          && ((c == 1 && k > 0) || c > 1 ==> w.consumed)
          && (c <= 1 ==> w.guest == NotStarted)
          && ((c == 2 && k > 0) || c > 2 ==> w.guest == Finished(x.answer))
          && (w.guest == NotStarted || w.guest == Running || w.guest == Finished(x.answer))
        else w.guest == NotStarted)
  }

  ghost predicate Reached(codec: Codec, x: Execution, w: World) {
    w == BEFORE || exists c: nat, k: nat :: Stage(codec, x, w, c, k)
  }

  lemma AfterGuest(codec: Codec, x: Execution, w: World, n: nat)
    requires x.authorized && w.consumed && w.guest == Finished(x.answer)
    requires w.file == Some(Written(codec, Records(x)[..2]))
    ensures Reached(codec, x, DoAll(w, Cut(Bytes(LineOf(codec, Records(x)[2])), n)))
  {
    var line := LineOf(codec, Records(x)[2]);
    assert Bytes(line) + [] == Bytes(line);
    LineCut(codec, Records(x), w, 2, [], n);
    var after := DoAll(w, Cut(Bytes(line), n));
    if n < |line| {
      assert Stage(codec, x, after, 2, n);
    } else {
      assert after == w.(file := Some(Written(codec, Records(x)[..3])));
      Complete(codec, Records(x), after.file, 3);
      assert Stage(codec, x, after, 3, 0);
    }
  }

  lemma FromGuest(codec: Codec, x: Execution, w: World, n: nat)
    requires x.authorized && w.consumed && w.guest == NotStarted
    requires w.file == Some(Written(codec, Records(x)[..2]))
    ensures Reached(codec, x,
      DoAll(w, Cut([StartGuest] + ([EndGuest(x.answer)] + Bytes(LineOf(codec, Records(x)[2]))), n)))
  {
    var line := Bytes(LineOf(codec, Records(x)[2]));
    PeelOne(w, StartGuest, [EndGuest(x.answer)] + line, n);
    Complete(codec, Records(x), w.file, 2);
    if n == 0 {
      assert Stage(codec, x, w, 2, 0);
    } else {
      var running := Do(w, StartGuest);
      PeelOne(running, EndGuest(x.answer), line, n - 1);
      if n == 1 {
        assert Stage(codec, x, running, 2, 0);
      } else {
        AfterGuest(codec, x, Do(running, EndGuest(x.answer)), n - 2);
      }
    }
  }

  lemma FromConsumed(codec: Codec, x: Execution, w: World, n: nat)
    requires x.authorized && w.consumed && w.guest == NotStarted
    requires w.file == Some(Written(codec, Records(x)[..1]))
    ensures Reached(codec, x, DoAll(w, Cut(Bytes(LineOf(codec, Started))
      + ([StartGuest] + ([EndGuest(x.answer)] + Bytes(LineOf(codec, Records(x)[2])))), n)))
  {
    var rest := [StartGuest] + ([EndGuest(x.answer)] + Bytes(LineOf(codec, Records(x)[2])));
    var line := LineOf(codec, Started);
    LineCut(codec, Records(x), w, 1, rest, n);
    if n < |line| {
      assert Stage(codec, x, DoAll(w, Cut(Bytes(line) + rest, n)), 1, n);
    } else {
      FromGuest(codec, x, w.(file := Some(Written(codec, Records(x)[..2]))), n - |line|);
    }
  }

  lemma FromIntent(codec: Codec, x: Execution, w: World, rest: seq<Act>, n: nat)
    requires x.authorized && w == World(Some(Written(codec, Records(x)[..1])), false, NotStarted)
    requires rest == Bytes(LineOf(codec, Started)) + ([StartGuest] + ([EndGuest(x.answer)] + Bytes(LineOf(codec, Records(x)[2]))))
    ensures Reached(codec, x, DoAll(w, Cut([Consume] + rest, n)))
  {
    PeelOne(w, Consume, rest, n);
    if n == 0 {
      Complete(codec, Records(x), w.file, 1);
      assert Stage(codec, x, w, 1, 0);
    } else {
      FromConsumed(codec, x, Do(w, Consume), n - 1);
    }
  }

  lemma FromDenial(codec: Codec, x: Execution, w: World, n: nat)
    requires !x.authorized && w == World(Some(Written(codec, Records(x)[..1])), false, NotStarted)
    ensures Reached(codec, x,
      DoAll(w, Cut((if x.burnt then [Consume] else []) + Bytes(LineOf(codec, Records(x)[1])), n)))
  {
    var line := Bytes(LineOf(codec, Records(x)[1]));
    if x.burnt {
      BurntDenial(codec, x, w, n);
    } else {
      assert [] + line == line;
      DenialLine(codec, x, w, n);
    }
  }

  lemma BurntDenial(codec: Codec, x: Execution, w: World, n: nat)
    requires !x.authorized && w == World(Some(Written(codec, Records(x)[..1])), false, NotStarted)
    ensures Reached(codec, x, DoAll(w, Cut([Consume] + Bytes(LineOf(codec, Records(x)[1])), n)))
  {
    PeelOne(w, Consume, Bytes(LineOf(codec, Records(x)[1])), n);
    if n == 0 {
      Complete(codec, Records(x), w.file, 1);
      assert Stage(codec, x, w, 1, 0);
    } else {
      DenialLine(codec, x, Do(w, Consume), n - 1);
    }
  }

  lemma DenialLine(codec: Codec, x: Execution, w: World, n: nat)
    requires !x.authorized && w.guest == NotStarted && w.file == Some(Written(codec, Records(x)[..1]))
    ensures Reached(codec, x, DoAll(w, Cut(Bytes(LineOf(codec, Records(x)[1])), n)))
  {
    var line := LineOf(codec, Records(x)[1]);
    assert Bytes(line) + [] == Bytes(line);
    LineCut(codec, Records(x), w, 1, [], n);
    var after := DoAll(w, Cut(Bytes(line), n));
    if n < |line| {
      assert Stage(codec, x, after, 1, n);
    } else {
      assert after == w.(file := Some(Written(codec, Records(x)[..2])));
      Complete(codec, Records(x), after.file, 2);
      assert Stage(codec, x, after, 2, 0);
    }
  }

  lemma FromEmptyFile(codec: Codec, x: Execution, rest: seq<Act>, n: nat)
    requires var w := World(Some(Written(codec, Records(x)[..1])), false, NotStarted);
      forall m: nat :: Reached(codec, x, DoAll(w, Cut(rest, m)))
    ensures Reached(codec, x,
      DoAll(World(Some(""), false, NotStarted), Cut(Bytes(LineOf(codec, Requested(x.intent))) + rest, n)))
  {
    var w := World(Some(""), false, NotStarted);
    var line := LineOf(codec, Records(x)[0]);
    assert Records(x)[..0] == [] && Records(x)[0] == Requested(x.intent);
    LineCut(codec, Records(x), w, 0, rest, n);
    if n < |line| {
      assert Stage(codec, x, DoAll(w, Cut(Bytes(line) + rest, n)), 0, n);
    } else {
      assert Records(x)[..0 + 1] == Records(x)[..1];
    }
  }

  /** Wherever an execution stops, it is at one of its stages. */
  lemma EveryStopIsAStage(codec: Codec, x: Execution, n: nat)
    ensures Reached(codec, x, StoppedAfter(codec, x, n))
  {
    if x.admitted && x.allowed {
      var w := World(Some(Written(codec, Records(x)[..1])), false, NotStarted);
      var rest := if !x.authorized then (if x.burnt then [Consume] else []) + Bytes(LineOf(codec, Records(x)[1]))
                  else [Consume] + (Bytes(LineOf(codec, Started))
                       + ([StartGuest] + ([EndGuest(x.answer)] + Bytes(LineOf(codec, Records(x)[2])))));
      forall m: nat ensures Reached(codec, x, DoAll(w, Cut(rest, m))) {
        if x.authorized {
          assert [Consume] + rest[1..] == rest;
          FromIntent(codec, x, w, rest[1..], m);
        } else {
          FromDenial(codec, x, w, m);
        }
      }
      var line := Bytes(LineOf(codec, Requested(x.intent)));
      assert Plan(codec, x) == [CreateFile] + (line + rest);
      PeelOne(BEFORE, CreateFile, line + rest, n);
      if n > 0 {
        FromEmptyFile(codec, x, rest, n - 1);
      }
    }
  }

  // ------------------------------------------------------------------ theorem

  /** A reader finds the complete records, or one more when only a newline is missing. */
  lemma HoldsReads(codec: Codec, all: seq<JournalRecord>, file: string, c: nat, k: nat)
    requires Faithful(codec) && Holds(codec, all, Some(file), c, k)
    ensures c < |all| && k == |codec.encode(all[c])| ==> Recovery(codec, file) == StateOf(Replay(all[..c + 1]))
    ensures !(c < |all| && k == |codec.encode(all[c])|) ==> Recovery(codec, file) == StateOf(Replay(all[..c]))
  {
    if c < |all| {
      TornLogReadsExactly(codec, all[..c], all[c], k);
      assert all[..c + 1] == all[..c] + [all[c]];
    } else {
      assert file == Written(codec, all[..c]);
      CompleteLogReadsExactly(codec, all[..c]);
    }
  }

  /** What the reader makes of each number of records. */
  lemma ReplayOf(x: Execution, c: nat)
    requires c <= |Records(x)|
    ensures StateOf(Replay(Records(x)[..c])) ==
      if c == 0 then None
      else if c == 1 then Some(RecoveredExecution(x.intent, Unknown))
      else if !x.authorized then Some(RecoveredExecution(x.intent, HasFailed(AUTHORIZATION_DENIED)))
      else if c == 2 then Some(RecoveredExecution(x.intent, InProgress))
      else Some(RecoveredExecution(x.intent, match x.answer
                                             case GuestReturned(result) => HasCompleted(ResultHash(result))
                                             case GuestFailed(failure) => HasFailed(StableCode(failure))))
  {
    var records := Records(x)[..c];
    if c >= 1 {
      assert records[..c - 1] == Records(x)[..c - 1];
      ReplayOf(x, c - 1);
      if c >= 2 {
        assert Replay(records[..c - 1]).intent == Some(x.intent);
      }
    }
  }

  /** The journal holds complete intent and started records. */
  ghost predicate IntentAndStartDurable(codec: Codec, x: Execution, file: Option<string>) {
    file.Some? && Written(codec, [Requested(x.intent), Started]) <= file.value
  }

  /** A recorded state tells where the guest was when the execution stopped, and what it answered. */
  ghost predicate Honest(state: ExecutionState, guest: Guest) {
    match state
    case Unknown => guest == NotStarted
    case InProgress => true
    case HasCompleted(hash) =>
      && (exists r :: ResultHash(r) == hash)
      && forall r :: ResultHash(r) == hash ==> guest == Finished(GuestReturned(r))
    case HasFailed(code) =>
      || (code == AUTHORIZATION_DENIED && guest == NotStarted)
      || (&& (exists f :: StableCode(f) == code)
          && forall f :: StableCode(f) == code ==> guest == Finished(GuestFailed(f)))
    case RecordedIndeterminate(_) => false
  }

  lemma AnswerIsHonest(answer: GuestAnswer)
    ensures Honest(match answer
                   case GuestReturned(result) => HasCompleted(ResultHash(result))
                   case GuestFailed(failure) => HasFailed(StableCode(failure)), Finished(answer))
  {
    match answer
    case GuestReturned(result) =>
      forall r | ResultHash(r) == ResultHash(result) ensures r == result { ResultHashInjective(r, result); }
    case GuestFailed(failure) =>
      forall f | StableCode(f) == StableCode(failure) ensures f == failure {
        CodeFixesFailure(f);
        CodeFixesFailure(failure);
      }
  }

  /**
    Every crash prefix of an execution, torn last line included.  A started
    guest means a consumed token and durable intent and started records; the
    journal reads as the records written, or one more; and what it reads as is
    this execution's intent, a completion only with the one result the guest
    returned, a failure only with the one failure it ended in, a denial or
    nothing at all only if the guest never ran.
  */
  lemma EveryCrashIsReportedHonestly(codec: Codec, x: Execution, n: nat)
    requires Faithful(codec)
    ensures var w := StoppedAfter(codec, x, n);
      && (w.guest != NotStarted ==> w.consumed && IntentAndStartDurable(codec, x, w.file))
      && (w.file.Some? ==>
            exists c: nat, k: nat :: Holds(codec, Records(x), w.file, c, k)
              && (Recovery(codec, w.file.value) == StateOf(Replay(Records(x)[..c]))
                  || (c < |Records(x)| && Recovery(codec, w.file.value) == StateOf(Replay(Records(x)[..c + 1])))))
      && (w.file.Some? && Recovery(codec, w.file.value).Some? ==>
            var found := Recovery(codec, w.file.value).value;
            found.intent == x.intent && Honest(found.state, w.guest))
  {
    EveryStopIsAStage(codec, x, n);
    var w := StoppedAfter(codec, x, n);
    if w != BEFORE {
      var c: nat, k: nat :| Stage(codec, x, w, c, k);
      HoldsReads(codec, Records(x), w.file.value, c, k);
      ReplayOf(x, c);
      if c < |Records(x)| {
        ReplayOf(x, c + 1);
      }
      AnswerIsHonest(x.answer);
      if w.guest != NotStarted {
        StartedDurable(codec, x, w, c, k);
      }
    }
  }

  /**
    An execution that is not interrupted: nothing happens before its checks
    pass, and after that the journal reads as the denial or as the guest's
    whole answer.
  */
  lemma FinishedIsRecorded(codec: Codec, x: Execution, n: nat)
    requires Faithful(codec) && n >= |Plan(codec, x)|
    ensures var w := StoppedAfter(codec, x, n);
      if !x.admitted || !x.allowed then w == BEFORE
      else
        && w.file.Some? && Recovery(codec, w.file.value).Some?
        && var found := Recovery(codec, w.file.value).value;
           && found.intent == x.intent && Honest(found.state, w.guest)
           && (if x.authorized then w.consumed && w.guest == Finished(x.answer) && !found.state.InProgress?
               else w.guest == NotStarted && w.consumed == x.burnt && found.state == HasFailed(AUTHORIZATION_DENIED))
  {
    if x.admitted && x.allowed {
      FinalWorld(codec, x);
      ReplayOf(x, |Records(x)|);
      assert Records(x)[..|Records(x)|] == Records(x);
      CompleteLogReadsExactly(codec, Records(x));
      AnswerIsHonest(x.answer);
    }
  }

  lemma FinalWorld(codec: Codec, x: Execution)
    requires x.admitted && x.allowed
    ensures DoAll(BEFORE, Plan(codec, x))
      == World(Some(Written(codec, Records(x))), x.authorized || x.burnt, if x.authorized then Finished(x.answer) else NotStarted)
  {
    var w := World(Some(Written(codec, [])), false, NotStarted);
    var rest := AfterIntent(codec, x);
    var line := Bytes(LineOf(codec, Requested(x.intent)));
    assert Plan(codec, x) == [CreateFile] + (line + rest);
    DoOne(BEFORE, CreateFile, line + rest);
    DoLine(codec, w, [], Requested(x.intent), rest);
    var w1 := w.(file := Some(Written(codec, [Requested(x.intent)])));
    if x.authorized {
      FinalGuest(codec, x, w1);
    } else {
      var denied := Terminal(Failed(AUTHORIZATION_DENIED));
      DoAllConcat(w1, if x.burnt then [Consume] else [], Bytes(LineOf(codec, denied)));
      assert [Consume] + [] == [Consume];
      DoOne(w1, Consume, []);
      assert Bytes(LineOf(codec, denied)) + [] == Bytes(LineOf(codec, denied));
      DoLine(codec, w1.(consumed := x.burnt), [Requested(x.intent)], denied, []);
    }
  }

  lemma FinalGuest(codec: Codec, x: Execution, w: World)
    requires x.authorized && w == World(Some(Written(codec, [Requested(x.intent)])), false, NotStarted)
    ensures DoAll(w, AfterIntent(codec, x)) == World(Some(Written(codec, Records(x))), true, Finished(x.answer))
  {
    var last := Terminal(OutcomeOf(x.answer));
    var line := Bytes(LineOf(codec, last));
    var guest := [StartGuest] + ([EndGuest(x.answer)] + line);
    DoOne(w, Consume, Bytes(LineOf(codec, Started)) + guest);
    DoLine(codec, w.(consumed := true), [Requested(x.intent)], Started, guest);
    var w2 := World(Some(Written(codec, [Requested(x.intent), Started])), true, NotStarted);
    assert [Requested(x.intent)] + [Started] == [Requested(x.intent), Started];
    DoOne(w2, StartGuest, [EndGuest(x.answer)] + line);
    DoOne(w2.(guest := Running), EndGuest(x.answer), line);
    assert line + [] == line;
    DoLine(codec, w2.(guest := Finished(x.answer)), [Requested(x.intent), Started], last, []);
    assert [Requested(x.intent), Started] + [last] == Records(x);
  }

  lemma DoOne(w: World, act: Act, rest: seq<Act>)
    ensures DoAll(w, [act] + rest) == DoAll(Do(w, act), rest)
  {
    DoAllConcat(w, [act], rest);
    assert [act][..0] == [];
  }

  lemma DoLine(codec: Codec, w: World, written: seq<JournalRecord>, next: JournalRecord, rest: seq<Act>)
    requires w.file == Some(Written(codec, written))
    ensures DoAll(w, Bytes(LineOf(codec, next)) + rest)
      == DoAll(w.(file := Some(Written(codec, written + [next]))), rest)
  {
    DoAllConcat(w, Bytes(LineOf(codec, next)), rest);
    DoBytes(w, LineOf(codec, next));
    WrittenAppend(codec, written, next);
  }

  lemma StartedDurable(codec: Codec, x: Execution, w: World, c: nat, k: nat)
    requires Stage(codec, x, w, c, k) && w.guest != NotStarted
    ensures w.consumed && IntentAndStartDurable(codec, x, w.file)
  {
    var all := Records(x);
    assert all[..2] == [Requested(x.intent), Started];
    if c == 3 {
      assert all[..3] == all[..2] + [all[2]];
      WrittenAppend(codec, all[..2], all[2]);
    }
  }

  // --------------------------------------------------------------- the class

  /** The world and the budget left after running acts; alive when all were done. */
  ghost predicate Ran(w: World, budget: nat, acts: seq<Act>, after: World, left: nat, alive: bool) {
    && after == DoAll(w, Cut(acts, budget))
    && alive == (budget >= |acts|)
    && left == if alive then budget - |acts| else 0
  }

  lemma RanThen(w: World, budget: nat, a: seq<Act>, mid: World, left: nat, b: seq<Act>, after: World, rest: nat, alive: bool)
    requires Ran(w, budget, a, mid, left, true) && Ran(mid, left, b, after, rest, alive)
    ensures Ran(w, budget, a + b, after, rest, alive)
  {
    Peel(w, a, b, budget);
    if budget == |a| {
      assert Cut(a, budget) == a && Cut(b, 0) == [];
    }
  }

  lemma RanPart(w: World, budget: nat, a: seq<Act>, after: World, left: nat, b: seq<Act>)
    requires Ran(w, budget, a, after, left, false)
    ensures Ran(w, budget, a + b, after, left, false)
  {
    Peel(w, a, b, budget);
  }

  ghost function AfterIntent(codec: Codec, x: Execution): seq<Act> {
    if x.authorized then
      [Consume] + (Bytes(LineOf(codec, Started))
        + ([StartGuest] + ([EndGuest(x.answer)] + Bytes(LineOf(codec, Terminal(OutcomeOf(x.answer)))))))
    else (if x.burnt then [Consume] else []) + Bytes(LineOf(codec, Terminal(Failed(AUTHORIZATION_DENIED))))
  }

  class VerifiedExecutor {
    const codec: Codec
    var file: Option<string>
    var consumed: bool
    var guest: Guest
    var budget: nat

    constructor (codec: Codec, budget: nat)
      ensures this.codec == codec && Now() == BEFORE && this.budget == budget
    {
      this.codec, file, consumed, guest, this.budget := codec, None, false, NotStarted, budget;
    }

    ghost function Now(): World
      reads this
    {
      World(file, consumed, guest)
    }

    /** One act, unless the execution stops before it. */
    method Perform(act: Act) returns (alive: bool)
      modifies this
      ensures Ran(old(Now()), old(budget), [act], Now(), budget, alive)
      ensures alive ==> Now() == Do(old(Now()), act)
    {
      assert [act][..0] == [];
      if budget == 0 { return false; }
      budget := budget - 1;
      match act {
        case CreateFile => file := Some("");
        case Byte(c) => if file.Some? { file := Some(file.value + [c]); }
        case Consume => consumed := true;
        case StartGuest => guest := Running;
        case EndGuest(answer) => guest := Finished(answer);
      }
      return true;
    }

    /** One encoded line, byte by byte. */
    method AppendLine(record: JournalRecord) returns (alive: bool)
      modifies this
      ensures Ran(old(Now()), old(budget), Bytes(LineOf(codec, record)), Now(), budget, alive)
    {
      var line := LineOf(codec, record);
      ghost var w, start := Now(), budget;
      alive := true;
      assert Bytes(line[..0]) == [];
      for i := 0 to |line|
        invariant alive && Ran(w, start, Bytes(line[..i]), Now(), budget, true)
      {
        ghost var mid, left := Now(), budget;
        alive := Perform(Byte(line[i]));
        assert Bytes(line[..i + 1]) == Bytes(line[..i]) + [Byte(line[i])];
        RanThen(w, start, Bytes(line[..i]), mid, left, [Byte(line[i])], Now(), budget, alive);
        if !alive {
          assert Bytes(line) == Bytes(line[..i + 1]) + Bytes(line[i + 1..]);
          RanPart(w, start, Bytes(line[..i + 1]), Now(), budget, Bytes(line[i + 1..]));
          return;
        }
      }
      assert line[..|line|] == line;
    }

    method Begin(intent: ExecutionIntent) returns (alive: bool)
      modifies this
      ensures Ran(old(Now()), old(budget), [CreateFile] + Bytes(LineOf(codec, Requested(intent))), Now(), budget, alive)
    {
      ghost var w, start := Now(), budget;
      ghost var line := Bytes(LineOf(codec, Requested(intent)));
      alive := Perform(CreateFile);
      ghost var mid, left := Now(), budget;
      if !alive {
        RanPart(w, start, [CreateFile], mid, left, line);
        return;
      }
      alive := AppendLine(Requested(intent));
      RanThen(w, start, [CreateFile], mid, left, line, Now(), budget, alive);
    }

    /** A refused authorization may have burnt claims; it is recorded as a denial. */
    method Deny(burnt: bool) returns (alive: bool)
      modifies this
      ensures Ran(old(Now()), old(budget),
                  (if burnt then [Consume] else []) + Bytes(LineOf(codec, Terminal(Failed(AUTHORIZATION_DENIED)))),
                  Now(), budget, alive)
    {
      ghost var w, start := Now(), budget;
      ghost var line := Bytes(LineOf(codec, Terminal(Failed(AUTHORIZATION_DENIED))));
      if burnt {
        alive := Perform(Consume);
        if !alive {
          RanPart(w, start, [Consume], Now(), budget, line);
          return;
        }
        ghost var mid, left := Now(), budget;
        alive := AppendLine(Terminal(Failed(AUTHORIZATION_DENIED)));
        RanThen(w, start, [Consume], mid, left, line, Now(), budget, alive);
      } else {
        alive := AppendLine(Terminal(Failed(AUTHORIZATION_DENIED)));
        assert [] + line == line;
      }
    }

    /** Consume, record the start, run the guest, record the verdict. */
    method RunGuest(answer: GuestAnswer) returns (alive: bool)
      modifies this
      ensures Ran(old(Now()), old(budget),
                  [Consume] + (Bytes(LineOf(codec, Started))
                    + ([StartGuest] + ([EndGuest(answer)] + Bytes(LineOf(codec, Terminal(OutcomeOf(answer))))))),
                  Now(), budget, alive)
    {
      ghost var w, start := Now(), budget;
      ghost var last := Bytes(LineOf(codec, Terminal(OutcomeOf(answer))));
      ghost var fourth := [StartGuest] + ([EndGuest(answer)] + last);
      ghost var second := Bytes(LineOf(codec, Started)) + fourth;
      alive := Perform(Consume);
      if !alive { RanPart(w, start, [Consume], Now(), budget, second); return; }
      ghost var w1, b1 := Now(), budget;
      alive := AppendLine(Started);
      if alive {
        ghost var w2, b2 := Now(), budget;
        alive := Call(answer);
        RanThen(w1, b1, Bytes(LineOf(codec, Started)), w2, b2, fourth, Now(), budget, alive);
      } else {
        RanPart(w1, b1, Bytes(LineOf(codec, Started)), Now(), budget, fourth);
      }
      RanThen(w, start, [Consume], w1, b1, second, Now(), budget, alive);
    }

    method Call(answer: GuestAnswer) returns (alive: bool)
      modifies this
      ensures Ran(old(Now()), old(budget),
                  [StartGuest] + ([EndGuest(answer)] + Bytes(LineOf(codec, Terminal(OutcomeOf(answer))))),
                  Now(), budget, alive)
    {
      ghost var w, start := Now(), budget;
      ghost var last := Bytes(LineOf(codec, Terminal(OutcomeOf(answer))));
      alive := Perform(StartGuest);
      if !alive { RanPart(w, start, [StartGuest], Now(), budget, [EndGuest(answer)] + last); return; }
      ghost var w1, b1 := Now(), budget;
      alive := Perform(EndGuest(answer));
      if alive {
        ghost var w2, b2 := Now(), budget;
        alive := AppendLine(Terminal(OutcomeOf(answer)));
        RanThen(w1, b1, [EndGuest(answer)], w2, b2, last, Now(), budget, alive);
      } else {
        RanPart(w1, b1, [EndGuest(answer)], Now(), budget, last);
      }
      RanThen(w, start, [StartGuest], w1, b1, [EndGuest(answer)] + last, Now(), budget, alive);
    }

    /** No result when the execution stopped part way. */
    method Execute(x: Execution) returns (r: Option<Result<ExecutionResult, SandboxError>>)
      requires Now() == BEFORE
      modifies this
      ensures Now() == StoppedAfter(codec, x, old(budget))
      ensures r.None? <==> old(budget) < |Plan(codec, x)|
      ensures r.Some? && r.value.Ok? ==>
        x.admitted && x.allowed && x.authorized && Now().guest == Finished(GuestReturned(r.value.value))
      ensures r.Some? && r.value.Err? ==>
        match r.value.error
        case ArtifactNotAdmitted => !x.admitted && Now() == BEFORE
        case OperationNotAllowed => x.admitted && !x.allowed && Now() == BEFORE
        case AuthorizationDenied => x.admitted && x.allowed && !x.authorized && Now().guest == NotStarted
        case GuestError(failure) => x.admitted && x.allowed && x.authorized && Now().guest == Finished(GuestFailed(failure))
        case JournalFailed => false
    {
      if !x.admitted { return Some(Err(ArtifactNotAdmitted)); }
      if !x.allowed { return Some(Err(OperationNotAllowed)); }
      ghost var plan := Plan(codec, x);
      ghost var first := [CreateFile] + Bytes(LineOf(codec, Requested(x.intent)));
      ghost var rest := AfterIntent(codec, x);
      assert plan == first + rest;
      FinalWorld(codec, x);
      ghost var start := budget;
      var alive := Begin(x.intent);
      if !alive { RanPart(BEFORE, start, first, Now(), budget, rest); return None; }
      ghost var mid, left := Now(), budget;
      if !x.authorized {
        alive := Deny(x.burnt);
        RanThen(BEFORE, start, first, mid, left, rest, Now(), budget, alive);
        return if alive then Some(Err(AuthorizationDenied)) else None;
      }
      alive := RunGuest(x.answer);
      RanThen(BEFORE, start, first, mid, left, rest, Now(), budget, alive);
      if !alive { return None; }
      return Some(match x.answer case GuestReturned(result) => Ok(result) case GuestFailed(failure) => Err(GuestError(failure)));
    }
  }
}
