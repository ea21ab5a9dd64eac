/**
  The execution journal of `crates/execution`: one text file per execution, one
  encoded record per line, and the reader that ignores what does not decode.
*/
module ExecutionJournal {
  import opened Wrappers
  import opened Strings

  datatype ExecutionIntent = ExecutionIntent(executionId: Id, componentDigest: string, inputDigest: string, requestedAt: int)

  datatype ExecutionOutcome = Completed(resultHash: string) | Failed(code: string) | Indeterminate(reason: string)

  datatype JournalRecord = Requested(intent: ExecutionIntent) | Started | Terminal(outcome: ExecutionOutcome)

  datatype ExecutionState =
    | Unknown
    | InProgress
    | HasCompleted(resultHash: string)
    | HasFailed(code: string)
    | RecordedIndeterminate(reason: string)

  datatype RecoveredExecution = RecoveredExecution(intent: ExecutionIntent, state: ExecutionState)

  datatype JournalError = CorruptRecord

  const MAX_JOURNAL_BYTES := 65536

  /** The JSON codec of one record. */
  datatype Codec = Codec(encode: JournalRecord -> string, decode: string -> Option<JournalRecord>)

  /** Decoding inverts encoding; an encoding is one line, and no proper prefix of it decodes. */
  ghost predicate Faithful(codec: Codec) {
    && (forall r :: codec.decode(codec.encode(r)) == Some(r))
    && (forall r :: codec.encode(r) != "" && Free(codec.encode(r), '\n') && Free(codec.encode(r), '\r'))
    && (forall r, k | 0 <= k < |codec.encode(r)| :: codec.decode(codec.encode(r)[..k]) == None)
  }

  // ----------------------------------------------------------------- meaning

  datatype Reading = Reading(intent: Option<ExecutionIntent>, state: ExecutionState)

  function Observe(s: Reading, record: JournalRecord): Reading {
    match record
    case Requested(intent) => Reading(Some(intent), Unknown)
    case Started => if s.intent.Some? then s.(state := InProgress) else s
    case Terminal(Completed(hash)) => s.(state := HasCompleted(hash))
    case Terminal(Failed(code)) => s.(state := HasFailed(code))
    case Terminal(Indeterminate(reason)) => s.(state := RecordedIndeterminate(reason))
  }

  /** The reading of a list of records. */
  function Replay(records: seq<JournalRecord>): Reading {
    if records == [] then Reading(None, Unknown)
    else Observe(Replay(records[..|records| - 1]), records[|records| - 1])
  }

  function StateOf(s: Reading): Option<RecoveredExecution> {
    if s.intent.Some? then Some(RecoveredExecution(s.intent.value, s.state)) else None
  }

  /** `str::lines` before the last line: a line ends at its newline and loses one carriage return. */
  function StripReturn(line: string): string {
    if line != "" && line[|line| - 1] == '\r' then line[..|line| - 1] else line
  }

  function Lines(text: string): seq<string> {
    var parts := Split(text, '\n');
    seq(|parts|, i requires 0 <= i < |parts| => if i < |parts| - 1 then StripReturn(parts[i]) else parts[i])
  }

  function ObserveLine(codec: Codec, s: Reading, line: string): Reading {
    if line == "" then s
    else
      var record := codec.decode(line);
      if record.None? then s else Observe(s, record.value)
  }

  function Scan(codec: Codec, lines: seq<string>): Reading {
    if lines == [] then Reading(None, Unknown)
    else ObserveLine(codec, Scan(codec, lines[..|lines| - 1]), lines[|lines| - 1])
  }

  function Recovery(codec: Codec, text: string): Option<RecoveredExecution> { StateOf(Scan(codec, Lines(text))) }

  /** The text of completely written records. */
  function Written(codec: Codec, records: seq<JournalRecord>): string {
    if records == [] then "" else codec.encode(records[0]) + ['\n'] + Written(codec, records[1..])
  }

  // ------------------------------------------------------------- the reader

  method ReadExecution(codec: Codec, text: string) returns (r: Result<Option<RecoveredExecution>, JournalError>)
    ensures r == if Utf8Length(text) > MAX_JOURNAL_BYTES then Err(CorruptRecord) else Ok(Recovery(codec, text))
  {
    if Utf8Length(text) > MAX_JOURNAL_BYTES {
      return Err(CorruptRecord);
    }
    var intent: Option<ExecutionIntent> := None;
    var state := Unknown;
    var lines := Lines(text);
    for i := 0 to |lines|
      invariant Reading(intent, state) == Scan(codec, lines[..i])
    {
      assert lines[..i + 1][..i] == lines[..i];
      if lines[i] == "" { continue; }
      var record := codec.decode(lines[i]);
      if record.None? { continue; }
      match record.value {
        case Requested(recorded) =>
          intent, state := Some(recorded), Unknown;
        case Started =>
          if intent.Some? { state := InProgress; }
        case Terminal(outcome) =>
          state := match outcome
            case Completed(hash) => HasCompleted(hash)
            case Failed(code) => HasFailed(code)
            case Indeterminate(reason) => RecordedIndeterminate(reason);
      }
    }
    assert lines[..|lines|] == lines;
    return Ok(if intent.Some? then Some(RecoveredExecution(intent.value, state)) else None);
  }

  // --------------------------------------------------------------- torn logs

  lemma {:induction false} SplitWritten(codec: Codec, records: seq<JournalRecord>, tail: string)
    requires Faithful(codec) && Free(tail, '\n')
    ensures var parts := Split(Written(codec, records) + tail, '\n');
      && |parts| == |records| + 1
      && (forall i | 0 <= i < |records| :: parts[i] == codec.encode(records[i]))
      && parts[|records|] == tail
    decreases |records|
  {
    if records == [] {
      assert Written(codec, records) + tail == tail;
      SplitOfFree(tail, '\n');
    } else {
      var rest := Written(codec, records[1..]) + tail;
      assert Written(codec, records) + tail == codec.encode(records[0]) + ['\n'] + rest;
      SplitAtSeparator(codec.encode(records[0]), rest, '\n');
      SplitWritten(codec, records[1..], tail);
    }
  }

  lemma LinesWritten(codec: Codec, records: seq<JournalRecord>, tail: string)
    requires Faithful(codec) && Free(tail, '\n')
    ensures var lines := Lines(Written(codec, records) + tail);
      && |lines| == |records| + 1
      && (forall i | 0 <= i < |records| :: lines[i] == codec.encode(records[i]))
      && lines[|records|] == tail
  {
    SplitWritten(codec, records, tail);
    forall i | 0 <= i < |records| ensures StripReturn(codec.encode(records[i])) == codec.encode(records[i]) {
      assert Free(codec.encode(records[i]), '\r');
    }
  }

  lemma {:induction false} ScanRecords(codec: Codec, records: seq<JournalRecord>, lines: seq<string>)
    requires Faithful(codec) && |lines| == |records|
    requires forall i | 0 <= i < |records| :: lines[i] == codec.encode(records[i])
    ensures Scan(codec, lines) == Replay(records)
  {
    if records != [] {
      var n := |records| - 1;
      ScanRecords(codec, records[..n], lines[..n]);
      assert codec.decode(lines[n]) == Some(records[n]);
    }
  }

  /**
    A log whose last line may be torn reads as its complete records, or as one
    more when only the newline is missing.
  */
  lemma TornLogReadsExactly(codec: Codec, records: seq<JournalRecord>, next: JournalRecord, k: nat)
    requires Faithful(codec) && k <= |codec.encode(next)|
    ensures Recovery(codec, Written(codec, records) + codec.encode(next)[..k])
      == StateOf(Replay(if k < |codec.encode(next)| then records else records + [next]))
  {
    var tail := codec.encode(next)[..k];
    var lines := Lines(Written(codec, records) + tail);
    TailIsFree(codec, next, k);
    LinesWritten(codec, records, tail);
    ScanRecords(codec, records, lines[..|records|]);
    ReplayTail(codec, records, next, k);
  }

  lemma TailIsFree(codec: Codec, next: JournalRecord, k: nat)
    requires Faithful(codec) && k <= |codec.encode(next)|
    ensures Free(codec.encode(next)[..k], '\n')
  {
    assert Free(codec.encode(next), '\n');
  }

  lemma ReplayTail(codec: Codec, records: seq<JournalRecord>, next: JournalRecord, k: nat)
    requires Faithful(codec) && k <= |codec.encode(next)|
    ensures ObserveLine(codec, Replay(records), codec.encode(next)[..k])
      == Replay(if k < |codec.encode(next)| then records else records + [next])
  {
    if k < |codec.encode(next)| {
      assert codec.decode(codec.encode(next)[..k]) == None;
    } else {
      assert codec.encode(next)[..k] == codec.encode(next);
      assert (records + [next])[..|records|] == records;
    }
  }

  lemma CompleteLogReadsExactly(codec: Codec, records: seq<JournalRecord>)
    requires Faithful(codec)
    ensures Recovery(codec, Written(codec, records)) == StateOf(Replay(records))
  {
    assert Written(codec, records) + "" == Written(codec, records);
    LinesWritten(codec, records, "");
    var lines := Lines(Written(codec, records));
    ScanRecords(codec, records, lines[..|records|]);
  }

  // ------------------------------------------------------- what a reading means

  /** The record decides the state: a start counts only after an intent. */
  predicate Speaks(records: seq<JournalRecord>, k: nat)
    requires k < |records|
  {
    records[k].Started? ==> exists j :: 0 <= j < k && records[j].Requested?
  }

  function StateSaid(record: JournalRecord): ExecutionState {
    match record
    case Requested(_) => Unknown
    case Started => InProgress
    case Terminal(Completed(hash)) => HasCompleted(hash)
    case Terminal(Failed(code)) => HasFailed(code)
    case Terminal(Indeterminate(reason)) => RecordedIndeterminate(reason)
  }

  /** No later record asks again. */
  predicate LastRequest(records: seq<JournalRecord>, k: nat) {
    k < |records| && records[k].Requested? && forall m | k < m < |records| :: !records[m].Requested?
  }

  predicate LastWord(records: seq<JournalRecord>, k: nat) {
    k < |records| && Speaks(records, k) && forall m | k < m < |records| :: !Speaks(records, m)
  }

  lemma {:induction false} NoIntentMeaning(records: seq<JournalRecord>)
    ensures Replay(records).intent.None? <==> forall k | 0 <= k < |records| :: !records[k].Requested?
  {
    if records != [] {
      var n := |records| - 1;
      NoIntentMeaning(records[..n]);
      assert forall k | 0 <= k < n :: records[..n][k] == records[k];
    }
  }

  /** The intent read is the last one written. */
  lemma {:induction false} IntentMeaning(records: seq<JournalRecord>, k: nat)
    requires LastRequest(records, k)
    ensures Replay(records).intent == Some(records[k].intent)
  {
    if k < |records| - 1 {
      IntentMeaning(records[..|records| - 1], k);
    }
  }

  lemma SpeaksBefore(records: seq<JournalRecord>, n: nat)
    requires n <= |records|
    ensures forall k | 0 <= k < n :: Speaks(records[..n], k) == Speaks(records, k)
  {
    forall k | 0 <= k < n ensures Speaks(records[..n], k) == Speaks(records, k) {
      assert forall j | 0 <= j < k :: records[..n][j] == records[j];
    }
  }

  /** The last record decides the state, or leaves it as it was. */
  lemma LastSpeaks(records: seq<JournalRecord>)
    requires records != []
    ensures var n := |records| - 1;
      Replay(records).state == if Speaks(records, n) then StateSaid(records[n]) else Replay(records[..n]).state
  {
    var n := |records| - 1;
    NoIntentMeaning(records[..n]);
    assert forall j | 0 <= j < n :: records[..n][j] == records[j];
  }

  /** The state read is what the last record that decides it says. */
  lemma {:induction false} StateMeaning(records: seq<JournalRecord>, k: nat)
    requires LastWord(records, k)
    ensures Replay(records).state == StateSaid(records[k])
  {
    var n := |records| - 1;
    LastSpeaks(records);
    if k < n {
      SpeaksBefore(records, n);
      StateMeaning(records[..n], k);
    }
  }

  /** Without one it is unknown. */
  lemma {:induction false} SilenceMeaning(records: seq<JournalRecord>)
    requires forall k | 0 <= k < |records| :: !Speaks(records, k)
    ensures Replay(records).state == Unknown
  {
    if records != [] {
      LastSpeaks(records);
      SpeaksBefore(records, |records| - 1);
      SilenceMeaning(records[..|records| - 1]);
    }
  }

  /** The same records with lines ended by a carriage return and a newline. */
  function WrittenCrlf(codec: Codec, records: seq<JournalRecord>): string {
    if records == [] then "" else codec.encode(records[0]) + "\r\n" + WrittenCrlf(codec, records[1..])
  }

  lemma {:induction false} SplitWrittenCrlf(codec: Codec, records: seq<JournalRecord>)
    requires Faithful(codec)
    ensures var parts := Split(WrittenCrlf(codec, records), '\n');
      && |parts| == |records| + 1
      && (forall i | 0 <= i < |records| :: parts[i] == codec.encode(records[i]) + "\r")
      && parts[|records|] == ""
  {
    if records != [] {
      var line, rest := codec.encode(records[0]) + "\r", WrittenCrlf(codec, records[1..]);
      assert Free(codec.encode(records[0]), '\n');
      assert WrittenCrlf(codec, records) == line + ['\n'] + rest;
      SplitAtSeparator(line, rest, '\n');
      SplitWrittenCrlf(codec, records[1..]);
    }
  }

  lemma ReturnIsStripped(line: string)
    ensures StripReturn(line + "\r") == line
  {
  }

  /** Carriage returns before the newlines do not matter. */
  lemma CarriageReturnsDoNotMatter(codec: Codec, records: seq<JournalRecord>)
    requires Faithful(codec)
    ensures Recovery(codec, WrittenCrlf(codec, records)) == Recovery(codec, Written(codec, records))
  {
    SplitWrittenCrlf(codec, records);
    CompleteLogReadsExactly(codec, records);
    var lines := Lines(WrittenCrlf(codec, records));
    forall i | 0 <= i < |records| ensures lines[i] == codec.encode(records[i]) {
      ReturnIsStripped(codec.encode(records[i]));
    }
    ScanRecords(codec, records, lines[..|records|]);
  }
}
