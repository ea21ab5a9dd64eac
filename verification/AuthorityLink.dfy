/**
  The validator's durable claims as a run of the transition system: what
  `CapabilityValidator.ClaimDurably` publishes over the three directories is
  what one process does in `AuthorityRuns` when nothing interrupts it.
*/
module AuthorityLink {
  import opened Wrappers
  import opened AuthorityRuns
  import A = Authority
  import C = Capability
  import I = Identity
  import V = CapabilityValidator

  type Directory = A.Directory<Fingerprint>

  /** A readable record, without its kind and its time. */
  predicate SameRecord(stored: A.Stored<Fingerprint>, r: Record) {
    stored.Readable? && r == Record(stored.record.fingerprint, stored.record.expiresAt)
  }

  function DirectorySlot(kind: A.Kind, id: Id): Slot {
    match kind
    case TokenKind => TokenSlot(id)
    case ApprovalKind => ApprovalSlot(id)
    case IdempotencyKind => KeySlot(id)
  }

  ghost predicate SameDirectory(store: map<Slot, Record>, kind: A.Kind, directory: Directory) {
    forall id :: (DirectorySlot(kind, id) in store <==> id in directory)
                 && (id in directory ==> SameRecord(directory[id], store[DirectorySlot(kind, id)]))
  }

  /** The shared store holds the records of three directories whose records are readable. */
  ghost predicate SameStore(store: map<Slot, Record>, tokens: Directory, keys: Directory, approvals: Directory) {
    && SameDirectory(store, A.TokenKind, tokens)
    && SameDirectory(store, A.IdempotencyKind, keys)
    && SameDirectory(store, A.ApprovalKind, approvals)
  }

  /** A token that all checks accept may start its claims. */
  lemma AcceptedMayStart(issued: Issued, v: C.Validator, token: I.Signed<C.Claims>, x: C.Context,
                         approval: Option<I.Signed<C.ApprovalClaims>>, now: int, p: Process)
    requires C.Authorize(v, p.memory, token, x, approval, now).Ok?
    requires issued(token.payload.token) == token.payload
    ensures MayStart(issued, now, p, token.payload.token)
  {
    C.AcceptedExactly(v, p.memory, token, x, approval, now);
  }

  /**
    A token that was issued for a request, presented with that request, is
    accepted exactly when it may start its claims, its decision is recent, and
    its key and its approval still hold.
  */
  lemma IssuedMayStartExactly(issued: Issued, i: C.Issuer, v: C.Validator, r: C.Request,
                              approval: Option<I.Signed<C.ApprovalClaims>>, token: Id, at: int, now: int, p: Process)
    requires C.Paired(i, v) && C.Issue(i, r, approval, token, at).Ok?
    requires C.IssuedClaims(i, r, approval, token, at) == issued(token)
    ensures C.Authorize(v, p.memory, C.Issue(i, r, approval, token, at).value,
                        C.Context(r.party, r.decision, r.prepared), approval, now).Ok?
      <==> MayStart(issued, now, p, token) && C.StillHolds(i, v, r, approval, now)
  {
    C.IssuedTokenAcceptedExactly(i, v, p.memory, r, approval, token, at, now);
    C.IssuesExactly(i, r, approval, token, at);
  }

  // -------------------------------------------------------------- one process

  /** A flight that is not inside a claim. */
  predicate BetweenClaims(issued: Issued, s: State, pid: nat) {
    && pid < |s.processes| && s.processes[pid].flight.Flying? && s.processes[pid].flight.temp == NoTemp
    && WellStaged(issued, s.processes[pid].flight)
  }

  /** The state after a published claim. */
  function Publish(issued: Issued, s: State, pid: nat): (next: State)
    requires BetweenClaims(issued, s, pid) && s.processes[pid].flight.stage != Ready
    ensures BetweenClaims(issued, next, pid)
    ensures Rank(next.processes[pid].flight.stage) > Rank(s.processes[pid].flight.stage)
  {
    var f := s.processes[pid].flight;
    var slot := SlotAt(issued, f.token, f.stage);
    Fly(s, pid, f.(stage := After(issued, f.token, f.stage))).(
      store := s.store[slot := RecordFor(issued, f.token, f.stage)], log := s.log + [Linked(slot)])
  }

  /** The state after a claim whose name was taken. */
  function Decline(issued: Issued, s: State, pid: nat): State
    requires BetweenClaims(issued, s, pid) && s.processes[pid].flight.stage != Ready
  {
    var f := s.processes[pid].flight;
    var refusal := Refuse(issued, s, pid, f.token, SlotAt(issued, f.token, f.stage));
    Fly(s, pid, Idle).(log := s.log + [Refused(pid, f.token, refusal)])
  }

  /** The steps of one claim, alone: it is published exactly if its name is free. */
  lemma ClaimAlone(issued: Issued, s: State, pid: nat)
    requires BetweenClaims(issued, s, pid) && s.processes[pid].flight.stage != Ready
    ensures var f := s.processes[pid].flight;
      var linked := Take(issued, Take(issued, s, WriteTemp(pid)), Link(pid));
      if SlotAt(issued, f.token, f.stage) in s.store
      then Take(issued, linked, ReadExisting(pid)) == Decline(issued, s, pid)
      else linked == Publish(issued, s, pid)
  {
    var f := s.processes[pid].flight;
    var written := Take(issued, s, WriteTemp(pid));
    assert written == Fly(s, pid, f.(temp := Written));
    var slot := SlotAt(issued, f.token, f.stage);
    if slot in s.store {
      assert Take(issued, written, Link(pid)) == Fly(s, pid, Refusing(f.token, slot));
    }
  }

  /** The steps of one process that runs alone until its flight has ended. */
  function Alone(issued: Issued, s: State, pid: nat): seq<Step>
    requires BetweenClaims(issued, s, pid)
    decreases 3 - Rank(s.processes[pid].flight.stage)
  {
    var f := s.processes[pid].flight;
    if f.stage == Ready then [Finish(pid)]
    else if SlotAt(issued, f.token, f.stage) in s.store then [WriteTemp(pid), Link(pid), ReadExisting(pid)]
    else
      [WriteTemp(pid), Link(pid)] + Alone(issued, Publish(issued, s, pid), pid)
  }

  /** One stage of a run alone. */
  lemma AloneStep(issued: Issued, s: State, pid: nat)
    requires BetweenClaims(issued, s, pid)
    ensures var f := s.processes[pid].flight;
      Run(issued, s, Alone(issued, s, pid)) ==
        if f.stage == Ready then Take(issued, s, Finish(pid))
        else if SlotAt(issued, f.token, f.stage) in s.store then Decline(issued, s, pid)
        else
          Run(issued, Publish(issued, s, pid), Alone(issued, Publish(issued, s, pid), pid))
  {
    var f := s.processes[pid].flight;
    if f.stage == Ready {
      RunOne(issued, s, Finish(pid), ANY_PACE);
    } else {
      ClaimAlone(issued, s, pid);
      RunTwo(issued, s, WriteTemp(pid), Link(pid), ANY_PACE);
      var linked := Take(issued, Take(issued, s, WriteTemp(pid)), Link(pid));
      if SlotAt(issued, f.token, f.stage) in s.store {
        RunConcat(issued, s, [WriteTemp(pid), Link(pid)], [ReadExisting(pid)], ANY_PACE);
        RunOne(issued, linked, ReadExisting(pid), ANY_PACE);
        assert [WriteTemp(pid), Link(pid)] + [ReadExisting(pid)] == [WriteTemp(pid), Link(pid), ReadExisting(pid)];
      } else {
        RunConcat(issued, s, [WriteTemp(pid), Link(pid)], Alone(issued, linked, pid), ANY_PACE);
      }
    }
  }

  // ------------------------------------------------------- the three directories

  datatype Directories = Directories(tokens: Directory, keys: Directory, approvals: Directory)

  ghost predicate Stored(s: State, d: Directories) { SameStore(s.store, d.tokens, d.keys, d.approvals) }

  /** The directories after the first `n` claims were published. */
  function AfterClaims(d: Directories, c: C.Claims, now: int, n: nat): Directories {
    Directories(if n >= 1 then d.tokens[c.token := V.TokenRecord(c, now)] else d.tokens,
                if n >= 2 then d.keys[c.key := V.KeyRecord(c, now)] else d.keys,
                if n >= 3 && c.evidence.Some? then d.approvals[c.evidence.value.approval := V.ApprovalRecord(c, now)]
                else d.approvals)
  }

  const WORKS := V.ClaimIo(A.Works, A.Works, A.Works)

  function PublishedOf(d: Directories, c: C.Claims): nat { V.Published(d.tokens, d.keys, d.approvals, c, WORKS) }

  /** How many claims a flight has behind it. */
  function ClaimsBehind(c: C.Claims, stage: Stage): nat { if stage == Ready then 3 else Rank(stage) }

  /** A flight on the token, its first claims published, in the directories they leave. */
  ghost predicate InFlight(issued: Issued, s: State, pid: nat, d: Directories, c: C.Claims, now: int, n: nat) {
    && BetweenClaims(issued, s, pid) && issued(c.token) == c
    && s.processes[pid].flight.token == c.token && ClaimsBehind(c, s.processes[pid].flight.stage) == n
    && n <= PublishedOf(d, c) && Stored(s, AfterClaims(d, c, now, n))
  }

  /** The error of the validator for a refusal of the store, after `n` published claims. */
  function ErrorOf(refusal: Refusal, n: nat): C.CapabilityError {
    match refusal
    case AlreadyConsumed => if n == 0 then C.Replay else C.ApprovalReused
    case IdempotencyReplay => C.IdempotencyReplay
    case IdempotencyConflict => C.IdempotencyConflict
    case CorruptRecord => C.StoreUnavailable
    case Unavailable => C.StoreUnavailable
  }

  /** How the run alone ends. */
  ghost predicate Ends(issued: Issued, s: State, e: State, pid: nat, d: Directories, c: C.Claims, now: int)
    requires pid < |s.processes|
  {
    var n := PublishedOf(d, c);
    && Stored(e, AfterClaims(d, c, now, n)) && |e.log| > 0
    && var last := e.log[|e.log| - 1];
    if n == 3 then
      && e.processes
           == s.processes[pid := s.processes[pid].(memory := V.Remembered(s.processes[pid].memory, c), flight := Idle)]
      && last == Authorized(pid, s.processes[pid].epoch, c.token)
    else
      && e.processes == s.processes[pid := s.processes[pid].(flight := Idle)]
      && last.Refused? && last.pid == pid && last.token == c.token
      && ErrorOf(last.refusal, n) == V.ClaimError(d.tokens, d.keys, d.approvals, c, WORKS)
  }

  /** The next claim of a flight: its name is free exactly if more claims are published. */
  ghost predicate NextIs(issued: Issued, s: State, pid: nat, d: Directories, c: C.Claims, n: nat)
    requires BetweenClaims(issued, s, pid) && s.processes[pid].flight.stage != Ready
  {
    var f := s.processes[pid].flight;
    var slot := SlotAt(issued, f.token, f.stage);
    && (slot in s.store <==> n == PublishedOf(d, c))
    && (slot in s.store ==>
          && PublishedOf(d, c) < 3
          && ErrorOf(Refuse(issued, s, pid, f.token, slot), n) == V.ClaimError(d.tokens, d.keys, d.approvals, c, WORKS))
  }

  lemma NextToken(issued: Issued, s: State, pid: nat, d: Directories, c: C.Claims, now: int)
    requires InFlight(issued, s, pid, d, c, now, 0)
    ensures NextIs(issued, s, pid, d, c, 0)
  {
    assert DirectorySlot(A.TokenKind, c.token) in s.store <==> c.token in d.tokens;
  }

  lemma KeyRefusal(issued: Issued, s: State, pid: nat, d: Directories, c: C.Claims)
    requires c.token !in d.tokens && c.key in d.keys && issued(c.token) == c
    requires KeySlot(c.key) in s.store && SameRecord(d.keys[c.key], s.store[KeySlot(c.key)])
    ensures PublishedOf(d, c) == 1
    ensures ErrorOf(Refuse(issued, s, pid, c.token, KeySlot(c.key)), 1)
      == V.ClaimError(d.tokens, d.keys, d.approvals, c, WORKS)
  {
  }

  lemma NextKey(issued: Issued, s: State, pid: nat, d: Directories, c: C.Claims, now: int)
    requires InFlight(issued, s, pid, d, c, now, 1)
    ensures NextIs(issued, s, pid, d, c, 1)
  {
    assert s.processes[pid].flight.stage == AtKey;
    assert DirectorySlot(A.IdempotencyKind, c.key) in s.store <==> c.key in d.keys;
    if c.key in d.keys {
      assert SameRecord(d.keys[c.key], s.store[KeySlot(c.key)]);
      KeyRefusal(issued, s, pid, d, c);
    }
  }

  lemma NextApproval(issued: Issued, s: State, pid: nat, d: Directories, c: C.Claims, now: int)
    requires InFlight(issued, s, pid, d, c, now, 2)
    ensures NextIs(issued, s, pid, d, c, 2)
  {
    assert s.processes[pid].flight.stage == AtApproval;
    var approval := c.evidence.value.approval;
    assert DirectorySlot(A.ApprovalKind, approval) in s.store <==> approval in d.approvals;
  }

  lemma NextClaim(issued: Issued, s: State, pid: nat, d: Directories, c: C.Claims, now: int, n: nat)
    requires InFlight(issued, s, pid, d, c, now, n) && n < 3
    ensures NextIs(issued, s, pid, d, c, n)
  {
    if n == 0 {
      NextToken(issued, s, pid, d, c, now);
    } else if n == 1 {
      NextKey(issued, s, pid, d, c, now);
    } else {
      NextApproval(issued, s, pid, d, c, now);
    }
  }

  /** One more record in one directory, one more in the store. */
  lemma StoreOneMore(store: map<Slot, Record>, kind: A.Kind, directory: Directory, id: Id, stored: A.Stored<Fingerprint>,
                     r: Record)
    requires SameDirectory(store, kind, directory) && SameRecord(stored, r)
    ensures SameDirectory(store[DirectorySlot(kind, id) := r], kind, directory[id := stored])
    ensures forall other, kept | other != kind && SameDirectory(store, other, kept) ::
      SameDirectory(store[DirectorySlot(kind, id) := r], other, kept)
  {
  }

  lemma PublishedNext(issued: Issued, s: State, pid: nat, d: Directories, c: C.Claims, now: int, n: nat)
    requires InFlight(issued, s, pid, d, c, now, n) && n < PublishedOf(d, c)
    ensures var next := Publish(issued, s, pid);
      InFlight(issued, next, pid, d, c, now, ClaimsBehind(c, next.processes[pid].flight.stage))
  {
    var record := RecordFor(issued, c.token, s.processes[pid].flight.stage);
    var before := AfterClaims(d, c, now, n);
    if n == 0 {
      StoreOneMore(s.store, A.TokenKind, before.tokens, c.token, V.TokenRecord(c, now), record);
    } else if n == 1 {
      StoreOneMore(s.store, A.IdempotencyKind, before.keys, c.key, V.KeyRecord(c, now), record);
    } else {
      StoreOneMore(s.store, A.ApprovalKind, before.approvals, c.evidence.value.approval, V.ApprovalRecord(c, now), record);
    }
  }

  lemma FinishEnds(issued: Issued, s: State, pid: nat, d: Directories, c: C.Claims, now: int)
    requires InFlight(issued, s, pid, d, c, now, 3)
    ensures Ends(issued, s, Take(issued, s, Finish(pid)), pid, d, c, now)
  {
  }

  lemma DeclineEnds(issued: Issued, s: State, pid: nat, d: Directories, c: C.Claims, now: int, n: nat)
    requires InFlight(issued, s, pid, d, c, now, n) && n < 3 && n == PublishedOf(d, c)
    ensures Ends(issued, s, Decline(issued, s, pid), pid, d, c, now)
  {
    NextClaim(issued, s, pid, d, c, now, n);
  }

  lemma {:induction false} AloneEnds(issued: Issued, s: State, pid: nat, d: Directories, c: C.Claims, now: int, n: nat)
    requires InFlight(issued, s, pid, d, c, now, n)
    ensures Ends(issued, s, Run(issued, s, Alone(issued, s, pid)), pid, d, c, now)
    decreases 3 - Rank(s.processes[pid].flight.stage)
  {
    AloneStep(issued, s, pid);
    if n == 3 {
      FinishEnds(issued, s, pid, d, c, now);
    } else {
      NextClaim(issued, s, pid, d, c, now, n);
      if n == PublishedOf(d, c) {
        DeclineEnds(issued, s, pid, d, c, now, n);
      } else {
        PublishedNext(issued, s, pid, d, c, now, n);
        var next := Publish(issued, s, pid);
        AloneEnds(issued, next, pid, d, c, now, ClaimsBehind(c, next.processes[pid].flight.stage));
        EndsEarlier(issued, s, next, Run(issued, next, Alone(issued, next, pid)), pid, d, c, now);
      }
    }
  }

  /** A flight of the same process ends in the same way. */
  lemma EndsEarlier(issued: Issued, s: State, next: State, e: State, pid: nat, d: Directories, c: C.Claims, now: int)
    requires pid < |s.processes| == |next.processes| && Ends(issued, next, e, pid, d, c, now)
    requires exists flight :: next.processes == s.processes[pid := s.processes[pid].(flight := flight)]
    ensures Ends(issued, s, e, pid, d, c, now)
  {
  }

  /**
    The three claims of `ClaimDurably` are a run of one process that nothing
    interrupts: it leaves the shared store holding the directories the method
    leaves, and ends authorized, remembering the token, exactly when the method
    passes, and else refused for the reason the method gives.
  */
  lemma ClaimsAreARun(issued: Issued, s: State, pid: nat, d: Directories, c: C.Claims)
    requires pid < |s.processes| && s.processes[pid].flight.Idle? && MayStart(issued, s.clock, s.processes[pid], c.token)
    requires issued(c.token) == c && Stored(s, d)
    ensures exists steps :: Ends(issued, s, Run(issued, s, steps), pid, d, c, s.clock)
  {
    var started := Take(issued, s, Start(pid, c.token));
    assert AfterClaims(d, c, s.clock, 0) == d;
    AloneEnds(issued, started, pid, d, c, s.clock, 0);
    var steps := [Start(pid, c.token)] + Alone(issued, started, pid);
    RunOne(issued, s, Start(pid, c.token), ANY_PACE);
    RunConcat(issued, s, [Start(pid, c.token)], Alone(issued, started, pid), ANY_PACE);
    EndsEarlier(issued, s, started, Run(issued, s, steps), pid, d, c, s.clock);
  }
}
