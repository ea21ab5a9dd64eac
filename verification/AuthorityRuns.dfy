/**
  Validator processes that share one durable authority store
  (`crates/authority`, and the claims of `crates/capability/src/v2.rs`).

  A run is any list of steps, so any interleaving of any number of processes,
  restarts, clock ticks and purges.  A claim is cut at its durable parts: the
  temporary file, the atomic link, the read of a record that was there first.
  A purge sees a record, and removes the name later.  A step that is not
  possible changes nothing.  `issued` gives the signed claims of a token id.
*/
module AuthorityRuns {
  import opened Wrappers
  import C = Capability

  type Fingerprint = C.InvocationFingerprint

  /** The approval a token names. */
  function ApprovalOf(c: C.Claims): Option<Id> {
    if c.evidence.Some? then Some(c.evidence.value.approval) else None
  }

  /** A file of one of the three directories. */
  datatype Slot = TokenSlot(token: Id) | KeySlot(key: Id) | ApprovalSlot(approval: Id)

  datatype Record = Record(fingerprint: Option<Fingerprint>, expiresAt: int)

  /** Which claim comes next. */
  datatype Stage = AtToken | AtKey | AtApproval | Ready

  /** The temporary file of the claim; a purge may collect it at any moment. */
  datatype Temp = NoTemp | Written | Collected

  datatype Flight =
    | Idle
    | Flying(token: Id, now: int, stage: Stage, temp: Temp)
    | Refusing(token: Id, slot: Slot)

  datatype Process = Process(epoch: nat, memory: C.Memory, flight: Flight)

  const BLANK := C.Memory({}, map[], {})

  datatype Refusal = AlreadyConsumed | IdempotencyReplay | IdempotencyConflict | CorruptRecord | Unavailable

  datatype Event =
    | Linked(slot: Slot)
    | Removed(slot: Slot)
    | Authorized(pid: nat, epoch: nat, token: Id)
    | Refused(pid: nat, token: Id, refusal: Refusal)

  datatype State = State(
    clock: int,
    store: map<Slot, Record>,
    doomed: multiset<Slot>,
    processes: seq<Process>,
    log: seq<Event>)

  datatype Step =
    | Tick(at: int)
    | Start(pid: nat, token: Id)
    | WriteTemp(pid: nat)
    | CollectTemp(pid: nat)
    | Link(pid: nat)
    | ReadExisting(pid: nat)
    | Finish(pid: nat)
    | Restart(pid: nat)
    | SeeExpired(slot: Slot)
    | Remove(slot: Slot)

  type Issued = Id -> C.Claims

  // ------------------------------------------------------------------- steps

  function SlotAt(issued: Issued, token: Id, stage: Stage): (slot: Slot)
    requires stage != Ready && (stage == AtApproval ==> ApprovalOf(issued(token)).Some?)
  {
    match stage
    case AtToken => TokenSlot(token)
    case AtKey => KeySlot(issued(token).key)
    case AtApproval => ApprovalSlot(ApprovalOf(issued(token)).value)
  }

  function After(issued: Issued, token: Id, stage: Stage): Stage {
    match stage
    case AtToken => AtKey
    case AtKey => if ApprovalOf(issued(token)).Some? then AtApproval else Ready
    case AtApproval => Ready
    case Ready => Ready
  }

  /** Every record carries the token's expiry, whichever directory it is in. */
  function RecordFor(issued: Issued, token: Id, stage: Stage): Record {
    Record(if stage == AtKey then Some(C.FingerprintOf(issued(token))) else None, issued(token).expiresAt)
  }

  /** The time window and the checks against the process's own memory. */
  predicate MayStart(issued: Issued, now: int, p: Process, token: Id) {
    var c := issued(token);
    && c.issuedAt <= now < c.expiresAt
    && token !in p.memory.consumed
    && (ApprovalOf(c).Some? ==> ApprovalOf(c).value !in p.memory.approvals)
    && c.key !in p.memory.keys
  }

  function Refuse(issued: Issued, s: State, pid: nat, token: Id, slot: Slot): Refusal {
    if slot !in s.store then CorruptRecord
    else
      match slot
      case KeySlot(_) =>
        if s.store[slot].fingerprint.None? then CorruptRecord
        else if s.store[slot].fingerprint.value == C.FingerprintOf(issued(token)) then IdempotencyReplay
        else IdempotencyConflict
      case _ => AlreadyConsumed
  }

  function Fly(s: State, pid: nat, flight: Flight): State
    requires pid < |s.processes|
  {
    s.(processes := s.processes[pid := s.processes[pid].(flight := flight)])
  }

  function Remember(issued: Issued, p: Process, token: Id): Process {
    var c := issued(token);
    p.(memory := C.Memory(
         p.memory.consumed + {token},
         p.memory.keys[c.key := C.FingerprintOf(c)],
         if ApprovalOf(c).Some? then p.memory.approvals + {ApprovalOf(c).value} else p.memory.approvals),
       flight := Idle)
  }

  function Take(issued: Issued, s: State, step: Step): State {
    match step
    case Tick(at) => if s.clock <= at then s.(clock := at) else s
    case SeeExpired(slot) =>
      if slot in s.store && s.store[slot].expiresAt <= s.clock then s.(doomed := s.doomed + multiset{slot}) else s
    case Remove(slot) =>
      if slot !in s.doomed then s
      else
        var rest := s.(doomed := s.doomed - multiset{slot});
        if slot in s.store then rest.(store := s.store - {slot}, log := s.log + [Removed(slot)]) else rest
    case Start(pid, token) =>
      if pid < |s.processes| && s.processes[pid].flight.Idle? && MayStart(issued, s.clock, s.processes[pid], token)
      then Fly(s, pid, Flying(token, s.clock, AtToken, NoTemp)) else s
    case Restart(pid) =>
      if pid < |s.processes|
      then s.(processes := s.processes[pid := Process(s.processes[pid].epoch + 1, BLANK, Idle)]) else s
    case _ => if step.pid < |s.processes| then TakeOwn(issued, s, step, s.processes[step.pid]) else s
  }

  /** The steps of a flight. */
  function TakeOwn(issued: Issued, s: State, step: Step, p: Process): State
    requires step.WriteTemp? || step.CollectTemp? || step.Link? || step.ReadExisting? || step.Finish?
    requires step.pid < |s.processes| && p == s.processes[step.pid]
  {
    match step
    case WriteTemp(pid) =>
      if p.flight.Flying? && p.flight.stage != Ready && p.flight.temp == NoTemp
      then Fly(s, pid, p.flight.(temp := Written)) else s
    case CollectTemp(pid) =>
      if p.flight.Flying? && p.flight.temp == Written then Fly(s, pid, p.flight.(temp := Collected)) else s
    case Link(pid) =>
      if !p.flight.Flying? || !Claimable(issued, p.flight) || p.flight.temp == NoTemp then s
      else LinkClaim(issued, s, pid, p.flight)
    case ReadExisting(pid) =>
      if !p.flight.Refusing? then s
      else
        var refusal := Refuse(issued, s, pid, p.flight.token, p.flight.slot);
        Fly(s, pid, Idle).(log := s.log + [Refused(pid, p.flight.token, refusal)])
    case Finish(pid) =>
      if !p.flight.Flying? || p.flight.stage != Ready then s
      else
        s.(processes := s.processes[pid := Remember(issued, p, p.flight.token)],
           log := s.log + [Authorized(pid, p.epoch, p.flight.token)])
  }

  predicate Claimable(issued: Issued, f: Flight)
    requires f.Flying?
  {
    f.stage != Ready && (f.stage == AtApproval ==> ApprovalOf(issued(f.token)).Some?)
  }

  /** The link fails when the temporary is gone or the name exists; otherwise the claim is published. */
  function LinkClaim(issued: Issued, s: State, pid: nat, f: Flight): State
    requires pid < |s.processes| && f.Flying? && Claimable(issued, f)
  {
    var slot := SlotAt(issued, f.token, f.stage);
    if f.temp == Collected then Fly(s, pid, Idle).(log := s.log + [Refused(pid, f.token, Unavailable)])
    else if slot in s.store then Fly(s, pid, Refusing(f.token, slot))
    else
      Fly(s, pid, f.(stage := After(issued, f.token, f.stage), temp := NoTemp)).(
        store := s.store[slot := RecordFor(issued, f.token, f.stage)],
        log := s.log + [Linked(slot)])
  }

  function Run(issued: Issued, s: State, steps: seq<Step>): State
    decreases |steps|
  {
    if steps == [] then s else Run(issued, Take(issued, s, steps[0]), steps[1..])
  }

  function Initial(clock: int, processes: nat): State {
    State(clock, map[], multiset{}, seq(processes, _ => Process(0, BLANK, Idle)), [])
  }

  /** A restarted process may start every token in its window: what it used before is forgotten. */
  lemma RestartedMayStartExactly(issued: Issued, s: State, pid: nat, token: Id, now: int)
    requires pid < |s.processes|
    ensures var p := Take(issued, s, Restart(pid)).processes[pid];
      && p.flight.Idle? && p.epoch == s.processes[pid].epoch + 1
      && (MayStart(issued, now, p, token) <==> issued(token).issuedAt <= now < issued(token).expiresAt)
  {
  }

  /** A finished authorization keeps its process from starting exactly the tokens that share something with it. */
  lemma FinishedMayStartExactly(issued: Issued, s: State, pid: nat, token: Id, now: int)
    requires pid < |s.processes| && s.processes[pid].flight.Flying? && s.processes[pid].flight.stage == Ready
    ensures var p, used := Take(issued, s, Finish(pid)).processes[pid], issued(s.processes[pid].flight.token);
      && p.flight.Idle? && p.epoch == s.processes[pid].epoch
      && (MayStart(issued, now, p, token)
          <==> (&& MayStart(issued, now, s.processes[pid], token)
                && token != s.processes[pid].flight.token && issued(token).key != used.key
                && (ApprovalOf(issued(token)).None? || ApprovalOf(issued(token)) != ApprovalOf(used))))
  {
  }

  /** A claim whose turn has come, with its temporary written. */
  predicate ReadyToLink(issued: Issued, s: State, pid: nat) {
    && pid < |s.processes| && s.processes[pid].flight.Flying?
    && Claimable(issued, s.processes[pid].flight) && s.processes[pid].flight.temp != NoTemp
  }

  /**
    A link publishes exactly one record under a free name, with the token's
    expiry, and the fingerprint under an idempotency key; a claim whose
    temporary was collected is refused, and one whose name is taken has to read
    the record that is there.
  */
  lemma LinkPublishesExactly(issued: Issued, s: State, pid: nat)
    requires ReadyToLink(issued, s, pid)
    ensures var next, f := Take(issued, s, Link(pid)), s.processes[pid].flight;
      var c, slot := issued(f.token), SlotAt(issued, f.token, f.stage);
      var after := next.processes[pid].flight;
      if f.temp == Collected then
        next.store == s.store && after == Idle && next.log == s.log + [Refused(pid, f.token, Unavailable)]
      else if slot in s.store then
        next.store == s.store && after == Refusing(f.token, slot) && next.log == s.log
      else
        && next.store == s.store[slot := Record(if slot.KeySlot? then Some(C.FingerprintOf(c)) else None, c.expiresAt)]
        && next.log == s.log + [Linked(slot)]
        && after.Flying? && after.token == f.token && after.now == f.now && after.temp == NoTemp
        && after.stage == (match f.stage case AtToken => AtKey
                                         case AtKey => if c.evidence.Some? then AtApproval else Ready
                                         case _ => Ready)
  {
  }

  // ---------------------------------------------------------------- counting

  function Links(log: seq<Event>, slot: Slot): nat {
    if log == [] then 0
    else Links(log[..|log| - 1], slot) + (if log[|log| - 1] == Linked(slot) then 1 else 0)
  }

  function Removals(log: seq<Event>, slot: Slot): nat {
    if log == [] then 0
    else Removals(log[..|log| - 1], slot) + (if log[|log| - 1] == Removed(slot) then 1 else 0)
  }

  /** The slots a token needs. */
  predicate Needs(issued: Issued, token: Id, slot: Slot) {
    match slot
    case TokenSlot(t) => t == token
    case KeySlot(k) => k == issued(token).key
    case ApprovalSlot(a) => ApprovalOf(issued(token)) == Some(a)
  }

  /** How many authorizations used the slot. */
  function Uses(issued: Issued, log: seq<Event>, slot: Slot): nat {
    if log == [] then 0
    else
      var e := log[|log| - 1];
      Uses(issued, log[..|log| - 1], slot) + (if e.Authorized? && Needs(issued, e.token, slot) then 1 else 0)
  }

  function Rank(stage: Stage): nat {
    match stage
    case AtToken => 0
    case AtKey => 1
    case AtApproval => 2
    case Ready => 3
  }

  function SlotRank(slot: Slot): nat {
    match slot
    case TokenSlot(_) => 0
    case KeySlot(_) => 1
    case ApprovalSlot(_) => 2
  }

  /** The flight has linked the slot and not finished. */
  predicate Holds(issued: Issued, f: Flight, slot: Slot) {
    f.Flying? && Needs(issued, f.token, slot) && SlotRank(slot) < Rank(f.stage)
  }

  function Holding(issued: Issued, processes: seq<Process>, slot: Slot): nat {
    if processes == [] then 0
    else
      var n := |processes| - 1;
      Holding(issued, processes[..n], slot) + (if Holds(issued, processes[n].flight, slot) then 1 else 0)
  }

  lemma {:induction false} HoldingUpdate(issued: Issued, processes: seq<Process>, pid: nat, p: Process, slot: Slot)
    requires pid < |processes|
    ensures Holding(issued, processes[pid := p], slot) + (if Holds(issued, processes[pid].flight, slot) then 1 else 0)
         == Holding(issued, processes, slot) + (if Holds(issued, p.flight, slot) then 1 else 0)
  {
    var n := |processes| - 1;
    if pid < n {
      HoldingUpdate(issued, processes[..n], pid, p, slot);
      assert processes[pid := p][..n] == processes[..n][pid := p];
    } else {
      assert processes[pid := p][..n] == processes[..n];
    }
  }

  lemma {:induction false} HoldingNone(issued: Issued, processes: seq<Process>, slot: Slot)
    requires forall p <- processes :: p.flight.Idle?
    ensures Holding(issued, processes, slot) == 0
  {
    if processes != [] {
      assert processes[|processes| - 1] in processes;
      HoldingNone(issued, processes[..|processes| - 1], slot);
    }
  }

  // --------------------------------------------------------------- invariant

  /** Every published record was removed, or is there: links balance removals. */
  ghost predicate Balanced(s: State) {
    forall slot :: Links(s.log, slot) == Removals(s.log, slot) + (if slot in s.store then 1 else 0)
  }

  /** Every use, and every claim held in flight, was paid for by a link of its own. */
  ghost predicate Paid(issued: Issued, s: State) {
    forall slot :: Uses(issued, s.log, slot) + Holding(issued, s.processes, slot) <= Links(s.log, slot)
  }

  /** Token records carry the token's expiry, and only expired tokens are removed. */
  ghost predicate Timely(issued: Issued, s: State) {
    && (forall t :: TokenSlot(t) in s.store ==> s.store[TokenSlot(t)].expiresAt == issued(t).expiresAt)
    && (forall t :: TokenSlot(t) in s.doomed ==> issued(t).expiresAt <= s.clock)
    && (forall t :: Removals(s.log, TokenSlot(t)) > 0 ==> issued(t).expiresAt <= s.clock)
  }

  /** A flight is at a stage its token has. */
  predicate WellStaged(issued: Issued, f: Flight) {
    f.Flying? ==>
      && (f.stage == AtApproval ==> ApprovalOf(issued(f.token)).Some?)
      && (f.stage == Ready ==> f.temp == NoTemp)
  }

  ghost predicate Inv(issued: Issued, s: State) {
    && Balanced(s) && Paid(issued, s) && Timely(issued, s)
    && forall p <- s.processes :: WellStaged(issued, p.flight)
  }

  lemma LoggedAt(issued: Issued, log: seq<Event>, e: Event, slot: Slot)
    ensures Links(log + [e], slot) == Links(log, slot) + (if e == Linked(slot) then 1 else 0)
    ensures Removals(log + [e], slot) == Removals(log, slot) + (if e == Removed(slot) then 1 else 0)
    ensures Uses(issued, log + [e], slot)
      == Uses(issued, log, slot) + (if e.Authorized? && Needs(issued, e.token, slot) then 1 else 0)
  {
    assert (log + [e])[..|log|] == log;
  }

  lemma Logged(issued: Issued, log: seq<Event>, e: Event)
    ensures forall slot :: Links(log + [e], slot) == Links(log, slot) + (if e == Linked(slot) then 1 else 0)
    ensures forall slot :: Removals(log + [e], slot) == Removals(log, slot) + (if e == Removed(slot) then 1 else 0)
    ensures forall slot ::
      Uses(issued, log + [e], slot)
        == Uses(issued, log, slot) + (if e.Authorized? && Needs(issued, e.token, slot) then 1 else 0)
  {
    forall slot
      ensures Links(log + [e], slot) == Links(log, slot) + (if e == Linked(slot) then 1 else 0)
      ensures Removals(log + [e], slot) == Removals(log, slot) + (if e == Removed(slot) then 1 else 0)
      ensures Uses(issued, log + [e], slot)
        == Uses(issued, log, slot) + (if e.Authorized? && Needs(issued, e.token, slot) then 1 else 0)
    {
      LoggedAt(issued, log, e, slot);
    }
  }

  lemma FlightChanged(issued: Issued, s: State, pid: nat, p: Process)
    requires pid < |s.processes|
    ensures forall slot ::
      Holding(issued, s.processes[pid := p], slot) + (if Holds(issued, s.processes[pid].flight, slot) then 1 else 0)
        == Holding(issued, s.processes, slot) + (if Holds(issued, p.flight, slot) then 1 else 0)
  {
    forall slot
      ensures
        Holding(issued, s.processes[pid := p], slot) + (if Holds(issued, s.processes[pid].flight, slot) then 1 else 0)
          == Holding(issued, s.processes, slot) + (if Holds(issued, p.flight, slot) then 1 else 0)
    {
      HoldingUpdate(issued, s.processes, pid, p, slot);
    }
  }

  /** One step appends at most one event, and says which. */
  lemma LogStep(issued: Issued, s: State, step: Step)
    ensures var after := Take(issued, s, step);
      && |after.processes| == |s.processes|
      && (after.log == s.log
          || (&& |after.log| == |s.log| + 1 && after.log == s.log + [after.log[|s.log|]]
              && var e := after.log[|s.log|];
              && (e.Authorized? ==>
                    && step == Finish(e.pid) && e.pid < |s.processes|
                    && s.processes[e.pid].flight.Flying? && s.processes[e.pid].flight.stage == Ready
                    && s.processes[e.pid].flight.token == e.token)
              && (e.Linked? ==> step.Link?)
              && (e.Removed? ==> step == Remove(e.slot))))
  {
  }

  /** A flight after a step goes on from one before it, or starts inside its token's window. */
  predicate GoesOn(f: Flight, g: Flight) {
    && f.Flying? && g.Flying? && f.token == g.token && f.now == g.now
    && (g.stage == AtToken ==> f.stage == AtToken)
    && (g.temp != Collected ==> f.temp != Collected)
  }

  predicate Starts(issued: Issued, s: State, g: Flight) {
    g.Flying? && g.now == s.clock && s.clock < issued(g.token).expiresAt
  }

  lemma OwnFlightStep(issued: Issued, s: State, step: Step)
    requires step.WriteTemp? || step.CollectTemp? || step.Link? || step.ReadExisting? || step.Finish?
    requires step.pid < |s.processes|
    ensures var f := s.processes[step.pid].flight;
      var after := TakeOwn(issued, s, step, s.processes[step.pid]);
      && |after.processes| == |s.processes|
      && after.processes == s.processes[step.pid := after.processes[step.pid]]
      && (after.processes[step.pid].flight.Flying? ==> GoesOn(f, after.processes[step.pid].flight))
  {
  }

  predicate Own(step: Step) { step.WriteTemp? || step.CollectTemp? || step.Link? || step.ReadExisting? || step.Finish? }

  lemma SharedFlightStep(issued: Issued, s: State, step: Step, i: nat)
    requires i < |s.processes| && !Own(step)
    ensures var after := Take(issued, s, step);
      && |after.processes| == |s.processes|
      && (after.processes[i].flight == s.processes[i].flight || after.processes[i].flight.Idle?
          || Starts(issued, s, after.processes[i].flight))
  {
  }

  lemma OwnIsTakeOwn(issued: Issued, s: State, step: Step)
    requires Own(step)
    ensures Take(issued, s, step)
      == if step.pid < |s.processes| then TakeOwn(issued, s, step, s.processes[step.pid]) else s
  {
  }

  lemma FlightStep(issued: Issued, s: State, step: Step, i: nat)
    requires i < |s.processes|
    ensures var after := Take(issued, s, step);
      && |after.processes| == |s.processes|
      && (after.processes[i].flight.Flying? ==>
            || GoesOn(s.processes[i].flight, after.processes[i].flight)
            || Starts(issued, s, after.processes[i].flight))
  {
    if Own(step) {
      OwnIsTakeOwn(issued, s, step);
      if step.pid < |s.processes| {
        OwnFlightStep(issued, s, step);
      }
    } else {
      SharedFlightStep(issued, s, step, i);
    }
  }

  lemma StagesStep(issued: Issued, s: State, step: Step, i: nat)
    requires i < |s.processes| && WellStaged(issued, s.processes[i].flight)
    ensures |Take(issued, s, step).processes| == |s.processes|
    ensures WellStaged(issued, Take(issued, s, step).processes[i].flight)
  {
  }

  lemma RemoveBalances(issued: Issued, s: State, slot: Slot)
    requires Balanced(s) && slot in s.store && slot in s.doomed
    ensures Balanced(Take(issued, s, Remove(slot)))
  {
    var after := Take(issued, s, Remove(slot));
    forall other
      ensures Links(after.log, other) == Removals(after.log, other) + (if other in after.store then 1 else 0)
    {
      LoggedAt(issued, s.log, Removed(slot), other);
      assert Links(s.log, other) == Removals(s.log, other) + (if other in s.store then 1 else 0);
    }
  }

  lemma RemovePays(issued: Issued, s: State, slot: Slot)
    requires Paid(issued, s) && slot in s.store && slot in s.doomed
    ensures Paid(issued, Take(issued, s, Remove(slot)))
  {
    var after := Take(issued, s, Remove(slot));
    forall other
      ensures Uses(issued, after.log, other) + Holding(issued, after.processes, other) <= Links(after.log, other)
    {
      LoggedAt(issued, s.log, Removed(slot), other);
      assert Uses(issued, s.log, other) + Holding(issued, s.processes, other) <= Links(s.log, other);
    }
  }

  lemma RemoveTimely(issued: Issued, s: State, slot: Slot)
    requires Timely(issued, s) && slot in s.store && slot in s.doomed
    ensures Timely(issued, Take(issued, s, Remove(slot)))
  {
    var after := Take(issued, s, Remove(slot));
    forall t | Removals(after.log, TokenSlot(t)) > 0 ensures issued(t).expiresAt <= after.clock {
      LoggedAt(issued, s.log, Removed(slot), TokenSlot(t));
    }
  }

  lemma RemoveKeepsInv(issued: Issued, s: State, slot: Slot)
    requires Inv(issued, s)
    ensures Inv(issued, Take(issued, s, Remove(slot)))
  {
    if slot in s.store && slot in s.doomed {
      RemoveBalances(issued, s, slot);
      RemovePays(issued, s, slot);
      RemoveTimely(issued, s, slot);
    }
  }

  lemma SharedKeepsInv(issued: Issued, s: State, step: Step)
    requires Inv(issued, s) && (step.Tick? || step.SeeExpired?)
    ensures Inv(issued, Take(issued, s, step))
  {
  }

  lemma TakeKeepsInv(issued: Issued, s: State, step: Step)
    requires Inv(issued, s)
    ensures Inv(issued, Take(issued, s, step))
  {
    if step.Tick? || step.SeeExpired? {
      SharedKeepsInv(issued, s, step);
    } else if step.Remove? {
      RemoveKeepsInv(issued, s, step.slot);
    } else if step.pid < |s.processes| {
      OwnKeepsInv(issued, s, step);
    }
  }

  /** A process that holds no new claim, with or without a refusal in the log. */
  lemma QuietKeepsInv(issued: Issued, s: State, pid: nat, p: Process, refused: seq<Event>)
    requires Inv(issued, s) && pid < |s.processes| && WellStaged(issued, p.flight)
    requires forall slot :: Holds(issued, p.flight, slot) ==> Holds(issued, s.processes[pid].flight, slot)
    requires refused == [] || (|refused| == 1 && refused[0].Refused?)
    ensures Inv(issued, s.(processes := s.processes[pid := p], log := s.log + refused))
  {
    FlightChanged(issued, s, pid, p);
    if refused == [] {
      assert s.log + refused == s.log;
    } else {
      Logged(issued, s.log, refused[0]);
    }
  }

  lemma LinkHolds(issued: Issued, f: Flight)
    requires f.Flying? && Claimable(issued, f)
    ensures var next := f.(stage := After(issued, f.token, f.stage), temp := NoTemp);
      && WellStaged(issued, next)
      && Rank(next.stage) > Rank(f.stage)
      && forall other :: Holds(issued, next, other) <==> Holds(issued, f, other) || other == SlotAt(issued, f.token, f.stage)
    ensures !Holds(issued, f, SlotAt(issued, f.token, f.stage))
  {
  }

  lemma LinkBalances(issued: Issued, s: State, pid: nat, f: Flight)
    requires Balanced(s) && pid < |s.processes| && f.Flying?
    requires Claimable(issued, f) && f.temp == Written && SlotAt(issued, f.token, f.stage) !in s.store
    ensures Balanced(LinkClaim(issued, s, pid, f))
  {
    var slot := SlotAt(issued, f.token, f.stage);
    var after := LinkClaim(issued, s, pid, f);
    forall other
      ensures Links(after.log, other) == Removals(after.log, other) + (if other in after.store then 1 else 0)
    {
      LoggedAt(issued, s.log, Linked(slot), other);
      assert Links(s.log, other) == Removals(s.log, other) + (if other in s.store then 1 else 0);
    }
  }

  lemma LinkTimely(issued: Issued, s: State, pid: nat, f: Flight)
    requires Timely(issued, s) && pid < |s.processes| && f.Flying?
    requires Claimable(issued, f) && f.temp == Written && SlotAt(issued, f.token, f.stage) !in s.store
    ensures Timely(issued, LinkClaim(issued, s, pid, f))
  {
    var slot := SlotAt(issued, f.token, f.stage);
    var after := LinkClaim(issued, s, pid, f);
    forall t | Removals(after.log, TokenSlot(t)) > 0 ensures issued(t).expiresAt <= after.clock {
      LoggedAt(issued, s.log, Linked(slot), TokenSlot(t));
    }
  }

  lemma LinkPays(issued: Issued, s: State, pid: nat, f: Flight)
    requires Paid(issued, s) && pid < |s.processes| && f == s.processes[pid].flight && f.Flying?
    requires Claimable(issued, f) && f.temp == Written && SlotAt(issued, f.token, f.stage) !in s.store
    ensures Paid(issued, LinkClaim(issued, s, pid, f))
  {
    var slot := SlotAt(issued, f.token, f.stage);
    var next := f.(stage := After(issued, f.token, f.stage), temp := NoTemp);
    LinkHolds(issued, f);
    var after := LinkClaim(issued, s, pid, f);
    forall other ensures Uses(issued, after.log, other) + Holding(issued, after.processes, other) <= Links(after.log, other) {
      assert Uses(issued, s.log, other) + Holding(issued, s.processes, other) <= Links(s.log, other);
      HoldingUpdate(issued, s.processes, pid, s.processes[pid].(flight := next), other);
      LoggedAt(issued, s.log, Linked(slot), other);
    }
  }

  lemma LinkKeepsInv(issued: Issued, s: State, pid: nat, f: Flight)
    requires Inv(issued, s) && pid < |s.processes| && f == s.processes[pid].flight && f.Flying?
    requires Claimable(issued, f) && f.temp == Written && SlotAt(issued, f.token, f.stage) !in s.store
    ensures Inv(issued, LinkClaim(issued, s, pid, f))
  {
    LinkBalances(issued, s, pid, f);
    LinkTimely(issued, s, pid, f);
    LinkPays(issued, s, pid, f);
    LinkHolds(issued, f);
  }

  /** Finishing turns every claim held into a use. */
  lemma FinishPays(issued: Issued, s: State, pid: nat)
    requires Paid(issued, s) && pid < |s.processes|
    requires s.processes[pid].flight.Flying? && s.processes[pid].flight.stage == Ready
    ensures Paid(issued, Take(issued, s, Finish(pid)))
  {
    var p := s.processes[pid];
    var t := p.flight.token;
    var after := Take(issued, s, Finish(pid));
    forall slot ensures Uses(issued, after.log, slot) + Holding(issued, after.processes, slot) <= Links(after.log, slot) {
      assert Holds(issued, p.flight, slot) <==> Needs(issued, t, slot);
      assert Uses(issued, s.log, slot) + Holding(issued, s.processes, slot) <= Links(s.log, slot);
      HoldingUpdate(issued, s.processes, pid, Remember(issued, p, t), slot);
      LoggedAt(issued, s.log, Authorized(pid, p.epoch, t), slot);
    }
  }

  lemma FinishBalances(issued: Issued, s: State, pid: nat)
    requires Balanced(s) && Timely(issued, s) && pid < |s.processes|
    requires s.processes[pid].flight.Flying? && s.processes[pid].flight.stage == Ready
    ensures Balanced(Take(issued, s, Finish(pid))) && Timely(issued, Take(issued, s, Finish(pid)))
  {
    var p := s.processes[pid];
    var after := Take(issued, s, Finish(pid));
    forall slot
      ensures Links(after.log, slot) == Links(s.log, slot) && Removals(after.log, slot) == Removals(s.log, slot)
    {
      LoggedAt(issued, s.log, Authorized(pid, p.epoch, p.flight.token), slot);
    }
  }

  lemma FinishKeepsInv(issued: Issued, s: State, pid: nat)
    requires Inv(issued, s) && pid < |s.processes|
    ensures Inv(issued, Take(issued, s, Finish(pid)))
  {
    var p := s.processes[pid];
    if p.flight.Flying? && p.flight.stage == Ready {
      FinishPays(issued, s, pid);
      FinishBalances(issued, s, pid);
    }
  }

  lemma OwnKeepsInv(issued: Issued, s: State, step: Step)
    requires Inv(issued, s) && !step.Tick? && !step.SeeExpired? && !step.Remove? && step.pid < |s.processes|
    ensures Inv(issued, Take(issued, s, step))
  {
    var p := s.processes[step.pid];
    assert WellStaged(issued, p.flight);
    var after := Take(issued, s, step);
    if step.Finish? {
      FinishKeepsInv(issued, s, step.pid);
    } else if step.Link? && |after.log| > |s.log| && after.store != s.store {
      LinkKeepsInv(issued, s, step.pid, p.flight);
    } else if after != s {
      QuietStep(issued, s, step);
      QuietKeepsInv(issued, s, step.pid, after.processes[step.pid], after.log[|s.log|..]);
    }
  }

  lemma QuietStep(issued: Issued, s: State, step: Step)
    requires !step.Tick? && !step.SeeExpired? && !step.Remove? && !step.Finish? && step.pid < |s.processes|
    requires step.Link? ==> Take(issued, s, step).store == s.store
    requires WellStaged(issued, s.processes[step.pid].flight)
    ensures var after := Take(issued, s, step);
      && |after.processes| == |s.processes| && s.log <= after.log
      && WellStaged(issued, after.processes[step.pid].flight)
      && (forall slot ::
            Holds(issued, after.processes[step.pid].flight, slot) ==> Holds(issued, s.processes[step.pid].flight, slot))
      && (after.log[|s.log|..] == [] || (|after.log[|s.log|..]| == 1 && after.log[|s.log|..][0].Refused?))
      && after == s.(processes := s.processes[step.pid := after.processes[step.pid]],
                     log := s.log + after.log[|s.log|..])
  {
    var after := Take(issued, s, step);
    assert after.processes == s.processes[step.pid := after.processes[step.pid]];
  }

  lemma {:induction false} RunKeepsInv(issued: Issued, s: State, steps: seq<Step>)
    requires Inv(issued, s)
    ensures Inv(issued, Run(issued, s, steps))
    decreases |steps|
  {
    if steps != [] {
      TakeKeepsInv(issued, s, steps[0]);
      RunKeepsInv(issued, Take(issued, s, steps[0]), steps[1..]);
    }
  }

  lemma InitialInv(issued: Issued, clock: int, processes: nat)
    ensures Inv(issued, Initial(clock, processes))
  {
    forall slot ensures Holding(issued, Initial(clock, processes).processes, slot) == 0 {
      HoldingNone(issued, Initial(clock, processes).processes, slot);
    }
  }

  /**
    Every interleaving: what was published is there or was removed, and a
    token, key or approval is used at most once more often than its record was
    removed.  Until a record is purged, its token, key or approval is one-use
    across all processes and restarts.
  */
  lemma OneUsePerRecord(issued: Issued, clock: int, processes: nat, steps: seq<Step>, slot: Slot)
    ensures var s := Run(issued, Initial(clock, processes), steps);
      && Links(s.log, slot) == Removals(s.log, slot) + (if slot in s.store then 1 else 0)
      && Uses(issued, s.log, slot) <= Removals(s.log, slot) + (if slot in s.store then 1 else 0)
  {
    InitialInv(issued, clock, processes);
    RunKeepsInv(issued, Initial(clock, processes), steps);
  }

  // ------------------------------------------------- within one process epoch

  /** Authorizations by one process since its last start that used the slot. */
  function UsesBy(issued: Issued, log: seq<Event>, pid: nat, epoch: nat, slot: Slot): nat {
    if log == [] then 0
    else
      var e := log[|log| - 1];
      UsesBy(issued, log[..|log| - 1], pid, epoch, slot)
      + (if e.Authorized? && e.pid == pid && e.epoch == epoch && Needs(issued, e.token, slot) then 1 else 0)
  }

  predicate Remembers(p: Process, slot: Slot) {
    match slot
    case TokenSlot(t) => t in p.memory.consumed
    case KeySlot(k) => k in p.memory.keys
    case ApprovalSlot(a) => a in p.memory.approvals
  }

  /** A process remembers what it authorized, and flies only what it does not remember. */
  ghost predicate Memory(issued: Issued, log: seq<Event>, pid: nat, p: Process) {
    && (forall slot :: UsesBy(issued, log, pid, p.epoch, slot) > 0 ==> Remembers(p, slot))
    && (forall epoch: nat, slot :: UsesBy(issued, log, pid, epoch, slot) <= if epoch <= p.epoch then 1 else 0)
    && (p.flight.Flying? ==> forall slot | Needs(issued, p.flight.token, slot) :: !Remembers(p, slot))
  }

  ghost predicate Remembering(issued: Issued, s: State) {
    forall pid | 0 <= pid < |s.processes| :: Memory(issued, s.log, pid, s.processes[pid])
  }

  lemma LoggedBy(issued: Issued, log: seq<Event>, e: Event)
    ensures forall pid, epoch, slot ::
      UsesBy(issued, log + [e], pid, epoch, slot) == UsesBy(issued, log, pid, epoch, slot)
        + (if e.Authorized? && e.pid == pid && e.epoch == epoch && Needs(issued, e.token, slot) then 1 else 0)
  {
    assert (log + [e])[..|log|] == log;
  }

  lemma StartRemembers(issued: Issued, now: int, p: Process, token: Id)
    requires MayStart(issued, now, p, token)
    ensures forall slot | Needs(issued, token, slot) :: !Remembers(p, slot)
  {
  }

  lemma FinishRemembers(issued: Issued, log: seq<Event>, pid: nat, p: Process)
    requires Memory(issued, log, pid, p) && p.flight.Flying?
    ensures Memory(issued, log + [Authorized(pid, p.epoch, p.flight.token)], pid, Remember(issued, p, p.flight.token))
  {
    var t := p.flight.token;
    var after := Remember(issued, p, t);
    LoggedBy(issued, log, Authorized(pid, p.epoch, t));
    forall slot ensures Remembers(after, slot) <==> Remembers(p, slot) || Needs(issued, t, slot) {}
  }

  lemma OthersRemember(issued: Issued, log: seq<Event>, e: Event, pid: nat, p: Process)
    requires Memory(issued, log, pid, p) && !(e.Authorized? && e.pid == pid)
    ensures Memory(issued, log + [e], pid, p)
  {
    LoggedBy(issued, log, e);
  }

  lemma RestartForgets(issued: Issued, log: seq<Event>, pid: nat, p: Process)
    requires Memory(issued, log, pid, p)
    ensures Memory(issued, log, pid, Process(p.epoch + 1, BLANK, Idle))
  {
    var next := p.epoch + 1;
    forall slot ensures UsesBy(issued, log, pid, next, slot) == 0 {}
  }

  /** What one step does to the log and to one process. */
  lemma TakeKeepsMemory(issued: Issued, s: State, step: Step, pid: nat)
    requires pid < |s.processes| && Memory(issued, s.log, pid, s.processes[pid])
    ensures var after := Take(issued, s, step);
      |after.processes| == |s.processes| && Memory(issued, after.log, pid, after.processes[pid])
  {
    var p := s.processes[pid];
    if step == Restart(pid) {
      RestartForgets(issued, s.log, pid, p);
    } else if step == Finish(pid) {
      if p.flight.Flying? && p.flight.stage == Ready {
        FinishRemembers(issued, s.log, pid, p);
      }
    } else {
      OtherStepKeepsMemory(issued, s, step, pid);
    }
  }

  lemma OtherStepKeepsMemory(issued: Issued, s: State, step: Step, pid: nat)
    requires pid < |s.processes| && step != Restart(pid) && step != Finish(pid)
    requires Memory(issued, s.log, pid, s.processes[pid])
    ensures var after := Take(issued, s, step);
      |after.processes| == |s.processes| && Memory(issued, after.log, pid, after.processes[pid])
  {
    var p := s.processes[pid];
    OtherStep(issued, s, step, pid);
    var after := Take(issued, s, step);
    FlightMayChange(issued, s, pid, p, after.processes[pid]);
    if after.log != s.log {
      OthersRemember(issued, s.log, after.log[|s.log|], pid, after.processes[pid]);
    }
  }

  /** A new flight is on a token the process does not remember. */
  lemma FlightMayChange(issued: Issued, s: State, pid: nat, p: Process, q: Process)
    requires Memory(issued, s.log, pid, p) && q == p.(flight := q.flight)
    requires q.flight.Flying? ==>
      (p.flight.Flying? && p.flight.token == q.flight.token) || MayStart(issued, s.clock, p, q.flight.token)
    ensures Memory(issued, s.log, pid, q)
  {
    if q.flight.Flying? && MayStart(issued, s.clock, p, q.flight.token) {
      StartRemembers(issued, s.clock, p, q.flight.token);
    }
  }

  lemma OtherStep(issued: Issued, s: State, step: Step, pid: nat)
    requires pid < |s.processes| && step != Restart(pid) && step != Finish(pid)
    ensures var after := Take(issued, s, step);
      && |after.processes| == |s.processes|
      && (after.log == s.log
          || (|after.log| == |s.log| + 1 && after.log == s.log + [after.log[|s.log|]]
              && !(after.log[|s.log|].Authorized? && after.log[|s.log|].pid == pid)))
      && after.processes[pid] == s.processes[pid].(flight := after.processes[pid].flight)
      && (after.processes[pid].flight.Flying? ==>
            || (s.processes[pid].flight.Flying? && s.processes[pid].flight.token == after.processes[pid].flight.token)
            || MayStart(issued, s.clock, s.processes[pid], after.processes[pid].flight.token))
  {
  }

  lemma TakeKeepsRemembering(issued: Issued, s: State, step: Step)
    requires Remembering(issued, s)
    ensures Remembering(issued, Take(issued, s, step)) && |Take(issued, s, step).processes| == |s.processes|
  {
    var after := Take(issued, s, step);
    assert |after.processes| == |s.processes|;
    forall pid | 0 <= pid < |after.processes| ensures Memory(issued, after.log, pid, after.processes[pid]) {
      TakeKeepsMemory(issued, s, step, pid);
    }
  }

  lemma {:induction false} RunKeepsRemembering(issued: Issued, s: State, steps: seq<Step>)
    requires Remembering(issued, s)
    ensures Remembering(issued, Run(issued, s, steps)) && |Run(issued, s, steps).processes| == |s.processes|
    decreases |steps|
  {
    if steps != [] {
      TakeKeepsRemembering(issued, s, steps[0]);
      RunKeepsRemembering(issued, Take(issued, s, steps[0]), steps[1..]);
    }
  }

  /** Whatever is purged, one process uses each token, key and approval at most once between its restarts. */
  lemma OneUsePerEpoch(issued: Issued, clock: int, processes: nat, steps: seq<Step>, pid: nat, epoch: nat, slot: Slot)
    requires pid < processes
    ensures UsesBy(issued, Run(issued, Initial(clock, processes), steps).log, pid, epoch, slot) <= 1
  {
    RunKeepsRemembering(issued, Initial(clock, processes), steps);
    var s := Run(issued, Initial(clock, processes), steps);
    assert |s.processes| == processes;
    assert Memory(issued, s.log, pid, s.processes[pid]);
  }

  // ------------------------------------------------ what can still be used

  /** A flight on the token that has not lost its temporary file. */
  predicate Live(p: Process, token: Id) { p.flight.Flying? && p.flight.token == token && p.flight.temp != Collected }

  function LiveCount(processes: seq<Process>, token: Id): nat {
    if processes == [] then 0
    else
      var n := |processes| - 1;
      LiveCount(processes[..n], token) + (if Live(processes[n], token) then 1 else 0)
  }

  lemma {:induction false} LiveUpdate(processes: seq<Process>, pid: nat, p: Process, token: Id)
    requires pid < |processes|
    ensures LiveCount(processes[pid := p], token) + (if Live(processes[pid], token) then 1 else 0)
         == LiveCount(processes, token) + (if Live(p, token) then 1 else 0)
  {
    var n := |processes| - 1;
    if pid < n {
      LiveUpdate(processes[..n], pid, p, token);
      assert processes[pid := p][..n] == processes[..n][pid := p];
    } else {
      assert processes[pid := p][..n] == processes[..n];
    }
  }

  lemma {:induction false} LiveMonotone(before: seq<Process>, after: seq<Process>, token: Id)
    requires |before| == |after| && forall i | 0 <= i < |after| :: Live(after[i], token) ==> Live(before[i], token)
    ensures LiveCount(after, token) <= LiveCount(before, token)
  {
    if before != [] {
      LiveMonotone(before[..|before| - 1], after[..|after| - 1], token);
    }
  }

  lemma {:induction false} SomeLive(processes: seq<Process>, token: Id) returns (pid: nat)
    requires LiveCount(processes, token) > 0
    ensures pid < |processes| && Live(processes[pid], token)
  {
    var n := |processes| - 1;
    if Live(processes[n], token) {
      pid := n;
    } else {
      pid := SomeLive(processes[..n], token);
    }
  }

  /** The uses of a token, and the flights that can still become one. */
  function Claimed(issued: Issued, s: State, token: Id): nat {
    Uses(issued, s.log, TokenSlot(token)) + LiveCount(s.processes, token)
  }

  predicate Staged(issued: Issued, s: State) { forall p <- s.processes :: WellStaged(issued, p.flight) }

  lemma FinishKeepsClaimed(issued: Issued, s: State, pid: nat, token: Id)
    requires Staged(issued, s) && pid < |s.processes|
    requires s.processes[pid].flight.Flying? && s.processes[pid].flight.stage == Ready
    ensures Claimed(issued, Take(issued, s, Finish(pid)), token) == Claimed(issued, s, token)
  {
    var p := s.processes[pid];
    assert WellStaged(issued, p.flight);
    LiveUpdate(s.processes, pid, Remember(issued, p, p.flight.token), token);
    LoggedAt(issued, s.log, Authorized(pid, p.epoch, p.flight.token), TokenSlot(token));
  }

  /** No step on an expired token adds a use without spending a flight, and none adds a flight. */
  lemma TakeKeepsClaimed(issued: Issued, s: State, step: Step, token: Id)
    requires Staged(issued, s) && issued(token).expiresAt <= s.clock
    ensures Claimed(issued, Take(issued, s, step), token) <= Claimed(issued, s, token)
  {
    var after := Take(issued, s, step);
    LogStep(issued, s, step);
    if after.log != s.log && after.log[|s.log|].Authorized? {
      FinishKeepsClaimed(issued, s, step.pid, token);
    } else {
      if after.log != s.log {
        LoggedAt(issued, s.log, after.log[|s.log|], TokenSlot(token));
      }
      forall i | 0 <= i < |s.processes| ensures Live(after.processes[i], token) ==> Live(s.processes[i], token) {
        FlightStep(issued, s, step, i);
      }
      LiveMonotone(s.processes, after.processes, token);
    }
  }

  lemma TakeKeepsStaged(issued: Issued, s: State, step: Step)
    requires Staged(issued, s)
    ensures Staged(issued, Take(issued, s, step)) && s.clock <= Take(issued, s, step).clock
  {
    var after := Take(issued, s, step);
    LogStep(issued, s, step);
    forall p <- after.processes ensures WellStaged(issued, p.flight) {
      var i :| 0 <= i < |after.processes| && after.processes[i] == p;
      assert s.processes[i] in s.processes;
      StagesStep(issued, s, step, i);
    }
  }

  lemma {:induction false} RunKeepsClaimed(issued: Issued, s: State, steps: seq<Step>, token: Id)
    requires Staged(issued, s) && issued(token).expiresAt <= s.clock
    ensures Claimed(issued, Run(issued, s, steps), token) <= Claimed(issued, s, token)
    decreases |steps|
  {
    if steps != [] {
      TakeKeepsClaimed(issued, s, steps[0], token);
      TakeKeepsStaged(issued, s, steps[0]);
      RunKeepsClaimed(issued, Take(issued, s, steps[0]), steps[1..], token);
    }
  }

  // --------------------------------------------------------------- pacing

  /** How far purges lag the clock, and how long after its clock reading a validator may still link a token. */
  datatype Pace = Pace(lag: nat, bound: nat)

  /** A purge sees only records expired for `lag`; no token is linked `bound` or more after its validator read the clock. */
  predicate PacedStep(s: State, step: Step, pace: Pace) {
    match step
    case SeeExpired(slot) => slot in s.store ==> s.store[slot].expiresAt + pace.lag <= s.clock
    case Link(pid) =>
      pid < |s.processes| && s.processes[pid].flight.Flying? && s.processes[pid].flight.stage == AtToken ==>
        s.clock < s.processes[pid].flight.now + pace.bound
    case _ => true
  }

  predicate PacedRun(issued: Issued, s: State, steps: seq<Step>, pace: Pace)
    decreases |steps|
  {
    steps == [] || (PacedStep(s, steps[0], pace) && PacedRun(issued, Take(issued, s, steps[0]), steps[1..], pace))
  }

  lemma {:induction false} RunConcat(issued: Issued, s: State, a: seq<Step>, b: seq<Step>, pace: Pace)
    ensures Run(issued, s, a + b) == Run(issued, Run(issued, s, a), b)
    ensures PacedRun(issued, s, a + b, pace) <==> PacedRun(issued, s, a, pace) && PacedRun(issued, Run(issued, s, a), b, pace)
    decreases |a|
  {
    if a == [] {
      assert a + b == b;
    } else {
      assert (a + b)[1..] == a[1..] + b;
      RunConcat(issued, Take(issued, s, a[0]), a[1..], b, pace);
    }
  }

  lemma RunOne(issued: Issued, s: State, step: Step, pace: Pace)
    ensures Run(issued, s, [step]) == Take(issued, s, step)
    ensures PacedRun(issued, s, [step], pace) <==> PacedStep(s, step, pace)
  {
    assert [step][1..] == [];
  }

  lemma RunTwo(issued: Issued, s: State, a: Step, b: Step, pace: Pace)
    ensures Run(issued, s, [a, b]) == Take(issued, Take(issued, s, a), b)
    ensures PacedRun(issued, s, [a, b], pace) <==> PacedStep(s, a, pace) && PacedStep(Take(issued, s, a), b, pace)
  {
    assert [a, b] == [a] + [b];
    RunConcat(issued, s, [a], [b], pace);
    RunOne(issued, s, a, pace);
    RunOne(issued, Take(issued, s, a), b, pace);
  }

  /** Every record can be purged by the limit. */
  ghost predicate Due(s: State, pace: Pace, limit: int) {
    s.clock <= limit && forall slot <- s.store.Keys :: s.store[slot].expiresAt + pace.lag <= limit
  }

  function Later(a: int, b: int): int { if a < b then b else a }

  /** A purge pass frees the slot and leaves every process alone. */
  lemma FreeSlot(issued: Issued, s: State, slot: Slot, pace: Pace, limit: int) returns (steps: seq<Step>)
    ensures var after := Run(issued, s, steps);
      && slot !in after.store && after.processes == s.processes
      && PacedRun(issued, s, steps, pace) && (Due(s, pace, limit) ==> Due(after, pace, limit))
      && forall token :: Uses(issued, after.log, TokenSlot(token)) == Uses(issued, s.log, TokenSlot(token))
  {
    if slot !in s.store {
      return [];
    }
    var tick := Tick(Later(s.clock, s.store[slot].expiresAt + pace.lag));
    var s1 := Take(issued, s, tick);
    var s2 := Take(issued, s1, SeeExpired(slot));
    steps := [tick] + [SeeExpired(slot), Remove(slot)];
    RunOne(issued, s, tick, pace);
    RunTwo(issued, s1, SeeExpired(slot), Remove(slot), pace);
    RunConcat(issued, s, [tick], [SeeExpired(slot), Remove(slot)], pace);
    Logged(issued, s.log, Removed(slot));
  }

  /** The flight of one process went on by a stage, and nothing else moved. */
  ghost predicate Passed(issued: Issued, s: State, after: State, pid: nat, token: Id)
    requires pid < |s.processes| && s.processes[pid].flight.Flying?
  {
    && |after.processes| == |s.processes| && Live(after.processes[pid], token)
    && (forall q | 0 <= q < |s.processes| && q != pid :: after.processes[q] == s.processes[q])
    && after.processes[pid].flight
         == Flying(token, s.processes[pid].flight.now, After(issued, token, s.processes[pid].flight.stage), NoTemp)
    && Uses(issued, after.log, TokenSlot(token)) == Uses(issued, s.log, TokenSlot(token))
  }

  /** The flight can wait for purges up to the limit and still link. */
  ghost predicate InTime(issued: Issued, s: State, pid: nat, token: Id, pace: Pace, limit: int)
    requires pid < |s.processes| && s.processes[pid].flight.Flying?
  {
    Due(s, pace, limit) && issued(token).expiresAt + pace.lag <= limit < s.processes[pid].flight.now + pace.bound
  }

  /** The temporary and the link, when the name is free. */
  lemma ClaimStage(issued: Issued, s: State, pid: nat, token: Id)
    requires pid < |s.processes| && Live(s.processes[pid], token) && Claimable(issued, s.processes[pid].flight)
    requires SlotAt(issued, token, s.processes[pid].flight.stage) !in s.store
    ensures Passed(issued, s, Take(issued, Take(issued, s, WriteTemp(pid)), Link(pid)), pid, token)
  {
    LoggedAt(issued, s.log, Linked(SlotAt(issued, token, s.processes[pid].flight.stage)), TokenSlot(token));
  }

  lemma ClaimStageInTime(issued: Issued, s: State, pid: nat, token: Id, pace: Pace, limit: int)
    requires pid < |s.processes| && Live(s.processes[pid], token) && Claimable(issued, s.processes[pid].flight)
    requires SlotAt(issued, token, s.processes[pid].flight.stage) !in s.store
    requires InTime(issued, s, pid, token, pace, limit)
    ensures PacedStep(Take(issued, s, WriteTemp(pid)), Link(pid), pace)
    ensures Due(Take(issued, Take(issued, s, WriteTemp(pid)), Link(pid)), pace, limit)
  {
  }

  lemma PassStage(issued: Issued, s: State, pid: nat, token: Id, pace: Pace, limit: int) returns (steps: seq<Step>)
    requires pid < |s.processes| && Live(s.processes[pid], token) && Claimable(issued, s.processes[pid].flight)
    ensures Passed(issued, s, Run(issued, s, steps), pid, token)
    ensures InTime(issued, s, pid, token, pace, limit) ==>
      PacedRun(issued, s, steps, pace) && InTime(issued, Run(issued, s, steps), pid, token, pace, limit)
  {
    var free := FreeSlot(issued, s, SlotAt(issued, token, s.processes[pid].flight.stage), pace, limit);
    var s1 := Run(issued, s, free);
    steps := free + [WriteTemp(pid), Link(pid)];
    RunConcat(issued, s, free, [WriteTemp(pid), Link(pid)], pace);
    RunTwo(issued, s1, WriteTemp(pid), Link(pid), pace);
    ClaimStage(issued, s1, pid, token);
    if InTime(issued, s, pid, token, pace, limit) {
      ClaimStageInTime(issued, s1, pid, token, pace, limit);
    }
  }

  /** What finishing from a state gives. */
  ghost predicate OneMoreUse(issued: Issued, s: State, after: State, pid: nat, token: Id) {
    && |after.processes| == |s.processes|
    && (forall q | 0 <= q < |s.processes| && q != pid :: after.processes[q] == s.processes[q])
    && (pid < |s.processes| ==> after.processes[pid].flight.Idle?)
    && Uses(issued, after.log, TokenSlot(token)) == Uses(issued, s.log, TokenSlot(token)) + 1
  }

  lemma ReadyFinishes(issued: Issued, s: State, pid: nat, token: Id, pace: Pace, limit: int)
    requires pid < |s.processes| && Live(s.processes[pid], token) && s.processes[pid].flight.stage == Ready
    ensures OneMoreUse(issued, s, Run(issued, s, [Finish(pid)]), pid, token)
    ensures PacedRun(issued, s, [Finish(pid)], pace)
    ensures Due(s, pace, limit) ==> Due(Run(issued, s, [Finish(pid)]), pace, limit)
  {
    RunOne(issued, s, Finish(pid), pace);
    LoggedAt(issued, s.log, Authorized(pid, s.processes[pid].epoch, token), TokenSlot(token));
  }

  /** A live flight can always still be authorized, and in pace if it has the time. */
  lemma CanFinish(issued: Issued, s: State, pid: nat, token: Id, pace: Pace, limit: int) returns (steps: seq<Step>)
    requires pid < |s.processes| && Live(s.processes[pid], token) && WellStaged(issued, s.processes[pid].flight)
    ensures OneMoreUse(issued, s, Run(issued, s, steps), pid, token)
    ensures InTime(issued, s, pid, token, pace, limit) ==>
      PacedRun(issued, s, steps, pace) && Due(Run(issued, s, steps), pace, limit)
    decreases 3 - Rank(s.processes[pid].flight.stage)
  {
    if s.processes[pid].flight.stage == Ready {
      steps := [Finish(pid)];
      ReadyFinishes(issued, s, pid, token, pace, limit);
    } else {
      var first := PassStage(issued, s, pid, token, pace, limit);
      var mid := Run(issued, s, first);
      RankGrows(issued, token, s.processes[pid].flight.stage);
      var rest := CanFinish(issued, mid, pid, token, pace, limit);
      steps := first + rest;
      RunConcat(issued, s, first, rest, pace);
    }
  }

  lemma RankGrows(issued: Issued, token: Id, stage: Stage)
    requires stage != Ready && (stage == AtApproval ==> ApprovalOf(issued(token)).Some?)
    ensures Rank(stage) < Rank(After(issued, token, stage))
    ensures After(issued, token, stage) == AtApproval ==> ApprovalOf(issued(token)).Some?
  {
  }

  // -------------------------------------------- how often a purged token is used

  const ANY_PACE := Pace(0, 0)

  /** Every live flight can become a use, one after the other. */
  lemma {:induction false} FinishMany(issued: Issued, s: State, token: Id, n: nat) returns (steps: seq<Step>)
    requires Staged(issued, s) && n <= LiveCount(s.processes, token)
    ensures Uses(issued, Run(issued, s, steps).log, TokenSlot(token)) == Uses(issued, s.log, TokenSlot(token)) + n
    decreases n
  {
    if n == 0 {
      steps := [];
    } else {
      var pid := SomeLive(s.processes, token);
      assert s.processes[pid] in s.processes;
      var first := CanFinish(issued, s, pid, token, ANY_PACE, 0);
      var mid := Run(issued, s, first);
      OneFlightLess(issued, s, mid, pid, token);
      var rest := FinishMany(issued, mid, token, n - 1);
      steps := first + rest;
      RunConcat(issued, s, first, rest, ANY_PACE);
    }
  }

  lemma OneFlightLess(issued: Issued, s: State, after: State, pid: nat, token: Id)
    requires Staged(issued, s) && pid < |s.processes| && Live(s.processes[pid], token)
    requires OneMoreUse(issued, s, after, pid, token)
    ensures Staged(issued, after) && LiveCount(after.processes, token) == LiveCount(s.processes, token) - 1
  {
    LiveUpdate(s.processes, pid, after.processes[pid], token);
    assert after.processes == s.processes[pid := after.processes[pid]];
  }

  /** Some continuation brings the uses of the token to `n`. */
  ghost predicate CanReach(issued: Issued, s: State, token: Id, n: nat) {
    exists steps :: Uses(issued, Run(issued, s, steps).log, TokenSlot(token)) >= n
  }

  /** Once a token has expired, exactly its live flights can still become uses. */
  lemma ExpiredTokenUsesExactly(issued: Issued, s: State, token: Id, n: nat)
    requires Inv(issued, s) && issued(token).expiresAt <= s.clock
    ensures CanReach(issued, s, token, n)
      <==> n <= Uses(issued, s.log, TokenSlot(token)) + LiveCount(s.processes, token)
  {
    if n <= Claimed(issued, s, token) {
      var steps := FinishMany(issued, s, token, LiveCount(s.processes, token));
      assert Uses(issued, Run(issued, s, steps).log, TokenSlot(token)) >= n;
    }
    if CanReach(issued, s, token, n) {
      var steps :| Uses(issued, Run(issued, s, steps).log, TokenSlot(token)) >= n;
      RunKeepsClaimed(issued, s, steps, token);
    }
  }

  /**
    Once a purge has removed the record of a token, the token can be used twice
    exactly when its uses and its live flights are two or more.
  */
  lemma PurgedTokenReusableExactly(issued: Issued, s: State, token: Id)
    requires Inv(issued, s) && Removals(s.log, TokenSlot(token)) > 0
    ensures CanReach(issued, s, token, 2)
      <==> Uses(issued, s.log, TokenSlot(token)) + LiveCount(s.processes, token) >= 2
  {
    ExpiredTokenUsesExactly(issued, s, token, 2);
  }

  // ------------------------------------------------------------ guarded purges

  /** A removal of a token's record is guarded when its uses and live flights are at most one together. */
  ghost predicate GuardedStep(issued: Issued, s: State, step: Step) {
    step.Remove? && step.slot.TokenSlot? && step.slot in s.store ==> Claimed(issued, s, step.slot.token) <= 1
  }

  ghost predicate GuardedRun(issued: Issued, s: State, steps: seq<Step>)
    decreases |steps|
  {
    steps == [] || (GuardedStep(issued, s, steps[0]) && GuardedRun(issued, Take(issued, s, steps[0]), steps[1..]))
  }

  /** A token whose record was removed has at most one use or flight left. */
  ghost predicate Guarded(issued: Issued, s: State) {
    forall t :: Removals(s.log, TokenSlot(t)) > 0 ==> Claimed(issued, s, t) <= 1
  }

  lemma RemovalStep(issued: Issued, s: State, step: Step, t: Id)
    requires Removals(Take(issued, s, step).log, TokenSlot(t)) > Removals(s.log, TokenSlot(t))
    ensures step == Remove(TokenSlot(t)) && TokenSlot(t) in s.doomed && TokenSlot(t) in s.store
  {
    LogStep(issued, s, step);
    LoggedAt(issued, s.log, Take(issued, s, step).log[|s.log|], TokenSlot(t));
  }

  lemma CountsGrow(issued: Issued, s: State, step: Step, slot: Slot)
    ensures Links(s.log, slot) <= Links(Take(issued, s, step).log, slot) <= Links(s.log, slot) + 1
    ensures Removals(s.log, slot) <= Removals(Take(issued, s, step).log, slot)
  {
    LogStep(issued, s, step);
    var after := Take(issued, s, step);
    if after.log != s.log {
      LoggedAt(issued, s.log, after.log[|s.log|], slot);
    }
  }

  lemma TakeKeepsGuarded(issued: Issued, s: State, step: Step)
    requires Inv(issued, s) && Guarded(issued, s) && GuardedStep(issued, s, step)
    ensures Guarded(issued, Take(issued, s, step))
  {
    var after := Take(issued, s, step);
    forall t | Removals(after.log, TokenSlot(t)) > 0 ensures Claimed(issued, after, t) <= 1 {
      if Removals(s.log, TokenSlot(t)) == 0 {
        RemovalStep(issued, s, step, t);
      }
      TakeKeepsClaimed(issued, s, step, t);
    }
  }

  lemma {:induction false} GuardedRunKeeps(issued: Issued, s: State, steps: seq<Step>)
    requires Inv(issued, s) && Guarded(issued, s) && GuardedRun(issued, s, steps)
    ensures Guarded(issued, Run(issued, s, steps)) && Inv(issued, Run(issued, s, steps))
    decreases |steps|
  {
    if steps != [] {
      TakeKeepsInv(issued, s, steps[0]);
      TakeKeepsGuarded(issued, s, steps[0]);
      GuardedRunKeeps(issued, Take(issued, s, steps[0]), steps[1..]);
    }
  }

  /** What the record of a token in place, or its purges, allow. */
  lemma UsesBound(issued: Issued, s: State, token: Id)
    requires Inv(issued, s) && Links(s.log, TokenSlot(token)) <= 1
    ensures Uses(issued, s.log, TokenSlot(token)) <= 1
  {
    assert Uses(issued, s.log, TokenSlot(token)) + Holding(issued, s.processes, TokenSlot(token)) <= Links(s.log, TokenSlot(token));
  }

  /** If every removal of a token's record is guarded, each token is used at most once. */
  lemma GuardedTokensAreOneUse(issued: Issued, clock: int, processes: nat, steps: seq<Step>, token: Id)
    requires GuardedRun(issued, Initial(clock, processes), steps)
    ensures Uses(issued, Run(issued, Initial(clock, processes), steps).log, TokenSlot(token)) <= 1
  {
    InitialInv(issued, clock, processes);
    GuardedRunKeeps(issued, Initial(clock, processes), steps);
    var s := Run(issued, Initial(clock, processes), steps);
    if Removals(s.log, TokenSlot(token)) == 0 {
      assert Links(s.log, TokenSlot(token)) == if TokenSlot(token) in s.store then 1 else 0;
      UsesBound(issued, s, token);
    }
  }

  /** The guard is exact: a removal leaves the token one-use for ever exactly when it is guarded. */
  lemma RemovalIsHarmlessExactly(issued: Issued, s: State, token: Id)
    requires Inv(issued, s) && TokenSlot(token) in s.store && TokenSlot(token) in s.doomed
    ensures !CanReach(issued, Take(issued, s, Remove(TokenSlot(token))), token, 2)
      <==> GuardedStep(issued, s, Remove(TokenSlot(token)))
  {
    var after := Take(issued, s, Remove(TokenSlot(token)));
    TakeKeepsInv(issued, s, Remove(TokenSlot(token)));
    LoggedAt(issued, s.log, Removed(TokenSlot(token)), TokenSlot(token));
    PurgedTokenReusableExactly(issued, after, token);
  }

  // ------------------------------------------------------------- lagging purges

  /** A flight that checked the clock and has yet to link its token. */
  predicate BeforeLink(p: Process, token: Id) {
    p.flight.Flying? && p.flight.token == token && p.flight.stage == AtToken
  }

  /** A token is linked only by a flight before its link, when its name is free. */
  lemma LinkStep(issued: Issued, s: State, step: Step, t: Id)
    requires Links(Take(issued, s, step).log, TokenSlot(t)) > Links(s.log, TokenSlot(t))
    ensures step.Link? && step.pid < |s.processes| && BeforeLink(s.processes[step.pid], t) && TokenSlot(t) !in s.store
  {
    LogStep(issued, s, step);
    LoggedAt(issued, s.log, Take(issued, s, step).log[|s.log|], TokenSlot(t));
  }

  /** Flights read the clock inside their token's window, and records go only `lag` after their expiry. */
  ghost predicate Lagging(issued: Issued, s: State, lag: nat) {
    && (forall p <- s.processes :: p.flight.Flying? ==> p.flight.now < issued(p.flight.token).expiresAt)
    && (forall t :: TokenSlot(t) in s.doomed ==> issued(t).expiresAt + lag <= s.clock)
    && (forall t :: Removals(s.log, TokenSlot(t)) > 0 ==> issued(t).expiresAt + lag <= s.clock)
  }

  lemma TakeKeepsReadings(issued: Issued, s: State, step: Step)
    requires forall p <- s.processes :: p.flight.Flying? ==> p.flight.now < issued(p.flight.token).expiresAt
    ensures forall p <- Take(issued, s, step).processes :: p.flight.Flying? ==> p.flight.now < issued(p.flight.token).expiresAt
  {
    var after := Take(issued, s, step);
    LogStep(issued, s, step);
    forall p <- after.processes | p.flight.Flying? ensures p.flight.now < issued(p.flight.token).expiresAt {
      var i :| 0 <= i < |after.processes| && after.processes[i] == p;
      FlightStep(issued, s, step, i);
      assert s.processes[i] in s.processes;
    }
  }

  lemma DoomedStep(issued: Issued, s: State, step: Step, pace: Pace, t: Id)
    requires Timely(issued, s) && PacedStep(s, step, pace)
    requires TokenSlot(t) in Take(issued, s, step).doomed
    ensures TokenSlot(t) in s.doomed || issued(t).expiresAt + pace.lag <= s.clock
    ensures s.clock <= Take(issued, s, step).clock
  {
  }

  lemma TakeKeepsLagging(issued: Issued, s: State, step: Step, pace: Pace)
    requires Inv(issued, s) && Lagging(issued, s, pace.lag) && PacedStep(s, step, pace)
    ensures Lagging(issued, Take(issued, s, step), pace.lag)
  {
    var after := Take(issued, s, step);
    TakeKeepsReadings(issued, s, step);
    TakeKeepsStaged(issued, s, step);
    forall t | TokenSlot(t) in after.doomed ensures issued(t).expiresAt + pace.lag <= after.clock {
      DoomedStep(issued, s, step, pace, t);
    }
    forall t | Removals(after.log, TokenSlot(t)) > 0 ensures issued(t).expiresAt + pace.lag <= after.clock {
      if Removals(s.log, TokenSlot(t)) == 0 {
        RemovalStep(issued, s, step, t);
      }
    }
  }

  /** After a lagging purge no flight can link the token again: its reading is too old. */
  lemma LaggedLink(issued: Issued, s: State, step: Step, pace: Pace, t: Id)
    requires Inv(issued, s) && Lagging(issued, s, pace.lag) && PacedStep(s, step, pace) && pace.bound <= pace.lag + 1
    requires Links(s.log, TokenSlot(t)) <= 1
    ensures Links(Take(issued, s, step).log, TokenSlot(t)) <= 1
  {
    CountsGrow(issued, s, step, TokenSlot(t));
    if Links(Take(issued, s, step).log, TokenSlot(t)) > Links(s.log, TokenSlot(t)) {
      LinkStep(issued, s, step, t);
      assert s.processes[step.pid] in s.processes;
      assert Links(s.log, TokenSlot(t)) == Removals(s.log, TokenSlot(t));
    }
  }

  lemma {:induction false} PacedRunLinksOnce(issued: Issued, s: State, steps: seq<Step>, pace: Pace, t: Id)
    requires Inv(issued, s) && Lagging(issued, s, pace.lag) && PacedRun(issued, s, steps, pace)
    requires pace.bound <= pace.lag + 1 && Links(s.log, TokenSlot(t)) <= 1
    ensures Inv(issued, Run(issued, s, steps)) && Links(Run(issued, s, steps).log, TokenSlot(t)) <= 1
    decreases |steps|
  {
    if steps != [] {
      TakeKeepsInv(issued, s, steps[0]);
      TakeKeepsLagging(issued, s, steps[0], pace);
      LaggedLink(issued, s, steps[0], pace, t);
      PacedRunLinksOnce(issued, Take(issued, s, steps[0]), steps[1..], pace, t);
    }
  }

  /** If purges lag the clock by as much as any claim lasts, each token is used at most once. */
  lemma LaggedTokensAreOneUse(issued: Issued, clock: int, processes: nat, steps: seq<Step>, pace: Pace, token: Id)
    requires PacedRun(issued, Initial(clock, processes), steps, pace) && pace.bound <= pace.lag + 1
    ensures Uses(issued, Run(issued, Initial(clock, processes), steps).log, TokenSlot(token)) <= 1
  {
    InitialInv(issued, clock, processes);
    PacedRunLinksOnce(issued, Initial(clock, processes), steps, pace, token);
    UsesBound(issued, Run(issued, Initial(clock, processes), steps), token);
  }

  /** Two validators that both read the clock at one instant of the token's window. */
  lemma TwoFlights(issued: Issued, clock: int, at: int, token: Id, pace: Pace) returns (steps: seq<Step>)
    requires clock <= at && issued(token).issuedAt <= at < issued(token).expiresAt
    ensures PacedRun(issued, Initial(clock, 2), steps, pace)
    ensures var s := Run(issued, Initial(clock, 2), steps);
      && |s.processes| == 2 && s.clock == at && s.store == map[] && s.log == []
      && s.processes[0].flight == Flying(token, at, AtToken, NoTemp)
      && s.processes[1].flight == Flying(token, at, AtToken, NoTemp)
  {
    var s0 := Initial(clock, 2);
    var s1 := Take(issued, s0, Tick(at));
    RunOne(issued, s0, Tick(at), pace);
    RunTwo(issued, s1, Start(0, token), Start(1, token), pace);
    RunConcat(issued, s0, [Tick(at)], [Start(0, token), Start(1, token)], pace);
    steps := [Tick(at)] + [Start(0, token), Start(1, token)];
  }

  /** Both of two flights end in a use, in pace if they have the time. */
  lemma BothFinish(issued: Issued, s: State, token: Id, pace: Pace, limit: int) returns (steps: seq<Step>)
    requires |s.processes| == 2 && Live(s.processes[0], token) && Live(s.processes[1], token)
    requires WellStaged(issued, s.processes[0].flight) && WellStaged(issued, s.processes[1].flight)
    ensures Uses(issued, Run(issued, s, steps).log, TokenSlot(token)) == Uses(issued, s.log, TokenSlot(token)) + 2
    ensures InTime(issued, s, 0, token, pace, limit) && InTime(issued, s, 1, token, pace, limit) ==> PacedRun(issued, s, steps, pace)
  {
    var first := CanFinish(issued, s, 0, token, pace, limit);
    var mid := Run(issued, s, first);
    assert mid.processes[1] == s.processes[1];
    var second := CanFinish(issued, mid, 1, token, pace, limit);
    steps := first + second;
    RunConcat(issued, s, first, second, pace);
  }

  lemma TwoUses(issued: Issued, clock: int, at: int, token: Id, pace: Pace, limit: int) returns (steps: seq<Step>)
    requires clock <= at && issued(token).issuedAt <= at < issued(token).expiresAt
    ensures Uses(issued, Run(issued, Initial(clock, 2), steps).log, TokenSlot(token)) == 2
    ensures issued(token).expiresAt + pace.lag <= limit < at + pace.bound ==>
      PacedRun(issued, Initial(clock, 2), steps, pace)
  {
    var first := TwoFlights(issued, clock, at, token, pace);
    var s := Run(issued, Initial(clock, 2), first);
    var second := BothFinish(issued, s, token, pace, limit);
    steps := first + second;
    RunConcat(issued, Initial(clock, 2), first, second, pace);
  }

  /** Without a guard every token is reusable: two validators that both checked it inside its window can both be authorized. */
  lemma UnguardedPurgesReuse(issued: Issued, clock: int, token: Id)
    requires issued(token).issuedAt <= clock < issued(token).expiresAt
    ensures exists steps :: Uses(issued, Run(issued, Initial(clock, 2), steps).log, TokenSlot(token)) == 2
  {
    var steps := TwoUses(issued, clock, clock, token, ANY_PACE, 0);
  }

  /** All runs in pace use the token at most once. */
  ghost predicate OneUseInPace(issued: Issued, clock: int, token: Id, lag: nat, bound: nat) {
    forall steps | PacedRun(issued, Initial(clock, 2), steps, Pace(lag, bound)) ::
      Uses(issued, Run(issued, Initial(clock, 2), steps).log, TokenSlot(token)) <= 1
  }

  /**
    How far a purge has to lag, for every token still to expire: when tokens
    are linked less than `bound` after the clock was read, exactly a lag of at
    least `bound - 1` keeps the token one-use.
  */
  lemma LagIsExact(issued: Issued, clock: int, token: Id, lag: nat, bound: nat)
    requires clock < issued(token).expiresAt && issued(token).issuedAt < issued(token).expiresAt
    ensures OneUseInPace(issued, clock, token, lag, bound) <==> bound <= lag + 1
  {
    if bound <= lag + 1 {
      forall steps | PacedRun(issued, Initial(clock, 2), steps, Pace(lag, bound))
        ensures Uses(issued, Run(issued, Initial(clock, 2), steps).log, TokenSlot(token)) <= 1
      {
        LaggedTokensAreOneUse(issued, clock, 2, steps, Pace(lag, bound), token);
      }
    } else {
      var expiry := issued(token).expiresAt;
      var pace := Pace(lag, bound);
      var steps := TwoUses(issued, clock, expiry - 1, token, pace, expiry + lag);
      assert PacedRun(issued, Initial(clock, 2), steps, pace);
    }
  }
}
