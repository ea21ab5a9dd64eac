/**
  The signed hash chain of `crates/audit-ledger`.

  Hashes and signatures are symbols: `HashOf(body)` is the digest of a body,
  `Genesis` the all-zero start value, and `Text(_)` any other string that a
  stored file may hold in a hash field.  Distinct bodies therefore have
  distinct hashes and no body hashes to the genesis value.
*/
module AuditLedger {
  import opened Wrappers

  type Key = nat

  datatype Hash<C> = Genesis | HashOf(body: EventBody<C>) | Text(text: string)

  /** `content` is everything an event says about its operation. */
  datatype EventBody<C> = EventBody(
    eventId: Id,
    content: C,
    timestamp: int,
    previous: Hash<C>,
    deviceKey: Key)

  datatype Signature<C> = Signature(signer: Key, message: Hash<C>)

  datatype AuditEvent<C> = AuditEvent(
    body: EventBody<C>,
    eventHash: Hash<C>,
    signature: Option<Signature<C>>)

  datatype LedgerError =
    | ChainBroken(event: Id)
    | MissingSignature(event: Id)
    | UntrustedDevice(event: Id)
    | BadSignature(event: Id)
    | DeviceMismatch

  // ---------------------------------------------------------------- meaning

  function LastHash<C>(events: seq<AuditEvent<C>>): Hash<C> {
    if events == [] then Genesis else events[|events| - 1].eventHash
  }

  /** Event `i` is linked to its predecessor, hashed and signed under `key`. */
  ghost predicate Linked<C>(events: seq<AuditEvent<C>>, i: nat, key: Key)
    requires i < |events|
  {
    var e := events[i];
    && e.body.deviceKey == key
    && e.body.previous == LastHash(events[..i])
    && e.eventHash == HashOf(e.body)
    && e.signature == Some(Signature(key, e.eventHash))
  }

  ghost predicate Verified<C>(events: seq<AuditEvent<C>>, key: Key) {
    forall i: nat | i < |events| :: Linked(events, i, key)
  }

  /** The checks `verify_chain` makes on one event, in the order it makes them. */
  function EventFault<C(==)>(e: AuditEvent<C>, trusted: Option<Key>, expected: Hash<C>): Check<LedgerError> {
    if trusted != Some(e.body.deviceKey) then Fail(UntrustedDevice(e.body.eventId))
    else if e.body.previous != expected then Fail(ChainBroken(e.body.eventId))
    else if HashOf(e.body) != e.eventHash then Fail(ChainBroken(e.body.eventId))
    else if e.signature == None then Fail(MissingSignature(e.body.eventId))
    else if e.signature.value != Signature(e.body.deviceKey, e.eventHash) then Fail(BadSignature(e.body.eventId))
    else Pass
  }

  /** The first fault of a chain, defined by recursion from its end. */
  function ChainFault<C(==)>(events: seq<AuditEvent<C>>, trusted: Option<Key>): Check<LedgerError> {
    if events == [] then Pass
    else
      var n := |events| - 1;
      var earlier := ChainFault(events[..n], trusted);
      if earlier.Fail? then earlier else EventFault(events[n], trusted, LastHash(events[..n]))
  }

  lemma {:induction false} FaultFreeIffVerified<C(!new)>(events: seq<AuditEvent<C>>, trusted: Option<Key>)
    ensures ChainFault(events, trusted).Pass?
      <==> events == [] || (trusted.Some? && Verified(events, trusted.value))
  {
    if events != [] {
      var n := |events| - 1;
      var front := events[..n];
      FaultFreeIffVerified(front, trusted);
      assert forall i: nat | i < n :: front[..i] == events[..i];
      if trusted.Some? {
        var key := trusted.value;
        assert forall i: nat | i < n :: Linked(events, i, key) <==> Linked(front, i, key);
        assert EventFault(events[n], trusted, LastHash(front)).Pass? <==> Linked(events, n, key);
      }
    }
  }

  /** Corrupting event `i` is reported no later than at event `i`. */
  lemma {:induction false} PrefixFaultPersists<C>(events: seq<AuditEvent<C>>, i: nat, trusted: Option<Key>)
    requires i <= |events|
    requires ChainFault(events[..i], trusted).Fail?
    ensures ChainFault(events, trusted) == ChainFault(events[..i], trusted)
  {
    if i < |events| {
      var front := events[..|events| - 1];
      assert front[..i] == events[..i];
      PrefixFaultPersists(front, i, trusted);
    } else {
      assert events[..i] == events;
    }
  }

  /** What is wrong with event `i`, by the error that names it. */
  ghost predicate Faulty<C(!new)>(events: seq<AuditEvent<C>>, i: nat, trusted: Option<Key>, error: LedgerError)
    requires i < |events|
  {
    var e := events[i];
    match error
    case UntrustedDevice(id) => id == e.body.eventId && trusted != Some(e.body.deviceKey)
    case ChainBroken(id) => id == e.body.eventId && (e.body.previous != LastHash(events[..i]) || e.eventHash != HashOf(e.body))
    case MissingSignature(id) => id == e.body.eventId && e.signature.None?
    case BadSignature(id) => id == e.body.eventId && e.signature.Some? && e.signature != Some(Signature(e.body.deviceKey, e.eventHash))
    case DeviceMismatch => false
  }

  /** The chain is in order before event `i`, and that one is faulty. */
  ghost predicate FirstFaultAt<C(!new)>(events: seq<AuditEvent<C>>, i: nat, trusted: Option<Key>, error: LedgerError) {
    i < |events| && ChainFault(events[..i], trusted).Pass? && Faulty(events, i, trusted, error)
  }

  /** A chain is refused for its first event that is not linked, and for what is wrong with that one. */
  lemma {:induction false} FirstFaultIsNamed<C(!new)>(events: seq<AuditEvent<C>>, trusted: Option<Key>)
    requires ChainFault(events, trusted).Fail?
    ensures exists i: nat :: FirstFaultAt(events, i, trusted, ChainFault(events, trusted).error)
  {
    var n := |events| - 1;
    var front := events[..n];
    if ChainFault(front, trusted).Fail? {
      FirstFaultIsNamed(front, trusted);
      var i: nat :| FirstFaultAt(front, i, trusted, ChainFault(front, trusted).error);
      assert front[..i] == events[..i];
      assert FirstFaultAt(events, i, trusted, ChainFault(events, trusted).error);
    } else {
      assert FirstFaultAt(events, n, trusted, ChainFault(events, trusted).error);
    }
  }

  // ----------------------------------------------------------------- append

  function Appended<C>(events: seq<AuditEvent<C>>, content: C, eventId: Id, at: int, key: Key): seq<AuditEvent<C>> {
    var body := EventBody(eventId, content, at, LastHash(events), key);
    events + [AuditEvent(body, HashOf(body), Some(Signature(key, HashOf(body))))]
  }

  /** Appending every content in order, with consecutive event ids. */
  function AppendedAll<C>(events: seq<AuditEvent<C>>, contents: seq<C>, firstId: Id, at: int, key: Key)
    : seq<AuditEvent<C>>
  {
    if contents == [] then events
    else
      var n := |contents| - 1;
      Appended(AppendedAll(events, contents[..n], firstId, at, key), contents[n], firstId + n, at, key)
  }

  lemma AppendKeepsVerified<C(!new)>(events: seq<AuditEvent<C>>, content: C, eventId: Id, at: int, key: Key)
    requires Verified(events, key)
    ensures Verified(Appended(events, content, eventId, at, key), key)
  {
    var longer := Appended(events, content, eventId, at, key);
    forall i: nat | i < |longer| ensures Linked(longer, i, key) {
      if i < |events| {
        assert longer[..i] == events[..i];
        assert Linked(events, i, key);
      } else {
        assert longer[..i] == events;
      }
    }
  }

  predicate Says<C(==)>(e: AuditEvent<C>, content: C, eventId: Id, at: int) {
    e.body.content == content && e.body.eventId == eventId && e.body.timestamp == at
  }

  /** Appending extends the history with exactly the given contents and keeps it verified. */
  lemma {:induction false} AppendAllExtends<C(!new)>(events: seq<AuditEvent<C>>, contents: seq<C>, firstId: Id, at: int, key: Key)
    requires Verified(events, key)
    ensures var longer := AppendedAll(events, contents, firstId, at, key);
      && Verified(longer, key)
      && events <= longer
      && |longer| == |events| + |contents|
      && (forall i: nat | i < |contents| :: longer[|events| + i].body.content == contents[i])
      && (forall i: nat | i < |contents| :: Says(longer[|events| + i], contents[i], firstId + i, at))
  {
    if contents != [] {
      var n := |contents| - 1;
      var front := AppendedAll(events, contents[..n], firstId, at, key);
      var longer := AppendedAll(events, contents, firstId, at, key);
      AppendAllExtends(events, contents[..n], firstId, at, key);
      AppendKeepsVerified(front, contents[n], firstId + n, at, key);
      forall i: nat | i < |contents| ensures Says(longer[|events| + i], contents[i], firstId + i, at) {
        if i < n {
          assert Says(front[|events| + i], contents[..n][i], firstId + i, at);
        }
      }
    }
  }

  // --------------------------------------------- one hash fixes the history

  /**
    The last hash determines every event of a verified chain: two chains that
    verify under one key and end in the same hash are the same chain.
  */
  lemma {:induction false} LastHashFixesHistory<C(!new)>(a: seq<AuditEvent<C>>, b: seq<AuditEvent<C>>, key: Key)
    requires Verified(a, key) && Verified(b, key)
    requires LastHash(a) == LastHash(b)
    ensures a == b
  {
    LastHashIsABody(a, key);
    LastHashIsABody(b, key);
    if a != [] && b != [] {
      var m, n := |a| - 1, |b| - 1;
      assert Linked(a, m, key) && Linked(b, n, key);
      PrefixVerified(a, m, key);
      PrefixVerified(b, n, key);
      LastHashFixesHistory(a[..m], b[..n], key);
      assert a == a[..m] + [a[m]] && b == b[..n] + [b[n]];
    }
  }

  lemma LastHashIsABody<C(!new)>(events: seq<AuditEvent<C>>, key: Key)
    requires Verified(events, key)
    ensures LastHash(events) == if events == [] then Genesis else HashOf(events[|events| - 1].body)
  {
    if events != [] {
      assert Linked(events, |events| - 1, key);
    }
  }

  lemma PrefixVerified<C(!new)>(events: seq<AuditEvent<C>>, n: nat, key: Key)
    requires Verified(events, key) && n <= |events|
    ensures Verified(events[..n], key)
  {
    forall i: nat | i < n ensures Linked(events[..n], i, key) {
      assert Linked(events, i, key);
      assert events[..n][..i] == events[..i];
    }
  }

  // -------------------------------------------------------------- the class

  /** The in-memory ledger, with its loop over the stored events. */
  class AuditLedger<C(==, !new)> {
    var events: seq<AuditEvent<C>>
    var trusted: Option<Key>

    constructor ()
      ensures events == [] && trusted == None
    {
      events, trusted := [], None;
    }

    constructor Trusting(stored: seq<AuditEvent<C>>, key: Key)
      ensures events == stored && trusted == Some(key)
    {
      events, trusted := stored, Some(key);
    }

    method Append(content: C, eventId: Id, at: int, device: Key) returns (r: Check<LedgerError>)
      modifies this
      ensures r.Fail? <==> old(trusted).Some? && old(trusted).value != device
      ensures r.Fail? ==> r.error == DeviceMismatch && events == old(events) && trusted == old(trusted)
      ensures r.Pass? ==> trusted == Some(device) && events == Appended(old(events), content, eventId, at, device)
      ensures r.Pass? && Verified(old(events), device) ==> Verified(events, device)
    {
      if trusted.Some? && trusted.value != device {
        return Fail(DeviceMismatch);
      }
      if Verified(events, device) {
        AppendKeepsVerified(events, content, eventId, at, device);
      }
      trusted := Some(device);
      var previous := LastHash(events);
      var body := EventBody(eventId, content, at, previous, device);
      var eventHash := HashOf(body);
      events := events + [AuditEvent(body, eventHash, Some(Signature(device, eventHash)))];
      return Pass;
    }

    method VerifyChain() returns (r: Check<LedgerError>)
      ensures r == ChainFault(events, trusted)
      ensures r.Pass? <==> events == [] || (trusted.Some? && Verified(events, trusted.value))
    {
      FaultFreeIffVerified(events, trusted);
      var expected: Hash<C> := Genesis;
      for i := 0 to |events|
        invariant expected == LastHash(events[..i])
        invariant ChainFault(events[..i], trusted).Pass?
      {
        var e := events[i];
        assert events[..i + 1][..i] == events[..i] && events[..i + 1][i] == e;
        var fault := EventFault(e, trusted, expected);
        if fault.Fail? {
          PrefixFaultPersists(events, i + 1, trusted);
          return fault;
        }
        expected := e.eventHash;
      }
      assert events[..|events|] == events;
      return Pass;
    }
  }
}
