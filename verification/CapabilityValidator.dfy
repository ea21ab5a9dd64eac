/** The stateful part of the Capability V2 validator: in-memory replay sets and durable claims. */
module CapabilityValidator {
  import opened Wrappers
  import opened Capability
  import opened Identity
  import A = Authority

  /** How the file system answers the three claims. */
  datatype ClaimIo = ClaimIo(token: A.Io, key: A.Io, approval: A.Io)

  function Remembered(m: Memory, c: Claims): Memory {
    Memory(m.consumed + {c.token}, m.keys[c.key := FingerprintOf(c)],
           if c.evidence.Some? then m.approvals + {c.evidence.value.approval} else m.approvals)
  }

  /** After an authorization the token, its key and its approval are refused for good in this process. */
  lemma SecondUseRefused(v: Validator, m: Memory, c: Claims, later: Memory, token: Signed<Claims>, x: Context,
                         approval: Option<Signed<ApprovalClaims>>, now: int)
    requires Remembered(m, c).consumed <= later.consumed && Remembered(m, c).approvals <= later.approvals
    requires Remembered(m, c).keys.Keys <= later.keys.Keys
    requires token.Cose?
    requires token.payload.token == c.token || token.payload.key == c.key
      || (c.evidence.Some? && token.payload.evidence.Some? && token.payload.evidence.value.approval == c.evidence.value.approval)
    ensures Authorize(v, later, token, x, approval, now).Err?
  {
    AcceptedExactly(v, later, token, x, approval, now);
  }

  /** What an authorization adds to the memory: its own token, key and approval, and nothing else. */
  lemma RemembersExactly(m: Memory, c: Claims, later: Claims)
    ensures Unused(Remembered(m, c), later) <==>
      && Unused(m, later) && later.token != c.token && later.key != c.key
      && (c.evidence.Some? && later.evidence.Some? ==> later.evidence.value.approval != c.evidence.value.approval)
    ensures Remembered(m, c).keys.Keys == m.keys.Keys + {c.key}
    ensures forall k <- m.keys | k != c.key :: Remembered(m, c).keys[k] == m.keys[k]
    ensures Remembered(m, c).keys[c.key] == FingerprintOf(c)
  {
  }

  lemma AcceptedIsThePayload(v: Validator, m: Memory, token: Signed<Claims>, x: Context,
                             approval: Option<Signed<ApprovalClaims>>, now: int)
    requires Authorize(v, m, token, x, approval, now).Ok?
    ensures token.Cose? && Authorize(v, m, token, x, approval, now).value == token.payload
  {
  }

  function TokenRecord(c: Claims, now: int): A.Stored<InvocationFingerprint> {
    A.Readable(A.AuthorityRecord(A.TokenKind, None, now, c.expiresAt))
  }

  function KeyRecord(c: Claims, now: int): A.Stored<InvocationFingerprint> {
    A.Readable(A.AuthorityRecord(A.IdempotencyKind, Some(FingerprintOf(c)), now, c.expiresAt))
  }

  function ApprovalRecord(c: Claims, now: int): A.Stored<InvocationFingerprint> {
    A.Readable(A.AuthorityRecord(A.ApprovalKind, None, now, c.expiresAt))
  }

  /** How many of the durable claims are published, in order, before one is refused. */
  function Published(tokens: A.Directory<InvocationFingerprint>, keys: A.Directory<InvocationFingerprint>,
                     approvals: A.Directory<InvocationFingerprint>, c: Claims, io: ClaimIo): (n: nat)
    ensures n <= 3
  {
    if io.token != A.Works || c.token in tokens then 0
    else if io.key != A.Works || c.key in keys then 1
    else if c.evidence.Some? && (io.approval != A.Works || c.evidence.value.approval in approvals) then 2
    else 3
  }

  /** Why the first claim that is not published is refused. */
  function ClaimError(tokens: A.Directory<InvocationFingerprint>, keys: A.Directory<InvocationFingerprint>,
                      approvals: A.Directory<InvocationFingerprint>, c: Claims, io: ClaimIo): CapabilityError
    requires Published(tokens, keys, approvals, c, io) < 3
  {
    match Published(tokens, keys, approvals, c, io)
    case 0 => if Held(tokens, c.token) && io.token != A.TempFails then Replay else StoreUnavailable
    case 1 =>
      if !Held(keys, c.key) || keys[c.key].record.fingerprint.None? || io.key == A.TempFails then StoreUnavailable
      else if keys[c.key].record.fingerprint.value == FingerprintOf(c) then IdempotencyReplay
      else IdempotencyConflict
    case 2 =>
      if Held(approvals, c.evidence.value.approval) && io.approval != A.TempFails then ApprovalReused
      else StoreUnavailable
  }

  /** The directories with the first `n` durable claims published in them. */
  predicate Claimed(n: nat, c: Claims, now: int,
                    tokens: A.Directory<InvocationFingerprint>, keys: A.Directory<InvocationFingerprint>,
                    approvals: A.Directory<InvocationFingerprint>,
                    tokens': A.Directory<InvocationFingerprint>, keys': A.Directory<InvocationFingerprint>,
                    approvals': A.Directory<InvocationFingerprint>)
  {
    && tokens' == (if n >= 1 then tokens[c.token := TokenRecord(c, now)] else tokens)
    && keys' == (if n >= 2 then keys[c.key := KeyRecord(c, now)] else keys)
    && approvals' == (if n == 3 && c.evidence.Some? then approvals[c.evidence.value.approval := ApprovalRecord(c, now)]
                      else approvals)
  }

  predicate Held(directory: A.Directory<InvocationFingerprint>, id: Id) {
    id in directory && directory[id].Readable?
  }

  class CapabilityValidator {
    const config: Validator
    const store: A.AuthorityStore?<InvocationFingerprint>
    var consumedTokens: set<Id>
    var idempotency: map<Id, InvocationFingerprint>
    var consumedApprovals: set<Id>

    constructor (config: Validator, store: A.AuthorityStore?<InvocationFingerprint>)
      ensures this.config == config && this.store == store && Recall() == Memory({}, map[], {})
    {
      this.config, this.store := config, store;
      consumedTokens, idempotency, consumedApprovals := {}, map[], {};
    }

    function Recall(): Memory
      reads this
    {
      Memory(consumedTokens, idempotency, consumedApprovals)
    }

    /** The durable claims, in order; a refused one leaves the earlier ones published. */
    method ClaimDurably(s: A.AuthorityStore<InvocationFingerprint>, c: Claims, now: int, io: ClaimIo)
      returns (r: Check<CapabilityError>)
      modifies s
      ensures var n := Published(old(s.tokens), old(s.idempotency), old(s.approvals), c, io);
        && (r.Pass? <==> n == 3)
        && (r.Fail? ==> r.error == ClaimError(old(s.tokens), old(s.idempotency), old(s.approvals), c, io))
        && Claimed(n, c, now, old(s.tokens), old(s.idempotency), old(s.approvals), s.tokens, s.idempotency, s.approvals)
      ensures s.orphans == old(s.orphans)
    {
      var t := s.ConsumeToken(c.token, now, c.expiresAt, io.token);
      if t.Fail? {
        return Fail(if t.error == A.AlreadyConsumed then Replay else StoreUnavailable);
      }
      var k := s.BindIdempotency(c.key, FingerprintOf(c), now, c.expiresAt, io.key);
      if k.Fail? {
        return Fail(match k.error
                    case IdempotencyReplay => IdempotencyReplay
                    case IdempotencyConflict => IdempotencyConflict
                    case _ => StoreUnavailable);
      }
      if c.evidence.Some? {
        var a := s.ConsumeApproval(c.evidence.value.approval, now, c.expiresAt, io.approval);
        if a.Fail? {
          return Fail(if a.error == A.AlreadyConsumed then ApprovalReused else StoreUnavailable);
        }
      }
      return Pass;
    }

    /**
      Authorized exactly when every check passes and every durable claim is
      published; memory changes only then, and a refused check changes nothing.
    */
    method AuthorizeAndConsumeApproved(token: Signed<Claims>, x: Context, approval: Option<Signed<ApprovalClaims>>,
                                       now: int, io: ClaimIo)
      returns (r: Result<Claims, CapabilityError>)
      modifies this, if store == null then {} else {store}
      ensures var checked := Authorize(config, old(Recall()), token, x, approval, now);
        && (checked.Err? ==> r == checked)
        && (r.Ok? <==>
              checked.Ok?
              && (store == null
                  || Published(old(store.tokens), old(store.idempotency), old(store.approvals), checked.value, io) == 3))
        && (r.Ok? ==> r.value == token.payload && Recall() == Remembered(old(Recall()), r.value))
        && (r.Err? ==> Recall() == old(Recall()))
        && (r.Err? && checked.Ok? ==>
              r.error == ClaimError(old(store.tokens), old(store.idempotency), old(store.approvals), checked.value, io))
        && (checked.Err? && store != null ==>
              store.tokens == old(store.tokens) && store.idempotency == old(store.idempotency)
              && store.approvals == old(store.approvals))
      ensures store != null && Authorize(config, old(Recall()), token, x, approval, now).Ok? ==>
        var n := Published(old(store.tokens), old(store.idempotency), old(store.approvals), token.payload, io);
        Claimed(n, token.payload, now, old(store.tokens), old(store.idempotency), old(store.approvals),
                store.tokens, store.idempotency, store.approvals)
    {
      var checked := Authorize(config, Recall(), token, x, approval, now);
      if checked.Err? {
        return checked;
      }
      AcceptedIsThePayload(config, Recall(), token, x, approval, now);
      var c := checked.value;
      if store != null {
        var durable := ClaimDurably(store, c, now, io);
        if durable.Fail? {
          return Err(durable.error);
        }
      }
      consumedTokens := consumedTokens + {c.token};
      idempotency := idempotency[c.key := FingerprintOf(c)];
      if c.evidence.Some? {
        consumedApprovals := consumedApprovals + {c.evidence.value.approval};
      }
      return Ok(c);
    }
  }
}
