/**
  The durable authority store of `crates/authority`, one call at a time.  Each
  directory is a map from file names to records; `Io` says how the file system
  answers.
*/
module Authority {
  import opened Wrappers

  datatype Kind = TokenKind | ApprovalKind | IdempotencyKind

  datatype AuthorityRecord<F> = AuthorityRecord(kind: Kind, fingerprint: Option<F>, consumedAt: int, expiresAt: int)

  /** A file that does not decode is unreadable. */
  datatype Stored<F> = Readable(record: AuthorityRecord<F>) | Unreadable

  type Directory<F> = map<Id, Stored<F>>

  datatype AuthorityError = AlreadyConsumed | IdempotencyReplay | IdempotencyConflict | CorruptRecord | Unavailable

  datatype ClaimError<F> = Exists(existing: AuthorityRecord<F>) | StoreFailed(error: AuthorityError)

  datatype Io = Works | TempFails | LinkFails

  predicate Expired<F>(stored: Stored<F>, now: int) { stored.Readable? && stored.record.expiresAt <= now }

  /** What a purge at `now` leaves. */
  function Unexpired<F>(directory: Directory<F>, now: int): Directory<F> {
    map id | id in directory && !Expired(directory[id], now) :: directory[id]
  }

  /** A purge never lets a name be claimed that an unexpired or unreadable record holds. */
  lemma PurgeKeepsRefusals<F>(directory: Directory<F>, now: int, id: Id)
    ensures id !in Unexpired(directory, now)
      <==> id !in directory || (directory[id].Readable? && directory[id].record.expiresAt <= now)
    ensures id in Unexpired(directory, now) ==> Unexpired(directory, now)[id] == directory[id]
    ensures Unexpired(Unexpired(directory, now), now) == Unexpired(directory, now)
  {
  }

  class AuthorityStore<F(==)> {
    var tokens: Directory<F>
    var approvals: Directory<F>
    var idempotency: Directory<F>
    var orphans: set<Id>

    constructor ()
      ensures tokens == map[] && approvals == map[] && idempotency == map[] && orphans == {}
    {
      tokens, approvals, idempotency, orphans := map[], map[], map[], {};
    }

    /** Publish a record under a free name; a name that exists is never replaced. */
    static method Claim(directory: Directory<F>, id: Id, record: AuthorityRecord<F>, io: Io)
      returns (after: Directory<F>, r: Check<ClaimError<F>>)
      ensures r.Pass? <==> io == Works && id !in directory
      ensures after == if r.Pass? then directory[id := Readable(record)] else directory
      ensures r.Fail? ==>
        (r.error == if io == TempFails || id !in directory then StoreFailed(Unavailable)
                    else if directory[id].Readable? then Exists(directory[id].record)
                    else StoreFailed(CorruptRecord))
    {
      if io == TempFails { return directory, Fail(StoreFailed(Unavailable)); }
      if id in directory {
        if directory[id].Unreadable? { return directory, Fail(StoreFailed(CorruptRecord)); }
        return directory, Fail(Exists(directory[id].record));
      }
      if io == LinkFails { return directory, Fail(StoreFailed(Unavailable)); }
      return directory[id := Readable(record)], Pass;
    }

    method ConsumeToken(token: Id, now: int, expiresAt: int, io: Io) returns (r: Check<AuthorityError>)
      modifies this`tokens
      ensures r.Pass? <==> io == Works && token !in old(tokens)
      ensures tokens == if r.Pass? then old(tokens)[token := Readable(AuthorityRecord(TokenKind, None, now, expiresAt))]
                        else old(tokens)
      ensures r == Fail(AlreadyConsumed) <==> token in old(tokens) && old(tokens)[token].Readable? && io != TempFails
    {
      var claim;
      tokens, claim := Claim(tokens, token, AuthorityRecord(TokenKind, None, now, expiresAt), io);
      match claim
      case Pass => return Pass;
      case Fail(Exists(_)) => return Fail(AlreadyConsumed);
      case Fail(StoreFailed(error)) => return Fail(error);
    }

    method ConsumeApproval(approval: Id, now: int, expiresAt: int, io: Io) returns (r: Check<AuthorityError>)
      modifies this`approvals
      ensures r.Pass? <==> io == Works && approval !in old(approvals)
      ensures approvals ==
        if r.Pass? then old(approvals)[approval := Readable(AuthorityRecord(ApprovalKind, None, now, expiresAt))]
        else old(approvals)
      ensures r == Fail(AlreadyConsumed) <==> approval in old(approvals) && old(approvals)[approval].Readable? && io != TempFails
    {
      var claim;
      approvals, claim := Claim(approvals, approval, AuthorityRecord(ApprovalKind, None, now, expiresAt), io);
      match claim
      case Pass => return Pass;
      case Fail(Exists(_)) => return Fail(AlreadyConsumed);
      case Fail(StoreFailed(error)) => return Fail(error);
    }

    /** A second binding is a replay with the same fingerprint and a conflict with another. */
    method BindIdempotency(key: Id, fingerprint: F, now: int, expiresAt: int, io: Io)
      returns (r: Check<AuthorityError>)
      modifies this`idempotency
      ensures r.Pass? <==> io == Works && key !in old(idempotency)
      ensures idempotency ==
        if r.Pass? then old(idempotency)[key := Readable(AuthorityRecord(IdempotencyKind, Some(fingerprint), now, expiresAt))]
        else old(idempotency)
      ensures var bound := if key in old(idempotency) && old(idempotency)[key].Readable?
                           then old(idempotency)[key].record.fingerprint else None;
        && (r == Fail(IdempotencyReplay) <==> io != TempFails && bound == Some(fingerprint))
        && (r == Fail(IdempotencyConflict) <==> io != TempFails && bound.Some? && bound != Some(fingerprint))
    {
      var claim;
      idempotency, claim := Claim(idempotency, key,
                                  AuthorityRecord(IdempotencyKind, Some(fingerprint), now, expiresAt), io);
      match claim
      case Pass => return Pass;
      case Fail(Exists(existing)) =>
        if existing.fingerprint.None? { return Fail(CorruptRecord); }
        return Fail(if existing.fingerprint.value == fingerprint then IdempotencyReplay else IdempotencyConflict);
      case Fail(StoreFailed(error)) => return Fail(error);
    }

    /** The loop over one directory, in whatever order its entries are listed. */
    static method PurgeDirectory(directory: Directory<F>, now: int) returns (kept: Directory<F>, removed: nat)
      ensures kept == Unexpired(directory, now)
      ensures removed + |kept| == |directory|
    {
      kept, removed := directory, 0;
      var entries := directory.Keys;
      while entries != {}
        invariant entries <= kept.Keys <= directory.Keys
        invariant forall id | id in kept :: kept[id] == directory[id]
        invariant forall id | id in directory && id !in entries :: id in kept <==> !Expired(directory[id], now)
        invariant removed + |kept| == |directory|
        decreases |entries|
      {
        var id :| id in entries;
        entries := entries - {id};
        if Expired(kept[id], now) {
          assert |kept - {id}| == |kept| - 1 by {
            assert kept.Keys == (kept - {id}).Keys + {id};
            assert |(kept - {id}).Keys| == |kept - {id}| && |kept.Keys| == |kept|;
          }
          kept := kept - {id};
          removed := removed + 1;
        }
      }
    }

    method PurgeExpired(now: int) returns (removed: nat)
      modifies this
      ensures tokens == Unexpired(old(tokens), now)
      ensures approvals == Unexpired(old(approvals), now)
      ensures idempotency == Unexpired(old(idempotency), now)
      ensures orphans == {}
      ensures removed + |tokens| + |approvals| + |idempotency| == |old(tokens)| + |old(approvals)| + |old(idempotency)|
    {
      var a, b, c;
      tokens, a := PurgeDirectory(tokens, now);
      approvals, b := PurgeDirectory(approvals, now);
      idempotency, c := PurgeDirectory(idempotency, now);
      orphans := {};
      return a + b + c;
    }
  }
}
