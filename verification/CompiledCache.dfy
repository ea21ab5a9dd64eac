/**
  The signed compiled cache of `crates/sandbox`, and the choice between it and
  compiling.  Compilation, serialization and the deserializer are inputs; the
  files of the cache may be changed by anyone, but only the owner's key signs.
*/
module CompiledCache {
  import opened Wrappers

  type KeyId = Id

  type Module = nat

  /** The engine: what compiles, and what the two directions of the module format do. */
  datatype Engine = Engine(
    compile: string -> Option<Module>,
    serialize: Module -> string,
    deserialize: string -> Option<Module>)

  ghost predicate RoundTrips(engine: Engine) {
    forall m: Module :: engine.deserialize(engine.serialize(m)) == Some(m)
  }

  datatype Payload = CacheRecord(typ: string, version: nat, engineIdentity: string, component: Digest<string>, blob: Digest<string>) | OtherPayload(text: string)

  datatype Cose = Signed(signer: KeyId, payload: Payload) | Malformed(text: string)

  /** An entry name is derived from the engine identity and the component digest. */
  datatype Name = EntryOf(engineIdentity: string, component: Digest<string>) | OtherName(text: string)

  const ENGINE_IDENTITY := "sovereign-corewasm-v2"
  const RECORD_TYPE := "sovereign.compiled-cache-record"
  const RECORD_VERSION := 1
  const MAX_BLOB_BYTES := 67108864

  /** The regular files, and every payload the owner's key ever signed. */
  datatype Cache = Cache(blobs: map<Name, string>, records: map<Name, Cose>, signed: set<Payload>)

  function EntryKey(component: Digest<string>): Name { EntryOf(ENGINE_IDENTITY, component) }

  function RecordOf(component: Digest<string>, blob: string): Payload {
    CacheRecord(RECORD_TYPE, RECORD_VERSION, ENGINE_IDENTITY, component, Sha256(blob))
  }

  // ------------------------------------------------------------- operations

  function VerifyEntry(engine: Engine, key: KeyId, component: Digest<string>, blob: string, record: Cose): Option<Module> {
    if |blob| > MAX_BLOB_BYTES then None
    else if record.Malformed? || record.signer != key then None
    else if record.payload.OtherPayload? then None
    else if record.payload.typ != RECORD_TYPE || record.payload.version != RECORD_VERSION then None
    else if record.payload.engineIdentity != ENGINE_IDENTITY then None
    else if record.payload.component != component then None
    else if record.payload.blob != Sha256(blob) then None
    else engine.deserialize(blob)
  }

  /** A missing file is a plain miss; an entry that does not verify is moved aside. */
  function Lookup(engine: Engine, key: KeyId, c: Cache, component: Digest<string>): (Option<Module>, Cache) {
    var name := EntryKey(component);
    if name !in c.blobs || name !in c.records then (None, c)
    else
      var found := VerifyEntry(engine, key, component, c.blobs[name], c.records[name]);
      if found.Some? then (found, c)
      else (None, c.(blobs := c.blobs - {name}, records := c.records - {name}))
  }

  /** The blob is written before its record; a crash may stop after either, or before both. */
  function Store(key: KeyId, c: Cache, component: Digest<string>, blob: string, writes: nat): Cache {
    if |blob| > MAX_BLOB_BYTES then c
    else
      var name := EntryKey(component);
      var c0 := c.(signed := c.signed + {RecordOf(component, blob)});
      var c1 := if writes >= 1 then c0.(blobs := c0.blobs[name := blob]) else c0;
      if writes >= 2 then c1.(records := c1.records[name := Signed(key, RecordOf(component, blob))]) else c1
  }

  /** The module an execution runs. */
  function ModuleFor(engine: Engine, key: KeyId, c: Cache, source: string, writes: nat): (Option<Module>, Cache) {
    var (hit, c1) := Lookup(engine, key, c, Sha256(source));
    if hit.Some? then (hit, c1)
    else
      var compiled := engine.compile(source);
      if compiled.None? then (None, c1)
      else (compiled, Store(key, c1, Sha256(source), engine.serialize(compiled.value), writes))
  }

  // -------------------------------------------------------------------- runs

  datatype Step =
    | Execute(source: string, writes: nat)
    | Tamper(blobs: map<Name, string>, records: map<Name, Cose>)

  /** Files may be anything, except that a payload under the owner's key was signed by the owner. */
  predicate Possible(key: KeyId, c: Cache, records: map<Name, Cose>) {
    forall name <- records :: records[name].Signed? && records[name].signer == key ==> records[name].payload in c.signed
  }

  function Take(engine: Engine, key: KeyId, c: Cache, step: Step): Cache {
    match step
    case Execute(source, writes) => ModuleFor(engine, key, c, source, writes).1
    case Tamper(blobs, records) => if Possible(key, c, records) then c.(blobs := blobs, records := records) else c
  }

  /** Every execution of the run gets what compiling its source gives. */
  predicate AlwaysCompiles(engine: Engine, key: KeyId, c: Cache, steps: seq<Step>)
    decreases |steps|
  {
    steps == [] ||
    (&& (steps[0].Execute? ==>
           ModuleFor(engine, key, c, steps[0].source, steps[0].writes).0 == engine.compile(steps[0].source))
     && AlwaysCompiles(engine, key, Take(engine, key, c, steps[0]), steps[1..]))
  }

  /** The owner only ever signed what compiling some source gave. */
  ghost predicate Honest(engine: Engine, key: KeyId, c: Cache) {
    && Possible(key, c, c.records)
    && (forall p <- c.signed :: HonestRecord(engine, p))
  }

  ghost predicate HonestRecord(engine: Engine, p: Payload) {
    exists source: string ::
      engine.compile(source).Some? && p == RecordOf(Sha256(source), engine.serialize(engine.compile(source).value))
  }

  /** Whatever the files hold, a lookup returns the compiled requested source or misses. */
  lemma LookupIsCompiled(engine: Engine, key: KeyId, c: Cache, source: string)
    requires RoundTrips(engine) && Honest(engine, key, c)
    ensures var (hit, after) := Lookup(engine, key, c, Sha256(source));
      && (hit.Some? ==> hit == engine.compile(source))
      && Honest(engine, key, after)
  {
    var (hit, after) := Lookup(engine, key, c, Sha256(source));
    if hit.Some? {
      var record := c.records[EntryKey(Sha256(source))];
      assert record.payload in c.signed;
      var other: string :| engine.compile(other).Some?
        && record.payload == RecordOf(Sha256(other), engine.serialize(engine.compile(other).value));
      assert other == source;
    }
  }

  lemma StoreStaysHonest(engine: Engine, key: KeyId, c: Cache, source: string, writes: nat)
    requires Honest(engine, key, c) && engine.compile(source).Some?
    ensures Honest(engine, key, Store(key, c, Sha256(source), engine.serialize(engine.compile(source).value), writes))
  {
    assert HonestRecord(engine, RecordOf(Sha256(source), engine.serialize(engine.compile(source).value)));
  }

  lemma ExecutionCompiles(engine: Engine, key: KeyId, c: Cache, source: string, writes: nat)
    requires RoundTrips(engine) && Honest(engine, key, c)
    ensures ModuleFor(engine, key, c, source, writes).0 == engine.compile(source)
    ensures Honest(engine, key, ModuleFor(engine, key, c, source, writes).1)
  {
    LookupIsCompiled(engine, key, c, source);
    var (hit, c1) := Lookup(engine, key, c, Sha256(source));
    if hit.None? && engine.compile(source).Some? {
      StoreStaysHonest(engine, key, c1, source, writes);
    }
  }

  lemma {:induction false} HonestRunsCompile(engine: Engine, key: KeyId, c: Cache, steps: seq<Step>)
    requires RoundTrips(engine) && Honest(engine, key, c)
    ensures AlwaysCompiles(engine, key, c, steps)
    decreases |steps|
  {
    if steps != [] {
      if steps[0].Execute? {
        ExecutionCompiles(engine, key, c, steps[0].source, steps[0].writes);
      }
      HonestRunsCompile(engine, key, Take(engine, key, c, steps[0]), steps[1..]);
    }
  }

  /**
    The cache refines compiling every time: under any swaps, edits, renames and
    removals of its files, and crashes between its two writes, every execution
    gets exactly what compiling its source gives.
  */
  lemma CacheRefinesCompiling(engine: Engine, key: KeyId, steps: seq<Step>)
    requires RoundTrips(engine)
    ensures AlwaysCompiles(engine, key, Cache(map[], map[], {}), steps)
  {
    HonestRunsCompile(engine, key, Cache(map[], map[], {}), steps);
  }

  /** An entry that is left alone is a hit. */
  lemma StoredEntryIsFound(engine: Engine, key: KeyId, c: Cache, source: string)
    requires RoundTrips(engine) && engine.compile(source).Some?
    requires |engine.serialize(engine.compile(source).value)| <= MAX_BLOB_BYTES
    ensures var after := Store(key, c, Sha256(source), engine.serialize(engine.compile(source).value), 2);
      Lookup(engine, key, after, Sha256(source)) == (engine.compile(source), after)
  {
  }

  /** An entry is trusted exactly under the owner's own record of this engine, this component and these bytes. */
  lemma VerifiesExactly(engine: Engine, key: KeyId, component: Digest<string>, blob: string, record: Cose)
    ensures VerifyEntry(engine, key, component, blob, record)
      == if |blob| <= 67108864
            && record == Signed(key, CacheRecord("sovereign.compiled-cache-record", 1, "sovereign-corewasm-v2",
                                                 component, Sha256(blob)))
         then engine.deserialize(blob) else None
  {
  }

  /** Exactly an entry that is there and is not trusted is moved aside, and no other. */
  lemma QuarantinesExactly(engine: Engine, key: KeyId, c: Cache, component: Digest<string>, name: Name)
    ensures var after := Lookup(engine, key, c, component).1;
      var moved := name == EntryKey(component) && name in c.blobs && name in c.records
        && VerifyEntry(engine, key, component, c.blobs[name], c.records[name]).None?;
      && (name in after.blobs <==> name in c.blobs && !moved) && (name in after.records <==> name in c.records && !moved)
      && (name in after.blobs ==> after.blobs[name] == c.blobs[name])
      && (name in after.records ==> after.records[name] == c.records[name])
  {
  }

  /** Storing or looking up one component changes nothing for another. */
  lemma EntriesAreSeparate(engine: Engine, key: KeyId, c: Cache, a: Digest<string>, b: Digest<string>, blob: string, writes: nat)
    requires a != b
    ensures Lookup(engine, key, Store(key, c, a, blob, writes), b).0 == Lookup(engine, key, c, b).0
    ensures Lookup(engine, key, Lookup(engine, key, c, a).1, b).0 == Lookup(engine, key, c, b).0
  {
  }

  /** A new record is never there without the blob it is about, and a blob that is too large leaves nothing. */
  lemma StoresInOrder(key: KeyId, c: Cache, component: Digest<string>, blob: string, writes: nat)
    ensures var after, name := Store(key, c, component, blob, writes), EntryKey(component);
      && (|blob| > 67108864 ==> after == c)
      && after.blobs == (if |blob| <= 67108864 && writes > 0 then c.blobs[name := blob] else c.blobs)
      && (after.records == c.records
          || (writes > 1 && name in after.blobs && after.blobs[name] == blob
              && after.records == c.records[name := Signed(key, RecordOf(component, blob))]))
      && (|blob| <= 67108864 && writes > 1 ==> name in after.records && after.records[name].Signed?)
      && (after != c ==> after.signed == c.signed + {RecordOf(component, blob)})
  {
  }

  // --------------------------------------------------------------- the class

  class CompiledCache {
    const engine: Engine
    const key: KeyId
    var blobs: map<Name, string>
    var records: map<Name, Cose>
    var quarantined: seq<Name>
    var writesLeft: nat
    ghost var signed: set<Payload>

    constructor (engine: Engine, key: KeyId, writes: nat)
      ensures this.engine == engine && this.key == key && writesLeft == writes
      ensures Files() == Cache(map[], map[], {})
    {
      this.engine, this.key, writesLeft := engine, key, writes;
      blobs, records, quarantined, signed := map[], map[], [], {};
    }

    ghost function Files(): Cache
      reads this
    {
      Cache(blobs, records, signed)
    }

    method QuarantineEntry(name: Name)
      modifies this`blobs, this`records, this`quarantined
      ensures Files() == old(Files()).(blobs := old(blobs) - {name}, records := old(records) - {name})
      ensures quarantined == old(quarantined) + [name]
    {
      blobs := blobs - {name};
      records := records - {name};
      quarantined := quarantined + [name];
    }

    method FindModule(component: Digest<string>) returns (found: Option<Module>)
      modifies this
      ensures (found, Files()) == Lookup(engine, key, old(Files()), component)
      ensures writesLeft == old(writesLeft)
    {
      var name := EntryKey(component);
      if name !in blobs || name !in records {
        return None;
      }
      found := VerifyEntry(engine, key, component, blobs[name], records[name]);
      if found.None? {
        QuarantineEntry(name);
      }
    }

    /** Blob first, then record; the budget says where a crash falls. */
    method StoreModule(component: Digest<string>, blob: string)
      modifies this
      ensures Files() == Store(key, old(Files()), component, blob, old(writesLeft))
    {
      if |blob| > MAX_BLOB_BYTES {
        return;
      }
      var name := EntryKey(component);
      var record := Signed(key, RecordOf(component, blob));
      signed := signed + {RecordOf(component, blob)};
      if writesLeft == 0 { return; }
      blobs := blobs[name := blob];
      writesLeft := writesLeft - 1;
      if writesLeft == 0 { return; }
      records := records[name := record];
      writesLeft := writesLeft - 1;
    }

    /** A verified hit skips compilation; a miss compiles and stores. */
    method LoadOrCompile(source: string) returns (module_: Option<Module>)
      modifies this
      ensures (module_, Files()) == ModuleFor(engine, key, old(Files()), source, old(writesLeft))
      ensures RoundTrips(engine) && Honest(engine, key, old(Files())) ==>
        module_ == engine.compile(source) && Honest(engine, key, Files())
    {
      if RoundTrips(engine) && Honest(engine, key, Files()) {
        ExecutionCompiles(engine, key, Files(), source, writesLeft);
      }
      module_ := FindModule(Sha256(source));
      if module_.Some? {
        return;
      }
      module_ := engine.compile(source);
      if module_.Some? {
        StoreModule(Sha256(source), engine.serialize(module_.value));
      }
    }
  }
}
