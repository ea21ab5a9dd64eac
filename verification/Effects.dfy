/** The local outbox of `crates/effects`: writes and revocations by opaque key. */
module Effects {
  import opened Wrappers
  import opened Strings

  /** A directory entry: a regular file, or anything else (a link, a directory, a device). */
  datatype Entry = Regular(content: string) | Special

  datatype EffectError = UnsafeName | RedDataForbidden | ContentTooLarge | UnsafeExistingTarget | NotFound

  datatype Receipt = Receipt(relativePath: string, contentSha256: Digest<string>, bytes: nat)

  const MAX_OUTBOX_BYTES := 1048576
  const MAX_KEY_BYTES := 128
  const MAX_EXTENSION_BYTES := 8

  predicate KeyChar(c: char) { ('a' <= c <= 'z') || ('A' <= c <= 'Z') || IsDigit(c) || c == '-' || c == '_' }

  predicate Lowercase(c: char) { 'a' <= c <= 'z' }

  predicate SafeKey(key: string) { key != "" && |key| <= MAX_KEY_BYTES && forall c <- key :: KeyChar(c) }

  predicate SafeExtension(extension: string) {
    extension != "" && |extension| <= MAX_EXTENSION_BYTES && forall c <- extension :: Lowercase(c)
  }

  function SafeFileName(key: string, extension: string): (r: Result<string, EffectError>)
    ensures r.Ok? ==> !(exists c <- r.value :: c == '/' || c == '\\') && r.value != "." && r.value != ".."
    ensures r.Err? ==> r.error == UnsafeName
  {
    if !SafeKey(key) || !SafeExtension(extension) then Err(UnsafeName)
    else
      var name := key + "." + extension;
      assert name[0] == key[0] && KeyChar(name[0]);
      Ok(name)
  }

  /** A name is accepted exactly for 1 to 128 letters, digits, hyphens and underscores, and 1 to 8 small letters. */
  lemma NamesExactly(key: string, extension: string)
    ensures SafeFileName(key, extension) ==
      if && 1 <= |key| <= 128 && 1 <= |extension| <= 8
         && (forall c <- key ::
               48 <= c as int <= 57 || 65 <= c as int <= 90 || 97 <= c as int <= 122 || c as int == 45 || c as int == 95)
         && (forall c <- extension :: 97 <= c as int <= 122)
      then Ok(key + "." + extension) else Err(UnsafeName)
  {
  }

  /** `rsplit_once('.')`. */
  function SplitLastDot(name: string): (r: Option<(string, string)>)
    ensures r.Some? ==> name == r.value.0 + "." + r.value.1 && Free(r.value.1, '.')
    ensures r.None? ==> Free(name, '.')
  {
    if name == "" then None
    else if name[|name| - 1] == '.' then Some((name[..|name| - 1], ""))
    else
      var rest := SplitLastDot(name[..|name| - 1]);
      if rest.None? then None else Some((rest.value.0, rest.value.1 + [name[|name| - 1]]))
  }

  lemma {:induction false} SplitLastDotOf(key: string, extension: string)
    requires Free(extension, '.')
    ensures SplitLastDot(key + "." + extension) == Some((key, extension))
  {
    var name := key + "." + extension;
    if extension == "" {
      assert name == key + ".";
      assert name[..|name| - 1] == key;
    } else {
      var front := extension[..|extension| - 1];
      assert name[..|name| - 1] == key + "." + front;
      SplitLastDotOf(key, front);
      assert front + [extension[|extension| - 1]] == extension;
    }
  }

  /** A file name belongs to one key and one extension, and naming it again gives the same name. */
  lemma NameFixesItsParts(key: string, extension: string)
    requires SafeFileName(key, extension).Ok?
    ensures SplitLastDot(SafeFileName(key, extension).value) == Some((key, extension))
  {
    assert forall c <- extension :: c != '.' by {
      assert forall c <- extension :: Lowercase(c);
    }
    SplitLastDotOf(key, extension);
  }

  lemma NamesAreInjective(key: string, extension: string, key': string, extension': string)
    requires SafeFileName(key, extension).Ok? && SafeFileName(key, extension) == SafeFileName(key', extension')
    ensures key == key' && extension == extension'
  {
    NameFixesItsParts(key, extension);
    NameFixesItsParts(key', extension');
  }

  /** The name that a revocation path stands for. */
  function RevocationName(path: string): (r: Result<string, EffectError>)
    ensures r.Ok? ==> r.value == path
    ensures r.Err? ==> r.error == UnsafeName
  {
    var parts := SplitLastDot(path);
    if parts.None? then Err(UnsafeName)
    else
      var name := SafeFileName(parts.value.0, parts.value.1);
      if name.Err? then Err(name.error) else if name.value != path then Err(UnsafeName) else name
  }

  /** The path of every receipt can be revoked, and only such paths can. */
  lemma RevocationInvertsNaming(path: string)
    ensures RevocationName(path).Ok? <==> exists key, extension :: SafeFileName(key, extension) == Ok(path)
  {
    if key, extension :| SafeFileName(key, extension) == Ok(path) {
      NameFixesItsParts(key, extension);
    }
  }

  class OutboxBroker {
    var files: map<string, Entry>

    constructor ()
      ensures files == map[]
    {
      files := map[];
    }

    method WriteWithExtension(key: string, extension: string, red: bool, content: string)
      returns (r: Result<Receipt, EffectError>)
      modifies this
      ensures r.Ok? <==>
        && !red && Utf8Length(content) <= MAX_OUTBOX_BYTES && SafeFileName(key, extension).Ok?
        && (SafeFileName(key, extension).value in old(files) ==> old(files)[SafeFileName(key, extension).value].Regular?)
      ensures r.Ok? ==>
        && r.value == Receipt(key + "." + extension, Sha256(content), Utf8Length(content))
        && files == old(files)[r.value.relativePath := Regular(content)]
      ensures r.Err? ==> files == old(files)
      ensures r.Err? ==>
        match r.error
        case RedDataForbidden => red
        case ContentTooLarge => Utf8Length(content) > 1048576
        case UnsafeName => SafeFileName(key, extension).Err?
        case UnsafeExistingTarget => SafeFileName(key, extension).Ok? && key + "." + extension in old(files)
        case NotFound => false
    {
      if red { return Err(RedDataForbidden); }
      if Utf8Length(content) > MAX_OUTBOX_BYTES { return Err(ContentTooLarge); }
      var name := SafeFileName(key, extension);
      if name.Err? { return Err(name.error); }
      if name.value in files && files[name.value].Special? { return Err(UnsafeExistingTarget); }
      files := files[name.value := Regular(content)];
      return Ok(Receipt(name.value, Sha256(content), Utf8Length(content)));
    }

    /** Only a regular file whose name some key and extension give is removed. */
    method Revoke(path: string) returns (r: Check<EffectError>)
      modifies this
      ensures r.Pass? <==> RevocationName(path).Ok? && path in old(files) && old(files)[path].Regular?
      ensures files == if r.Pass? then old(files) - {path} else old(files)
      ensures r == Fail(NotFound) <==> RevocationName(path).Ok? && path !in old(files)
      ensures r == Fail(UnsafeExistingTarget) <==> RevocationName(path).Ok? && path in old(files) && old(files)[path].Special?
      ensures r == Fail(UnsafeName) <==> RevocationName(path).Err?
    {
      var name := RevocationName(path);
      if name.Err? {
        return Fail(name.error);
      }
      if name.value !in files { return Fail(NotFound); }
      if files[name.value].Special? { return Fail(UnsafeExistingTarget); }
      files := files - {name.value};
      return Pass;
    }
  }
}
