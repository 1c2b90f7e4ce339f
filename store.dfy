/** The scoped, add-if-absent cache store of proxy/cache/backend.py
    (`FileBasedCache`). The parent key/value store is a map from store key to
    value; the filesystem is a map from path to file bytes. */
module Store {
  import opened Values
  import opened Text
  import Reader

  const MetaKey := "meta"
  const ContentKey := "content"
  const StreamKey := "stream"
  const FilePathKey := "path"
  const ContentDirName := "djfiles"

  /** Why reading a stored entry raised (a `TypeError`, `KeyError`,
      `AttributeError` or `IOError` in the source). */
  datatype Fault = Missing | NotBytes | NotRecord | NoPath | BadPath | NotFound(path: string) | BadContentType

  /** A removal error other than "no such file". */
  datatype OsError = RemovalDenied(path: string) | NotAPath

  /** The parent store's `add`: the value is stored only if the key is absent. */
  function AddIfAbsent(m: map<string, Value>, k: string, v: Value): (r: map<string, Value>)
    ensures k in r && r[k] == (if k in m then m[k] else v)
    ensures r.Keys == m.Keys + {k}
    ensures forall j :: j in m && j != k ==> r[j] == m[j]
  {
    if k in m then m else m[k := v]
  }

  /** Of two writers of one key the first wins; the second changes nothing. */
  lemma FirstWriterWins(m: map<string, Value>, k: string, v: Value, w: Value)
    ensures AddIfAbsent(AddIfAbsent(m, k, v), k, w) == AddIfAbsent(m, k, v)
    ensures AddIfAbsent(AddIfAbsent(m, k, v), k, w)[k] != w ==> k in m || v != w
  {
  }

  /** A path directly inside the content directory `dir`. */
  predicate InContentDir(dir: string, p: string)
  {
    |p| > |dir| + 1 && p[..|dir| + 1] == dir + "/" &&
    '/' !in p[|dir| + 1..] && p[|dir| + 1..] != "." && p[|dir| + 1..] != ".."
  }

  /** The file `_delete` removes with a record: a dictionary whose stream flag
      is truthy and that has a path entry. */
  function BackingFile(v: Option<Value>): (r: Option<Field>)
    ensures r.Some? <==> v.Some? && v.value.Record? && Truthy(GetOr(v.value.fields, StreamKey, Flag(false)))
                         && FilePathKey in v.value.fields
    ensures r.Some? ==> r.value == v.value.fields[FilePathKey]
  {
    match v
    case Some(Record(f)) =>
      if Truthy(GetOr(f, StreamKey, Flag(false))) && FilePathKey in f then Some(f[FilePathKey]) else None
    case _ => None
  }

  /** `_remove_filepath`: removing a file that does not exist is not an
      error; a path that cannot be removed, or a value that is no path, is. */
  function RemovePath(files: map<string, seq<byte>>, denied: set<string>, path: Field): (r: Result<map<string, seq<byte>>, OsError>)
    ensures r.Ok? <==> path.Str? && path.s !in denied
    ensures r.Ok? ==> r.value.Keys == files.Keys - {path.s}
    ensures r.Ok? ==> forall p :: p in r.value ==> r.value[p] == files[p]
  {
    if !path.Str? then Err(NotAPath)
    else if path.s in denied then Err(RemovalDenied(path.s))
    else Ok(files - {path.s})
  }

  /** What `HttpResponse` reads: the stored content bytes. */
  function InlineBytes(v: Option<Value>): (r: Result<seq<byte>, Fault>)
    ensures r.Ok? <==> v.Some? && v.value.Bytes?
    ensures r.Ok? ==> r.value == v.value.data
  {
    match v
    case None => Err(Missing)
    case Some(Bytes(b)) => Ok(b)
    case Some(Record(_)) => Err(NotBytes)
  }

  /** `str(None)`, the bytes Python 2's `StringIO` reads from a missing entry. */
  const NoneText: seq<byte> := [78, 111, 110, 101]

  /** What `StringIO.StringIO(content)` in `iter` reads: the stored bytes, or
      `str(None)` for a missing entry. */
  function StringIOBytes(v: Option<Value>): (r: Result<seq<byte>, Fault>)
    ensures r.Ok? <==> v.None? || v.value.Bytes?
    ensures v.None? ==> r == Ok(NoneText)
    ensures v.Some? && v.value.Bytes? ==> r == Ok(v.value.data)
    ensures r.Err? ==> r.error == NotBytes
  {
    match v
    case None => Ok(NoneText)
    case Some(Bytes(b)) => Ok(b)
    case Some(Record(_)) => Err(NotBytes)
  }

  /** What `iter_fileobj` opens: the file named by the record's path entry. */
  function FileBacked(v: Option<Value>, files: map<string, seq<byte>>): (r: Result<(string, seq<byte>), Fault>)
    ensures r.Ok? <==> v.Some? && v.value.Record? && FilePathKey in v.value.fields
                       && v.value.fields[FilePathKey].Str? && v.value.fields[FilePathKey].s in files
    ensures r.Ok? ==> r.value.0 == v.value.fields[FilePathKey].s && r.value.1 == files[r.value.0]
  {
    match v
    case None => Err(Missing)
    case Some(Bytes(_)) => Err(NotRecord)
    case Some(Record(f)) =>
      if FilePathKey !in f then Err(NoPath)
      else if !f[FilePathKey].Str? then Err(BadPath)
      else if f[FilePathKey].s !in files then Err(NotFound(f[FilePathKey].s))
      else Ok((f[FilePathKey].s, files[f[FilePathKey].s]))
  }

  function Repeat(c: char, n: nat): (r: string)
    ensures |r| == n && forall i :: 0 <= i < n ==> r[i] == c
  {
    seq(n, _ => c)
  }

  /** A name for a new temporary file in `dir` that no existing file has
      (what `tempfile.NamedTemporaryFile(dir=...)` guarantees). */
  method FreshName(dir: string, used: set<string>) returns (name: string)
    ensures name !in used
    ensures InContentDir(dir, name)
  {
    var rest: set<string>, longest: nat := used, 0;
    while rest != {}
      invariant rest <= used
      invariant forall u :: u in used - rest ==> |u| <= longest
      decreases |rest|
    {
      var u :| u in rest;
      if |u| > longest {
        longest := |u|;
      }
      rest := rest - {u};
    }
    name := dir + "/" + "tmp" + Repeat('x', longest);
    assert name[|dir| + 1..] == "tmp" + Repeat('x', longest);
  }

  class FileCache {
    /** `hashlib.md5(utils.ascii(.)).hexdigest()`, taken as given. */
    const digest: string -> string
    /** Paths whose removal fails with an error other than "no such file". */
    const denied: set<string>
    /** The directory of file-backed content. */
    const streamDir: string
    var scope: string
    var store: map<string, Value>
    var files: map<string, seq<byte>>

    /** Opens the cache rooted at `dir` over what is already stored there. */
    constructor (digest: string -> string, dir: string, scopeName: string, denied: set<string>,
                 store: map<string, Value>, files: map<string, seq<byte>>)
      ensures this.digest == digest && this.denied == denied
      ensures streamDir == dir + "/" + ContentDirName
      ensures scope == digest(scopeName)
      ensures this.store == store && this.files == files
    {
      this.digest := digest;
      this.denied := denied;
      streamDir := dir + "/" + ContentDirName;
      scope := digest(scopeName);
      this.store := store;
      this.files := files;
    }

    /** `__call__`: every later access goes through the digest of `name`. */
    method SetScope(name: string)
      modifies this`scope
      ensures scope == digest(name)
    {
      scope := digest(name);
    }

    /** `join`: the store key of a record name in the current scope. */
    function Join(name: string): (k: string)
      reads this
      ensures |k| == |scope| + 1 + |name|
      ensures k[..|scope|] == scope && k[|scope|] == ':' && k[|scope| + 1..] == name
    {
      Colon(scope, name)
    }

    /** `__getitem__`. */
    function Get(name: string): (r: Option<Value>)
      reads this
      ensures r.Some? <==> HasKey(name)
      ensures r.Some? ==> r.value == store[Join(name)]
    {
      if Join(name) in store then Some(store[Join(name)]) else None
    }

    /** `has_key`. */
    predicate HasKey(name: string)
      reads this
      ensures HasKey(name) <==> Colon(scope, name) in store
    {
      Join(name) in store
    }

    /** The parent store's `add`; true when the value was stored. */
    method Add(key: string, v: Value) returns (added: bool)
      modifies this`store
      ensures added <==> key !in old(store)
      ensures store == AddIfAbsent(old(store), key, v)
    {
      added := key !in store;
      store := AddIfAbsent(store, key, v);
    }

    /** `__setitem__`, which is `add`: a present value is never overwritten. */
    method Set(name: string, v: Value)
      modifies this`store
      ensures store == AddIfAbsent(old(store), Join(name), v)
      ensures Get(name) == if old(HasKey(name)) then old(Get(name)) else Some(v)
    {
      var _ := Add(Join(name), v);
    }

    /** `iter`: a reader over the stored content bytes (over `str(None)`
        when the entry is missing). */
    method Iter(name: string) returns (r: Result<Reader.ChunkReader, Fault>)
      ensures r.Ok? <==> !HasKey(name) || Get(name).value.Bytes?
      ensures r.Err? ==> r.error == NotBytes
      ensures r.Ok? ==> fresh(r.value) && fresh(r.value.src) && r.value.Valid() && !r.value.finished
      ensures r.Ok? ==> r.value.src.rest == (if HasKey(name) then Get(name).value.data else NoneText)
      ensures r.Ok? ==> r.value.src.limit == Reader.FullReads
    {
      var content := StringIOBytes(Get(name));
      if content.Err? {
        return Err(content.error);
      }
      var src := new Reader.ByteSource(content.value, Reader.FullReads);
      var reader := new Reader.ChunkReader(src);
      r := Ok(reader);
    }

    /** `iter_fileobj`: a reader over the file the record points to. */
    method IterFileObj(name: string) returns (r: Result<Reader.ChunkReader, Fault>)
      ensures r.Ok? <==> FileBacked(Get(name), files).Ok?
      ensures r.Err? ==> r.error == FileBacked(Get(name), files).error
      ensures r.Ok? ==> fresh(r.value) && fresh(r.value.src) && r.value.Valid() && !r.value.finished
      ensures r.Ok? ==> r.value.src.rest == FileBacked(Get(name), files).value.1 && r.value.src.limit == Reader.FullReads
    {
      var file := FileBacked(Get(name), files);
      if file.Err? {
        return Err(file.error);
      }
      var src := new Reader.ByteSource(file.value.1, Reader.FullReads);
      var reader := new Reader.ChunkReader(src);
      r := Ok(reader);
    }

    /** `has_fileobj`: whether the file the record points to exists. */
    function HasFileObj(name: string): (r: Result<bool, Fault>)
      reads this
      ensures r.Ok? ==> (r.value <==> FileBacked(Get(name), files).Ok?)
      ensures r.Err? <==> FileBacked(Get(name), files).Err? && !FileBacked(Get(name), files).error.NotFound?
    {
      var file := FileBacked(Get(name), files);
      if file.Ok? then Ok(true)
      else if file.error.NotFound? then Ok(false)
      else Err(file.error)
    }

    /** `_remove_filepath`. */
    method RemoveFilePath(path: Field) returns (r: Outcome<OsError>)
      modifies this`files
      ensures var rm := RemovePath(old(files), denied, path);
              if rm.Ok? then r == Pass && files == rm.value else r == Fail(rm.error) && files == old(files)
    {
      var rm := RemovePath(files, denied, path);
      if rm.Err? {
        return Fail(rm.error);
      }
      files := rm.value;
      r := Pass;
    }

    /** `_delete`, corrected to remove a record's file only when it is a file
        of the content directory (see `DeleteRemovesAnyPath`). A removal error
        other than "no such file" propagates and leaves the entry in place. */
    method Delete(key: string) returns (r: Outcome<OsError>)
      modifies this`store, this`files
      ensures var rm := DeleteCorrected(streamDir, old(files), denied, if key in old(store) then Some(old(store)[key]) else None);
              if rm.Ok? then r == Pass && files == rm.value && store == old(store) - {key}
              else r == Fail(rm.error) && files == old(files) && store == old(store)
    {
      var b := OwnBackingFile(streamDir, if key in store then Some(store[key]) else None);
      if b.Some? {
        r := RemoveFilePath(b.value);
        if r.Fail? {
          return;
        }
      }
      store := store - {key};
      r := Pass;
    }

    /** `clear`: every entry and the content directory go. */
    method Clear()
      modifies this`store, this`files
      ensures store == map[]
      ensures files == map p | p in old(files) && !(streamDir + "/" <= p) :: old(files)[p]
      ensures forall name :: !HasKey(name)
    {
      store := map[];
      files := map p | p in files && !(streamDir + "/" <= p) :: files[p];
    }

    /** `iter_set_stream`: relays `data` chunk by chunk while writing each
        chunk to a new temporary file (the file's bytes are set once, to all
        chunks written, since nothing reads it before it is closed); when the consumer stops after `demand`
        chunks or the stream ends, the `finally` block adds the record
        `kwargs + {stream: True, path: <temp name>}` under the scoped content
        key. A generator that is never started (`demand == 0`) does nothing. */
    method IterSetStream(data: Reader.ByteSource, kwargs: map<string, Field>, demand: nat, clock: nat -> real)
      returns (chunks: seq<seq<byte>>, tmp: Option<string>)
      modifies this`store, this`files, data
      ensures Reader.Concat(chunks) + data.rest == old(data.rest)
      ensures |chunks| <= demand
      ensures forall i :: 0 <= i < |chunks| ==> 1 <= |chunks[i]| <= Reader.MaxBlock
      ensures |chunks| < demand ==> data.calls >= 1 && (data.rest == [] || data.limit(data.calls - 1) == 0)
      ensures demand == 0 <==> tmp.None?
      ensures demand == 0 ==> store == old(store) && files == old(files)
      ensures tmp.Some? ==> tmp.value !in old(files) && InContentDir(streamDir, tmp.value)
      ensures tmp.Some? ==> files == old(files)[tmp.value := Reader.Concat(chunks)]
      ensures tmp.Some? ==> store == AddIfAbsent(old(store), Join(ContentKey), Record(StreamRecord(kwargs, tmp.value)))
    {
      chunks, tmp := [], None;
      if demand == 0 {
        return;
      }
      var name := FreshName(streamDir, files.Keys);
      var reader := new Reader.ChunkReader(data);
      chunks := Reader.Take(reader, demand, clock);
      files := files[name := Reader.Concat(chunks)];
      tmp := Some(name);
      var _ := Add(Join(ContentKey), Record(StreamRecord(kwargs, name)));
    }
  }

  /** The content record `iter_set_stream` commits. */
  function StreamRecord(kwargs: map<string, Field>, path: string): (r: map<string, Field>)
    ensures StreamKey in r && FilePathKey in r
    ensures r[StreamKey] == Flag(true) && r[FilePathKey] == Str(path)
    ensures forall k :: k in kwargs && k != StreamKey && k != FilePathKey ==> k in r && r[k] == kwargs[k]
  {
    assert StreamKey != FilePathKey by {
      assert StreamKey[0] == 's' && FilePathKey[0] == 'p';
    }
    kwargs[StreamKey := Flag(true)][FilePathKey := Str(path)]
  }

  /** The committed record is one `_delete` recognises as file-backed, and it
      names the new temporary file. */
  lemma StreamRecordIsFileBacked(kwargs: map<string, Field>, path: string, files: map<string, seq<byte>>)
    requires path in files
    ensures BackingFile(Some(Record(StreamRecord(kwargs, path)))) == Some(Str(path))
    ensures FileBacked(Some(Record(StreamRecord(kwargs, path))), files) == Ok((path, files[path]))
  {
  }

  /** The file `_delete` may remove, corrected: only a backing file that lies
      in the content directory `dir`. */
  function OwnBackingFile(dir: string, v: Option<Value>): (r: Option<Field>)
    ensures r.Some? <==> BackingFile(v).Some? && BackingFile(v).value.Str? && InContentDir(dir, BackingFile(v).value.s)
    ensures r.Some? ==> r == BackingFile(v)
  {
    var b := BackingFile(v);
    if b.Some? && b.value.Str? && InContentDir(dir, b.value.s) then b else None
  }

  /** `_delete` as written: the files left after deleting the entry `v`. */
  function DeleteAsWritten(files: map<string, seq<byte>>, denied: set<string>, v: Option<Value>): (r: Result<map<string, seq<byte>>, OsError>)
    ensures r.Err? <==> BackingFile(v).Some? && (!BackingFile(v).value.Str? || BackingFile(v).value.s in denied)
    ensures r.Ok? && BackingFile(v).Some? ==> r.value.Keys == files.Keys - {BackingFile(v).value.s}
    ensures r.Ok? && BackingFile(v).None? ==> r.value == files
    ensures r.Ok? ==> forall p :: p in r.value ==> r.value[p] == files[p]
  {
    var b := BackingFile(v);
    if b.None? then Ok(files) else RemovePath(files, denied, b.value)
  }

  /** `_delete` corrected: the files left after deleting the entry `v`. */
  function DeleteCorrected(dir: string, files: map<string, seq<byte>>, denied: set<string>, v: Option<Value>): (r: Result<map<string, seq<byte>>, OsError>)
    ensures r.Ok? ==> forall p :: p in files && !InContentDir(dir, p) ==> p in r.value && r.value[p] == files[p]
  {
    var b := OwnBackingFile(dir, v);
    if b.None? then Ok(files) else RemovePath(files, denied, b.value)
  }

  /** As written, deleting a `meta` record of a cached image whose origin sent
      a header named `path` removes whatever file that header names. */
  lemma DeleteRemovesAnyPath()
    ensures var meta := Some(Record(map["content-type" := Str("image/png"), FilePathKey := Str("/srv/app/settings.py"),
                                        StreamKey := Flag(true), "REFERER" := Null]));
            var files := map["/srv/app/settings.py" := [1 as byte]];
            && DeleteAsWritten(files, {}, meta) == Ok(map[])
            && DeleteCorrected("/cache/djfiles", files, {}, meta) == Ok(files)
  {
    var dir, p := "/cache/djfiles", "/srv/app/settings.py";
    assert p[..|dir| + 1] != dir + "/" by {
      assert p[1] == 's' && (dir + "/")[1] == 'c';
    }
    var files := map[p := [1 as byte]];
    assert files - {p} == map[];
  }

  /** Corrected, deleting a committed stream record still removes its own
      temporary file, and only that file. */
  lemma DeleteRemovesOwnFile(dir: string, files: map<string, seq<byte>>, denied: set<string>, kwargs: map<string, Field>, path: string)
    requires InContentDir(dir, path) && path !in denied
    ensures DeleteCorrected(dir, files, denied, Some(Record(StreamRecord(kwargs, path)))) == Ok(files - {path})
  {
    assert BackingFile(Some(Record(StreamRecord(kwargs, path)))) == Some(Str(path));
  }
}
