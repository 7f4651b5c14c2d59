/** The storage driver base: the object and container records, the
    driver's connection arguments, the chunked download stream and saving
    a download to a file. The file system is a set of directories and a
    map from file paths to contents. */
module StorageBase {
  import opened Wrappers
  import opened PyValues
  import opened Utils

  /** Read size used when no chunk size is given. */
  const CHUNK_SIZE: int := 8096

  /** `chunk_size or CHUNK_SIZE`: a missing or zero size falls back. */
  function EffectiveChunkSize(chunkSize: Option<int>): (n: int)
    ensures n != 0
    ensures chunkSize.None? || chunkSize == Some(0) ==> n == CHUNK_SIZE
    ensures chunkSize.Some? && chunkSize.value != 0 ==> n == chunkSize.value
  {
    match chunkSize
    case None => CHUNK_SIZE
    case Some(n) => if n == 0 then CHUNK_SIZE else n
  }

  // ---------------------------------------------------------------------
  // Container and Object

  datatype Container = Container(name: string, extra: map<string, Value>)

  datatype StorageObject = StorageObject(
    name: string,
    size: int,
    hash: Option<string>,
    extra: map<string, Value>,
    metaData: map<string, Value>,
    container: Container)

  function NewContainer(name: string, extra: Option<map<string, Value>>): (c: Container)
    ensures c.name == name && c.extra == OrEmpty(extra)
  {
    Container(name, OrEmpty(extra))
  }

  /** `Object.__init__`: the hash argument is accepted and dropped, so a
      new object never has a hash. */
  function NewObject(name: string, size: int, hash: Option<string>, extra: Option<map<string, Value>>,
                     metaData: Option<map<string, Value>>, container: Container): (o: StorageObject)
    ensures o.hash == None
    ensures o.name == name && o.size == size && o.container == container
    ensures o.extra == OrEmpty(extra) && o.metaData == OrEmpty(metaData)
  {
    StorageObject(name, size, None, OrEmpty(extra), OrEmpty(metaData), container)
  }

  // ---------------------------------------------------------------------
  // StorageDriver.__init__

  /** An argument passed to the connection class, tagged with the driver
      parameter it came from. The tag is bookkeeping of the model: the
      program passes the bare values, and the callee binds them by position
      (`BindPositional`). */
  datatype ConnArg = KeyArg(key: string) | SecretArg(secret: string) | SecureArg(secure: bool)
                   | HostArg(host: string) | PortArg(port: int)

  function Optional<T>(x: Option<T>, tag: T -> ConnArg): seq<ConnArg> {
    if x.Some? then [tag(x.value)] else []
  }

  /** The argument list: the key, the secret if given, the secure flag, the
      host if given, the port if given. */
  function ConnectionArgs(key: string, secret: Option<string>, secure: bool, host: Option<string>,
                          port: Option<int>): seq<ConnArg> {
    [KeyArg(key)] + Optional(secret, s => SecretArg(s)) + [SecureArg(secure)]
    + Optional(host, h => HostArg(h)) + Optional(port, p => PortArg(p))
  }

  /** The parameters the argument list was built from, read back from it. */
  datatype DriverParams = DriverParams(key: string, secret: Option<string>, secure: bool,
                                       host: Option<string>, port: Option<int>)

  function SecretOf(a: ConnArg): Option<string> { if a.SecretArg? then Some(a.secret) else None }
  function SecureOf(a: ConnArg): Option<bool> { if a.SecureArg? then Some(a.secure) else None }
  function HostOf(a: ConnArg): Option<string> { if a.HostArg? then Some(a.host) else None }
  function PortOf(a: ConnArg): Option<int> { if a.PortArg? then Some(a.port) else None }

  /** The first argument `pick` recognises. */
  function Find<T>(args: seq<ConnArg>, pick: ConnArg -> Option<T>): Option<T> {
    if args == [] then None else if pick(args[0]).Some? then pick(args[0]) else Find(args[1..], pick)
  }

  lemma {:induction false} FindConcat<T>(a: seq<ConnArg>, b: seq<ConnArg>, pick: ConnArg -> Option<T>)
    ensures Find(a + b, pick) == if Find(a, pick).Some? then Find(a, pick) else Find(b, pick)
  {
    if a == [] {
      assert a + b == b;
    } else {
      assert (a + b)[0] == a[0] && (a + b)[1..] == a[1..] + b;
      FindConcat(a[1..], b, pick);
    }
  }

  /** Argument lists of the shape the constructor builds. */
  predicate WellFormedArgs(args: seq<ConnArg>) {
    && args != []
    && args[0].KeyArg?
    && Find(args, SecureOf).Some?
  }

  /** A binding by name, as keyword arguments would give: each parameter
      is read back by the tag of the argument it came from. */
  function BindByName(args: seq<ConnArg>): DriverParams
    requires WellFormedArgs(args)
  {
    DriverParams(args[0].key, Find(args, SecretOf), Find(args, SecureOf).value, Find(args, HostOf), Find(args, PortOf))
  }

  /** Python's `a or b` on optional values. */
  function Or<T>(a: Option<T>, b: Option<T>): Option<T> {
    if a.Some? then a else b
  }

  /** Searching the argument list searches its five parts in order. */
  lemma FindInConnectionArgs<T>(key: string, secret: Option<string>, secure: bool, host: Option<string>,
                                port: Option<int>, pick: ConnArg -> Option<T>)
    ensures Find(ConnectionArgs(key, secret, secure, host, port), pick) ==
      Or(pick(KeyArg(key)), Or(Find(Optional(secret, s => SecretArg(s)), pick), Or(pick(SecureArg(secure)),
        Or(Find(Optional(host, h => HostArg(h)), pick), Find(Optional(port, p => PortArg(p)), pick)))))
  {
    var k, sec := [KeyArg(key)], [SecureArg(secure)];
    var s := Optional(secret, s => SecretArg(s));
    var h := Optional(host, h => HostArg(h));
    var p := Optional(port, p => PortArg(p));
    assert ConnectionArgs(key, secret, secure, host, port) == k + s + sec + h + p;
    FindConcat(k, s, pick);
    FindConcat(k + s, sec, pick);
    FindConcat(k + s + sec, h, pick);
    FindConcat(k + s + sec + h, p, pick);
  }

  /** Bound by name, every driver parameter reaches its own slot: none is
      lost, duplicated or confused with another. This is what the argument
      list is evidently meant to convey; bound by position, as the program
      does, it is not (`CloudFiles.PositionalConnectionBinding`). */
  lemma CorrectedBindingRoundTrip(key: string, secret: Option<string>, secure: bool, host: Option<string>,
                                port: Option<int>)
    ensures WellFormedArgs(ConnectionArgs(key, secret, secure, host, port))
    ensures BindByName(ConnectionArgs(key, secret, secure, host, port)) == DriverParams(key, secret, secure, host, port)
  {
    FindInConnectionArgs(key, secret, secure, host, port, SecretOf);
    FindInConnectionArgs(key, secret, secure, host, port, SecureOf);
    FindInConnectionArgs(key, secret, secure, host, port, HostOf);
    FindInConnectionArgs(key, secret, secure, host, port, PortOf);
  }

  /** The key always comes first, and the secure flag sits right after the
      key, or after the secret when one is given; the host, when given,
      follows the secure flag, and the port, when given, comes last. */
  lemma ConnectionArgsPositions(key: string, secret: Option<string>, secure: bool, host: Option<string>,
                                port: Option<int>)
    ensures ConnectionArgs(key, secret, secure, host, port)[0] == KeyArg(key)
    ensures secret.None? ==> ConnectionArgs(key, secret, secure, host, port)[1] == SecureArg(secure)
    ensures secret.Some? ==> ConnectionArgs(key, secret, secure, host, port)[1] == SecretArg(secret.value)
    ensures secret.Some? ==> ConnectionArgs(key, secret, secure, host, port)[2] == SecureArg(secure)
    ensures |ConnectionArgs(key, secret, secure, host, port)| ==
      2 + (if secret.Some? then 1 else 0) + (if host.Some? then 1 else 0) + (if port.Some? then 1 else 0)
    ensures host.Some? ==>
      ConnectionArgs(key, secret, secure, host, port)[2 + (if secret.Some? then 1 else 0)] == HostArg(host.value)
    ensures port.Some? ==>
      ConnectionArgs(key, secret, secure, host, port)[|ConnectionArgs(key, secret, secure, host, port)| - 1]
        == PortArg(port.value)
  {
    var s := Optional(secret, s => SecretArg(s));
    var tail := Optional(host, h => HostArg(h)) + Optional(port, p => PortArg(p));
    assert ConnectionArgs(key, secret, secure, host, port) == [KeyArg(key)] + s + [SecureArg(secure)] + tail;
  }

  /** `f(*args)` against the parameters `params`, the first `required` of
      which have no default: argument `i` binds parameter `i`, whatever it
      came from, and too few or too many arguments raise TypeError. The
      parameters after the last argument keep their defaults. */
  function BindPositional(params: seq<string>, required: nat, args: seq<ConnArg>): (r: Outcome<seq<(string, ConnArg)>>)
    ensures r.Success? <==> required <= |args| <= |params|
    ensures r.Failure? ==> r.error == TypeError
    ensures r.Success? ==> |r.value| == |args| && forall i :: 0 <= i < |args| ==> r.value[i] == (params[i], args[i])
  {
    if |args| < required || |args| > |params| then Failure(TypeError)
    else Success(seq(|args|, i requires 0 <= i < |args| => (params[i], args[i])))
  }

  /** `StorageDriver.__init__` up to creating the connection, which is
      handed the list built here; the connection's own behaviour is not
      part of this model. */
  class StorageDriver {
    const key: string
    const secret: Option<string>
    const secure: bool
    var connectionArgs: seq<ConnArg>

    constructor (key: string, secret: Option<string>, secure: bool, host: Option<string>, port: Option<int>)
      ensures this.key == key && this.secret == secret && this.secure == secure
      ensures connectionArgs == ConnectionArgs(key, secret, secure, host, port)
    {
      this.key := key;
      this.secret := secret;
      this.secure := secure;
      var args := [KeyArg(key)];
      if secret.Some? {
        args := args + [SecretArg(secret.value)];
      }
      args := args + [SecureArg(secure)];
      if host.Some? {
        args := args + [HostArg(host.value)];
      }
      if port.Some? {
        args := args + [PortArg(port.value)];
      }
      connectionArgs := args;
    }
  }

  // ---------------------------------------------------------------------
  // _get_object_as_stream

  /** `_get_object_as_stream(response, chunkSize)`, run to exhaustion: it
      reads once, then yields and reads again while the data is non-empty,
      every read asking for the effective chunk size. */
  method GetObjectAsStream(response: Reader, chunkSize: Option<int>) returns (chunks: seq<Bytes>)
    modifies response
    ensures chunks == ChunksBeforeEmpty(old(response.pending))
    ensures response.pending == RemainingAfterEmpty(old(response.pending))
    ensures response.sizes == old(response.sizes) + Repeat(Some(EffectiveChunkSize(chunkSize)), |chunks| + 1)
  {
    var size := EffectiveChunkSize(chunkSize);
    chunks := [];
    ghost var before := response.pending;
    var dataRead := response.Read(Some(size));
    while |dataRead| > 0
      invariant dataRead == NextRead(before) && response.pending == AfterRead(before)
      invariant chunks + ChunksBeforeEmpty(before) == ChunksBeforeEmpty(old(response.pending))
      invariant RemainingAfterEmpty(before) == RemainingAfterEmpty(old(response.pending))
      invariant response.sizes == old(response.sizes) + Repeat(Some(size), |chunks| + 1)
      decreases |before|
    {
      assert ChunksBeforeEmpty(before) == [dataRead] + ChunksBeforeEmpty(response.pending);
      chunks := chunks + [dataRead];
      before := response.pending;
      dataRead := response.Read(Some(size));
    }
    assert ChunksBeforeEmpty(before) == [];
    assert chunks + [] == chunks;
  }

  // ---------------------------------------------------------------------
  // _save_object

  predicate EndsWithSlash(s: string) { s != [] && s[|s| - 1] == '/' }

  /** POSIX `os.path.join(dir, name)`: an absolute name replaces the
      directory, and a separator is inserted only when missing. */
  function JoinPath(dir: string, name: string): (p: string)
    ensures name != [] && name[0] == '/' ==> p == name
    ensures (name == [] || name[0] != '/') && (dir == [] || EndsWithSlash(dir)) ==> p == dir + name
    ensures (name == [] || name[0] != '/') && dir != [] && !EndsWithSlash(dir) ==> p == dir + "/" + name
  {
    if name != [] && name[0] == '/' then name
    else if dir == [] || EndsWithSlash(dir) then dir + name
    else dir + "/" + name
  }

  /** The joined path ends with the object's name. */
  lemma JoinPathEndsWithName(dir: string, name: string)
    ensures |JoinPath(dir, name)| >= |name|
    ensures JoinPath(dir, name)[|JoinPath(dir, name)| - |name|..] == name
  {
    var p := JoinPath(dir, name);
    if name != [] && name[0] == '/' {
    } else if dir == [] || EndsWithSlash(dir) {
      assert p == dir + name;
    } else {
      assert p == (dir + "/") + name;
    }
  }

  class FileSystem {
    var dirs: set<string>
    var files: map<string, Bytes>

    constructor (dirs: set<string>, files: map<string, Bytes>)
      ensures this.dirs == dirs && this.files == files
    {
      this.dirs := dirs;
      this.files := files;
    }

    /** `os.path.exists`. */
    predicate Exists(path: string)
      reads this
    {
      path in dirs || path in files
    }
  }

  function PathMissing(dest: string): Error {
    LibcloudError(Str("Path " + dest + " does not exist"))
  }

  function FileExists(filePath: string): Error {
    LibcloudError(Str("File " + filePath + " already exists, but overwrite_existing=False"))
  }

  /** What `_save_object` does once both path checks pass and the first
      chunk is in hand: the outcome and the files afterwards. */
  function SaveResult(obj: StorageObject, filePath: string, deleteOnFailure: bool,
                      data: Bytes, files: map<string, Bytes>): (bool, map<string, Bytes>)
  {
    if obj.size != |data| then (false, if deleteOnFailure then files - {filePath} else files[filePath := data])
    else (true, files[filePath := data])
  }

  /** What `_save_object(response, obj, dest, overwrite, deleteOnFailure)`
      does, between the state before it and the state after. The checks
      come first: a missing destination and an existing file without
      `overwrite` raise. The first chunk is read before the file is opened,
      so an empty download raises StopIteration and creates no file, and
      opening a directory raises IOError. Otherwise every chunk is written,
      the result says whether the byte count equals the object's size, and
      on a mismatch the file is removed when asked. */
  twostate predicate SavedObject(response: Reader, fs: FileSystem, obj: StorageObject, dest: string,
                                 overwrite: bool, deleteOnFailure: bool, new r: Outcome<bool>)
    reads response, fs
  {
    var filePath := JoinPath(dest, obj.name);
    var checked := old(fs.Exists(dest)) && (overwrite || !old(fs.Exists(filePath)));
    && (!old(fs.Exists(dest)) ==>
          r == Failure(PathMissing(dest)) && unchanged(fs) && unchanged(response))
    && (old(fs.Exists(dest)) && old(fs.Exists(filePath)) && !overwrite ==>
          r == Failure(FileExists(filePath)) && unchanged(fs) && unchanged(response))
    && (checked && NextRead(old(response.pending)) == [] ==>
          r == Failure(StopIteration) && unchanged(fs) && response.pending == AfterRead(old(response.pending)))
    && (checked && NextRead(old(response.pending)) != [] && filePath in old(fs.dirs) ==>
          r == Failure(IOError(filePath)) && unchanged(fs) && response.pending == AfterRead(old(response.pending)))
    && (checked && NextRead(old(response.pending)) != [] && filePath !in old(fs.dirs) ==>
          var data := Flatten(ChunksBeforeEmpty(old(response.pending)));
          var (ok, files) := SaveResult(obj, filePath, deleteOnFailure, data, old(fs.files));
          && r == Success(ok)
          && fs.dirs == old(fs.dirs) && fs.files == files
          && response.pending == RemainingAfterEmpty(old(response.pending)))
  }

  /** `_save_object`, writing the chunks one by one as they are read. */
  method SaveObject(response: Reader, fs: FileSystem, obj: StorageObject, dest: string,
                    overwrite: bool, deleteOnFailure: bool) returns (r: Outcome<bool>)
    modifies response, fs
    ensures SavedObject(response, fs, obj, dest, overwrite, deleteOnFailure, r)
  {
    if !fs.Exists(dest) {
      return Failure(PathMissing(dest));
    }
    var filePath := JoinPath(dest, obj.name);
    if fs.Exists(filePath) && !overwrite {
      return Failure(FileExists(filePath));
    }
    ghost var before := response.pending;
    var dataRead := response.Read(Some(CHUNK_SIZE));
    if |dataRead| == 0 {
      return Failure(StopIteration);
    }
    if filePath in fs.dirs {
      return Failure(IOError(filePath));
    }
    assert before == [dataRead] + response.pending;
    fs.files := fs.files[filePath := []];
    var bytesTransferred := WriteChunks(response, fs, filePath, dataRead);
    FlattenLength(ChunksBeforeEmpty(before));
    if obj.size != bytesTransferred {
      if deleteOnFailure {
        fs.files := fs.files - {filePath};
      }
      return Success(false);
    }
    return Success(true);
  }

  /** The write loop of `_save_object`, entered with the first chunk in
      hand and the file just opened empty: each chunk is appended and
      counted, and the next one read, until a read comes back empty. */
  method WriteChunks(response: Reader, fs: FileSystem, filePath: string, first: Bytes)
      returns (bytesTransferred: nat)
    requires filePath in fs.files && fs.files[filePath] == []
    modifies response, fs
    ensures fs.dirs == old(fs.dirs)
    ensures fs.files == old(fs.files)[filePath := Flatten(ChunksBeforeEmpty([first] + old(response.pending)))]
    ensures bytesTransferred == TotalLength(ChunksBeforeEmpty([first] + old(response.pending)))
    ensures response.pending == RemainingAfterEmpty([first] + old(response.pending))
  {
    ghost var replies := [first] + response.pending;
    assert replies[1..] == response.pending;
    var dataRead := first;
    bytesTransferred := 0;
    ghost var written: seq<Bytes> := [];
    ghost var before := replies;
    while |dataRead| > 0
      invariant dataRead == NextRead(before) && response.pending == AfterRead(before)
      invariant written + ChunksBeforeEmpty(before) == ChunksBeforeEmpty(replies)
      invariant RemainingAfterEmpty(before) == RemainingAfterEmpty(replies)
      invariant fs.dirs == old(fs.dirs) && fs.files == old(fs.files)[filePath := Flatten(written)]
      invariant bytesTransferred == TotalLength(written)
      decreases |before|
    {
      WriteStep(written, before);
      fs.files := fs.files[filePath := fs.files[filePath] + dataRead];
      bytesTransferred := bytesTransferred + |dataRead|;
      written := written + [dataRead];
      before := response.pending;
      dataRead := response.Read(Some(CHUNK_SIZE));
    }
    assert ChunksBeforeEmpty(before) == [];
    assert written == ChunksBeforeEmpty(replies);
  }

  /** One turn of the write loop: the chunk in hand moves from the chunks
      still to come to those written. */
  lemma WriteStep(written: seq<Bytes>, before: seq<Bytes>)
    requires NextRead(before) != []
    ensures written + [before[0]] + ChunksBeforeEmpty(before[1..]) == written + ChunksBeforeEmpty(before)
    ensures RemainingAfterEmpty(before[1..]) == RemainingAfterEmpty(before)
    ensures Flatten(written + [before[0]]) == Flatten(written) + before[0]
    ensures TotalLength(written + [before[0]]) == TotalLength(written) + |before[0]|
  {
    FlattenConcat(written, [before[0]]);
    assert Flatten([before[0]]) == before[0];
    TotalLengthConcat(written, [before[0]]);
  }

  lemma {:induction false} TotalLengthConcat<T>(a: seq<seq<T>>, b: seq<seq<T>>)
    ensures TotalLength(a + b) == TotalLength(a) + TotalLength(b)
  {
    if a == [] {
      assert a + b == b;
    } else {
      assert (a + b)[1..] == a[1..] + b;
      TotalLengthConcat(a[1..], b);
    }
  }

  /** The download reports success exactly when the bytes written add up to
      the object's size; the file is then in place with those bytes. */
  lemma SaveResultSpec(obj: StorageObject, filePath: string, deleteOnFailure: bool,
                       chunks: seq<Bytes>, files: map<string, Bytes>)
    ensures SaveResult(obj, filePath, deleteOnFailure, Flatten(chunks), files).0 <==> obj.size == TotalLength(chunks)
    ensures obj.size == TotalLength(chunks) ==>
      SaveResult(obj, filePath, deleteOnFailure, Flatten(chunks), files).1 == files[filePath := Flatten(chunks)]
    ensures obj.size != TotalLength(chunks) && deleteOnFailure ==>
      filePath !in SaveResult(obj, filePath, deleteOnFailure, Flatten(chunks), files).1
    ensures obj.size != TotalLength(chunks) && !deleteOnFailure ==>
      SaveResult(obj, filePath, deleteOnFailure, Flatten(chunks), files).1[filePath] == Flatten(chunks)
    ensures forall p :: p in files && p != filePath ==>
      p in SaveResult(obj, filePath, deleteOnFailure, Flatten(chunks), files).1 &&
      SaveResult(obj, filePath, deleteOnFailure, Flatten(chunks), files).1[p] == files[p]
  {
    FlattenLength(chunks);
  }
}
