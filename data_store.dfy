/**
 * `Dragonfly::MantaDataStore`: the adapter that stores Dragonfly content in
 * Manta. Its configuration attributes are public fields; the storage client
 * is the in-memory `RubyMantaStub`.
 */
module DataStore {
  import opened Wrappers
  import opened RubyText
  import opened MantaTypes
  import opened MantaStub
  import opened Uid
  import opened Paths

  /** `self.class.name`, as it appears in messages. */
  const ClassName := "Dragonfly::MantaDataStore"

  // ---------------------------------------------------------------------------
  // Errors

  /**
   * What the adapter raises: `NotConfigured`, the `RuntimeError` of an
   * unknown region, or an error coming from the storage client.
   */
  datatype Error =
    | NotConfigured(attribute: string)
    | InvalidRegion(region: string, validRegions: seq<string>)
    | Storage(cause: StorageError)

  /** `names.join(', ')` */
  function CommaJoin(names: seq<string>): string {
    if |names| == 0 then ""
    else if |names| == 1 then names[0]
    else CommaJoin(names[..|names| - 1]) + ", " + names[|names| - 1]
  }

  /** `e.to_s` for a client error: the class name when there is no message. */
  function StorageMessage(e: StorageError): string {
    match e
    case ResourceNotFound => "RubyManta::MantaClient::ResourceNotFound"
    case UnknownError => "RubyManta::MantaClient::UnknownError"
    case OtherError(message) => message
  }

  /** The message an error is raised with. */
  function Message(e: Error): string {
    match e
    case NotConfigured(attribute) => "You need to configure " + ClassName + " with " + attribute
    case InvalidRegion(region, valid) => "Invalid region " + region + " - should be one of " + CommaJoin(valid)
    case Storage(cause) => StorageMessage(cause)
  }

  // ---------------------------------------------------------------------------
  // Regions

  /** `REGIONS`, in insertion order: region name and host. */
  const Regions: seq<(string, string)> := [("us-east", "us-east.manta.joyent.com")]

  /** `valid_regions`: `REGIONS.keys`. */
  function RegionNames(): seq<string> {
    seq(|Regions|, i requires 0 <= i < |Regions| => Regions[i].0)
  }

  /** `REGIONS[name]`: nil for a name that is not a key. */
  function LookupHost(table: seq<(string, string)>, name: string): Option<string> {
    if table == [] then None
    else if table[0].0 == name then Some(table[0].1)
    else LookupHost(table[1..], name)
  }

  /** `get_region`: the configured region when it is a key of `REGIONS`. */
  function GetRegion(region: string): (r: Result<string, Error>)
    ensures r.Success? <==> region == "us-east"
    ensures r.Success? ==> r.value == region
    ensures r.Failure? ==> Message(r.error) == "Invalid region " + region + " - should be one of us-east"
  {
    assert RegionNames() == ["us-east"];
    if region in RegionNames() then Success(region)
    else Failure(InvalidRegion(region, RegionNames()))
  }

  /**
   * `domain` and `region_host`: the host of the configured region. The only
   * region is "us-east"; any other raises an error naming it.
   */
  function Domain(region: string): (r: Result<Option<string>, Error>)
    ensures r.Success? <==> region == "us-east"
    ensures r.Success? ==> r.value == Some("us-east.manta.joyent.com")
    ensures r.Failure? ==> r.error == InvalidRegion(region, ["us-east"])
    ensures r.Failure? ==> Message(r.error) == "Invalid region " + region + " - should be one of us-east"
  {
    assert RegionNames() == ["us-east"];
    match GetRegion(region)
    case Failure(e) => Failure(e)
    case Success(name) => Success(LookupHost(Regions, name))
  }

  // ---------------------------------------------------------------------------
  // Configuration

  /** The attributes `ensure_configured` checks, in the order it checks them. */
  function ConfigAttributes(directory: Option<string>, url: Option<string>, user: Option<string>,
                            key: Option<string>): seq<(string, Option<string>)> {
    [("directory", directory), ("url", url), ("user", user), ("key", key)]
  }

  /** The name of the first nil attribute, if any. */
  function FirstUnset(attributes: seq<(string, Option<string>)>): (r: Option<string>)
    ensures r.None? <==> forall i :: 0 <= i < |attributes| ==> attributes[i].1.Some?
    ensures r.Some? ==> exists i :: 0 <= i < |attributes| && attributes[i] == (r.value, None)
                                    && forall j :: 0 <= j < i ==> attributes[j].1.Some?
  {
    if attributes == [] then None
    else if attributes[0].1.None? then Some(attributes[0].0)
    else
      var r := FirstUnset(attributes[1..]);
      assert r.Some? ==> exists i :: 1 <= i < |attributes| && attributes[i] == (r.value, None)
                                     && forall j :: 1 <= j < i ==> attributes[j].1.Some?;
      r
  }

  /**
   * What `ensure_configured` raises when it runs: NotConfigured naming the
   * first nil among directory, url, user and key, in that order.
   */
  function ConfigError(directory: Option<string>, url: Option<string>, user: Option<string>,
                       key: Option<string>): (r: Option<Error>)
    ensures r.None? <==> directory.Some? && url.Some? && user.Some? && key.Some?
    ensures directory.None? ==> r == Some(NotConfigured("directory"))
    ensures directory.Some? && url.None? ==> r == Some(NotConfigured("url"))
    ensures directory.Some? && url.Some? && user.None? ==> r == Some(NotConfigured("user"))
    ensures directory.Some? && url.Some? && user.Some? && key.None? ==> r == Some(NotConfigured("key"))
  {
    var attributes := ConfigAttributes(directory, url, user, key);
    var fromUrl, fromUser, fromKey := attributes[1..], attributes[2..], attributes[3..];
    assert fromUrl[1..] == fromUser && fromUser[1..] == fromKey && fromKey[1..] == [];
    assert FirstUnset(fromKey) == if key.None? then Some("key") else None;
    assert FirstUnset(fromUser) == if user.None? then Some("user") else FirstUnset(fromKey);
    assert FirstUnset(fromUrl) == if url.None? then Some("url") else FirstUnset(fromUser);
    assert FirstUnset(attributes) == if directory.None? then Some("directory") else FirstUnset(fromUrl);
    match FirstUnset(attributes)
    case None => None
    case Some(name) => Some(NotConfigured(name))
  }

  /** The options `initialize` reads; nil where the caller gave none. */
  datatype StoreOptions = StoreOptions(
    directory: Option<string>, url: Option<string>, user: Option<string>, key: Option<string>,
    durabilityLevel: Option<int>, region: Option<string>, urlScheme: Option<string>,
    urlHost: Option<string>, rootPath: Option<string>, storageHeaders: Option<Headers>)

  /** The options of `write`: a fixed path and extra headers. */
  datatype WriteOptions = WriteOptions(path: Option<string>, headers: Option<Headers>)

  /** The options of `url_for`. */
  datatype UrlOptions = UrlOptions(expires: Option<nat>, scheme: Option<string>, host: Option<string>)

  /**
   * What `write` needs of a `Dragonfly::Content`: its name, MIME type,
   * metadata and bytes.
   */
  datatype Content = Content(name: Option<string>, mimeType: string, meta: Meta, data: Bytes)

  // ---------------------------------------------------------------------------
  // Uids and headers

  /**
   * The uid `store_content` stores under: `options[:path]` verbatim, or a
   * generated uid for the content name (or "file").
   */
  function WriteUid(path: Option<string>, name: Option<string>, now: Time, rnd: nat): (uid: string)
    ensures path.Some? ==> uid == path.value
    ensures path.None? ==> NoSlash(uid) && AllKept(uid) && EndsWith(uid, Sanitize(name.GetOr("file")))
  {
    match path
    case Some(p) => p
    case None => GenerateUid(now, rnd, name.GetOr("file"))
  }

  const ContentType: HeaderKey := Sym("content_type")
  const DurabilityKey: HeaderKey := Str("durability_level")

  /** `meta_to_header(meta)`: the encoded metadata under `:m_dragonfly`. */
  function MetaToHeader(meta: Meta): (r: Headers)
    ensures r.Keys == {MetaSymbol}
    ensures RenameMetaKey(r)[MetaString] == Json(meta)
  {
    map[MetaSymbol := Json(meta)]
  }

  /**
   * `headers_to_meta(headers)`: the metadata decoded from `"m-dragonfly"`;
   * nil when that header is missing or nil or holds anything else.
   */
  function HeadersToMeta(headers: Headers): (r: Option<Meta>)
    ensures r.Some? <==> MetaString in headers && headers[MetaString].Json?
    ensures forall meta :: headers == RenameMetaKey(MetaToHeader(meta)) ==> r == Some(meta)
  {
    if MetaString in headers && headers[MetaString].Json? then Some(headers[MetaString].meta) else None
  }

  /** `full_storage_headers(headers)`: durability, then the instance headers, then `headers`. */
  function FullStorageHeaders(durabilityLevel: int, storageHeaders: Headers, headers: Headers): (r: Headers)
    ensures forall k :: k in r <==> k == DurabilityKey || k in storageHeaders || k in headers
    ensures forall k :: k in headers ==> r[k] == headers[k]
    ensures forall k :: k in storageHeaders && k !in headers ==> r[k] == storageHeaders[k]
    ensures DurabilityKey !in storageHeaders && DurabilityKey !in headers ==> r[DurabilityKey] == Int(durabilityLevel)
  {
    map[DurabilityKey := Int(durabilityLevel)] + storageHeaders + headers
  }

  /** `Hash#merge` over a list of hashes: a later hash wins on a shared key. */
  function MergeAll(layers: seq<Headers>): Headers {
    if layers == [] then map[] else MergeAll(layers[..|layers| - 1]) + layers[|layers| - 1]
  }

  lemma MergeAssociative(a: Headers, b: Headers, c: Headers)
    ensures a + (b + c) == a + b + c
  {
  }

  lemma MergeFive(layers: seq<Headers>)
    requires |layers| == 5
    ensures MergeAll(layers) == layers[0] + layers[1] + layers[2] + layers[3] + layers[4]
  {
    assert layers[..1][..0] == [];
    assert MergeAll(layers[..1]) == map[] + layers[0] == layers[0];
    assert layers[..2][..1] == layers[..1];
    assert MergeAll(layers[..2]) == layers[0] + layers[1];
    assert layers[..3][..2] == layers[..2];
    assert MergeAll(layers[..3]) == layers[0] + layers[1] + layers[2];
    assert layers[..4][..3] == layers[..3];
    assert MergeAll(layers[..4]) == layers[0] + layers[1] + layers[2] + layers[3];
    assert layers[..4] == layers[..|layers| - 1];
  }

  /**
   * The hashes a written object's headers are merged from, lowest
   * precedence first: durability, the instance's storage headers, the
   * content type, the metadata, and the per-call headers.
   */
  function HeaderLayers(durabilityLevel: int, storageHeaders: Headers, content: Content,
                        options: WriteOptions): seq<Headers> {
    [map[DurabilityKey := Int(durabilityLevel)], storageHeaders,
     map[ContentType := Text(content.mimeType)], MetaToHeader(content.meta),
     options.headers.GetOr(map[])]
  }

  /**
   * The headers `store_content` builds with `merge!`, passed through
   * `full_storage_headers`, are the merge of the layers in order.
   */
  lemma StoredHeadersMerged(durabilityLevel: int, storageHeaders: Headers, content: Content,
                            options: WriteOptions, headers: Headers)
    requires var base := map[ContentType := Text(content.mimeType)] + MetaToHeader(content.meta);
             headers == if options.headers.Some? then base + options.headers.value else base
    ensures FullStorageHeaders(durabilityLevel, storageHeaders, headers)
            == MergeAll(HeaderLayers(durabilityLevel, storageHeaders, content, options))
  {
    var layers := HeaderLayers(durabilityLevel, storageHeaders, content, options);
    MergeFive(layers);
    var low := layers[0] + layers[1];
    var base := layers[2] + layers[3];
    if options.headers.None? {
      assert base + map[] == base;
    }
    assert headers == base + layers[4];
    MergeAssociative(low, base, layers[4]);
    MergeAssociative(low, layers[2], layers[3]);
  }

  /**
   * The value each key of the stored headers gets: the per-call header when
   * there is one, else the content type or the metadata, else the instance
   * storage header, else the durability level; and no other keys.
   */
  lemma HeaderPrecedence(durabilityLevel: int, storageHeaders: Headers, content: Content,
                         options: WriteOptions, k: HeaderKey)
    ensures var h := MergeAll(HeaderLayers(durabilityLevel, storageHeaders, content, options));
            var perCall := options.headers.GetOr(map[]);
      && (k in h <==> k in perCall || k == ContentType || k == MetaSymbol || k in storageHeaders || k == DurabilityKey)
      && (k in perCall ==> h[k] == perCall[k])
      && (k !in perCall && k == ContentType ==> h[k] == Text(content.mimeType))
      && (k !in perCall && k == MetaSymbol ==> h[k] == Json(content.meta))
      && (k !in perCall && k != ContentType && k != MetaSymbol && k in storageHeaders ==> h[k] == storageHeaders[k])
      && (k !in perCall && k != ContentType && k != MetaSymbol && k !in storageHeaders && k == DurabilityKey
          ==> h[k] == Int(durabilityLevel))
  {
    var layers := HeaderLayers(durabilityLevel, storageHeaders, content, options);
    MergeFive(layers);
  }

  /**
   * The metadata read back is the metadata written, as long as the
   * per-call headers do not replace `:m_dragonfly`.
   */
  lemma MetadataRoundTrip(durabilityLevel: int, storageHeaders: Headers, content: Content,
                          options: WriteOptions)
    requires MetaSymbol !in options.headers.GetOr(map[])
    ensures HeadersToMeta(RenameMetaKey(MergeAll(HeaderLayers(durabilityLevel, storageHeaders, content, options))))
            == Some(content.meta)
  {
    HeaderPrecedence(durabilityLevel, storageHeaders, content, options, MetaSymbol);
  }

  // ---------------------------------------------------------------------------
  // The adapter

  class MantaDataStore {
    /** The configuration attributes (`attr_accessor`); callers may reassign them. */
    var directory: Option<string>
    var url: Option<string>
    var user: Option<string>
    var key: Option<string>
    var durabilityLevel: int
    var region: string
    var urlScheme: string
    var urlHost: Option<string>
    var rootPath: Option<string>
    var storageHeaders: Headers

    /** `@configured`: the configuration check has passed once. */
    var configured: bool
    /** `@directory_created`: the public directory has been probed (and made). */
    var directoryCreated: bool

    /** `storage`: the client the adapter talks to. */
    const storage: RubyMantaStub

    /** `initialize(options)`, with the defaults for the options left nil. */
    constructor (options: StoreOptions, client: RubyMantaStub)
      ensures directory == options.directory && url == options.url
      ensures user == options.user && key == options.key
      ensures durabilityLevel == options.durabilityLevel.GetOr(2)
      ensures region == options.region.GetOr("us-east")
      ensures urlScheme == options.urlScheme.GetOr("http")
      ensures urlHost == options.urlHost && rootPath == options.rootPath
      ensures storageHeaders == options.storageHeaders.GetOr(map[])
      ensures !configured && !directoryCreated && storage == client
    {
      directory := options.directory;
      url := options.url;
      user := options.user;
      key := options.key;
      durabilityLevel := options.durabilityLevel.GetOr(2);
      region := options.region.GetOr(RegionNames()[0]);
      urlScheme := options.urlScheme.GetOr("http");
      urlHost := options.urlHost;
      rootPath := options.rootPath;
      storageHeaders := options.storageHeaders.GetOr(map[]);
      configured := false;
      directoryCreated := false;
      storage := client;
    }

    function PublicDir(): string
      reads this`user, this`directory
    {
      PublicDirectory(user, directory)
    }

    function ObjectPath(uid: string): string
      reads this`user, this`directory, this`rootPath
    {
      FullPath(PublicDir(), rootPath, uid)
    }

    function Unconfigured(): Option<Error>
      reads this`directory, this`url, this`user, this`key
    {
      ConfigError(directory, url, user, key)
    }

    /**
     * `ensure_configured`: checks the attributes one by one until the first
     * nil, unless a check already passed; a passing check is remembered, so
     * attributes cleared afterwards are not checked again.
     */
    method EnsureConfigured() returns (err: Option<Error>)
      modifies this`configured
      ensures err == (if old(configured) then None else old(Unconfigured()))
      ensures configured == (old(configured) || old(Unconfigured()).None?)
    {
      if !configured {
        var attributes := ConfigAttributes(directory, url, user, key);
        var i := 0;
        while i < |attributes|
          invariant 0 <= i <= |attributes|
          invariant FirstUnset(attributes) == FirstUnset(attributes[i..])
        {
          if attributes[i].1.None? {
            return Some(NotConfigured(attributes[i].0));
          }
          assert attributes[i..][1..] == attributes[i + 1..];
          i := i + 1;
        }
        configured := true;
      }
      err := None;
    }

    /**
     * `directory_exists?`: lists the public directory; an UnknownError means
     * it is missing. Changes nothing but the client's log of listings.
     */
    method DirectoryExists() returns (r: Result<bool, Error>)
      modifies storage`listCalls
      ensures r == Success(PublicDir() in storage.directories)
      ensures storage.listCalls == old(storage.listCalls) + [PublicDir()]
    {
      var listing := storage.ListDirectory(PublicDir(), true);
      match listing
      case Success(_) => r := Success(true);
      case Failure(UnknownError) => r := Success(false);
      case Failure(e) => r := Failure(Storage(e));
    }

    /**
     * The directories `ensure_directory` creates: the public directory, when
     * no probe has succeeded yet and it is missing.
     */
    function ProvisionCalls(): seq<string>
      reads this`directoryCreated, this`user, this`directory, storage`directories
    {
      if directoryCreated || PublicDir() in storage.directories then [] else [PublicDir()]
    }

    /**
     * `ensure_directory`: on the first call only, probes the public
     * directory and creates it when it is missing.
     */
    method EnsureDirectory() returns (err: Option<Error>)
      modifies this`directoryCreated, storage`directories, storage`directoryCalls, storage`listCalls
      ensures err == None && directoryCreated
      ensures storage.listCalls == old(storage.listCalls) + (if old(directoryCreated) then [] else [PublicDir()])
      ensures storage.directoryCalls == old(storage.directoryCalls) + old(ProvisionCalls())
      ensures forall d :: d in storage.directories <==> d in old(storage.directories) || d in old(ProvisionCalls())
      ensures old(directoryCreated) || PublicDir() in storage.directories
    {
      if !directoryCreated {
        var found := DirectoryExists();
        match found {
          case Failure(e) => return Some(e);
          case Success(true) =>
          case Success(false) =>
            err := Mkdir(PublicDir());
            if err.Some? {
              return;
            }
        }
        directoryCreated := true;
      }
      err := None;
    }

    /**
     * `mkdir_with_intermediates(path)`: for each prefix of the components of
     * `path`, creates it when it is non-empty and starts with the public
     * directory.
     */
    method MkdirWithIntermediates(path: string) returns (err: Option<Error>)
      modifies storage`directories, storage`directoryCalls
      ensures err == None
      ensures storage.directoryCalls == old(storage.directoryCalls) + MkdirPlan(PublicDir(), path)
      ensures forall d :: d in storage.directories <==> d in old(storage.directories) || d in MkdirPlan(PublicDir(), path)
    {
      var components := Split(path);
      var publicDirectory := PublicDir();
      var index := 0;
      while index < |components|
        invariant 0 <= index <= |components|
        invariant storage.directoryCalls
                    == old(storage.directoryCalls) + DirectoriesToMake(publicDirectory, components, index)
        invariant forall d :: d in storage.directories
                    <==> d in old(storage.directories) || d in DirectoriesToMake(publicDirectory, components, index)
      {
        err := MkdirStep(publicDirectory, components, index,
                         old(storage.directoryCalls), old(storage.directories));
        if err.Some? {
          return;
        }
        index := index + 1;
      }
      assert MkdirPlan(PublicDir(), path) == DirectoriesToMake(publicDirectory, components, |components|);
      err := None;
    }

    /**
     * The block `mkdir_with_intermediates` runs for step `index`: joins the
     * first `index + 1` components and makes the result when it qualifies.
     * A log and a set recording the first `index` steps then record one more.
     */
    method MkdirStep(publicDirectory: string, components: seq<string>, index: nat,
                     ghost calls0: seq<string>, ghost dirs0: set<string>)
      returns (err: Option<Error>)
      requires index < |components|
      requires storage.directoryCalls == calls0 + DirectoriesToMake(publicDirectory, components, index)
      requires forall d :: d in storage.directories
                 <==> d in dirs0 || d in DirectoriesToMake(publicDirectory, components, index)
      modifies storage`directories, storage`directoryCalls
      ensures err == None
      ensures storage.directoryCalls == calls0 + DirectoriesToMake(publicDirectory, components, index + 1)
      ensures forall d :: d in storage.directories
                <==> d in dirs0 || d in DirectoriesToMake(publicDirectory, components, index + 1)
    {
      var pathToMake := Join(components[..index + 1]);
      if StartsWith(pathToMake, publicDirectory) && pathToMake != "" {
        DirectoriesToMakeGrows(publicDirectory, components, index, calls0);
        err := Mkdir(pathToMake);
      } else {
        DirectoriesToMakeSkips(publicDirectory, components, index);
        err := None;
      }
    }

    /** `mkdir(path)`: one `put_directory` call; a client error propagates. */
    method Mkdir(path: string) returns (err: Option<Error>)
      modifies storage`directories, storage`directoryCalls
      ensures err == None
      ensures storage.directoryCalls == old(storage.directoryCalls) + [path]
      ensures storage.directories == old(storage.directories) + {path}
    {
      var result := storage.PutDirectory(path);
      match result {
        case Failure(e) => return Some(Storage(e));
        case Success(_) => return None;
      }
    }

    /** `mkdir_for_file_path(file)`: creates the directories above `file`. */
    method MkdirForFilePath(filePath: string) returns (err: Option<Error>)
      modifies storage`directories, storage`directoryCalls
      ensures err == None
      ensures storage.directoryCalls
                == old(storage.directoryCalls) + MkdirPlan(PublicDir(), ParentDirectory(filePath))
      ensures forall d :: d in storage.directories
                <==> d in old(storage.directories) || d in MkdirPlan(PublicDir(), ParentDirectory(filePath))
    {
      err := MkdirWithIntermediates(ParentDirectory(filePath));
    }

    /**
     * `store_content`: picks the uid, merges the headers, creates the
     * directories above the object and puts it. `now` and `rnd` stand for
     * the clock and `rand(1000)`.
     */
    method StoreContent(content: Content, options: WriteOptions, now: Time, rnd: nat)
      returns (r: Result<string, Error>)
      modifies storage`directories, storage`directoryCalls, storage`store
      ensures r == Success(WriteUid(options.path, content.name, now, rnd))
      ensures storage.store == old(storage.store)[ObjectPath(r.value) :=
                StoredObject(MergeAll(HeaderLayers(durabilityLevel, storageHeaders, content, options)), content.data)]
      ensures storage.directoryCalls
                == old(storage.directoryCalls) + MkdirPlan(PublicDir(), ParentDirectory(ObjectPath(r.value)))
      ensures forall d :: d in storage.directories <==>
                d in old(storage.directories) || d in MkdirPlan(PublicDir(), ParentDirectory(ObjectPath(r.value)))
    {
      var uid := WriteUid(options.path, content.name, now, rnd);
      var headers := map[ContentType := Text(content.mimeType)];
      headers := headers + MetaToHeader(content.meta);
      if options.headers.Some? {
        headers := headers + options.headers.value;
      }
      var path := ObjectPath(uid);
      var err := MkdirForFilePath(path);
      match err {
        case Some(e) => return Failure(e);
        case None =>
      }
      var full := FullStorageHeaders(durabilityLevel, storageHeaders, headers);
      StoredHeadersMerged(durabilityLevel, storageHeaders, content, options, headers);
      var put := storage.PutObject(path, content.data, full);
      match put {
        case Failure(e) => return Failure(Storage(e));
        case Success(_) =>
      }
      r := Success(uid);
    }

    /**
     * `write`: checks the configuration, provisions the public directory
     * once, then stores the content and returns its uid.
     */
    method Write(content: Content, options: WriteOptions, now: Time, rnd: nat)
      returns (r: Result<string, Error>)
      modifies this`configured, this`directoryCreated
      modifies storage`directories, storage`directoryCalls, storage`store, storage`listCalls
      ensures configured == (old(configured) || old(Unconfigured()).None?)
      ensures r.Failure? <==> !old(configured) && old(Unconfigured()).Some?
      ensures r.Failure? ==> Some(r.error) == old(Unconfigured()) && directoryCreated == old(directoryCreated)
                             && unchanged(storage)
      ensures r.Success? ==> r.value == WriteUid(options.path, content.name, now, rnd) && directoryCreated
      ensures r.Success? ==> storage.listCalls == old(storage.listCalls) + (if old(directoryCreated) then [] else [PublicDir()])
      ensures r.Success? ==> storage.store == old(storage.store)[ObjectPath(r.value) :=
                StoredObject(MergeAll(HeaderLayers(durabilityLevel, storageHeaders, content, options)), content.data)]
      ensures r.Success? ==> storage.directoryCalls == old(storage.directoryCalls) + old(ProvisionCalls())
                               + MkdirPlan(PublicDir(), ParentDirectory(ObjectPath(r.value)))
      ensures r.Success? ==> forall d :: d in storage.directories <==>
                               (d in old(storage.directories) || d in old(ProvisionCalls())
                                || d in MkdirPlan(PublicDir(), ParentDirectory(ObjectPath(r.value))))
    {
      ghost var provision := ProvisionCalls();
      var err := EnsureConfigured();
      if err.Some? {
        return Failure(err.value);
      }
      assert ProvisionCalls() == provision;
      err := EnsureDirectory();
      match err {
        case Some(e) => return Failure(e);
        case None =>
      }
      ghost var calls := storage.directoryCalls;
      ghost var store := storage.store;
      ghost var lists := storage.listCalls;
      assert calls == old(storage.directoryCalls) + provision;
      assert store == old(storage.store);
      r := StoreContent(content, options, now, rnd);
    }

    /** What `read(uid)` finds: the bytes and decoded metadata at the uid's full path. */
    function Stored(uid: string): Option<(Bytes, Option<Meta>)>
      reads this`user, this`directory, this`rootPath, storage`store
    {
      var path := ObjectPath(uid);
      if path in storage.store then
        Some((storage.store[path].content, HeadersToMeta(RenameMetaKey(storage.store[path].headers))))
      else
        None
    }

    /**
     * `read(uid)`: checks the configuration, then gets the object at the
     * uid's full path; a missing object reads as nil. Creates nothing.
     */
    method Read(uid: string) returns (r: Result<Option<(Bytes, Option<Meta>)>, Error>)
      modifies this`configured
      ensures configured == (old(configured) || old(Unconfigured()).None?)
      ensures !old(configured) && old(Unconfigured()).Some? ==> r == Failure(old(Unconfigured()).value)
      ensures old(configured) || old(Unconfigured()).None? ==> r == Success(Stored(uid))
      ensures unchanged(storage)
    {
      var err := EnsureConfigured();
      if err.Some? {
        return Failure(err.value);
      }
      var got := storage.GetObject(ObjectPath(uid));
      match got
      case Success((response, headers)) => r := Success(Some((response, HeadersToMeta(headers))));
      case Failure(ResourceNotFound) => r := Success(None);
      case Failure(e) => r := Failure(Storage(e));
    }

    /**
     * `destroy(uid)`: deletes the object at the uid's full path; an error is
     * not raised but turned into a warning.
     */
    method Destroy(uid: string) returns (warning: Option<string>)
      modifies storage`store
      ensures warning == None
      ensures storage.store == old(storage.store) - {ObjectPath(uid)}
    {
      var deleted := storage.DeleteObject(ObjectPath(uid));
      match deleted
      case Success(_) => warning := None;
      case Failure(e) => warning := Some(ClassName + " destroy error: " + StorageMessage(e));
    }

    /**
     * `url_for(uid, options)`. The scheme is the option's, else the
     * instance's. With `expires`, the rest is the client's signed URL for
     * the full path; otherwise it is the host (the option's, else `url_host`,
     * else the region's) followed by the full path. The region is only
     * looked up when both hosts are nil and there is no expiry.
     */
    function UrlFor(uid: string, options: UrlOptions, fakeKey: string, escape: string -> string)
      : (r: Result<string, Error>)
      reads this, storage
      ensures r.Failure? <==> options.expires.None? && options.host.None? && urlHost.None? && region != "us-east"
      ensures r.Failure? ==> r.error == InvalidRegion(region, ["us-east"])
      ensures r.Success? ==> StartsWith(r.value, options.scheme.GetOr(urlScheme) + "://")
      ensures options.expires.None? && options.host.Some? ==>
                r == Success(options.scheme.GetOr(urlScheme) + "://" + (options.host.value + ObjectPath(uid)))
      ensures options.expires.None? && options.host.None? && urlHost.Some? ==>
                r == Success(options.scheme.GetOr(urlScheme) + "://" + (urlHost.value + ObjectPath(uid)))
      ensures options.expires.None? && options.host.None? && urlHost.None? && region == "us-east" ==>
                r == Success(options.scheme.GetOr(urlScheme) + "://" + ("us-east.manta.joyent.com" + ObjectPath(uid)))
      ensures options.expires.Some? ==>
                r == Success(options.scheme.GetOr(urlScheme) + "://"
                             + storage.GenSignedUrl(options.expires.value, Get, ObjectPath(uid), fakeKey, escape))
      ensures options.expires.Some? ==>
                && r.Success?
                && StartsWith(r.value, options.scheme.GetOr(urlScheme) + "://"
                                       + SignedPrefix(Interpolate(storage.domain), ObjectPath(uid), options.expires.value))
    {
      var scheme := options.scheme.GetOr(urlScheme);
      var path := ObjectPath(uid);
      var rest: Result<string, Error> :=
        if options.expires.Some? then
          Success(storage.GenSignedUrl(options.expires.value, Get, path, fakeKey, escape))
        else if options.host.Some? then
          Success(options.host.value + path)
        else if urlHost.Some? then
          Success(urlHost.value + path)
        else
          match Domain(region)
          case Failure(e) => Failure(e)
          case Success(host) => Success(Interpolate(host) + path);
      match rest
      case Failure(e) => Failure(e)
      case Success(withoutScheme) =>
        ConcatEnds(scheme + "://", withoutScheme);
        if options.expires.Some? then
          PrependKeepsPrefix(scheme + "://", withoutScheme,
                             SignedPrefix(Interpolate(storage.domain), path, options.expires.value));
          Success(scheme + "://" + withoutScheme)
        else
          Success(scheme + "://" + withoutScheme)
    }
  }

  // ---------------------------------------------------------------------------
  // Properties across calls

  /**
   * Writing content and reading its uid back returns the same bytes and
   * metadata (unless the per-call headers replace `:m_dragonfly`); when the
   * configuration is incomplete both calls raise the same NotConfigured.
   */
  method WriteThenRead(store: MantaDataStore, content: Content, options: WriteOptions, now: Time, rnd: nat)
    returns (written: Result<string, Error>, back: Result<Option<(Bytes, Option<Meta>)>, Error>)
    requires MetaSymbol !in options.headers.GetOr(map[])
    modifies store`configured, store`directoryCreated
    modifies store.storage`directories, store.storage`directoryCalls, store.storage`store, store.storage`listCalls
    ensures written.Failure? ==> back == Failure(written.error)
    ensures written.Success? ==> back == Success(Some((content.data, Some(content.meta))))
  {
    written := store.Write(content, options, now, rnd);
    if written.Success? {
      MetadataRoundTrip(store.durabilityLevel, store.storageHeaders, content, options);
    }
    back := store.Read(if written.Success? then written.value else "");
  }

  /** A directory name and root path that `File.join` joins with exactly one '/'. */
  predicate CleanLayout(store: MantaDataStore)
    reads store
  {
    && store.directory.Some? && store.directory.value != []
    && store.directory.value[|store.directory.value| - 1] != '/'
    && (store.rootPath.Some? ==> store.rootPath.value != [] && store.rootPath.value[0] != '/'
                                 && store.rootPath.value[|store.rootPath.value| - 1] != '/')
  }

  /**
   * With a custom host and a clean layout, the URL is the scheme, the host,
   * then `/user/public/directory[/root_path]/uid`.
   */
  lemma HostUrlLayout(store: MantaDataStore, uid: string, host: string, fakeKey: string, escape: string -> string)
    requires CleanLayout(store)
    requires uid == [] || uid[0] != '/'
    ensures var under := if store.rootPath.Some? then "/" + store.rootPath.value + "/" + uid else "/" + uid;
            store.UrlFor(uid, UrlOptions(None, None, Some(host)), fakeKey, escape)
            == Success(store.urlScheme + "://" + host + store.PublicDir() + under)
  {
    var pd := store.PublicDir();
    var under := if store.rootPath.Some? then "/" + store.rootPath.value + "/" + uid else "/" + uid;
    assert store.ObjectPath(uid) == pd + under by {
      FullPathLayout(store.user, store.directory.value, store.rootPath, uid);
      if store.rootPath.Some? {
        ConcatAssociative(pd, "/" + store.rootPath.value + "/", uid);
        ConcatAssociative(pd, "/" + store.rootPath.value, "/");
        ConcatAssociative(pd, "/", store.rootPath.value);
      } else {
        ConcatAssociative(pd, "/", uid);
      }
    }
    var scheme := store.urlScheme + "://";
    ConcatAssociative(scheme, host, pd + under);
    ConcatAssociative(scheme + host, pd, under);
  }

  /**
   * With a root path that has a '/' in it, a generated uid ends with the
   * sanitised name and leaves the root path out, while the object it
   * names lands under the root path.
   */
  lemma GeneratedUidUnderRootPath(store: MantaDataStore, name: string, now: Time, rnd: nat)
    requires CleanLayout(store) && store.rootPath.Some? && !NoSlash(store.rootPath.value)
    ensures var uid := WriteUid(None, Some(name), now, rnd);
            && EndsWith(uid, Sanitize(name))
            && !Includes(uid, store.rootPath.value)
            && store.ObjectPath(uid) == store.PublicDir() + "/" + store.rootPath.value + "/" + uid
  {
    var uid := WriteUid(None, Some(name), now, rnd);
    SlashFreeUidExcludesRootPath(uid, store.rootPath.value);
    FullPathLayout(store.user, store.directory.value, store.rootPath, uid);
  }

  /**
   * Without `:path`, a content name made only of `[A-Za-z0-9_.]` (such as
   * "something.png") ends the uid verbatim.
   */
  lemma CleanNameEndsUid(name: string, now: Time, rnd: nat)
    requires AllKept(name)
    ensures EndsWith(WriteUid(None, Some(name), now, rnd), name)
  {
    SanitizeKeepsCleanName(name);
  }
}
