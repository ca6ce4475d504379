/**
 * `RubyMantaStub`: an in-memory stand-in for the Manta storage client, a
 * dictionary of objects plus a dictionary of directories.
 */
module MantaStub {
  import opened Wrappers
  import opened RubyText
  import opened MantaTypes

  /** The metadata header key as written (a symbol) and as read back (a string). */
  const MetaSymbol: HeaderKey := Sym("m_dragonfly")
  const MetaString: HeaderKey := Str("m-dragonfly")

  /**
   * The headers `get_object` hands back: a copy of the stored headers in
   * which the key `:m_dragonfly` is replaced by `"m-dragonfly"`. The new key
   * is always present; it holds nil when the stored headers had no
   * `:m_dragonfly`.
   */
  function RenameMetaKey(h: Headers): (r: Headers)
    ensures MetaSymbol !in r && MetaString in r
    ensures r[MetaString] == (if MetaSymbol in h then h[MetaSymbol] else Nil)
    ensures forall k :: k in h && k != MetaSymbol && k != MetaString ==> k in r && r[k] == h[k]
    ensures forall k :: k in r ==> k in h || k == MetaString
  {
    var value := if MetaSymbol in h then h[MetaSymbol] else Nil;
    (h - {MetaSymbol})[MetaString := value]
  }

  /** The part of a signed URL before the key id. */
  function SignedPrefix(domain: string, path: string, expiry: nat): string {
    domain + path + "?algorithm=rsa-sha1&expires=" + Decimal(expiry) + "&keyId="
  }

  /**
   * The URL the stub signs: the domain, the path, and a query carrying the
   * algorithm, the expiry and the escaped key id. The random key and
   * `CGI.escape` are parameters.
   */
  function SignedUrl(domain: string, user: string, expiry: nat, path: string,
                     fakeKey: string, escape: string -> string): (url: string)
    ensures StartsWith(url, SignedPrefix(domain, path, expiry))
    ensures EndsWith(url, escape("/" + user + "/keys/" + fakeKey))
  {
    var keyId := escape("/" + user + "/keys/" + fakeKey);
    var prefix := SignedPrefix(domain, path, expiry);
    ConcatEnds(prefix, keyId);
    prefix + keyId
  }

  class RubyMantaStub {
    /** Set by the caller (`attr_accessor :user, :domain`); nil until then. */
    var user: Option<string>
    var domain: Option<string>

    /** `@store`: path to stored headers and content. */
    var store: map<string, StoredObject>

    /**
     * `@directories`: the directories created so far. Every entry the stub
     * creates is an empty hash, so the set of names is the whole state.
     */
    var directories: set<string>

    /** Every argument `put_directory` has received, in call order. */
    ghost var directoryCalls: seq<string>

    /** Every directory `list_directory` has been asked about, in call order. */
    ghost var listCalls: seq<string>

    constructor ()
      ensures user == None && domain == None
      ensures store == map[] && directories == {} && directoryCalls == [] && listCalls == []
    {
      user, domain := None, None;
      store, directories := map[], {};
      directoryCalls, listCalls := [], [];
    }

    /** `put_directory`: creates the entry unless it exists (`||=`). */
    method PutDirectory(directory: string) returns (r: Result<(), StorageError>)
      modifies this`directories, this`directoryCalls
      ensures r.Success?
      ensures directories == old(directories) + {directory}
      ensures directory in old(directories) ==> directories == old(directories)
      ensures directoryCalls == old(directoryCalls) + [directory]
    {
      directories := directories + {directory};
      directoryCalls := directoryCalls + [directory];
      r := Success(());
    }

    /** `list_directory`: raises UnknownError for a directory never created. */
    method ListDirectory(directory: string, headOnly: bool) returns (r: Result<(), StorageError>)
      modifies this`listCalls
      ensures r.Success? <==> directory in directories
      ensures r.Failure? ==> r.error == UnknownError
      ensures listCalls == old(listCalls) + [directory]
    {
      listCalls := listCalls + [directory];
      if directory in directories {
        r := Success(());
      } else {
        r := Failure(UnknownError);
      }
    }

    /**
     * `put_object`: overwrites the entry at `path` and returns `[path, {}]`.
     * The parent directory need not exist.
     */
    method PutObject(path: string, content: Bytes, headers: Headers)
      returns (r: Result<(string, Headers), StorageError>)
      modifies this`store
      ensures r == Success((path, map[]))
      ensures store == old(store)[path := StoredObject(headers, content)]
    {
      store := store[path := StoredObject(headers, content)];
      r := Success((path, map[]));
    }

    /**
     * `get_object`: the content and the renamed copy of the headers stored at
     * `path`, or ResourceNotFound. The stored headers are left as they are.
     */
    method GetObject(path: string) returns (r: Result<(Bytes, Headers), StorageError>)
      ensures path !in store ==> r == Failure(ResourceNotFound)
      ensures path in store ==> r == Success((store[path].content, RenameMetaKey(store[path].headers)))
    {
      if path !in store {
        r := Failure(ResourceNotFound);
      } else {
        var entry := store[path];
        r := Success((entry.content, RenameMetaKey(entry.headers)));
      }
    }

    /** `delete_object`: removes `path` if present and returns `[true, {}]`. */
    method DeleteObject(path: string) returns (r: Result<(bool, Headers), StorageError>)
      modifies this`store
      ensures r == Success((true, map[]))
      ensures store == old(store) - {path}
    {
      store := store - {path};
      r := Success((true, map[]));
    }

    /**
     * `gen_signed_url(expiry, method, path)` with the random key and
     * `CGI.escape` passed in; nil `domain` and `user` interpolate as "".
     */
    function GenSignedUrl(expiry: nat, verb: Verb, path: string, fakeKey: string,
                          escape: string -> string): (url: string)
      reads this
      ensures StartsWith(url, SignedPrefix(domain.GetOr(""), path, expiry))
      ensures EndsWith(url, escape("/" + user.GetOr("") + "/keys/" + fakeKey))
    {
      SignedUrl(domain.GetOr(""), user.GetOr(""), expiry, path, fakeKey, escape)
    }
  }

  /** Writing an object and reading it back gives the same bytes. */
  method PutThenGet(client: RubyMantaStub, path: string, content: Bytes, headers: Headers)
    returns (r: Result<(Bytes, Headers), StorageError>)
    modifies client`store
    ensures r.Success? && r.value.0 == content
    ensures r.value.1 == RenameMetaKey(headers)
  {
    var _ := client.PutObject(path, content, headers);
    r := client.GetObject(path);
  }

  /** After a delete, the path reads as not found, whatever was there. */
  method DeleteThenGet(client: RubyMantaStub, path: string)
    returns (r: Result<(Bytes, Headers), StorageError>)
    modifies client`store
    ensures r == Failure(ResourceNotFound)
    ensures client.store == old(client.store) - {path}
  {
    var _ := client.DeleteObject(path);
    r := client.GetObject(path);
  }
}
