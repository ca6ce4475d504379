# Dragonfly Manta data store, modelled in Dafny

This project models `Dragonfly::MantaDataStore`, the Dragonfly data store that
keeps uploaded content in a Joyent Manta object store. It also models
`RubyMantaStub`, the in-memory Manta client that the adapter talks to.

- **The adapter** is a class, `DataStore.MantaDataStore`. Its fields are the
  configuration attributes plus the two flags `configured` and
  `directoryCreated`.
  - `write`, `read`, `destroy`, `directory_exists?` and the private
    provisioning steps are methods that update those flags and the client.
  - `url_for`, `domain`, `get_region` and the header and path helpers are
    pure functions.
- **The client** is a class, `MantaStub.RubyMantaStub`.
  - It holds an object map and a directory set, both updated in place.
  - It also keeps a ghost log of every `put_directory` argument, so the order
    in which directories are created can be stated.
- **Ruby's own string operations** are modelled in `RubyText`. These are
  `File.join`, `String#split("/")`, `Array#join`, `%0Nd`, `Integer#to_s`,
  `start_with?`, `end_with?` and `String#<`.
- **The uid generator** and its `gsub(/[^\w.]+/, '_')` sanitiser are modelled
  in `Uid`.

Modules:
- `Wrappers`: `Option` and `Result`.
- `RubyText`: the Ruby string and path operations.
- `MantaTypes`: header keys and values, bytes and client errors. A header key
  is either a string key or a symbol key, so `"durability_level"` and
  `:content_type` stay distinct.
- `MantaStub`: the client.
- `Uid`: `generate_uid`.
- `Paths`: `public_directory`, `full_path` and the directory-creation plan.
- `DataStore`: the adapter.

A client call returns a `Result`. The adapter either rescues the error or passes
it on, exactly where the Ruby code has a `rescue`. Raised adapter errors are
`DataStore.Error` values:
- `NotConfigured`;
- the invalid-region `RuntimeError`;
- a client error that propagates.

## Model

| member | source | states |
|---|---|---|
| MantaStub.RenameMetaKey | spec/ruby_manta_stub.rb:34-35 | the copy has no `:m_dragonfly`. `"m-dragonfly"` holds the old `:m_dragonfly` value, or nil when it was absent. Every other key keeps its value, and no other key is added |
| MantaStub.SignedUrl | spec/ruby_manta_stub.rb:46-52 | the URL starts with domain, path, `?algorithm=rsa-sha1&expires=`, the decimal expiry and `&keyId=`, and ends with the escaped `/user/keys/key` |
| MantaStub.RubyMantaStub.constructor | spec/ruby_manta_stub.rb:7-10 | a new client has no objects, no directories, empty call logs, and nil user and domain |
| MantaStub.RubyMantaStub.PutDirectory | spec/ruby_manta_stub.rb:12-14 | succeeds and adds the directory. A second call on an existing directory leaves the set unchanged (idempotent). The call is appended to the log |
| MantaStub.RubyMantaStub.ListDirectory | spec/ruby_manta_stub.rb:16-20 | succeeds exactly when the directory was created; otherwise fails with `UnknownError`. Each call is appended to the client's log of listings |
| MantaStub.RubyMantaStub.PutObject | spec/ruby_manta_stub.rb:22-29 | overwrites the entry at the path with (headers, content), leaves every other path alone, returns `[path, {}]`, and does not need a parent directory |
| MantaStub.RubyMantaStub.GetObject | spec/ruby_manta_stub.rb:31-38 | a missing path fails with `ResourceNotFound`; otherwise returns the stored content and the renamed copy of the stored headers, without changing the store |
| MantaStub.RubyMantaStub.DeleteObject | spec/ruby_manta_stub.rb:40-44 | removes only that path, also when it is absent, and returns `[true, {}]` |
| MantaStub.RubyMantaStub.GenSignedUrl | spec/ruby_manta_stub.rb:46-52 | the URL starts with the domain, the path and the query up to `keyId=`, and ends with the escaped `/user/keys/key`; nil domain and user read as "" |
| MantaStub.PutThenGet | spec/ruby_manta_stub.rb:22-38 | `get_object` after `put_object` gives back the content and the renamed headers |
| MantaStub.DeleteThenGet | spec/ruby_manta_stub.rb:31-44 | `get_object` after `delete_object` is not found, whatever was there |
| RubyText.ChompSlashes | lib/dragonfly/manta_data_store.rb:166 | a prefix of the input that does not end in '/'; everything cut off is '/' |
| RubyText.JoinPath | lib/dragonfly/manta_data_store.rb:166 | one `File.join` step: ends with the right part; starts with the left part, less trailing '/', followed by '/'; is exactly `a + "/" + b` when neither side has a separator at the joint |
| RubyText.FileJoin | lib/dragonfly/manta_data_store.rb:166 | `File.join` of no parts is "", of one part is that part, and of several ends with the last part |
| RubyText.FileJoinStartsWithFirst | lib/dragonfly/manta_data_store.rb:166 | `File.join` of two or more parts starts with the first part, less trailing '/', followed by '/' |
| RubyText.FileJoinClean | lib/dragonfly/manta_data_store.rb:166 | without separators at the joints, `File.join` is `join("/")` |
| RubyText.JoinEndsWithLast | lib/dragonfly/manta_data_store.rb:181 | `join("/")` ends with its last component |
| RubyText.RawSplit | lib/dragonfly/manta_data_store.rb:173-178 | the slash-free pieces between separators; joining them with '/' gives back the input |
| RubyText.DropTrailingEmpty | lib/dragonfly/manta_data_store.rb:173-178 | a prefix of the pieces that does not end in an empty piece; only empty pieces are dropped |
| RubyText.JoinDropTrailingEmpty | lib/dragonfly/manta_data_store.rb:173-178 | dropping trailing empty pieces removes exactly the trailing '/' of the joined string |
| RubyText.SplitMeaning | lib/dragonfly/manta_data_store.rb:173-178 | `split("/")`: slash-free components with no trailing empty one. Joining them gives the input less its trailing '/' |
| RubyText.JoinPrefixIsDirPrefix | lib/dragonfly/manta_data_store.rb:180-181 | joining the first n components gives a directory prefix of the whole join; it is strictly shorter when n is less than all |
| RubyText.DirPrefixIsJoinPrefix | lib/dragonfly/manta_data_store.rb:180-181 | every directory prefix of a join of slash-free components is the join of its first n components, for some n |
| RubyText.ZeroPad | lib/dragonfly/manta_data_store.rb:156 | `%0Nd`: digits only, at least one and at least N of them |
| RubyText.ZeroPadValue | lib/dragonfly/manta_data_store.rb:156 | the padded digits denote n |
| RubyText.ZeroPadWidth | lib/dragonfly/manta_data_store.rb:156 | a number below 10^N pads to exactly N digits |
| RubyText.Decimal | lib/dragonfly/manta_data_store.rb:156 | `Integer#to_s`: one or more digits and nothing else |
| RubyText.DecimalMeaning | lib/dragonfly/manta_data_store.rb:156 | the digits denote n and have no leading zero |
| RubyText.ZeroPadOrdered | lib/dragonfly/manta_data_store.rb:156 | numbers that fit the width pad to strings of that width that sort as the numbers do |
| Uid.SkipRun | lib/dragonfly/manta_data_store.rb:156 | drops the leading run of characters outside `[A-Za-z0-9_.]`, exactly up to the first kept one |
| Uid.Sanitize | lib/dragonfly/manta_data_store.rb:156 | the result has only characters from `[A-Za-z0-9_.]` and is no longer than the name |
| Uid.GenerateUid | lib/dragonfly/manta_data_store.rb:153-157 | the uid starts with stamp, '_', the random number and '_'; it ends with the sanitised name; it holds only `[A-Za-z0-9_.]`, so it has no '/' |
| Uid.StampKept | lib/dragonfly/manta_data_store.rb:156 | the strftime stamp holds digits and '_' only |
| Uid.SanitizeKeepsCleanName | lib/dragonfly/manta_data_store.rb:156 | a name already inside the class is left verbatim |
| Uid.SkipRunOfRun | lib/dragonfly/manta_data_store.rb:156 | skipping a run of replaced characters stops exactly at what follows it |
| Uid.SanitizeKeepsPrefix | lib/dragonfly/manta_data_store.rb:156 | a prefix of kept characters comes through verbatim |
| Uid.SanitizeCollapsesRun | lib/dragonfly/manta_data_store.rb:156 | a maximal run of replaced characters, however long, becomes exactly one '_'; what comes before it is kept |
| Uid.SkipRunAppend | lib/dragonfly/manta_data_store.rb:156 | skipping the leading run is unaffected by a suffix that starts with a kept character |
| Uid.SanitizeKeepsSuffix | lib/dragonfly/manta_data_store.rb:156 | a kept suffix, such as a file extension, comes through verbatim at the end |
| Uid.SanitizeIdempotent | lib/dragonfly/manta_data_store.rb:156 | sanitising twice equals sanitising once |
| Uid.StampShape | lib/dragonfly/manta_data_store.rb:156 | for a valid clock reading each stamp field has its fixed width, and the stamp is 19 characters |
| Uid.StampOrderedByTime | lib/dragonfly/manta_data_store.rb:156 | an earlier clock reading gives a smaller stamp (`String#<`) |
| Uid.UidOrderedByTime | lib/dragonfly/manta_data_store.rb:153-157 | a uid generated in an earlier second is smaller, whatever the random draws and names |
| Paths.PublicDirectory | lib/dragonfly/manta_data_store.rb:140-142 | starts with "/", the user (nil as "") and "/public/", ends with the directory (nil as ""), and has nothing else in between |
| Paths.FullPath | lib/dragonfly/manta_data_store.rb:165-167 | the stored path ends with the uid and starts with the public directory, less trailing '/', followed by '/' |
| Paths.FullPathLayout | lib/dragonfly/manta_data_store.rb:165-167 | for well-formed parts the stored path is exactly `"/user/public/dir/" + root + "/" + uid`, or `"/user/public/dir/" + uid` when the root path is nil |
| Paths.EmptyRootPathIgnored | lib/dragonfly/manta_data_store.rb:165-167 | an empty root path gives the same stored path as a nil one |
| Paths.SlashFreeUidExcludesRootPath | lib/dragonfly/manta_data_store.rb:153-167 | a uid without '/' never contains a root path that has one |
| Paths.ParentDirectoryPrefix | lib/dragonfly/manta_data_store.rb:174 | `split("/")[0..-2].join("/")`: either empty, or a proper prefix of the file path that ends right before a '/' |
| Paths.DirectoriesToMakeMembers | lib/dragonfly/manta_data_store.rb:177-187 | after n steps, the directories created are exactly the joins of the first 1..n components that start with the public directory and are not empty |
| Paths.DirectoriesToMakeOrdered | lib/dragonfly/manta_data_store.rb:177-187 | the directories are created from shortest to longest, each a prefix of the next |
| Paths.MkdirPlanMembers | lib/dragonfly/manta_data_store.rb:177-187 | `put_directory` is issued for x exactly when x is a non-empty directory prefix of the path that starts with the public directory |
| Paths.MkdirPlanOrdered | lib/dragonfly/manta_data_store.rb:177-187 | the plan goes from shortest to longest, each a prefix of the next |
| Paths.MkdirForFileCreatesAncestors | lib/dragonfly/manta_data_store.rb:173-175 | every directory made for a file lies under the public directory and is a proper directory prefix of the file's path |
| DataStore.Domain | lib/dragonfly/manta_data_store.rb:144-151 | succeeds exactly for "us-east", with host "us-east.manta.joyent.com"; any other region raises "Invalid region R - should be one of us-east" |
| DataStore.GetRegion | lib/dragonfly/manta_data_store.rb:148-151 | returns the region exactly when it is "us-east"; otherwise raises "Invalid region R - should be one of us-east" |
| DataStore.MetaToHeader | lib/dragonfly/manta_data_store.rb:94-96 | a single `:m_dragonfly` entry; after the client's rename, `"m-dragonfly"` holds the encoded metadata |
| DataStore.FullStorageHeaders | lib/dragonfly/manta_data_store.rb:159-163 | a key is present exactly when it is `"durability_level"` or set by `storage_headers` or the given headers. The given headers win, then `storage_headers`, then the durability level |
| DataStore.FirstUnset | lib/dragonfly/manta_data_store.rb:124-126 | none exactly when every attribute is set; otherwise names an attribute that is nil and is preceded only by set ones |
| DataStore.ConfigError | lib/dragonfly/manta_data_store.rb:122-130 | no error exactly when directory, url, user and key are all set; otherwise `NotConfigured` names the first nil one, in that order |
| DataStore.WriteUid | lib/dragonfly/manta_data_store.rb:99 | a given `:path` is the uid verbatim; otherwise the uid has no '/', only kept characters, and ends with the sanitised name or "file" |
| DataStore.HeadersToMeta | lib/dragonfly/manta_data_store.rb:86-96 | metadata comes back exactly when `"m-dragonfly"` holds an encoded value; decoding a renamed `meta_to_header(meta)` gives `meta` |
| DataStore.StoredHeadersMerged | lib/dragonfly/manta_data_store.rb:101-115 | the headers built with `merge!` and passed through `full_storage_headers` are the merge of the five layers in order |
| DataStore.HeaderPrecedence | lib/dragonfly/manta_data_store.rb:159-163 | a key is present exactly when some layer sets it. Per-call headers win, then `:content_type`/`:m_dragonfly`, then `storage_headers`, then `"durability_level"` |
| DataStore.MetadataRoundTrip | lib/dragonfly/manta_data_store.rb:86-106 | when the per-call headers do not set `:m_dragonfly`, reading the stored headers back gives the content's metadata |
| DataStore.MantaDataStore.constructor | lib/dragonfly/manta_data_store.rb:17-28 | attributes come from the options, with defaults: durability level 2, region "us-east", scheme "http", storage headers `{}`; both flags start unset |
| DataStore.MantaDataStore.EnsureConfigured | lib/dragonfly/manta_data_store.rb:122-130 | once configured, nothing is checked again; otherwise raises for the first nil attribute, or records success |
| DataStore.MantaDataStore.DirectoryExists | lib/dragonfly/manta_data_store.rb:73-78 | true exactly when the public directory exists; the listing's `UnknownError` becomes false. It lists the public directory exactly once and creates nothing |
| DataStore.MantaDataStore.EnsureDirectory | lib/dragonfly/manta_data_store.rb:132-138 | probes at most once per instance: the client's log of listings grows by the public directory when no earlier call succeeded, and by nothing otherwise. It issues `put_directory(public_directory)` only when the probe found nothing, and afterwards the directory exists |
| DataStore.MantaDataStore.MkdirWithIntermediates | lib/dragonfly/manta_data_store.rb:177-187 | the `put_directory` calls are exactly the plan, in order. Afterwards a directory exists exactly when it existed before or is in the plan |
| DataStore.MantaDataStore.MkdirStep | lib/dragonfly/manta_data_store.rb:180-185 | one pass of the `times` block: the call log and the directory set that record the first `index` steps afterwards record `index + 1` |
| DataStore.MantaDataStore.Mkdir | lib/dragonfly/manta_data_store.rb:189-191 | one `put_directory` call: the path is logged and then exists |
| DataStore.MantaDataStore.MkdirForFilePath | lib/dragonfly/manta_data_store.rb:173-175 | the plan for the file's parent directory is carried out |
| DataStore.MantaDataStore.StoreContent | lib/dragonfly/manta_data_store.rb:98-120 | returns the uid and stores the content with the merged headers at `full_path(uid)`, after creating the parent directories; only that path changes |
| DataStore.MantaDataStore.Write | lib/dragonfly/manta_data_store.rb:32-36 | fails exactly when unconfigured, with the first nil attribute, and then touches neither the client nor the directory flag. Otherwise the one-shot provisioning runs, listing the public directory only on the instance's first successful write, then `store_content`. The directories afterwards are the old ones, the provisioned public directory and the plan for the object's parent |
| DataStore.MantaDataStore.Read | lib/dragonfly/manta_data_store.rb:38-45 | unconfigured raises. Otherwise the result is the content and metadata at `full_path(uid)`, or nil when absent. The client is untouched, so no directory is ever created |
| DataStore.MantaDataStore.Destroy | lib/dragonfly/manta_data_store.rb:47-51 | removes exactly `full_path(uid)` and returns no warning |
| DataStore.MantaDataStore.UrlFor | lib/dragonfly/manta_data_store.rb:53-65 | scheme is the option, else `url_scheme`. Without `:expires` the host is the option, else `url_host`, else the region host, so a bad region raises only when no host is given. With `:expires` the URL is exactly the scheme, `://` and the client's signed URL for the full path, whose prefix up to `keyId=` and escaped key-id suffix `GenSignedUrl` states |
| DataStore.WriteThenRead | lib/dragonfly/manta_data_store.rb:32-45 | after a successful write, reading the uid gives back the same bytes and metadata; a failed write makes the read fail with the same error |
| DataStore.HostUrlLayout | lib/dragonfly/manta_data_store.rb:53-65 | with a host given, the URL is scheme, "://", host, public directory, then the root path and uid, each after a '/' |
| DataStore.GeneratedUidUnderRootPath | lib/dragonfly/manta_data_store.rb:153-167 | a generated uid ends with the sanitised name and never contains a nested root path. Its stored path is `public_directory/root_path/uid` |
| DataStore.CleanNameEndsUid | lib/dragonfly/manta_data_store.rb:99 | without `:path`, a name made only of `[A-Za-z0-9_.]`, such as "something.png", ends the generated uid verbatim |

## Left out

- The real `RubyManta::MantaClient` and the memoised `storage` accessor (lib/dragonfly/manta_data_store.rb:67-71) are not modelled. The adapter is given a `RubyMantaStub` at construction.
- Registration with Dragonfly (lib/dragonfly/manta_data_store.rb:4) is framework glue and is not modelled.
- JSON is opaque. `JSON.dump(meta)` is the value `Json(meta)` and `JSON.parse` inverts it. Any other value under `"m-dragonfly"`, such as a string that happens to hold JSON text, counts as unparseable and gives nil.
- Metadata is modelled as a map from strings to strings, not an arbitrary JSON object.
- `Time.now` and `rand(1000)` are parameters. The random number is not bounded by 1000 in the model, since no property depends on the bound.
- In `gen_signed_url`, the random key `rand(36**128).to_s(36)` and `CGI.escape` are parameters.
- `Dragonfly.warn` is not modelled: `destroy` returns the warning text it would log.
- `Dragonfly::Content` is a plain value of name, MIME type, metadata and bytes. The `content.file` I/O block and MIME-type derivation are left out.
- With the stub client, `put_directory`, `put_object` and `delete_object` never fail. The failure branches of `ensure_directory`, `store_content` and `destroy` are therefore never taken, though the model propagates or swallows such errors as the code does.
- `Uid.UidOrderedByTime` covers years below 10000 only. `%Y` renders later years with more digits, and ordering then breaks down.
- `DataStore.MetadataRoundTrip` and `DataStore.WriteThenRead` require that the per-call headers do not set `:m_dragonfly`. The code lets such a header override the content's metadata, which `DataStore.HeaderPrecedence` states.
- `url_scheme`, `region`, `durability_level` and `storage_headers` are kept non-nil. Ruby's `attr_accessor`s (lib/dragonfly/manta_data_store.rb:30) let a caller set them to nil, which would give a URL starting with "://" or an "Invalid region  - …" error; the model does not cover those assignments.

Three behaviours of the code that the model keeps:
- Per-call `options[:headers]` are merged last (lib/dragonfly/manta_data_store.rb:106), so they override `:content_type`, `:m_dragonfly`, `storage_headers` and `"durability_level"` (lib/dragonfly/manta_data_store.rb:159-163).
- The configuration guard tests for nil only (lib/dragonfly/manta_data_store.rb:125), so an empty string counts as set.
- `File.join` (lib/dragonfly/manta_data_store.rb:166) treats each joint on its own. When the right part starts with '/', the left part's trailing '/' are cut. When only the left part ends with '/', the two are concatenated. When neither does, one '/' is put between them.

The tests at spec/manta_data_store_spec.rb:186 and :256 expect an unescaped `keyId=/user/keys/…`, and the one at :256 also expects `https://`. The code `CGI.escape`s the key id, and its scheme defaults to `http`. The model follows the code.
