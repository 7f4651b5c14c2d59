# libcloud storage, DNS and compute-extension core in Dafny

This project models a slice of Apache libcloud and proves properties of
the model. The slice covers six parts:

- the hostname check of its verified HTTPS connection (`VerifiedHTTPSConnection`);
- `read_in_chunks`;
- the storage base: objects, containers, driver arguments, the chunked
  download stream and saving a download to a file;
- the CloudFiles connection: its lazy authentication bootstrap, the
  request path prefix and the default headers;
- the CloudFiles storage driver, which maps HTTP statuses and JSON
  listings to containers and objects;
- the Rackspace DNS driver (error parsing, asynchronous job polling,
  payload builders, zone and record conversion) and the OpenStack
  floating-IP extensions.

Responses are values: a status, a header dictionary and the decoded JSON
body. Python's exceptions are `Failure` values of one `Error` datatype,
so every error path of the code is part of a function's result. Code
that changes state is modelled with classes and methods:

- `Reader`, where each read consumes one scripted reply;
- `FileSystem`, a set of directories and a map from paths to bytes;
- `CloudFilesConnection`, whose `Host` method runs the bootstrap;
- `DnsConnection`, which keeps the context that `set_context` sets;
- `VerifiedHttpsConnection`, whose `Connect` method stores the socket and then verifies it.

Loops that append are modelled as methods with loop invariants, proved
against the recursive function that specifies them.

Files:

- `wrappers.dfy`: Option and Result.
- `strings.dfy`: the `str` operations the code uses.
- `py_values.dfy`: Python values, subscripting, `int()`, `str()`, and the list-conversion loop `MapAll`.
- `http_status.dfy`: status constants.
- `httplib_ssl.dfy`, `utils.dfy`, `storage_base.dfy`, `cloudfiles.dfy`, `rackspace_dns.dfy`, `openstack_extensions.dfy`: one per source file.

Where the code and its tests or documentation disagree, the model follows the code:

- `_verify_hostname` raises TypeError (`hostname in None`) for a
  certificate without subjectAltName whose common name differs.
- `_get_subjectAltName` appends the type tag (`value[0]`), not the name.
- `Object.__init__` drops the hash it is given. The listing test
  expects the listed hash, but the model sets it to None.
- The docstring of `read_in_chunks` (libcloud/utils.py:24) says `chunk_size`
  defaults to `CHUNK_SIZE`, but the default is `None` (line 16) and it is
  passed to `read` unchanged (line 28).
- The wildcard helpers that the SSL tests call are not in
  `libcloud/httplib_ssl.py`. They are modelled as `IsWildcardName` and
  `WildcardMatch`, following section 3.1 of RFC 2818: a `*` matches one
  non-empty fragment without a dot, and the whole name must match.

## Model

| member | source | states |
|---|---|---|
| HttplibSsl.FirstCommonNameSpec | libcloud/httplib_ssl.py:77-80 | the common name found is the value of the first RDN whose key lower-cases to `commonname`, and there is none when no RDN has that key |
| HttplibSsl.GetCommonName | libcloud/httplib_ssl.py:73-80 | the loop with early return yields `None` without a subject, else the first common name |
| HttplibSsl.GetSubjectAltName | libcloud/httplib_ssl.py:62-71 | the loop yields `None` without subjectAltName, else one entry per DNS-typed item, in order |
| HttplibSsl.AltNamesOnePerDnsItem | libcloud/httplib_ssl.py:66-69 | the list has exactly as many entries as there are items whose type lower-cases to `dns` |
| HttplibSsl.AltNamesAreTypeTags | libcloud/httplib_ssl.py:68-69 | since `value[0]` is appended, every entry is a spelling of `dns`, never a host name |
| HttplibSsl.VerifyHostname | libcloud/httplib_ssl.py:53-60 | true iff the host equals the common name or is in the alt-name list; TypeError iff it is not the common name and there is no subjectAltName |
| HttplibSsl.HostnameMatchingCommonNameVerifies | libcloud/httplib_ssl.py:57-58 | a certificate whose first common name is the host is accepted whatever its alt names |
| HttplibSsl.AcceptedThroughAltNamesIsTypeTag | libcloud/httplib_ssl.py:57-69 | a host accepted other than by common name is a spelling of `dns` |
| HttplibSsl.AltNameOnlyHostRefused | libcloud/httplib_ssl.py:57-69 | a host listed only as a DNS alt name (not `dns`, not the common name) is refused |
| HttplibSsl.VerifiedHttpsConnection.constructor | libcloud/httplib_ssl.py:34 | a connection starts with its host and port and no socket |
| HttplibSsl.VerifiedHttpsConnection.Connect | libcloud/httplib_ssl.py:44-51 | the socket is stored, and the connect succeeds iff the hostname verifies, else raises the SSL error "Failed to verify hostname" (or the verifier's TypeError) |
| HttplibSsl.WildcardNameExamples | test/test_httplib_ssl.py:25-29 | `foo.bar` and `bar.foo` are not wildcard names, `*.foo.bar` and `*.*.foo.bar` are |
| HttplibSsl.LiteralPatternMatchesOnlyItself | test/test_httplib_ssl.py:31-58 | a pattern without `*` matches exactly itself |
| HttplibSsl.WildcardKeepsLabels | test/test_httplib_ssl.py:31-58 | a matched host has the same number of dots (labels) as the pattern |
| HttplibSsl.WildcardFragmentsNonEmpty | test/test_httplib_ssl.py:31-58 | a matched host is at least as long as the pattern: each `*` takes a non-empty fragment |
| HttplibSsl.StarAcceptsAnyFragment | test/test_httplib_ssl.py:31-58 | a leading `*` accepts any non-empty dot-free fragment in front of what the rest accepts |
| HttplibSsl.StarCoversOneLabel | test/test_httplib_ssl.py:31-58 | `*.rest` matches a host iff `rest` matches what follows the host's first dot |
| HttplibSsl.StarTakesFirstLabel | test/test_httplib_ssl.py:31-58 | `*.rest` matches `first.tail` iff `rest` matches `tail` |
| HttplibSsl.WildcardMatchesOneLabel | test/test_httplib_ssl.py:35 | `*.a.com` matches `foo.a.com` |
| HttplibSsl.WildcardMatchesLabelSuffix | test/test_httplib_ssl.py:36 | `f*.com` matches `foo.com` |
| HttplibSsl.WildcardMatchesTwoLabels | test/test_httplib_ssl.py:37-39 | `*.*.rest` matches any two non-empty dot-free labels followed by `rest` |
| HttplibSsl.WildcardRepeatedLabelExample | test/test_httplib_ssl.py:37 | `*.*.foo.com` matches `bar.foo.foo.com` |
| HttplibSsl.WildcardTwoLabelExample | test/test_httplib_ssl.py:38 | `*.*.foo.com` matches `a.b.foo.com` |
| HttplibSsl.WildcardEqualLabelsExample | test/test_httplib_ssl.py:39 | `*.*.foo.com` matches `a.a.foo.com` |
| HttplibSsl.LabelCountsDiffer | test/test_httplib_ssl.py:42-50 | a host with a different number of dots than the pattern never matches |
| HttplibSsl.WildcardStopsAtDot | test/test_httplib_ssl.py:43 | `*.a.com` does not match `bar.foo.a.com` |
| HttplibSsl.WildcardKeepsLiteralPrefix | test/test_httplib_ssl.py:44-45 | `f*.com` matches neither `bar.com` nor `barfoo.com` |
| HttplibSsl.WildcardNeedsEveryLabel | test/test_httplib_ssl.py:46-48 | `*.*.foo.com` matches neither `foo.com` nor `.foo.com` |
| HttplibSsl.OneStarTooMany | test/test_httplib_ssl.py:47 | `*.*.rest` never matches a single dot-free label followed by a dot and `rest` |
| HttplibSsl.WildcardNeedsTwoFragments | test/test_httplib_ssl.py:47 | `*.*.foo.com` does not match `bar.foo.com` |
| HttplibSsl.WildcardNeedsNonEmptyFragment | test/test_httplib_ssl.py:49 | `*.*.foo.com` does not match `.bar.foo.com` |
| Utils.Reader.constructor | libcloud/utils.py:16 | a file-like object starts with its scripted replies and no reads logged |
| Utils.Reader.Read | libcloud/utils.py:28 | a read returns the next reply (empty once exhausted), consumes it and logs the requested size |
| Utils.ReadInChunks | libcloud/utils.py:16-32 | the yielded chunks are the replies before the first empty one; exactly one more read is made, every read asks for `chunk_size`, nothing after the empty read is consumed |
| Utils.FirstEmpty | libcloud/utils.py:30-31 | the position where the loop breaks: every earlier reply is non-empty and the reply there is empty |
| Utils.ChunksAreReadsBeforeFirstEmpty | libcloud/utils.py:27-32 | the chunks are exactly the prefix of the replies up to the first empty one |
| Utils.NoChunkIsEmpty | libcloud/utils.py:30-32 | no yielded chunk is empty |
| Utils.RemainingIsAfterFirstEmpty | libcloud/utils.py:27-31 | the replies left are exactly those after the first empty one |
| Utils.NothingLost | libcloud/utils.py:27-32 | the replies' bytes are the chunks' bytes followed by the unread replies' bytes |
| Utils.FlattenLength | libcloud/utils.py:27-32 | the byte count of the chunks is the sum of their lengths |
| StorageBase.EffectiveChunkSize | libcloud/storage/base.py:281 | `chunk_size or CHUNK_SIZE`, with `CHUNK_SIZE` from line 27: a missing or zero size means 8096, another size is kept |
| StorageBase.NewContainer | libcloud/storage/base.py:89-103 | a container keeps its name, and its extra dictionary is `{}` when none is given |
| StorageBase.NewObject | libcloud/storage/base.py:34-66 | an object keeps name, size and container, its missing dictionaries become `{}`, and its hash is always `None` |
| StorageBase.FindInConnectionArgs | libcloud/storage/base.py:141-152 | each optional driver parameter is in the argument list exactly when it was given (searched by the parameter each argument came from) |
| StorageBase.CorrectedBindingRoundTrip | libcloud/storage/base.py:137-154 | corrected behaviour: bound by name, the arguments give back the driver's key, secret, secure flag, host and port |
| StorageBase.BindPositional | libcloud/storage/base.py:154 | `f(*args)`: argument `i` binds parameter `i`; TypeError exactly when there are fewer arguments than required parameters or more arguments than parameters |
| CloudFiles.PositionalConnectionBinding | libcloud/storage/drivers/cloudfiles.py:68 | as written, `CloudFilesConnection(*args)` succeeds iff at most one of secret, host and port is given (TypeError otherwise); the key is the user id; a secret alone binds as `key` with the secure flag as `secure`; without a secret the secure flag binds as `key` and a lone host or port as `secure` |
| CloudFiles.ConnectionMisbindingExamples | libcloud/storage/base.py:141-154 | a driver with no secret hands its secure flag to the connection as the key; one with a secret and a port raises TypeError |
| StorageBase.ConnectionArgsPositions | libcloud/storage/base.py:141-152 | the key comes first, then the secret when given, then the secure flag; the host, when given, sits right after the secure flag and the port, when given, is last |
| StorageBase.StorageDriver.constructor | libcloud/storage/base.py:137-154 | the driver stores key, secret and secure, and builds its connection arguments in that order |
| StorageBase.GetObjectAsStream | libcloud/storage/base.py:268-290 | the stream yields the response's reads before the first empty one, every read asks for the effective chunk size, exactly one read beyond the chunks is made |
| StorageBase.JoinPath | libcloud/storage/base.py:299 | `pjoin`: an absolute name replaces the directory, otherwise the name follows the directory and one slash |
| StorageBase.JoinPathEndsWithName | libcloud/storage/base.py:299 | the joined path ends with the object name |
| StorageBase.FileSystem.constructor | libcloud/storage/base.py:295-311 | the file system starts with the given directories and files |
| StorageBase.SaveObject | libcloud/storage/base.py:292-331 | the method ends in the state `SavedObject` describes: missing destination and existing file without overwrite raise with their messages and change nothing, an empty first read raises StopIteration, a directory target is an I/O error; otherwise all chunks are written and the result is true iff the byte count equals the object size, a short file being removed when asked |
| StorageBase.WriteChunks | libcloud/storage/base.py:311-319 | with the first chunk in hand, the file ends up holding exactly the chunks before the first empty read, the count is their total length, and nothing past that read is consumed |
| StorageBase.SaveResultSpec | libcloud/storage/base.py:321-331 | the save is successful iff the written length equals the object's size; on failure with deletion the file is gone, otherwise it holds the data |
| CloudFiles.DriverResultsOnSuccessStatus | libcloud/storage/drivers/cloudfiles.py:41-43 | `success()` agrees with the driver: every status on which a listing, get, create or object delete returns a result, or on which `delete_container` returns true, is in 200-299, and 404 and 409 are not |
| CloudFiles.ParseBody | libcloud/storage/drivers/cloudfiles.py:45-56 | an empty body is `None`, a JSON body its decoding, any other body a malformed-response error |
| CloudFiles.ParseUrl | libcloud/storage/drivers/cloudfiles.py:115-117 | `urlparse` of the storage URL: the network location holds no `/`, `?` or `#`, the path and params no `?` or `#`, the query no `#` |
| CloudFiles.SchemeOfUrl | libcloud/storage/drivers/cloudfiles.py:115-117 | `urlparse` takes a lower-case letter scheme before `:` |
| CloudFiles.NetlocOfUrl | libcloud/storage/drivers/cloudfiles.py:115-117 | after `//` the server runs up to the first `/`, `?` or `#` |
| CloudFiles.ParseStorageUrl | libcloud/storage/drivers/cloudfiles.py:115-117 | `scheme://server/path` splits into that scheme, server and path with no params, query or fragment |
| CloudFiles.Bootstrap | libcloud/storage/drivers/cloudfiles.py:89-126 | a failed bootstrap raises InvalidCredsError and keeps the cached host; a successful one caches the server it returns as host and the reply's token |
| CloudFiles.BootstrapSucceeds | libcloud/storage/drivers/cloudfiles.py:89-126 | the bootstrap succeeds iff the reply is 204 with the three auth headers and not an https URL on an insecure connection; it then caches URL, CDN URL, token and path and returns the server |
| CloudFiles.BootstrapFailureKeepsHost | libcloud/storage/drivers/cloudfiles.py:103-120 | every failure is InvalidCredsError and keeps the cached host; a non-204 reply changes nothing; missing headers keep the request path |
| CloudFiles.BootstrapResolves | libcloud/storage/drivers/cloudfiles.py:123-126 | after a bootstrap naming a server the connection is resolved |
| CloudFiles.BootstrapWithStorageUrl | test/storage/test_cloudfiles.py:146 | a 204 with a `scheme://server/path` storage URL resolves to that server and caches that path and token |
| CloudFiles.CloudFilesConnection.constructor | libcloud/storage/drivers/cloudfiles.py:68-75 | a connection starts with URLs, token, request path and host unset |
| CloudFiles.CloudFilesConnection.AuthRequestFor | libcloud/storage/drivers/cloudfiles.py:91-99 | the authentication request is a GET of `/v1.0` on the auth host with the user and key headers |
| CloudFiles.CloudFilesConnection.Host | libcloud/storage/drivers/cloudfiles.py:82-126 | a resolved connection returns its host and changes nothing; otherwise the authentication request is made and the state and result are the bootstrap's |
| CloudFiles.CloudFilesConnection.Request | libcloud/storage/drivers/cloudfiles.py:128-146 | the request path prefixes the action and adds `format=json` when set; POST replaces the headers with the JSON content type |
| CloudFiles.CloudFilesConnection.AddDefaultHeaders | libcloud/storage/drivers/cloudfiles.py:77-80 | the token and `Accept: application/json` are set, other headers kept |
| CloudFiles.LoadJson | libcloud/storage/drivers/cloudfiles.py:182 | `json.loads` (here and at line 193) yields the decoding, or ValueError when the body is not JSON |
| CloudFiles.CallOf | libcloud/storage/drivers/cloudfiles.py:176-296 | the action, verb and raw flag of each operation's request: `''` and `/container` listed by GET, `/container` and `/container/object` fetched by HEAD, the cleaned container name for PUT and DELETE, `/container/object` for the object DELETE and the raw GET download |
| CloudFiles.ObjectCallsShareAction | libcloud/storage/drivers/cloudfiles.py:209-296 | getting (line 211), deleting (line 270) and downloading (line 284) one object address the same path with different verbs; only the download is raw |
| CloudFiles.CleanContainerName | libcloud/storage/drivers/cloudfiles.py:298-305 | one leading slash is removed, other names are unchanged |
| CloudFiles.CleanContainerNameRemovesOneSlash | libcloud/storage/drivers/cloudfiles.py:298-305 | cleaning undoes putting a slash in front, and removes at most one character |
| CloudFiles.ToContainer | libcloud/storage/drivers/cloudfiles.py:311-315 | an entry becomes a container with integer count and bytes, failing on a missing key or a non-integer in evaluation order |
| CloudFiles.ContainerListOf | libcloud/storage/drivers/cloudfiles.py:307-317 | the listing conversion succeeds iff every listed entry converts, and then has one container per entry, in order |
| CloudFiles.ToContainerList | libcloud/storage/drivers/cloudfiles.py:307-317 | the append loop computes the listing conversion |
| CloudFiles.ContainerListSpec | libcloud/storage/drivers/cloudfiles.py:307-317 | the listing succeeds iff every entry converts, and then has one container per entry, in order |
| CloudFiles.ToObject | libcloud/storage/drivers/cloudfiles.py:322-329 | an entry becomes an object with integer size, content type and last-modified in extra, no metadata, and no hash although `hash` is required |
| CloudFiles.ObjectListOf | libcloud/storage/drivers/cloudfiles.py:319-331 | the object-listing conversion succeeds iff every listed entry converts, and then has one object of the container per entry, in order |
| CloudFiles.ToObjectList | libcloud/storage/drivers/cloudfiles.py:319-331 | the append loop computes the object-listing conversion |
| CloudFiles.ObjectListSpec | libcloud/storage/drivers/cloudfiles.py:319-331 | one object per entry, in order, each in the listed container and without hash; fails iff an entry fails |
| CloudFiles.ListContainers | libcloud/storage/drivers/cloudfiles.py:176-184 | 204 is an empty list, 200 the JSON listing, anything else "Unexpected status code" |
| CloudFiles.ListContainerObjects | libcloud/storage/drivers/cloudfiles.py:186-195 | 204 is an empty list, 200 the JSON listing, anything else "Unexpected status code" |
| CloudFiles.HeadersToContainer | libcloud/storage/drivers/cloudfiles.py:333-340 | size and object count are the integer header values, 0 when absent |
| CloudFiles.HeadersToContainerDefaults | libcloud/storage/drivers/cloudfiles.py:334-335 | without the two headers the container has count 0 and size 0 |
| CloudFiles.GetContainer | libcloud/storage/drivers/cloudfiles.py:197-207 | 204 reads the container from the headers, 404 raises ContainerDoesNotExistError, else "Unexpected status code" |
| CloudFiles.GetContainerExample | test/storage/test_cloudfiles.py:66-70 | the headers of the test give object count 800 and size 1234568 |
| CloudFiles.CreateContainer | libcloud/storage/drivers/cloudfiles.py:223-238 | 201 is a new container with count 0 under the cleaned name, 202 raises ContainerAlreadyExistsError, else "Unexpected status code" |
| CloudFiles.DeleteContainer | libcloud/storage/drivers/cloudfiles.py:240-252 | true iff 204; 404 and 409 raise the missing and not-empty errors; other statuses return `None`, never false |
| CloudFiles.MetaNameOfPrefixed | libcloud/storage/drivers/cloudfiles.py:349-352 | `x-object-meta-<name>` is a metadata header for `<name>` when the name does not contain the prefix |
| CloudFiles.MetaDataPickedUp | libcloud/storage/drivers/cloudfiles.py:348-352 | such a header, if no other header strips to the same name, is in the metadata with its value |
| CloudFiles.NoMetaHeadersNoMetaData | libcloud/storage/drivers/cloudfiles.py:348-352 | headers without the prefix give empty metadata |
| CloudFiles.HeadersToObject | libcloud/storage/drivers/cloudfiles.py:342-359 | content-length is popped and read as an integer (its failure raises with only it popped); the other three are popped into extra; a scan over the rest fills the metadata with the prefix removed; no hash |
| CloudFiles.GetObject | libcloud/storage/drivers/cloudfiles.py:209-221 | the container is fetched first and its error propagates; 200/204 read the object from the headers, 404 raises ObjectDoesNotExistError, else "Unexpected status code" |
| CloudFiles.DeleteObject | libcloud/storage/drivers/cloudfiles.py:266-278 | true iff 204; 404 raises ObjectDoesNotExistError; else "Unexpected status code" |
| CloudFiles.DownloadObject | libcloud/storage/drivers/cloudfiles.py:254-260 | through `_get_object` (lines 280-295): on 200 the body is saved as `_save_object` does; any other status raises before anything is read or written |
| CloudFiles.ObjectAsStream | libcloud/storage/drivers/cloudfiles.py:262-264 | through `_get_object` (lines 280-295): on 200 the body is streamed in chunks of the effective size; any other status raises and reads nothing |
| RackspaceDns.RecordTypeName | libcloud/dns/drivers/rackspace.py:37-45 | the seven listed record types have names, any other type raises KeyError |
| RackspaceDns.StringToRecordType | libcloud/dns/drivers/rackspace.py:294 | a string names a type only when it is the table name of that type |
| RackspaceDns.ToZone | libcloud/dns/drivers/rackspace.py:266-281 | id as string, type always `master`, ttl an integer defaulting to 0, email and comment in extra only when present; fails on missing id or name or a non-integer ttl |
| RackspaceDns.ToRecord | libcloud/dns/drivers/rackspace.py:291-303 | id as string, type from its name, the zone given, ttl in extra only when present |
| RackspaceDns.ToZones | libcloud/dns/drivers/rackspace.py:258-264 | the append loop computes the zone-list conversion |
| RackspaceDns.ToRecords | libcloud/dns/drivers/rackspace.py:283-289 | the append loop computes the record-list conversion |
| RackspaceDns.ZonesOf | libcloud/dns/drivers/rackspace.py:258-264 | the zone-list conversion succeeds iff every listed entry converts, and then has one zone per entry, in order |
| RackspaceDns.RecordsOf | libcloud/dns/drivers/rackspace.py:283-289 | the record-list conversion succeeds iff every listed entry converts, and then has one record per entry, in order |
| RackspaceDns.ZonesOfSpec | libcloud/dns/drivers/rackspace.py:258-264 | one zone per entry, in order, each of type `master`; fails iff an entry fails |
| RackspaceDns.RecordsOfSpec | libcloud/dns/drivers/rackspace.py:283-289 | one record per entry, in order, each in the given zone; fails iff an entry fails |
| RackspaceDns.ParseError | libcloud/dns/drivers/rackspace.py:53-76 | a 404 about a zone or a record raises the matching error with the context id; a body with `message` needs code and details and gives `code - message (details)`; a body without message or validation errors leaves `err` unbound |
| RackspaceDns.ValidationErrorsJoined | libcloud/dns/drivers/rackspace.py:72-74 | for any body without `message` whose `validationErrors` holds a `messages` list of strings (other keys in either dictionary allowed), the error text is `Validation errors: ` and the messages joined by `, ` |
| RackspaceDns.CodeIsNotTested | libcloud/dns/drivers/rackspace.py:69-71 | `'code' and 'message' in body` tests only `message`: a message without code raises KeyError, a code without message leaves `err` unbound |
| RackspaceDns.PollRequest | libcloud/dns/drivers/rackspace.py:88-92 | the poll action is `/status/` followed by the job id, with `showDetails` true |
| RackspaceDns.PollActionNamesJob | libcloud/dns/drivers/rackspace.py:89-90 | a numeric job id can be read back from the poll action |
| RackspaceDns.HasCompleted | libcloud/dns/drivers/rackspace.py:94-100 | true iff the status is `COMPLETED`, false for any other status but `ERROR`, which raises with the job's error message |
| RackspaceDns.NotFoundNamesContext | libcloud/dns/drivers/rackspace.py:61-67 | under a zone context a 404 raises ZoneDoesNotExistError with that id, under a record context RecordDoesNotExistError |
| RackspaceDns.FirstCreated | libcloud/dns/drivers/rackspace.py:158 | `reply['response'][key][0]` (here for `domains`, at line 207 for `records`): present iff both keys are there and the entry is a non-empty list or string, and then its first element or first character |
| RackspaceDns.CreatedZoneEchoesPayload | libcloud/dns/drivers/rackspace.py:146-158 | a zone read back by `_to_zone` (lines 266-281) from the sent payload has the domain, email, comment and ttl that were sent |
| RackspaceDns.CreatedRecordEchoesPayload | libcloud/dns/drivers/rackspace.py:197-208 | a record read back by `_to_record` (lines 291-303) from the sent payload has the name, type, data and ttl that were sent |
| RackspaceDns.DnsConnection.constructor | libcloud/dns/drivers/rackspace.py:79-86 | a connection starts with an empty context |
| RackspaceDns.DnsConnection.SetContext | libcloud/dns/drivers/rackspace.py:118 | `set_context` replaces the context |
| RackspaceDns.RackspaceDnsDriver.constructor | libcloud/dns/drivers/rackspace.py:111 | the driver holds its connection |
| RackspaceDns.RackspaceDnsDriver.ListZones | libcloud/dns/drivers/rackspace.py:112-115 | GET `/domains`, the zones of the `domains` list |
| RackspaceDns.RackspaceDnsDriver.ListRecords | libcloud/dns/drivers/rackspace.py:117-123 | the zone context is set, GET with `showRecord`, the records of `recordsList.records` in the zone |
| RackspaceDns.RackspaceDnsDriver.GetZone | libcloud/dns/drivers/rackspace.py:125-129 | the zone context is set and the reply read as a zone |
| RackspaceDns.RackspaceDnsDriver.GetRecord | libcloud/dns/drivers/rackspace.py:131-137 | the zone is fetched first and its failure stops everything; then the record context is set and the record read in that zone |
| RackspaceDns.RackspaceDnsDriver.CreateZone | libcloud/dns/drivers/rackspace.py:139-159 | without `email` ValueError and nothing sent; otherwise the payload has name, email address and an empty record list, ttl only if truthy, comment only if given, and the zone is read from the job result |
| RackspaceDns.RackspaceDnsDriver.UpdateZone | libcloud/dns/drivers/rackspace.py:161-192 | a domain raises before anything is sent; the data holds ttl as an integer when truthy, email address and comment when in extra, and nothing else; type and ttl are replaced only when given and extra is merged |
| RackspaceDns.RackspaceDnsDriver.CreateRecord | libcloud/dns/drivers/rackspace.py:194-209 | an unlisted type raises KeyError and a missing extra TypeError, before the context changes; the record sent holds name, type name, data and the ttl as an integer when given |
| RackspaceDns.RackspaceDnsDriver.UpdateRecord | libcloud/dns/drivers/rackspace.py:211-243 | the payload always has the record's own name, data, ttl and comment only when given; type and data replaced only when given, extra merged |
| RackspaceDns.RackspaceDnsDriver.DeleteZone | libcloud/dns/drivers/rackspace.py:245-249 | the zone context is set, DELETE of the zone, true |
| RackspaceDns.RackspaceDnsDriver.DeleteRecord | libcloud/dns/drivers/rackspace.py:251-256 | the record context is set, DELETE of the record, true |
| OpenStackExtensions.NewFloatingIpAddress | libcloud/compute/drivers/openstack_extensions.py:90-95 | the id is stored as a string, the other attributes as given |
| OpenStackExtensions.NumericIdReadBack | libcloud/compute/drivers/openstack_extensions.py:91 | a numeric id can be read back from its string |
| OpenStackExtensions.ToFloatingIp | libcloud/compute/drivers/openstack_extensions.py:38-40 | as in the pool and, at lines 214-216, the mixin: id, ip and instance id of the entry, the caller stored as pool, no driver |
| OpenStackExtensions.CorrectedExtensionToFloatingIp | libcloud/compute/drivers/openstack_extensions.py:214-216 | corrected behaviour: the mixin conversion with the driver stored as driver and no pool |
| OpenStackExtensions.ListedElements | libcloud/compute/drivers/openstack_extensions.py:35-36 | `obj[key]` iterated (here and at lines 211-212 and 235-236): KeyError without the key, and a list entry gives its items |
| OpenStackExtensions.FloatingIpsOf | libcloud/compute/drivers/openstack_extensions.py:34-36 | `_to_floating_ips` of the pool (and the mixin, lines 210-212): succeeds iff every `floating_ips` element converts, then one address per element, in order |
| OpenStackExtensions.PoolFloatingIps | libcloud/compute/drivers/openstack_extensions.py:25-36 | every address the pool lists is in that pool and has no driver |
| OpenStackExtensions.ExtensionFloatingIps | libcloud/compute/drivers/openstack_extensions.py:120-127 | as written (through lines 210-216): every address the mixin lists holds the mixin as its pool and has no driver |
| OpenStackExtensions.CorrectedExtensionFloatingIps | libcloud/compute/drivers/openstack_extensions.py:120-127 | corrected behaviour: every address the mixin lists has the driver set and no pool |
| OpenStackExtensions.PoolFloatingIpsSpec | libcloud/compute/drivers/openstack_extensions.py:25-36 | for any reply whose `floating_ips` is a list: one address per element, in order, as `_to_floating_ip` converts it; fails iff an element fails |
| OpenStackExtensions.ExtensionFloatingIpsSpec | libcloud/compute/drivers/openstack_extensions.py:210-216 | as written, for any reply whose `floating_ips` is a list: one address per element, in order, each converted with the mixin as pool |
| OpenStackExtensions.CorrectedExtensionFloatingIpsSpec | libcloud/compute/drivers/openstack_extensions.py:210-216 | corrected behaviour, for any reply whose `floating_ips` is a list: one address per element, in order, each with the driver set |
| OpenStackExtensions.Matching | libcloud/compute/drivers/openstack_extensions.py:51 | the filtered list (also line 139) holds exactly the listed addresses equal to the argument |
| OpenStackExtensions.SelectUnique | libcloud/compute/drivers/openstack_extensions.py:51-52 | `ip_obj, = matches` (also lines 139-140): a picked address is one of the list and has the requested address; otherwise ValueError |
| OpenStackExtensions.SelectUniqueSpec | libcloud/compute/drivers/openstack_extensions.py:51-52 | in the pool and in the mixin (lines 138-140), picking succeeds iff exactly one listed address equals the argument, and returns it; with none it raises ValueError |
| OpenStackExtensions.PoolGetFloatingIp | libcloud/compute/drivers/openstack_extensions.py:42-52 | a listing failure propagates; a picked address has the requested address, is one of those the pool lists and is in the pool |
| OpenStackExtensions.ExtensionGetFloatingIp | libcloud/compute/drivers/openstack_extensions.py:129-140 | as written: a listing failure propagates; a picked address has the requested address, is one of those the mixin lists, and holds the mixin as pool |
| OpenStackExtensions.CorrectedExtensionGetFloatingIp | libcloud/compute/drivers/openstack_extensions.py:129-140 | corrected behaviour: the same pick over the corrected listing, so the address has the driver set and no pool |
| OpenStackExtensions.CreateRequest | libcloud/compute/drivers/openstack_extensions.py:60-62 | with lines 148-150: POST to `/os-floating-ips`; a pool sends its name, the extension an empty body |
| OpenStackExtensions.CreatedFloatingIp | libcloud/compute/drivers/openstack_extensions.py:54-66 | the new address (also the mixin's as written, lines 142-154) exists iff the reply has `floating_ip` with `id` and `ip`; it has that id as a string, that ip, the creator as pool, no node and no driver |
| OpenStackExtensions.CorrectedExtensionCreatedFloatingIp | libcloud/compute/drivers/openstack_extensions.py:142-154 | corrected behaviour: the same address, with the id and ip of the reply, the driver stored as driver, no pool and no node |
| OpenStackExtensions.DeleteSucceeded | libcloud/compute/drivers/openstack_extensions.py:79 | here and at line 167: deleted iff the status is 204 or 202 |
| OpenStackExtensions.DeleteDispatch | libcloud/compute/drivers/openstack_extensions.py:97-106 | delete goes to the pool when set, else to the driver when set, else nowhere |
| OpenStackExtensions.Delete | libcloud/compute/drivers/openstack_extensions.py:97-106 | with the deletes at lines 68-79 and 156-167: `None` without pool and driver; one delete request and 204/202 for a pool or the driver; AttributeError when the pool slot holds the extension driver |
| OpenStackExtensions.ExtensionAddressNotDeletable | libcloud/compute/drivers/openstack_extensions.py:103-104 | as written (the mixin passes itself as pool at lines 154 and 215), every address the mixin lists, picks or creates raises AttributeError on `delete()` whatever the service says |
| OpenStackExtensions.CorrectedExtensionAddressDeletable | libcloud/compute/drivers/openstack_extensions.py:156-167 | corrected behaviour: the same listed, picked or created addresses are deleted by the driver: one request, success iff 204 or 202 |
| OpenStackExtensions.Attach | libcloud/compute/drivers/openstack_extensions.py:169-187 | POST to the node's action with `addFloatingIp` holding the address; attached iff 202 |
| OpenStackExtensions.Detach | libcloud/compute/drivers/openstack_extensions.py:189-207 | POST to the node's action with `removeFloatingIp` holding the address; detached iff 202 |
| OpenStackExtensions.AttachDetachAgree | libcloud/compute/drivers/openstack_extensions.py:181-207 | an address object and its bare address send the same request; attach and detach differ only in the key |
| OpenStackExtensions.ToFloatingIpPool | libcloud/compute/drivers/openstack_extensions.py:238-239 | a pool named by the entry's `name`; fails without it |
| OpenStackExtensions.FloatingIpPoolsOf | libcloud/compute/drivers/openstack_extensions.py:234-236 | succeeds iff every `floating_ip_pools` element converts, and then holds one pool per element, in order |
| OpenStackExtensions.FloatingIpPoolsSpec | libcloud/compute/drivers/openstack_extensions.py:225-236 | for any reply whose `floating_ip_pools` is a list: one pool per element, in order, named as listed |

## Findings

| source | as written | input that shows it | evidently intended | confidence | as-written member | corrected member |
|---|---|---|---|---|---|---|
| libcloud/compute/drivers/openstack_extensions.py:154, 215 | the extension mixin passes itself as the address's `pool`, so `delete()` calls `pool.delete_floating_ip`, which the mixin does not define | any address from `ex_list_floating_ips`, `ex_get_floating_ip` or `ex_create_floating_ip`, then `delete()` | pass the driver as `driver`, so `delete()` reaches `ex_delete_floating_ip` | medium (the concrete driver class is not part of this model), not executed | OpenStackExtensions.ExtensionAddressNotDeletable | OpenStackExtensions.CorrectedExtensionAddressDeletable |
| libcloud/storage/base.py:141-154 | the driver drops the arguments it was not given and calls the connection class by position, so each later value moves one slot to the left; `CloudFilesConnection(user_id, key, secure)` then binds them by place | `CloudFilesStorageDriver('user')` passes `True` as the key; `CloudFilesStorageDriver('user', 'secret', port=443)` raises TypeError | each value reaches the connection parameter of its own name, as keyword arguments would | low (CloudFiles needs a secret, and the generic connection class is not part of this model), not executed | CloudFiles.PositionalConnectionBinding | StorageBase.CorrectedBindingRoundTrip |

## Left out

- Sockets, the TLS handshake, `ssl.wrap_socket` and the tunnel (libcloud/httplib_ssl.py:38-47): I/O. `Connect` takes the peer certificate as a parameter.
- Real HTTP round trips and JSON decoding. Replies are values: a status, headers and the decoded body.
- The file-system calls of `_save_object`. The file system is a set of directories and a map from paths to contents; parent directories of a file path are not modelled, and `open` fails only on a path that is a directory.
- `_upload_object` (libcloud/storage/base.py:333-354): it needs MD5 hashing, which the model does not have. As written it cannot complete either: `hashlib` is not imported, `file_hash` is still `None` when `.hexdigest()` is called, the byte count skips the first chunk, and with `calculate_hash` false the loop never reads again.
- `_guess_file_mime_type`: a thin wrapper around `mimetypes`.
- The convenience methods of `Object` and `Container` (libcloud/storage/base.py:67-125) only forward to the driver and are not modelled separately.
- `AsyncConnection`'s polling loop and `OpenStack_1_1_Connection`: their code is not part of this model. Only the poll request and the completion check are modelled.
- `merge_valid_keys` and `get_new_obj` are not part of this model. `merge_valid_keys` is a function parameter. `get_new_obj` is taken to copy the zone or record with the given attributes replaced.
- The providers registry (libcloud/storage/providers.py), the `CloudFilesUS*`/`CloudFilesUK*` subclasses, which only set the auth host and the provider type, and the documentation examples.
- `Lower` implements ASCII lower-casing only; `ParseInt` accepts no surrounding whitespace; `PyStr` renders lists and dictionaries only schematically.
- Generators are modelled eagerly: `ReadInChunks` and `GetObjectAsStream` return every chunk, as when the generator is run to exhaustion.
- The in-place mutation of the caller's `params` in `CloudFilesConnection.request` is not modelled.
- `StorageBase.FindInConnectionArgs`, `StorageBase.CorrectedBindingRoundTrip` and `StorageBase.BindByName`: the tag each `ConnArg` carries (which driver parameter it came from) does not exist in the program, which passes the bare values by position; these members state the binding by name that the list evidently aims at, and `BindPositional` with `CloudFiles.PositionalConnectionBinding` state what the program does. The generic `ConnectionKey` class and its signature are not part of this model.
- `CloudFiles.CloudFilesConnection.AddDefaultHeaders`: `add_default_headers` mutates the caller's dictionary and returns it (libcloud/storage/drivers/cloudfiles.py:77-80); the model returns a new map, so the aliasing is not modelled.
- `CloudFiles.ToContainer` and `CloudFiles.ToObject` store `str()` of the listed `name` (via `PyStr`), because container and object names are typed as strings here; the code stores `container['name']` and `obj['name']` unchanged (libcloud/storage/drivers/cloudfiles.py:314 and 323), so a non-string name would stay a non-string there.
- `CloudFiles.HeadersToObject`: `rest` is what the pops leave of the header dictionary. Aliasing the caller's dictionary is not modelled.
- `CloudFiles.CloudFilesConnection.Host`: `scheme is "https"` is modelled as equality. In CPython the identity test can be false for an equal string, so the code may accept an https URL on an insecure connection that the model refuses.
- `CloudFiles.ParseUrl`: the param, query and fragment splits are applied to every scheme.
- `Utils.Reader`: the reader returns its scripted replies whatever size is asked; the size is logged but not enforced.
- `RackspaceDns.ParseError`: when `validationErrors.messages` is a dictionary its iteration is modelled as a TypeError, because the model has no key order for dictionaries. A list yields its items and a string its characters.
- `RackspaceDns.StringToRecordType`: `_string_to_record_type` belongs to the DNS base class, which is not part of this model. It is modelled as the inverse of the driver's table, with an AttributeError for other strings.
- `RackspaceDns.RackspaceDnsDriver.UpdateRecord`: the `type` argument is an `Option`. A record-type constant that Python treats as false would fall back to the record's type in the code; the model does not represent that.
- `RackspaceDns.DnsConnection`: the context a fresh connection starts with comes from code that is not part of this model; the model starts with an empty one.
- `OpenStackExtensions.Delete`: the driver class that includes the extension mixin is not part of this model. It is taken to define no `delete_floating_ip` beyond the mixin's methods.
- `OpenStackExtensions.FloatingIpPool`: the pool's connection is not modelled. Its requests are returned as values.
