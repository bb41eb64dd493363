# Verified model of Barebones-Reverse-Proxy

A Dafny 4.11 model of the proxy's stateful core, with its properties proved over all inputs, all runs and all
interleavings of worker threads and configuration reloads.

- `cache.dfy`, `cache_runs.dfy`: the byte-budgeted LRU cache as an object, and what holds over every run of it.
- `security.dfy`: the sliding-window limiter and ban table as an object, and its agreement with the never pruned history.
- `proxy_protocol.dfy`, `utf8_laws.dfy`: the PROXY protocol v1 reader ("The PROXY protocol Versions 1 & 2", section 2.1,
  TCP4 lines), the spoof check, the stream that replays what the check consumed, and what valid UTF-8 is.
- `comments.dfy`, `comment_laws.dfy`, `words.dfy`, `text.dfy`: the comment scanner, the laws that determine it, and the
  string operations under the parser.
- `parser.dfy`, `parser_image.dfy`, `parser_text.dfy`, `parser_order.dfy`, `parser_spellings.dfy`: the configuration parser,
  its exact image, its canonical printer, the order independence of the security block, and what each spelling of each
  directive sets.
- `router.dfy`, `tls.dfy`: prefix routing and path rewriting, and the host table of the TLS acceptor.
- `static_assets.dfy`: which paths and content types count as static assets.
- `proxy.dfy`, `runtime.dfy`: the decisions of the request handler, the live configuration and the reload loop.
- `system.dfy`, `system_runs.dfy`: the whole proxy as a state machine, one locked access per step, and the guarantees
  that hold in every trace of it.
- `system_limits.dfy`, `freshness.dfy`: the limiter, the bans and the life of a cached response in every trace, from the
  numbers in the configuration.
- `hits.dfy`: exactly which requests some trace answers from the cache, and when the answer can be one to another
  resource or method.
- `refinement.dfy`: startup, reload, request handling and response storing on the objects are events of that machine.

Every stateful operation exists twice: as a step function on values, and as a method that updates fields in place and is
proved to perform that step. The run theorems are about the step functions. For the cache and the security manager they
carry over because each method is one step; for the whole proxy, `Refinement` relates snapshots, managers and engines on
the heap to the state machine's, and proves that each method keeps the relation along the method's events, for the
snapshot it works on and for any other snapshot in use.

Time is an integer number of nanoseconds. Each locked call reads the clock under its lock, so the times of one manager's
calls do not decrease; a cached asset's creation time is read before the engine is locked and may be earlier. The `lru`
crate is taken by its documented contract: a list in order of use with a limit on its entries, which drops the oldest entry
when a fresh key is put into a full list. The number of CPUs, the text syntax of IPv6 addresses and the lower-casing of text
outside ASCII are parameters of the parser (`Env`); which certificates and keys load and what a configuration file holds
are inputs of a reload (`Signal`); the authentication provider's verdict on a request is an event. Which hosts and paths the
HTTP library delivers, and to which addresses its clients can send, are parameters too (`Http`): the theorems of `hits.dfy`
are about the runs these allow.

## Where the code and its documentation differ

The model follows the code.

- docs/cache.md:29 says cache entries survive a reload. Each accepted reload builds a new, empty engine
  (`SystemRuns.ReloadEmptiesCache`).
- docs/cache.md:52 gives `enabled off` as the default. Inside a `cache` block the default is on (src/parser.rs:727).
- docs/security.md:65 gives 300 as the default request limit. That holds inside a `security` block; without one the limit
  is 60 (src/security.rs:17).
- docs/cache.md:28 calls the byte accounting exact. It is exact in exactly the runs in which the entry limit never drops
  bytes (`CacheRuns.CounterExactIff`). `CacheRuns.CounterCanDrift` gives, for every entry limit, runs in which it is not;
  `CacheRuns.NewEngineDrifts` does so for the 10,000 entries of the code.
- docs/cache.md:62-66 combines `auth on` with caching and leaves the order open. The lookup comes before the authentication
  step, so a hit on such a route is answered without a verdict on its own request (`Hits.CachedAnswerIff`).
- docs/cache.md:88 counts `.html` among the cached extensions and speaks of the path. The code treats `.html` as an entry
  point that is never cached, and tests path and query together. A query can therefore turn a service worker into a static
  asset (`StaticAssets.QueryHidesEntrypoint`); `StaticAssets.QueryDecidesEntrypoint` says exactly when it does not.
- docs/cache.md:84 asks for a matching route before a lookup. The code looks up without one; a hit then needs a key shared
  with another resource, one with a route (`Hits.CachedAnswerIff`).
- The cache key leaves out the method, so a GET can be answered with the stored response to a HEAD and the other way round
  (`Hits.OtherVerbAnswers`); `Hits.VerbsAgreeIff` says exactly when that cannot happen.
- The cache key joins host and path with a colon, and a Host header may hold colons and slashes, so a request can be
  answered with the response for another host (`Hits.SlashHostAnswersOther`); `Hits.SameResourceIff` says exactly when that
  cannot happen.
- The check for text behind a directive's semicolon never fires, because it looks behind the last semicolon
  (`Parser.NoTrailingGarbage`).
- Comment stripping is not idempotent (`Comments.StripIsNotIdempotent`); `Comments.StripIdempotentIff` says on which texts
  it is.

## Model

| member | source | states |
|---|---|---|
| Cache.EvictionIsShortest | src/cache.rs:142-156 | the eviction loop pops the shortest oldest-first prefix that makes room, and no saturating subtraction truncates |
| Cache.GetKeepsValid | src/cache.rs:57-73 | `get` keeps byte conservation: counter = live bytes + displaced bytes <= capacity; its subtraction never truncates |
| Cache.StoreKeepsValid | src/cache.rs:139-178 | `insert` keeps byte conservation and succeeds exactly when displaced bytes plus the new bytes fit the capacity |
| Cache.InsertSucceedsIff | src/cache.rs:83-178 | an insert succeeds iff its size is within the file limit and fits beside the displaced bytes; with nothing displaced, capacity_full_after_eviction is unreachable |
| Cache.PutLookup | src/cache.rs:159 | after `put` the key maps to the new asset, a displaced oldest key to nothing, every other key to what it did |
| Cache.LruCacheEngine.constructor | src/cache.rs:42-55 | a new engine is empty, has 10,000 entry slots and the given limits |
| Cache.LruCacheEngine.Get | src/cache.rs:57-73 | the method performs the step: a fresh entry is returned and becomes most recent, an expired one is dropped and its bytes freed |
| Cache.LruCacheEngine.MakeRoom | src/cache.rs:139-156 | the loop drops exactly the counted prefix and reports its length and bytes |
| Cache.LruCacheEngine.Place | src/cache.rs:158-162 | put, and correct the counter for the value replaced under the same key only |
| Cache.LruCacheEngine.Insert | src/cache.rs:75-179 | the method performs the step with an asset of the given status, headers, body and time, the override or the default as TTL and the body's length as size; it keeps the invariant and reports exactly the evicted prefix |
| CacheRuns.RunConserves | src/cache.rs:57-179 | after every run of gets and inserts, counter = live bytes + displaced bytes <= capacity, keys are distinct, entries within the limit |
| CacheRuns.CounterExactIff | src/cache.rs:47-169 | the counter equals the live bytes iff no step of the run put a fresh key into a full list whose oldest entry held bytes |
| CacheRuns.FewKeysNeverDrop | src/cache.rs:47-162 | a run that stores at most the entry limit of different keys never drops bytes, so its counter is exact |
| CacheRuns.RefusalIsPermanent | src/cache.rs:170-178 | an insert refused as capacity-full stays refused in every continuation of the run |
| CacheRuns.CounterCanDrift | src/cache.rs:158-164 | at every entry limit, a run that stores n one-byte keys, n from the limit to the capacity, ends with counter n while only as many bytes as the limit are live |
| CacheRuns.DriftRefuses | src/cache.rs:142-178 | after such a run an asset is stored iff it fits beside the dropped keys' bytes; otherwise it is refused in every continuation, although an empty engine takes it |
| CacheRuns.NewEngineDrifts | src/cache.rs:42-178 | with the 10,000 entries of the code, any capacity can be used up so that exactly the assets above 10,000 bytes are refused, for good |
| CacheRuns.SumsFitIff | src/cache.rs:142-162 | no run overflows the 64-bit sum of counter and size iff the capacity and the largest admissible asset fit a word together |
| CacheRuns.StoredIsLatest | src/cache.rs:57-179 | whatever is stored under a key is the asset of its latest successful insert |
| CacheRuns.MissingWasPushedOut | src/cache.rs:57-179 | a fresh latest asset that is missing was pushed out by an insert after which the key was not stored again |
| CacheRuns.GetAgreesWithMap | src/cache.rs:19-73 | `get` returns only the latest stored asset, younger than its TTL, and misses a fresh one only if an insert pushed it out since |
| CacheRuns.FoundUntilTtl | src/cache.rs:19-112 | in every run an asset that was not stored again or pushed out is found, with its status, headers and body, for exactly its override or the default TTL, and not at all afterwards |
| CacheRuns.ListIsLastTouchOrder | src/cache.rs:57-164 | in every run the list is ordered by last use, oldest first |
| CacheRuns.InsertEvictsLeastRecent | src/cache.rs:139-178 | in every run an insert pops only keys used before every kept key, as few as make room, and reports their number and bytes |
| Security.SecurityManager.constructor | src/security.rs:51-62 | a new manager has empty tables |
| Security.SecurityManager.DoCleanup | src/security.rs:176-191 | right after cleanup only in-window timestamps, non-empty lists and bans in force remain |
| Security.SecurityManager.RecordTlsFailure | src/security.rs:81-110 | the method performs the failure step, banning on one failure too many |
| Security.SecurityManager.CheckAndRecordRequest | src/security.rs:115-132 | the method performs the request step; a refused request is recorded too |
| Security.SecurityManager.CheckBlacklisted | src/security.rs:135-149 | the method performs the ban check and removes an expired ban |
| Security.SecurityManager.GetTlsFailureCount | src/security.rs:152-165 | the method performs the count step and drops an emptied list |
| Security.SecurityManager.Blacklist | src/security.rs:168-172 | the method performs the manual ban |
| SecurityRuns.RetainTwice | src/security.rs:89-127 | pruning earlier does not change what a later pruning leaves |
| SecurityRuns.StampsTrackLog | src/security.rs:81-191 | pruning an address's stored list gives the same as pruning all its events of the unpruned log |
| SecurityRuns.AnswersMatchHistory | src/security.rs:81-172 | every answer of every run under a non-decreasing clock equals the one computed from the full history: counts of events at most 60 s old, bans by any ban still in force |
| SecurityRuns.LatestBanDecides | src/security.rs:95-149 | an address is banned at a time iff its latest ban is in force; earlier bans end no later |
| SecurityRuns.ExpiryNeverEarlier | src/security.rs:95-178 | no call moves the expiry of a ban in force to an earlier time or removes it |
| SecurityRuns.RateBound | src/security.rs:115-132 | at most the limit of requests of one address pass in any closed interval of 60 s |
| SecurityRuns.TriggeredIffBurst | src/security.rs:81-110 | some recorded failure of an address answers true iff some closed interval of at most 60 s holds more failures than allowed |
| SecurityRuns.TablesStayTidy | src/security.rs:81-191 | between calls every stored list is non-empty, sorted and not in the future |
| Text.PrintIsDecimal | src/parser.rs:12-22 | numbers are in decimal notation |
| Text.ParseSigned | src/parser.rs:12-22 | a plus sign in front of a number does not count |
| Text.Ipv4Text | src/proxy_protocol.rs:181-182 | an IPv4 address is its four numbers in order, with dots |
| Text.Ipv4Spelling | src/proxy_protocol.rs:181-182 | a dotted IPv4 address has exactly one accepted spelling, the printed one |
| ProxyProtocol.LineIs | src/proxy_protocol.rs:169-187 | the line behind the signature is client, proxy, client port and proxy port, separated by single blanks, up to CRLF |
| ProxyProtocol.ParseV1Iff | src/proxy_protocol.rs:169-187 | exactly the TCP4 lines with valid fields parse, and they parse to the client address and port |
| ProxyProtocol.HeaderRoundTrip | src/proxy_protocol.rs:92-117 | for all addresses, ports and payloads the canonical line in front of the payload yields the client's address and leaves exactly the payload |
| ProxyProtocol.HeaderIff | src/proxy_protocol.rs:93-104 | a header ends in the first carriage return that is followed by a newline |
| ProxyProtocol.ReadHeader | src/proxy_protocol.rs:93-107 | the loop consumes exactly the shortest prefix ending in CRLF, within 107 bytes, or fails iff there is none, with end of file told from over-length |
| ProxyProtocol.PeekSignature | src/proxy_protocol.rs:132-147 | the peek loop reads at most five bytes, loses none, and sees the signature iff the stream begins with it |
| ProxyProtocol.ProxyStream.PollRead | src/proxy_protocol.rs:23-49 | one completed read performs the replay step: buffer first, then the socket |
| ProxyProtocol.ReadIsLossless | src/proxy_protocol.rs:28-49 | a read of positive capacity delivers the next pending bytes and nothing only at the end |
| ProxyProtocol.ReadAmount | src/proxy_protocol.rs:28-49 | a read delivers as much of the buffer as fits, and only without one what the socket offers |
| ProxyProtocol.ReplayIsLossless | src/proxy_protocol.rs:28-49 | any sequence of positive reads delivers the original bytes in order, and as many reads as bytes deliver all of them |
| ProxyProtocol.ZeroReadLosesBuffer | src/proxy_protocol.rs:29-47 | a read of capacity zero drops the buffer, and loses nothing iff the buffer is used up |
| ProxyProtocol.HandleProxyProtocol | src/proxy_protocol.rs:79-167 | switched off: unchanged; untrusted: rejected as spoofed iff the stream begins with PROXY, else every byte is still pending; trusted: succeeds iff the shortest CRLF prefix parses, with exactly its address and the rest pending, else fails with end of file, over-length, invalid UTF-8 or parse failure as the stream has it |
| Utf8Laws.ValidUtf8Iff | src/proxy_protocol.rs:108-109 | the header passes as UTF-8 iff it is the encoding of a sequence of Unicode scalar values (sections 3 and 4 of RFC 3629) |
| Comments.AtBoundary | src/parser.rs:478-508 | the backward scan never changes the decision: a boundary is index 0 or a space, tab, semicolon or newline before |
| Comments.StripComments | src/parser.rs:464-548 | the scanner's loops compute the reference lexer |
| Comments.StripKeepsLayout | src/parser.rs:464-548 | output and input have the same length and newlines, and every other output character is the input's or a space |
| Comments.StripFixedIff | src/parser.rs:464-548 | a text is unchanged iff no comment opens in it |
| Comments.StripIdempotentIff | src/parser.rs:478-540 | a second pass strips nothing more iff no block comment is directly followed by the opening of another comment |
| Comments.StripIsNotIdempotent | src/parser.rs:482-487 | a concrete text on which a second pass strips more |
| Comments.StripUnbroken | src/parser.rs:484-520 | in stripped text no comment opening stands behind a semicolon |
| CommentLaws.StripObeysLaws | src/parser.rs:464-548 | a text without an opening is kept; before the first opening the text is kept; a line comment is blanked up to the newline, a block comment up to its first end or the end of the text, newlines kept; the rest is stripped in turn |
| CommentLaws.OnlyStripObeysLaws | src/parser.rs:464-548 | these laws leave no choice: every function that obeys them is stripping |
| Parser.ParseRouteBlock | src/parser.rs:106-240 | the loop over the shared index computes the route block and leaves the index on its terminator |
| Parser.ParseSecurityBlock | src/parser.rs:242-429 | the loop computes the security block and leaves the index on its terminator |
| Parser.ParseCacheBlock | src/parser.rs:726-812 | the loop computes the cache block and leaves the index on its terminator |
| Parser.ParseDirective | src/parser.rs:571-683 | one round of the top-level loop computes one directive and the lines behind it |
| Parser.ParseProxyConfig | src/parser.rs:550-724 | the whole parser computes `ParseConfig` |
| Parser.NoTrailingGarbage | src/parser.rs:74-88 | the check for text behind the semicolon never finds any |
| ParserImage.RouteBlockSound | src/parser.rs:106-150 | an accepted route has a valid upstream, and certificate and key both iff its endpoint is https |
| ParserImage.AcceptedIsWellFormed | src/parser.rs:550-724 | everything accepted is well formed: routes present and distinct, certificate rules, workers >= 1, forward_auth when a route needs it, all numbers within their types |
| ParserImage.CanonicalParses | src/parser.rs:550-812 | the canonical lines of every well-formed configuration parse back to it |
| ParserText.TextRoundTrip | src/parser.rs:464-724 | so does the canonical text, through comment stripping, splitting and trimming |
| ParserText.ImageIsWellFormed | src/parser.rs:550-724 | over all texts, the configurations the parser can return are exactly the well-formed ones |
| ParserOrder.SecurityOrderIrrelevant | src/parser.rs:242-429 | if the lines of a security block parse, every permutation parses to the same settings, with either terminator and any lines behind the block |
| ParserOrder.ProxyProtocolNeedsUpstream | src/parser.rs:259-266 | with the proxy protocol on, a line of the block names the trusted upstream |
| ParserOrder.AcceptedNamesUpstream | src/parser.rs:259-266 | the same for every accepted input as a whole |
| ParserOrder.EmptyBlocksGiveDefaults | src/parser.rs:259-279 | an empty security block and an empty cache block parse to the documented constants |
| ParserSpellings.SizeWithUnit | src/parser.rs:431-462 | a number with k, m or g in either case is its multiple of 1024, 1024^2 or 1024^3, without one itself; refused iff the product leaves the 64-bit word |
| ParserSpellings.CacheFlagLines | src/parser.rs:758-770 | `enabled` and `cache`, however spaced, set the switch by on/yes/true and off/no/false, leave the rest, and refuse every other word |
| ParserSpellings.CacheSizeLines | src/parser.rs:771-790 | `max_capacity` and `max_capacity_mb` set the capacity, `max_file_size` and `max_file_size_mb` the file limit, in bytes or units; a bare number under `_mb` counts mebibytes |
| ParserSpellings.CacheTtlLines | src/parser.rs:791-800 | `default_ttl`, `default_ttl_sec` and `ttl` set the TTL |
| ParserSpellings.CacheUnknownLine | src/parser.rs:801-805 | no other name is accepted in a cache block |
| ParserSpellings.RouteUpstreamLines | src/parser.rs:164-172 | `upstream` and `forward` name the upstream; the value must begin with a slash or have a colon |
| ParserSpellings.RouteFlagLines | src/parser.rs:173-226 | `auth`, `cache` and `intercept_errors` set their own flag by the six words and refuse every other |
| ParserSpellings.RouteFileLines | src/parser.rs:185-202 | `cert` and `key` set their file, once each |
| ParserSpellings.RouteUnknownLine | src/parser.rs:227-231 | no other name is accepted in a route block |
| ParserSpellings.RouteFields | src/parser.rs:106-150 | a closed route block yields a route with exactly these settings |
| ParserSpellings.RouteDefaults | src/parser.rs:106-150 | a block that only names its upstream has no authentication, no files and open flags |
| ParserSpellings.SecurityNumberLines | src/parser.rs:328-388 | `timeout`, `max_tls_failures`, `ban_duration`, `rate_limit_rpm` and `rate_limit` each set their own limit and leave every other at its default |
| ParserSpellings.SecuritySizeLines | src/parser.rs:398-417 | so do the two sizes, with units |
| ParserSpellings.SecurityAddressLines | src/parser.rs:313-397 | and the authentication and upstream addresses |
| ParserSpellings.ProxyProtocolOnLine | src/parser.rs:259-327 | `proxy_protocol` is switched on by on and true, and then needs the trusted upstream |
| ParserSpellings.ProxyProtocolOffLine | src/parser.rs:294-312 | and off by off and false; no other word is accepted |
| ParserSpellings.RateLimitNames | src/parser.rs:374-388 | both names of the rate limit do the same in every context |
| ParserSpellings.SecurityUnknownLine | src/parser.rs:418-422 | no other name is accepted in a security block |
| ParserSpellings.SecurityGivenTwice | src/parser.rs:294-417 | a setting given twice is refused |
| ParserSpellings.TopNumberLines | src/parser.rs:582-669 | `listen` takes a 16-bit port, `workers` a positive number, once each |
| ParserSpellings.TopTextLines | src/parser.rs:592-620 | `logfile` takes a word, `intercept_errors` a flag, once each |
| ParserSpellings.TopUnknownLine | src/parser.rs:52-61 | no other directive is accepted at the top level |
| ParserSpellings.SecurityHeader | src/parser.rs:638-644 | one security block may stand at the top level; its lines make the settings |
| ParserSpellings.CacheHeader | src/parser.rs:670-676 | one cache block may stand at the top level; its lines change on, 64 MiB, 2 MiB and 300 s |
| ParserSpellings.RouteHeaderLine | src/parser.rs:90-104 | a route header has one endpoint, which begins with a slash or has a colon and is new, and opens the next route |
| ParserSpellings.RouteHeaderExtra | src/parser.rs:90-96 | a route header with a further word is refused |
| ParserSpellings.ExtraWordLine | src/parser.rs:63-72 | a directive with a second value is refused, at the top level and in every block |
| ParserSpellings.ConfigFields | src/parser.rs:684-724 | the configuration has what was given, the number of CPUs as workers if nothing was, and needs a port, a route and forward_auth if a route asks for it |
| ParserSpellings.LineWithoutSemicolon | src/parser.rs:24-31 | a directive without a semicolon is refused in every block |
| ParserSpellings.CapitalDirective | src/parser.rs:33-40 | a directive with a capital letter is refused in every block |
| ParserSpellings.UnbalancedBraces | src/parser.rs:571-812 | a block that is not closed and a brace outside a block are refused |
| ParserSpellings.OnlyBracesClose | src/parser.rs:106-760 | nothing but `}` and `};` closes a block |
| ParserSpellings.LineOfText | src/parser.rs:550-570 | lines are trimmed; blank lines and lines beginning with a number sign are skipped |
| Router.FirstMatchWins | src/router.rs:33-63 | the result is that of the first matching route, none iff no route matches |
| Router.FirstMatchDecides | src/router.rs:33-63 | the first matching route's flags are the result's, the address is its upstream's authority with the scheme's default port, and the path goes from the route's own path, or the root, to the upstream's |
| Router.MatchesIff | src/router.rs:34-40 | with a scheme, matching is being a prefix of host and path without the scheme; without one, only a beginning of a scheme matches, and it matches everything |
| Router.MatchesPrefix | src/router.rs:34-40 | an endpoint with a scheme matches exactly the hosts and paths that begin with the rest of it |
| Router.OrderIsIrrelevant | src/router.rs:37-60 | in a prefix-free table of schemed endpoints every permutation gives the same result for every host and path |
| Router.MatchIsExact | src/router.rs:37-48 | for an endpoint with a path, a match is the same host and an extension of the path, and the path is always rewritten to forward path plus remaining suffix |
| Router.MatchPinsHostIff | src/router.rs:37-40 | a match determines the host iff the endpoint has a path; otherwise longer hosts match too |
| Router.UpstreamAddrShape | src/router.rs:67-96 | an upstream address has a colon and no slash, a forward path begins with a slash |
| Router.EndpointFallsApart | src/router.rs:67-96 | an endpoint built from scheme or none, authority and path yields the authority, with the scheme's default port if it names none, and the path, or the root if it has none |
| Router.EndpointHasParts | src/router.rs:67-96 | every endpoint is built that way |
| Proxy.ClientAddress | src/proxy.rs:71-91 | the peer's address, or behind the trusted upstream that of cf-connecting-ip, else true-client-ip, else x-forwarded-for, if it holds one |
| Proxy.HeaderAddressIs | src/proxy.rs:74-90 | a list in x-forwarded-for gives its first address, every header a single one, with blanks around it or not |
| Proxy.TooLargeIff | src/proxy.rs:186-205 | a request is too large iff it announces a 64-bit length above the limit, 10 MiB without a security block |
| Proxy.UsesCacheIff | src/proxy.rs:216-226 | GET and HEAD may use the cache, unless the first matching route says `cache off` |
| Proxy.NoStoreIff | src/proxy.rs:578-584 | storing is forbidden iff the first cache-control value holds no-store or private |
| Proxy.StorableIff | src/proxy.rs:571-605 | a response is storable iff its status is 200, its announced length within the file limit, nothing forbids it, and path and content type are static |
| Proxy.CacheKeysCollideIff | src/proxy.rs:219 | two keys are equal iff the requests are, or one host swallows part of the other's path up to a colon |
| Proxy.CacheKeysInjective | src/proxy.rs:219 | for slash-free hosts and paths beginning with a slash the key determines host, path and query |
| Proxy.SlashHostsCollide | src/proxy.rs:219 | a concrete collision for a host with a slash |
| Proxy.UpstreamUriIs | src/proxy.rs:353-368 | the upstream request goes to http, the upstream's authority, the rewritten path and the request's query |
| Proxy.UpstreamUriNamesUpstream | src/proxy.rs:353-368 | for a path with its leading slash, host and port of the upstream request are those of the matched route, whatever path and query hold |
| Proxy.HitResponseHeaders | src/proxy.rs:246-256 | a hit is answered with the stored status, body and headers, but for the cache marker |
| StaticAssets.EntrypointIff | src/cache.rs:198-207 | the endings and parts that make an entry point, in any case |
| StaticAssets.StaticIff | src/cache.rs:209-250 | the endings that make a path static and the content types that do so otherwise |
| StaticAssets.LowerAscii | src/cache.rs:199-215 | lower-casing changes exactly the capitals |
| StaticAssets.NeverStaticIff | src/cache.rs:198-250 | no content type makes a response static iff path and query name an entry point |
| StaticAssets.QueryDecidesEntrypoint | src/cache.rs:198-207 | with a query, a resource is an entry point iff a reserved part occurs in path or query or the query ends like one; the end of the path no longer counts |
| StaticAssets.QueryHidesEntrypoint | src/cache.rs:198-249 | a service worker path, served as JavaScript, that a query turns into a static asset |
| Tls.HostNameIs | src/tls.rs:36-44 | the host name of an https endpoint ends at the first colon or slash, and may not be empty |
| Tls.BuildTlsAcceptor | src/tls.rs:36-116 | fails iff some https route lacks a host name, a certificate or a key, or its files do not load; otherwise there is an acceptor iff there is an https route, and it answers exactly their host names, each with the files of its last route |
| Runtime.BuildActiveConfig | src/runtime_config.rs:81-139 | fails iff the TLS acceptor cannot be built; a built snapshot has the configuration's routes, log file, security, cache and interception settings, the acceptor of its routes, a provider for the forward_auth address iff there is one, a fresh empty engine iff caching is on, and the manager handed in or a new one |
| Runtime.EngineTakes | src/runtime_config.rs:110-123 | there is an engine iff the cache is on; empty, it takes exactly the bodies within the configured file limit and capacity |
| Runtime.ReloadThread.LoadActiveConfig | src/runtime_config.rs:149-173 | succeeds iff the file parses, keeps port and worker count and its TLS acceptor builds |
| Runtime.ReloadThread.Reload | src/server.rs:114-142 | a refused file changes nothing; an accepted one is published whole, under the next generation, with the live manager |
| Runtime.ReloadThread.Run | src/server.rs:104-143 | over any list of signals the generation counts the accepted ones and the manager stays the startup's |
| Runtime.HandleRequest | src/proxy.rs:134-278 | the gates in order, the size check, and the cache lookup exactly when route and method allow it; a hit answers with the stored asset |
| Runtime.StoreResponse | src/proxy.rs:571-625 | with or without an engine: a response is inserted under the request's key exactly when there is an engine, the request may use it, and path, content type, cache control, announced length and status make it storable |
| SystemRuns.SharedInvariant | src/server.rs:104-143 | in every interleaving all snapshots share the startup manager, each engine belongs to one snapshot |
| SystemRuns.ReloadInvariant | src/server.rs:104-143 | in every interleaving the live generation is the number of accepted reloads, and every snapshot in use is fully built with the startup port and worker count |
| SystemRuns.SnapshotsAreHistory | src/server.rs:104-143 | in every interleaving the snapshot of generation g, published or held by a request, is the one built from the g-th accepted file; equal generations are equal snapshots |
| SystemRuns.GenerationsGrow | src/runtime_config.rs:37-66 | a later load never sees an older generation |
| SystemLimits.RequestPassesIff | src/proxy.rs:134-184 | whatever workers and reloads do, a request passes the limiter iff `rate_limit_rpm` (60 without a security block) is zero or the limiter saw no more of its address in the last 60 s, this one included |
| SystemLimits.SystemRateBound | src/proxy.rs:134-184 | at most `rate_limit_rpm` requests of one address, 60 without a security block, pass in any closed 60 s |
| SystemLimits.LimitIsReached | src/security.rs:115-132 | a burst of that many requests passes, and of any number when the limit is zero |
| SystemLimits.SystemBan | src/proxy.rs:134-143 | a request gets past the ban check iff no failed handshake of its address less than `ban_duration` seconds ago (3600 without a security block) was the one after `max_tls_failures` (5) within 60 s |
| SystemLimits.GateFromHistory | src/proxy.rs:134-184 | over the whole history of a manager, the gate drops under a ban in force, throttles with the number of requests seen in the last 60 s if that exceeds the limit, and admits otherwise |
| SystemRuns.HitProvenance | src/proxy.rs:216-625 | every hit serves status, headers and body of an earlier static 200 response, not marked no-store or private, to a GET or HEAD with the same key, on a route that caches, under the same snapshot, created less than `default_ttl` seconds ago |
| Freshness.StoredIsServed | src/proxy.rs:216-278 | the converse: a request that may use the cache is answered with the response stored for its key under its snapshot less than `default_ttl` seconds ago, unless a store pushed it out or replaced it |
| SystemRuns.HitIsForSameResource | src/proxy.rs:216-278 | for well-shaped requests it was a response for the same host, path and query, and the hit's own request has a route that caches |
| SystemRuns.SnapshotsWellFormed | src/runtime_config.rs:141-173 | if startup and reloaded files went through the parser, every snapshot in use in any run is well formed |
| SystemRuns.AuthRoutesHaveProvider | src/proxy.rs:284-346 | a request whose first matching route says `auth on` always finds forward_auth configured in its snapshot |
| SystemRuns.UpstreamNeedsGrant | src/proxy.rs:284-346 | in every interleaving an upstream response to a request whose first matching route says `auth on` comes after a grant for that very request, from a configured provider |
| Hits.HitMeansCanHit | src/proxy.rs:186-278 | every hit of every run is of a GET or HEAD with a body within the limit, on a snapshot with an engine of positive TTL, and not on a route with `cache off` |
| Hits.HitMeansHittable | src/proxy.rs:186-625 | in every run that the HTTP library allows, some resource with the hit's key is delivered, can be sent upstream (and its authentication provider asked, if its route wants one), has a route that caches and is no entry point |
| Hits.HitIsUngranted | src/proxy.rs:216-346 | no request answered from the cache was granted before: the lookup precedes the authentication step |
| Hits.HitTraceHits | src/proxy.rs:216-625 | the trace: a request for a resource that can be delivered, sent and stored is answered with an image and stored, and the next request with its key is answered from the cache |
| Hits.CachedAnswerIff | src/proxy.rs:186-625 | some allowed run answers a request from the cache, without a grant, iff it is delivered, caching is on with a positive TTL, the method is GET or HEAD, the route does not say `cache off`, the body is within the limit, and some split of its key is a resource that is delivered with a leading slash, can be sent upstream, has a route that caches and is no entry point; a grant for the request itself plays no part |
| Hits.PlainKeyAnswerIff | src/proxy.rs:186-625 | for a host without a slash and no colon before a slash in path and query, ports in the host included, that resource is the request's own |
| Hits.RootIsNotAnswered | src/cache.rs:198-213 | a request for the root of a host without a slash, with or without a port, is answered from the cache in no run |
| Hits.WellShapedAnswerIff | src/proxy.rs:186-625 | over well-shaped requests that resource is the request's own: it must be sendable, its route must cache and its path and query must not name an entry point |
| Hits.SameResourceIff | src/proxy.rs:219-278 | every hit on a request in every allowed run serves a response for the same host, path and query iff the request is not delivered or cannot hit or no other resource that can be delivered, sent and stored shares its key |
| Hits.SlashHostAnswersOther | src/proxy.rs:93-278 | with the route `http://a`, if both are delivered and the second can be sent upstream, host `a` with path `/x:/y.css` is answered with the response for host `a:/x` with path `/y.css` |
| Hits.OtherVerbAnswers | src/proxy.rs:216-625 | for every request that can be answered from the cache, an allowed run that answers it with the response to the other one of GET and HEAD |
| Hits.VerbsAgreeIff | src/proxy.rs:219-278 | in the allowed runs over a set of methods every hit on a request was a response to its own method iff GET and HEAD are not both in the set or the request is never answered from the cache |
| Refinement.StartRefines | src/runtime_config.rs:81-139 | startup builds the object of the machine's first snapshot |
| Refinement.ReloadRefines | src/server.rs:104-143 | a round of the reload loop is the machine's reload event, and leaves the snapshot any reader holds as it was, still sharing the manager and no engine with the new one |
| Refinement.GateEvents | src/proxy.rs:134-184 | the handler's two gates are the ban check and limiter events, with the same tables and verdict |
| Refinement.HandleRequestRefines | src/proxy.rs:134-278 | handling a request is its ban check, limiter and lookup events: manager and engine end in the machine's state, so does every other snapshot in use, the request goes upstream iff its task waits for the upstream, a hit is the machine's hit |
| Refinement.StoreResponseRefines | src/proxy.rs:571-625 | storing a response is its arrival and store events, with or without an engine, at any creation time up to the store, and keeps every other snapshot in use |

## Left out

- TLS handshakes, the contents of certificate files and protocol negotiation: foreign code.
- The forward-auth exchange behind the verdict, upgrade tunnels, upstream requests, header copying and body streaming: network plumbing.
- The accept loop's sockets and threads; its ban checks and failed handshakes are events of the state machine.
- Logging, error pages and error interception: output only.
- Lock poisoning, read errors and timeouts, which end the operation they hit.
- Requests whose path and query do not begin with a slash, such as CONNECT, or an absolute target that is only a host and a query: the theorems of `hits.dfy` are about runs in which every delivered path begins with one.
- The syntax of URIs and of request targets: which texts the HTTP library accepts is a parameter.
- HTTP header values that are not visible ASCII, which the handler treats as absent.
- Cache.LruCacheEngine.Insert: byte sums are unbounded; `CacheRuns.SumsFitIff` says for which limits no sum in the code leaves the 64-bit word.
- Security.SecurityManager.RecordTlsFailure: times are unbounded; the code panics when a ban duration takes the expiry past the range of the clock.
- Security.SecurityManager.Blacklist: the same unbounded expiry as for automatic bans.
