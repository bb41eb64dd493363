/** The image of the configuration parser: it accepts a list of lines only with a well-formed result, and every
    well-formed configuration is the result of its canonical lines. */
module ParserImage {
  import opened Basics
  import opened Net
  import opened Text
  import opened Words
  import opened Comments
  import opened Router
  import opened Config
  import opened Parser

  // ---- well-formed configurations ----

  /** A value as it can stand in a configuration: one word in which no comment begins behind a semicolon. */
  predicate Plain(s: string) {
    Word(s) && Unbroken(s)
  }

  predicate RouteOk(r: Route) {
    && Plain(r.requestEndpoint) && IsValidUrl(r.requestEndpoint)
    && Plain(r.forwardEndpoint) && IsValidUrl(r.forwardEndpoint)
    && (r.certPath.Some? ==> Plain(r.certPath.value)) && (r.keyPath.Some? ==> Plain(r.keyPath.value))
    && (r.certPath.Some? <==> HTTPS <= r.requestEndpoint)
    && (r.keyPath.Some? <==> HTTPS <= r.requestEndpoint)
  }

  predicate Spells(env: Env, text: string, ip: IpAddr) {
    Plain(text) && ParseIpAddr(env, text) == Some(ip)
  }

  ghost predicate SecurityOk(env: Env, s: SecurityConfig) {
    && s.timeoutMs <= USIZE_MAX && s.maxTlsFailures <= USIZE_MAX && s.banDurationSec <= USIZE_MAX
    && s.rateLimitRpm <= USIZE_MAX && s.maxBodySize <= USIZE_MAX && s.maxHeaderSize <= USIZE_MAX
    && (s.forwardAuth.Some? ==> Plain(s.forwardAuth.value))
    && exists text :: Spells(env, text, s.trustedUpstream)
  }

  predicate CacheOk(c: CacheConfig) {
    c.maxCapacityBytes <= USIZE_MAX && c.maxFileSizeBytes <= USIZE_MAX && c.defaultTtlSec <= USIZE_MAX
  }

  predicate RoutesOk(routes: seq<Route>) {
    && (forall i :: 0 <= i < |routes| ==> RouteOk(routes[i]))
    && (forall i, j :: 0 <= i < j < |routes| ==> routes[i].requestEndpoint != routes[j].requestEndpoint)
  }

  ghost predicate WellFormed(env: Env, c: ProxyConfig) {
    && c.listenPort <= U16_MAX
    && c.routes != [] && RoutesOk(c.routes)
    && 1 <= c.workers <= USIZE_MAX
    && (c.logfile.Some? ==> Plain(c.logfile.value))
    && (c.security.Some? ==> SecurityOk(env, c.security.value))
    && (c.cache.Some? ==> CacheOk(c.cache.value))
    && (AnyAuth(c.routes) ==> c.security.Some? && c.security.value.forwardAuth.Some?)
  }

  // ---- everything accepted is well formed ----

  lemma SingleValueIsPlain(line: string)
    requires Unbroken(line)
    ensures SingleValue(line).Some? ==> Plain(SingleValue(line).value)
  {
    TrimEndUnbroken(line);
    TrimUnbroken(TrimSemicolons(line));
    TokensUnbroken(Trim(TrimSemicolons(line)));
  }

  lemma ParseSizeBound(s: string)
    ensures ParseSize(s).Some? ==> ParseSize(s).value <= USIZE_MAX
  {
  }

  predicate RouteAccOk(acc: RouteAcc) {
    && (acc.forward.Some? ==> Plain(acc.forward.value) && IsValidUrl(acc.forward.value))
    && (acc.cert.Some? ==> Plain(acc.cert.value))
    && (acc.key.Some? ==> Plain(acc.key.value))
  }

  lemma RouteStepSound(env: Env, acc: RouteAcc, line: string)
    requires RouteAccOk(acc) && Unbroken(line) && RouteStep(env, acc, line).Ok?
    ensures RouteAccOk(RouteStep(env, acc, line).value)
  {
    hide BlockDirective, SingleValue, RouteKeyOf, Plain, IsValidUrl, ParseFlag;
    SingleValueIsPlain(line);
  }

  lemma {:induction false} RouteBlockSound(env: Env, lines: seq<string>, endpoint: string, acc: RouteAcc)
    requires RouteAccOk(acc) && Plain(endpoint) && IsValidUrl(endpoint) && AllUnbroken(lines)
    requires RouteBlock(env, lines, endpoint, acc).Ok?
    ensures var r := RouteBlock(env, lines, endpoint, acc).value.0; RouteOk(r) && r.requestEndpoint == endpoint
    decreases |lines|
  {
    hide RouteStep, Plain, IsValidUrl;
    if !IsTerminator(lines[0]) {
      RouteStepSound(env, acc, lines[0]);
      RouteBlockSound(env, lines[1..], endpoint, RouteStep(env, acc, lines[0]).value);
    }
  }

  ghost predicate SettingOk(env: Env, key: SecurityKey, setting: Setting) {
    match key
    case ProxyProtocol => setting.Flag?
    case TrustedUpstream => setting.Address? && exists text :: Spells(env, text, setting.ip)
    case ForwardAuth => setting.Text? && Plain(setting.text)
    case _ => setting.Number? && setting.n <= USIZE_MAX
  }

  ghost predicate SettingsOk(env: Env, acc: Settings) {
    forall key :: key in acc ==> SettingOk(env, key, acc[key])
  }

  lemma ParseSettingSound(env: Env, key: SecurityKey, value: string)
    requires Plain(value) && ParseSetting(env, key, value).Some?
    ensures SettingOk(env, key, ParseSetting(env, key, value).value)
  {
    hide Plain, ParseIpAddr, ParseSize;
    ParseSizeBound(value);
    if key.TrustedUpstream? {
      assert Spells(env, value, ParseSetting(env, key, value).value.ip);
    }
  }

  lemma SecurityStepSound(env: Env, acc: Settings, line: string)
    requires SettingsOk(env, acc) && Unbroken(line) && SecurityStep(env, acc, line).Ok?
    ensures SettingsOk(env, SecurityStep(env, acc, line).value)
  {
    hide BlockDirective, SingleValue, SecurityKeyOf, Plain, ParseSetting, SettingOk;
    SingleValueIsPlain(line);
    var key, value := SecurityKeyOf(BlockDirective(env, line).value).value, SingleValue(line).value;
    ParseSettingSound(env, key, value);
  }

  lemma {:induction false} FinishSecuritySound(env: Env, acc: Settings)
    requires SettingsOk(env, acc) && FinishSecurity(acc).Ok?
    ensures SecurityOk(env, FinishSecurity(acc).value)
  {
    hide Plain, Spells;
    SpellsIpv4(env, Ipv4(0, 0, 0, 0));
    forall key | key in acc ensures SettingOk(env, key, acc[key]) {
    }
    assert Spells(env, PrintIpv4(Ipv4(0, 0, 0, 0)), V4(Ipv4(0, 0, 0, 0)));
  }

  lemma SpellsIpv4(env: Env, ip: Ipv4)
    ensures Spells(env, PrintIpv4(ip), V4(ip))
  {
    Ipv4Spelling(PrintIpv4(ip), ip);
    Ipv4IsPlain(ip);
  }

  lemma Ipv4IsPlain(ip: Ipv4)
    ensures Plain(PrintIpv4(ip))
  {
    DigitsAreWord(PrintOctet(ip.a));
    DigitsAreWord(PrintOctet(ip.b));
    DigitsAreWord(PrintOctet(ip.c));
    DigitsAreWord(PrintOctet(ip.d));
    assert !IsSpace('.');
  }

  lemma DigitsAreWord(s: string)
    requires s != "" && AllDigits(s)
    ensures Word(s)
  {
  }

  lemma {:induction false} SecurityBlockSound(env: Env, lines: seq<string>, acc: Settings)
    requires SettingsOk(env, acc) && AllUnbroken(lines) && SecurityBlock(env, lines, acc).Ok?
    ensures SecurityOk(env, SecurityBlock(env, lines, acc).value.0)
    decreases |lines|
  {
    hide SecurityStep, FinishSecurity, SecurityOk, SettingsOk;
    if IsTerminator(lines[0]) {
      FinishSecuritySound(env, acc);
    } else {
      SecurityStepSound(env, acc, lines[0]);
      SecurityBlockSound(env, lines[1..], SecurityStep(env, acc, lines[0]).value);
    }
  }

  lemma CacheStepSound(env: Env, acc: CacheConfig, line: string)
    requires CacheOk(acc) && CacheStep(env, acc, line).Ok?
    ensures CacheOk(CacheStep(env, acc, line).value)
  {
    hide BlockDirective, SingleValue, CacheKeyOf, ParseFlag, ParseSize;
    var key, value := CacheKeyOf(BlockDirective(env, line).value).value, SingleValue(line).value;
    ParseSizeBound(SizeText(true, value));
    ParseSizeBound(SizeText(false, value));
  }

  lemma {:induction false} CacheBlockSound(env: Env, lines: seq<string>, acc: CacheConfig)
    requires CacheOk(acc) && CacheBlock(env, lines, acc).Ok?
    ensures CacheOk(CacheBlock(env, lines, acc).value.0)
    decreases |lines|
  {
    hide CacheStep;
    if !IsTerminator(lines[0]) {
      CacheStepSound(env, acc, lines[0]);
      CacheBlockSound(env, lines[1..], CacheStep(env, acc, lines[0]).value);
    }
  }

  ghost predicate TopAccOk(env: Env, acc: TopAcc) {
    && (acc.listen.Some? ==> acc.listen.value <= U16_MAX)
    && RoutesOk(acc.routes)
    && (acc.workers.Some? ==> 1 <= acc.workers.value <= USIZE_MAX)
    && (acc.logfile.Some? ==> Plain(acc.logfile.value))
    && (acc.security.Some? ==> SecurityOk(env, acc.security.value))
    && (acc.cache.Some? ==> CacheOk(acc.cache.value))
  }

  lemma SimpleStepSound(env: Env, acc: TopAcc, key: TopKey, line: string)
    requires key.Listen? || key.Logfile? || key.InterceptErrors? || key.Workers?
    requires TopAccOk(env, acc) && Unbroken(line) && SimpleStep(acc, key, line).Ok?
    ensures TopAccOk(env, SimpleStep(acc, key, line).value)
  {
    hide SingleValue, Plain, TrailingGarbage, ParseFlag, RoutesOk, SecurityOk, CacheOk;
    SingleValueIsPlain(line);
  }

  lemma RouteHeaderIsPlain(line: string)
    requires Unbroken(line)
    ensures RouteHeader(line).Ok? ==> Plain(RouteHeader(line).value) && IsValidUrl(RouteHeader(line).value)
  {
    TokensUnbroken(line);
  }

  lemma {:induction false} AddRouteOk(routes: seq<Route>, r: Route)
    requires RoutesOk(routes) && RouteOk(r) && !HasEndpoint(routes, r.requestEndpoint)
    ensures RoutesOk(routes + [r])
  {
    hide RouteOk;
  }

  lemma {:induction false} TopStepSound(env: Env, acc: TopAcc, lines: seq<string>)
    requires lines != [] && TopAccOk(env, acc) && AllUnbroken(lines) && TopStep(env, acc, lines).Ok?
    ensures TopAccOk(env, TopStep(env, acc, lines).value.0)
  {
    hide TopDirective, SimpleStep, RouteHeader, RouteBlock, SecurityBlock, CacheBlock, OpensBlock, Plain, IsValidUrl,
      HasEndpoint, RouteOk, RoutesOk, SecurityOk, CacheOk, SettingsOk, RouteAccOk;
    var line := lines[0];
    match TopDirective(env, line).value
    case RouteBlockKey =>
      var endpoint := NewEndpoint(acc, line).value;
      RouteHeaderIsPlain(line);
      NoRouteOk();
      RouteBlockSound(env, lines[1..], endpoint, NO_ROUTE);
      AddRouteOk(acc.routes, RouteBlock(env, lines[1..], endpoint, NO_ROUTE).value.0);
    case SecurityBlockKey =>
      NoSettingsOk(env);
      SecurityBlockSound(env, lines[1..], map[]);
    case CacheBlockKey =>
      DefaultCacheOk();
      CacheBlockSound(env, lines[1..], DEFAULT_CACHE);
    case key =>
      SimpleStepSound(env, acc, key, line);
  }

  lemma NoRouteOk()
    ensures RouteAccOk(NO_ROUTE)
  {
  }

  lemma NoSettingsOk(env: Env)
    ensures SettingsOk(env, map[])
  {
  }

  lemma DefaultCacheOk()
    ensures CacheOk(DEFAULT_CACHE)
  {
  }

  lemma {:induction false} TopLevelSound(env: Env, acc: TopAcc, lines: seq<string>)
    requires TopAccOk(env, acc) && AllUnbroken(lines) && TopLevel(env, acc, lines).Ok?
    ensures TopAccOk(env, TopLevel(env, acc, lines).value)
    decreases |lines|
  {
    hide TopStep, TopAccOk;
    if lines != [] {
      TopStepSound(env, acc, lines);
      TopStepRest(env, acc, lines);
      var (acc', rest) := TopStep(env, acc, lines).value;
      TopLevelSound(env, acc', rest);
    }
  }

  /** Everything the parser accepts is well formed. */
  lemma AcceptedIsWellFormed(env: Env, lines: seq<string>)
    requires AllUnbroken(lines) && ParseLines(env, lines).Ok?
    ensures WellFormed(env, ParseLines(env, lines).value)
  {
    hide TopLevel, SecurityOk, CacheOk, RouteOk, Plain;
    assert TopAccOk(env, NO_CONFIG);
    TopLevelSound(env, NO_CONFIG, lines);
  }

  // ---- the canonical lines of a configuration ----

  function FlagText(b: bool): string {
    if b then "on" else "off"
  }

  function OptLine(name: string, value: Option<string>, more: seq<string>): seq<string> {
    if value.Some? then [DirectiveLine(name, value.value)] + more else more
  }

  function OptFlag(value: Option<bool>): Option<string> {
    if value.Some? then Some(FlagText(value.value)) else None
  }

  function RouteLines(r: Route, more: seq<string>): seq<string> {
    [HeaderLine("route", r.requestEndpoint)] +
    OptLine("upstream", Some(r.forwardEndpoint),
    OptLine("auth", Some(FlagText(r.authRequired)),
    OptLine("cert", r.certPath,
    OptLine("key", r.keyPath,
    OptLine("cache", OptFlag(r.cache),
    OptLine("intercept_errors", OptFlag(r.interceptErrors), ["}"] + more))))))
  }

  function RoutesLines(routes: seq<Route>): seq<string> {
    if routes == [] then [] else RouteLines(routes[0], RoutesLines(routes[1..]))
  }

  function SecurityLines(s: SecurityConfig, upstream: string, more: seq<string>): seq<string> {
    ["security {"] +
    OptLine("proxy_protocol", Some(FlagText(s.proxyProtocol)),
    OptLine("trusted_upstream", Some(upstream),
    OptLine("timeout", Some(Print(s.timeoutMs)),
    OptLine("max_tls_failures", Some(Print(s.maxTlsFailures)),
    OptLine("ban_duration", Some(Print(s.banDurationSec)),
    OptLine("rate_limit_rpm", Some(Print(s.rateLimitRpm)),
    OptLine("forward_auth", s.forwardAuth,
    OptLine("max_body_size", Some(Print(s.maxBodySize)),
    OptLine("max_header_size", Some(Print(s.maxHeaderSize)), ["}"] + more)))))))))
  }

  function CacheLines(c: CacheConfig, more: seq<string>): seq<string> {
    ["cache {"] +
    OptLine("enabled", Some(FlagText(c.enabled)),
    OptLine("max_capacity", Some(Print(c.maxCapacityBytes)),
    OptLine("max_file_size", Some(Print(c.maxFileSizeBytes)),
    OptLine("default_ttl", Some(Print(c.defaultTtlSec)), ["}"] + more))))
  }

  function BlockLines(c: ProxyConfig, upstream: string): seq<string> {
    var routes := RoutesLines(c.routes);
    var cache := if c.cache.Some? then CacheLines(c.cache.value, routes) else routes;
    if c.security.Some? then SecurityLines(c.security.value, upstream, cache) else cache
  }

  /** `upstream` is the spelling of the trusted upstream's address. */
  function ConfigLines(c: ProxyConfig, upstream: string): seq<string> {
    OptLine("listen", Some(Print(c.listenPort)),
    OptLine("workers", Some(Print(c.workers)),
    OptLine("logfile", c.logfile,
    OptLine("intercept_errors", OptFlag(c.interceptErrors), BlockLines(c, upstream)))))
  }

  // ---- the canonical lines parse back ----

  /** The spelling of the directives: lower-case letters and underscores. */
  predicate IsName(s: string) {
    s != "" && forall i :: 0 <= i < |s| ==> 'a' <= s[i] <= 'z' || s[i] == '_'
  }

  lemma NameIsWord(s: string)
    requires IsName(s)
    ensures Word(s)
  {
  }

  lemma NameIsLowercase(env: Env, s: string)
    requires IsName(s)
    ensures !HasUpper(env, s)
  {
  }

  lemma LineChecks(env: Env, name: string, value: string)
    requires IsName(name) && Word(value)
    ensures var line := DirectiveLine(name, value);
      && !IsTerminator(line) && !OpensBlock(line)
      && EndsInSemicolon(Trim(line)) && !TrailingGarbage(line)
      && GetDirective(line) == Ok(name) && BlockDirective(env, line) == Ok(name)
      && SingleValue(line) == Some(value)
  {
    var line := DirectiveLine(name, value);
    NameIsWord(name);
    NameIsLowercase(env, name);
    DirectiveLineParts(name, value);
    NoTrailingGarbage(line);
    hide Tokens, Trim, TrimSemicolons, TrailingGarbage, HasUpper, Word, IsName;
    assert |line| >= 4;
  }

  lemma FlagTextParses(b: bool)
    ensures ParseFlag(FlagText(b)) == Some(b) && Word(FlagText(b))
  {
  }

  lemma NumberParses(n: nat)
    requires n <= USIZE_MAX
    ensures ParseUint(Print(n), USIZE_MAX) == Some(n) && ParseSize(Print(n)) == Some(n) && Word(Print(n))
  {
    ParsePrinted(n, USIZE_MAX);
    DigitsAreWord(Print(n));
    DigitsParseAsSize(Print(n), n);
  }

  lemma DigitsParseAsSize(s: string, n: nat)
    requires s != "" && AllDigits(s) && ParseUint(s, USIZE_MAX) == Some(n)
    ensures ParseSize(s) == Some(n)
  {
    assert Trim(s) == s by {
      DigitsAreWord(s);
      TrimmedAlready(s);
    }
    assert Multiplier(s[|s| - 1]) == 1 by {
      assert IsDigit(s[|s| - 1]);
    }
    hide ParseUint, Trim, Multiplier, AllDigits;
    assert n <= USIZE_MAX && n * 1 == n;
  }

  lemma RouteNames()
    ensures IsName("upstream") && RouteKeyOf("upstream") == Some(Upstream)
    ensures IsName("auth") && RouteKeyOf("auth") == Some(Auth)
    ensures IsName("cert") && RouteKeyOf("cert") == Some(Cert)
    ensures IsName("key") && RouteKeyOf("key") == Some(Key)
    ensures IsName("cache") && RouteKeyOf("cache") == Some(RouteCache)
    ensures IsName("intercept_errors") && RouteKeyOf("intercept_errors") == Some(Intercept)
  {
  }

  /** One canonical route line, if present, does what its setting says. */
  lemma RouteOptStep(env: Env, name: string, key: RouteKey, value: Option<string>, more: seq<string>, endpoint: string,
                     acc: RouteAcc, acc': RouteAcc)
    requires IsName(name) && RouteKeyOf(name) == Some(key)
    requires value.Some? ==>
      Word(value.value) && ApplyRoute(acc, key, value.value, DirectiveLine(name, value.value)) == Ok(acc')
    requires value.None? ==> acc' == acc
    ensures RouteBlock(env, OptLine(name, value, more), endpoint, acc) == RouteBlock(env, more, endpoint, acc')
  {
    hide IsName, Word, ApplyRoute, RouteKeyOf, DirectiveLine, BlockDirective, SingleValue;
    if value.Some? {
      var line := DirectiveLine(name, value.value);
      LineChecks(env, name, value.value);
      assert ([line] + more)[1..] == more;
    }
  }

  lemma RouteEnds(env: Env, endpoint: string, acc: RouteAcc, r: Route, more: seq<string>)
    requires FinishRoute(endpoint, acc) == Ok(r)
    ensures RouteBlock(env, ["}"] + more, endpoint, acc) == Ok((r, more))
  {
    assert (["}"] + more)[1..] == more;
  }

  lemma {:induction false} RouteBlockParses(env: Env, r: Route, more: seq<string>)
    requires RouteOk(r)
    ensures RouteBlock(env, RouteLines(r, more)[1..], r.requestEndpoint, NO_ROUTE) == Ok((r, more))
  {
    hide RouteBlock, OptLine, IsName, Word, IsValidUrl, FlagText, ParseFlag, RouteKeyOf, DirectiveLine;
    RouteNames();
    FlagTextParses(true);
    FlagTextParses(false);
    var a1 := NO_ROUTE.(forward := Some(r.forwardEndpoint));
    var a2 := a1.(auth := r.authRequired);
    var a3 := a2.(cert := r.certPath);
    var a4 := a3.(key := r.keyPath);
    var a5 := a4.(cache := r.cache);
    var a6 := a5.(intercept := r.interceptErrors);
    var ep := r.requestEndpoint;
    var l6 := OptLine("intercept_errors", OptFlag(r.interceptErrors), ["}"] + more);
    var l5 := OptLine("cache", OptFlag(r.cache), l6);
    var l4 := OptLine("key", r.keyPath, l5);
    var l3 := OptLine("cert", r.certPath, l4);
    var l2 := OptLine("auth", Some(FlagText(r.authRequired)), l3);
    var l1 := OptLine("upstream", Some(r.forwardEndpoint), l2);
    assert RouteLines(r, more)[1..] == l1;
    RouteOptStep(env, "upstream", Upstream, Some(r.forwardEndpoint), l2, ep, NO_ROUTE, a1);
    RouteOptStep(env, "auth", Auth, Some(FlagText(r.authRequired)), l3, ep, a1, a2);
    RouteOptStep(env, "cert", Cert, r.certPath, l4, ep, a2, a3);
    RouteOptStep(env, "key", Key, r.keyPath, l5, ep, a3, a4);
    RouteOptStep(env, "cache", RouteCache, OptFlag(r.cache), l6, ep, a4, a5);
    RouteOptStep(env, "intercept_errors", Intercept, OptFlag(r.interceptErrors), ["}"] + more, ep, a5, a6);
    RouteEnds(env, ep, a6, r, more);
  }

  lemma SecurityNames()
    ensures IsName("proxy_protocol") && SecurityKeyOf("proxy_protocol") == Some(ProxyProtocol)
    ensures IsName("trusted_upstream") && SecurityKeyOf("trusted_upstream") == Some(TrustedUpstream)
    ensures IsName("timeout") && SecurityKeyOf("timeout") == Some(Timeout)
    ensures IsName("max_tls_failures") && SecurityKeyOf("max_tls_failures") == Some(MaxTlsFailures)
    ensures IsName("ban_duration") && SecurityKeyOf("ban_duration") == Some(BanDuration)
    ensures IsName("rate_limit_rpm") && SecurityKeyOf("rate_limit_rpm") == Some(RateLimit)
    ensures IsName("forward_auth") && SecurityKeyOf("forward_auth") == Some(ForwardAuth)
    ensures IsName("max_body_size") && SecurityKeyOf("max_body_size") == Some(MaxBodySize)
    ensures IsName("max_header_size") && SecurityKeyOf("max_header_size") == Some(MaxHeaderSize)
  {
    hide SecurityKeyOf, IsName;
    SecurityNames1();
    SecurityNames2();
    SecurityNames3();
  }

  lemma SecurityNames1()
    ensures IsName("proxy_protocol") && SecurityKeyOf("proxy_protocol") == Some(ProxyProtocol)
    ensures IsName("trusted_upstream") && SecurityKeyOf("trusted_upstream") == Some(TrustedUpstream)
    ensures IsName("timeout") && SecurityKeyOf("timeout") == Some(Timeout)
  {
  }

  lemma SecurityNames2()
    ensures IsName("max_tls_failures") && SecurityKeyOf("max_tls_failures") == Some(MaxTlsFailures)
    ensures IsName("ban_duration") && SecurityKeyOf("ban_duration") == Some(BanDuration)
    ensures IsName("rate_limit_rpm") && SecurityKeyOf("rate_limit_rpm") == Some(RateLimit)
  {
  }

  lemma SecurityNames3()
    ensures IsName("forward_auth") && SecurityKeyOf("forward_auth") == Some(ForwardAuth)
    ensures IsName("max_body_size") && SecurityKeyOf("max_body_size") == Some(MaxBodySize)
    ensures IsName("max_header_size") && SecurityKeyOf("max_header_size") == Some(MaxHeaderSize)
  {
  }

  lemma SecurityOptStep(env: Env, name: string, key: SecurityKey, value: Option<string>, setting: Setting,
                        more: seq<string>, acc: Settings, acc': Settings)
    requires IsName(name) && SecurityKeyOf(name) == Some(key) && key !in acc
    requires value.Some? ==>
      Word(value.value) && ParseSetting(env, key, value.value) == Some(setting) && acc' == acc[key := setting]
    requires value.None? ==> acc' == acc
    ensures SecurityBlock(env, OptLine(name, value, more), acc) == SecurityBlock(env, more, acc')
  {
    hide IsName, Word, ParseSetting, SecurityKeyOf, DirectiveLine, BlockDirective, SingleValue;
    if value.Some? {
      var line := DirectiveLine(name, value.value);
      LineChecks(env, name, value.value);
      assert ([line] + more)[1..] == more;
    }
  }

  lemma SecurityEnds(env: Env, acc: Settings, s: SecurityConfig, more: seq<string>)
    requires FinishSecurity(acc) == Ok(s)
    ensures SecurityBlock(env, ["}"] + more, acc) == Ok((s, more))
  {
    assert (["}"] + more)[1..] == more;
  }

  /** What the canonical security lines leave in the table of settings. */
  function SettingsFor(s: SecurityConfig): Settings {
    var base := map[
      ProxyProtocol := Flag(s.proxyProtocol), TrustedUpstream := Address(s.trustedUpstream),
      Timeout := Number(s.timeoutMs), MaxTlsFailures := Number(s.maxTlsFailures),
      BanDuration := Number(s.banDurationSec),
      RateLimit := Number(s.rateLimitRpm), MaxBodySize := Number(s.maxBodySize),
      MaxHeaderSize := Number(s.maxHeaderSize)];
    if s.forwardAuth.Some? then base[ForwardAuth := Setting.Text(s.forwardAuth.value)] else base
  }

  lemma FinishSettingsFor(s: SecurityConfig)
    ensures FinishSecurity(SettingsFor(s)) == Ok(s)
  {
  }

  lemma NumberSetting(env: Env, key: SecurityKey, n: nat)
    requires n <= USIZE_MAX
    requires !key.ProxyProtocol? && !key.TrustedUpstream? && !key.ForwardAuth?
    ensures ParseSetting(env, key, Print(n)) == Some(Number(n)) && Word(Print(n))
  {
    hide Print, Word, ParseSize, ParseUint;
    NumberParses(n);
  }

  lemma FlagSetting(env: Env, b: bool)
    ensures ParseSetting(env, ProxyProtocol, FlagText(b)) == Some(Flag(b)) && Word(FlagText(b))
  {
  }

  lemma TextSetting(env: Env, text: string, ip: IpAddr)
    ensures Spells(env, text, ip) ==> ParseSetting(env, TrustedUpstream, text) == Some(Address(ip)) && Word(text)
    ensures ParseSetting(env, ForwardAuth, text) == Some(Setting.Text(text))
  {
    hide Word, ParseIpAddr, Unbroken;
  }

  lemma {:induction false} SecurityBlockParses(env: Env, s: SecurityConfig, upstream: string, more: seq<string>)
    requires SecurityOk(env, s) && Spells(env, upstream, s.trustedUpstream)
    ensures SecurityBlock(env, SecurityLines(s, upstream, more)[1..], map[]) == Ok((s, more))
  {
    hide SecurityBlock, OptLine, IsName, Word, FlagText, SecurityKeyOf, DirectiveLine, Print, ParseIpAddr,
      FinishSecurity, ParseSetting, Spells, Plain;
    var m1: Settings := map[ProxyProtocol := Flag(s.proxyProtocol)];
    var m2 := m1[TrustedUpstream := Address(s.trustedUpstream)];
    var m3 := m2[Timeout := Number(s.timeoutMs)];
    var m4 := m3[MaxTlsFailures := Number(s.maxTlsFailures)];
    var m5 := m4[BanDuration := Number(s.banDurationSec)];
    var m6 := m5[RateLimit := Number(s.rateLimitRpm)];
    var l6 := SecurityTail(s, more);
    var l5 := OptLine("rate_limit_rpm", Some(Print(s.rateLimitRpm)), l6);
    var l4 := OptLine("ban_duration", Some(Print(s.banDurationSec)), l5);
    var l3 := OptLine("max_tls_failures", Some(Print(s.maxTlsFailures)), l4);
    var l2 := OptLine("timeout", Some(Print(s.timeoutMs)), l3);
    var l1 := OptLine("trusted_upstream", Some(upstream), l2);
    var l0 := OptLine("proxy_protocol", Some(FlagText(s.proxyProtocol)), l1);
    assert SecurityLines(s, upstream, more)[1..] == l0;
    SecurityNames();
    FlagSetting(env, s.proxyProtocol);
    TextSetting(env, upstream, s.trustedUpstream);
    SecurityOptStep(env, "proxy_protocol", ProxyProtocol, Some(FlagText(s.proxyProtocol)), Flag(s.proxyProtocol), l1,
      map[], m1);
    SecurityOptStep(env, "trusted_upstream", TrustedUpstream, Some(upstream), Address(s.trustedUpstream), l2, m1, m2);
    NumberSetting(env, Timeout, s.timeoutMs);
    SecurityOptStep(env, "timeout", Timeout, Some(Print(s.timeoutMs)), Number(s.timeoutMs), l3, m2, m3);
    NumberSetting(env, MaxTlsFailures, s.maxTlsFailures);
    SecurityOptStep(env, "max_tls_failures", MaxTlsFailures, Some(Print(s.maxTlsFailures)), Number(s.maxTlsFailures),
      l4, m3, m4);
    NumberSetting(env, BanDuration, s.banDurationSec);
    SecurityOptStep(env, "ban_duration", BanDuration, Some(Print(s.banDurationSec)), Number(s.banDurationSec), l5, m4,
      m5);
    NumberSetting(env, RateLimit, s.rateLimitRpm);
    SecurityOptStep(env, "rate_limit_rpm", RateLimit, Some(Print(s.rateLimitRpm)), Number(s.rateLimitRpm), l6, m5, m6);
    SecurityTailParses(env, s, more, m6);
  }

  function SecurityTail(s: SecurityConfig, more: seq<string>): seq<string> {
    OptLine("forward_auth", s.forwardAuth,
    OptLine("max_body_size", Some(Print(s.maxBodySize)),
    OptLine("max_header_size", Some(Print(s.maxHeaderSize)), ["}"] + more)))
  }

  lemma {:induction false} SecurityTailParses(env: Env, s: SecurityConfig, more: seq<string>, acc: Settings)
    requires SecurityOk(env, s)
    requires acc == SettingsFor(s) - {ForwardAuth, MaxBodySize, MaxHeaderSize}
    ensures SecurityBlock(env, SecurityTail(s, more), acc) == Ok((s, more))
  {
    hide SecurityBlock, OptLine, IsName, Word, SecurityKeyOf, DirectiveLine, Print, FinishSecurity, ParseSetting,
      Spells;
    if s.forwardAuth.Some? {
      TextSetting(env, s.forwardAuth.value, s.trustedUpstream);
    }
    var m7 := if s.forwardAuth.Some? then acc[ForwardAuth := Setting.Text(s.forwardAuth.value)] else acc;
    var m8 := m7[MaxBodySize := Number(s.maxBodySize)];
    var m9 := m8[MaxHeaderSize := Number(s.maxHeaderSize)];
    var l9 := ["}"] + more;
    var l8 := OptLine("max_header_size", Some(Print(s.maxHeaderSize)), l9);
    var l7 := OptLine("max_body_size", Some(Print(s.maxBodySize)), l8);
    SecurityNames();
    var auth := if s.forwardAuth.Some? then Setting.Text(s.forwardAuth.value) else Flag(false);
    SecurityOptStep(env, "forward_auth", ForwardAuth, s.forwardAuth, auth, l7, acc, m7);
    NumberSetting(env, MaxBodySize, s.maxBodySize);
    SecurityOptStep(env, "max_body_size", MaxBodySize, Some(Print(s.maxBodySize)), Number(s.maxBodySize), l8, m7, m8);
    NumberSetting(env, MaxHeaderSize, s.maxHeaderSize);
    SecurityOptStep(env, "max_header_size", MaxHeaderSize, Some(Print(s.maxHeaderSize)), Number(s.maxHeaderSize), l9,
      m8, m9);
    assert m9 == SettingsFor(s);
    FinishSettingsFor(s);
    SecurityEnds(env, m9, s, more);
  }

  lemma CacheNames()
    ensures IsName("enabled") && CacheKeyOf("enabled") == Some(Enabled)
    ensures IsName("max_capacity") && CacheKeyOf("max_capacity") == Some(MaxCapacity(false))
    ensures IsName("max_file_size") && CacheKeyOf("max_file_size") == Some(MaxFileSize(false))
    ensures IsName("default_ttl") && CacheKeyOf("default_ttl") == Some(Ttl)
  {
  }

  lemma CacheOptStep(env: Env, name: string, key: CacheKey, value: string, more: seq<string>, acc: CacheConfig,
                     acc': CacheConfig)
    requires IsName(name) && CacheKeyOf(name) == Some(key) && Word(value)
    requires ApplyCache(acc, key, name, value) == Ok(acc')
    ensures CacheBlock(env, OptLine(name, Some(value), more), acc) == CacheBlock(env, more, acc')
  {
    hide IsName, Word, ApplyCache, CacheKeyOf, DirectiveLine, BlockDirective, SingleValue;
    var line := DirectiveLine(name, value);
    LineChecks(env, name, value);
    assert ([line] + more)[1..] == more;
  }

  lemma {:induction false} CacheBlockParses(env: Env, c: CacheConfig, more: seq<string>)
    requires CacheOk(c)
    ensures CacheBlock(env, CacheLines(c, more)[1..], DEFAULT_CACHE) == Ok((c, more))
  {
    CacheEnds(env, c, more);
    hide CacheBlock, OptLine, IsName, Word, FlagText, ParseFlag, CacheKeyOf, DirectiveLine, Print, ParseSize, ParseUint;
    CacheNames();
    FlagTextParses(c.enabled);
    NumberParses(c.maxCapacityBytes);
    NumberParses(c.maxFileSizeBytes);
    NumberParses(c.defaultTtlSec);
    var c1 := DEFAULT_CACHE.(enabled := c.enabled);
    var c2 := c1.(maxCapacityBytes := c.maxCapacityBytes);
    var c3 := c2.(maxFileSizeBytes := c.maxFileSizeBytes);
    var l3 := OptLine("default_ttl", Some(Print(c.defaultTtlSec)), ["}"] + more);
    var l2 := OptLine("max_file_size", Some(Print(c.maxFileSizeBytes)), l3);
    var l1 := OptLine("max_capacity", Some(Print(c.maxCapacityBytes)), l2);
    assert CacheLines(c, more)[1..] == OptLine("enabled", Some(FlagText(c.enabled)), l1);
    CacheOptStep(env, "enabled", Enabled, FlagText(c.enabled), l1, DEFAULT_CACHE, c1);
    CacheOptStep(env, "max_capacity", MaxCapacity(false), Print(c.maxCapacityBytes), l2, c1, c2);
    CacheOptStep(env, "max_file_size", MaxFileSize(false), Print(c.maxFileSizeBytes), l3, c2, c3);
    CacheOptStep(env, "default_ttl", Ttl, Print(c.defaultTtlSec), ["}"] + more, c3, c);
  }

  lemma CacheEnds(env: Env, c: CacheConfig, more: seq<string>)
    ensures CacheBlock(env, ["}"] + more, c) == Ok((c, more))
  {
    assert (["}"] + more)[1..] == more;
  }

  lemma TopNames()
    ensures IsName("listen") && TopKeyOf("listen") == Some(Listen)
    ensures IsName("workers") && TopKeyOf("workers") == Some(Workers)
    ensures IsName("logfile") && TopKeyOf("logfile") == Some(Logfile)
    ensures IsName("intercept_errors") && TopKeyOf("intercept_errors") == Some(InterceptErrors)
    ensures IsName("route") && TopKeyOf("route") == Some(RouteBlockKey)
    ensures IsName("security") && TopKeyOf("security") == Some(SecurityBlockKey)
    ensures IsName("cache") && TopKeyOf("cache") == Some(CacheBlockKey)
  {
  }

  lemma SimpleOptStep(env: Env, name: string, key: TopKey, value: Option<string>, more: seq<string>, acc: TopAcc,
                      acc': TopAcc)
    requires IsName(name) && TopKeyOf(name) == Some(key)
    requires key.Listen? || key.Logfile? || key.InterceptErrors? || key.Workers?
    requires value.Some? ==> Word(value.value) && SimpleStep(acc, key, DirectiveLine(name, value.value)) == Ok(acc')
    requires value.None? ==> acc' == acc
    ensures TopLevel(env, acc, OptLine(name, value, more)) == TopLevel(env, acc', more)
  {
    if value.Some? {
      var line := DirectiveLine(name, value.value);
      NameIsWord(name);
      NameIsLowercase(env, name);
      LineChecks(env, name, value.value);
      hide IsName, Word, SimpleStep, TopKeyOf, DirectiveLine, GetDirective, HasUpper;
      assert ([line] + more)[1..] == more && ([line] + more)[0] == line;
    }
  }

  lemma ListenParses(env: Env, acc: TopAcc, n: nat, more: seq<string>)
    requires acc.listen.None? && n <= U16_MAX
    ensures TopLevel(env, acc, OptLine("listen", Some(Print(n)), more)) == TopLevel(env, acc.(listen := Some(n)), more)
  {
    hide TopLevel, Print, Word, ParseUint, IsName, TopKeyOf, DirectiveLine, SingleValue, TrailingGarbage, OptLine;
    TopNames();
    NumberParses(n);
    ParsePrinted(n, U16_MAX);
    LineChecks(env, "listen", Print(n));
    SimpleOptStep(env, "listen", Listen, Some(Print(n)), more, acc, acc.(listen := Some(n)));
  }

  lemma WorkersParses(env: Env, acc: TopAcc, n: nat, more: seq<string>)
    requires acc.workers.None? && 1 <= n <= USIZE_MAX
    ensures TopLevel(env, acc, OptLine("workers", Some(Print(n)), more)) ==
      TopLevel(env, acc.(workers := Some(n)), more)
  {
    hide TopLevel, Print, Word, ParseUint, IsName, TopKeyOf, DirectiveLine, SingleValue, TrailingGarbage, OptLine;
    TopNames();
    NumberParses(n);
    LineChecks(env, "workers", Print(n));
    SimpleOptStep(env, "workers", Workers, Some(Print(n)), more, acc, acc.(workers := Some(n)));
  }

  lemma LogfileParses(env: Env, acc: TopAcc, file: Option<string>, more: seq<string>)
    requires acc.logfile.None? && (file.Some? ==> Word(file.value))
    ensures TopLevel(env, acc, OptLine("logfile", file, more)) == TopLevel(env, acc.(logfile := file), more)
  {
    hide TopLevel, Word, IsName, TopKeyOf, DirectiveLine, SingleValue, TrailingGarbage, OptLine;
    TopNames();
    if file.Some? {
      LineChecks(env, "logfile", file.value);
    }
    SimpleOptStep(env, "logfile", Logfile, file, more, acc, acc.(logfile := file));
  }

  lemma InterceptParses(env: Env, acc: TopAcc, flag: Option<bool>, more: seq<string>)
    requires acc.intercept.None?
    ensures TopLevel(env, acc, OptLine("intercept_errors", OptFlag(flag), more)) ==
      TopLevel(env, acc.(intercept := flag), more)
  {
    hide TopLevel, Word, FlagText, ParseFlag, IsName, TopKeyOf, DirectiveLine, SingleValue, TrailingGarbage, OptLine;
    TopNames();
    if flag.Some? {
      FlagTextParses(flag.value);
      LineChecks(env, "intercept_errors", FlagText(flag.value));
    }
    SimpleOptStep(env, "intercept_errors", InterceptErrors, OptFlag(flag), more, acc, acc.(intercept := flag));
  }

  lemma RouteHeaderParses(env: Env, acc: TopAcc, endpoint: string)
    requires Word(endpoint) && IsValidUrl(endpoint) && !HasEndpoint(acc.routes, endpoint)
    ensures var line := HeaderLine("route", endpoint);
      TopDirective(env, line) == Ok(RouteBlockKey) && NewEndpoint(acc, line) == Ok(endpoint)
  {
    TopNames();
    NameIsWord("route");
    NameIsLowercase(env, "route");
    HeaderLineParts("route", endpoint);
    hide Word, IsValidUrl, HasEndpoint, HasUpper, Tokens, TopKeyOf, IsName;
    assert |HeaderLine("route", endpoint)| > 2;
  }

  lemma BlockHeaderParses(env: Env, name: string, key: TopKey)
    requires IsName(name) && TopKeyOf(name) == Some(key)
    ensures var line := name + " {"; TopDirective(env, line) == Ok(key) && OpensBlock(line)
  {
    NameIsWord(name);
    NameIsLowercase(env, name);
    assert name + " {" == name + [' '] + "{";
    TokensCons(name, ' ', "{");
    hide Word, HasUpper, Tokens, TopKeyOf, IsName;
    assert |name + " {"| > 2;
  }

  lemma {:induction false} RouteParses(env: Env, acc: TopAcc, r: Route, more: seq<string>)
    requires RouteOk(r) && !HasEndpoint(acc.routes, r.requestEndpoint)
    ensures TopLevel(env, acc, RouteLines(r, more)) == TopLevel(env, acc.(routes := acc.routes + [r]), more)
  {
    hide RouteBlock, SecurityBlock, CacheBlock, NewEndpoint, SimpleStep, TopDirective, HasEndpoint;
    RouteHeaderParses(env, acc, r.requestEndpoint);
    RouteBlockParses(env, r, more);
    hide OptLine, RouteOk;
    assert RouteLines(r, more)[0] == HeaderLine("route", r.requestEndpoint);
  }

  lemma {:induction false} RoutesParse(env: Env, acc: TopAcc, routes: seq<Route>)
    requires RoutesOk(acc.routes + routes)
    ensures TopLevel(env, acc, RoutesLines(routes)) == Ok(acc.(routes := acc.routes + routes))
    decreases |routes|
  {
    hide RouteOk, RouteLines, TopStep;
    if routes == [] {
      assert acc.routes + routes == acc.routes;
    } else {
      var r, rest := routes[0], routes[1..];
      assert acc.routes + routes == acc.routes + [r] + rest;
      assert (acc.routes + routes)[|acc.routes|] == r;
      assert !HasEndpoint(acc.routes, r.requestEndpoint) by {
        forall i | 0 <= i < |acc.routes| ensures acc.routes[i].requestEndpoint != r.requestEndpoint {
          assert (acc.routes + routes)[i] == acc.routes[i];
        }
      }
      RouteParses(env, acc, r, RoutesLines(rest));
      RoutesParse(env, acc.(routes := acc.routes + [r]), rest);
    }
  }

  lemma SecurityTopStep(env: Env, acc: TopAcc, line: string, body: seq<string>, s: SecurityConfig, more: seq<string>)
    requires TopDirective(env, line) == Ok(SecurityBlockKey) && OpensBlock(line) && acc.security.None?
    requires SecurityBlock(env, body, map[]) == Ok((s, more))
    ensures TopLevel(env, acc, [line] + body) == TopLevel(env, acc.(security := Some(s)), more)
  {
    hide RouteBlock, SecurityBlock, CacheBlock, NewEndpoint, SimpleStep, TopDirective, OpensBlock;
    assert ([line] + body)[1..] == body && ([line] + body)[0] == line;
  }

  lemma CacheTopStep(env: Env, acc: TopAcc, line: string, body: seq<string>, c: CacheConfig, more: seq<string>)
    requires TopDirective(env, line) == Ok(CacheBlockKey) && OpensBlock(line) && acc.cache.None?
    requires CacheBlock(env, body, DEFAULT_CACHE) == Ok((c, more))
    ensures TopLevel(env, acc, [line] + body) == TopLevel(env, acc.(cache := Some(c)), more)
  {
    hide RouteBlock, SecurityBlock, CacheBlock, NewEndpoint, SimpleStep, TopDirective, OpensBlock;
    assert ([line] + body)[1..] == body && ([line] + body)[0] == line;
  }

  lemma {:induction false} SecurityParses(env: Env, acc: TopAcc, s: SecurityConfig, upstream: string, more: seq<string>)
    requires SecurityOk(env, s) && Spells(env, upstream, s.trustedUpstream) && acc.security.None?
    ensures TopLevel(env, acc, SecurityLines(s, upstream, more)) == TopLevel(env, acc.(security := Some(s)), more)
  {
    hide TopLevel, SecurityBlock, TopDirective, SecurityOk, OpensBlock, Spells, IsName, TopKeyOf, OptLine, Print;
    var lines := SecurityLines(s, upstream, more);
    TopNames();
    BlockHeaderParses(env, "security", SecurityBlockKey);
    SecurityBlockParses(env, s, upstream, more);
    assert lines[0] == "security" + " {" && lines == [lines[0]] + lines[1..];
    SecurityTopStep(env, acc, lines[0], lines[1..], s, more);
  }

  lemma {:induction false} CacheParses(env: Env, acc: TopAcc, c: CacheConfig, more: seq<string>)
    requires CacheOk(c) && acc.cache.None?
    ensures TopLevel(env, acc, CacheLines(c, more)) == TopLevel(env, acc.(cache := Some(c)), more)
  {
    hide TopLevel, CacheBlock, TopDirective, OpensBlock, IsName, TopKeyOf, OptLine, Print;
    var lines := CacheLines(c, more);
    TopNames();
    BlockHeaderParses(env, "cache", CacheBlockKey);
    CacheBlockParses(env, c, more);
    assert lines[0] == "cache" + " {" && lines == [lines[0]] + lines[1..];
    CacheTopStep(env, acc, lines[0], lines[1..], c, more);
  }

  lemma {:induction false} BlocksParse(env: Env, c: ProxyConfig, upstream: string, acc: TopAcc)
    requires WellFormed(env, c) && (c.security.Some? ==> Spells(env, upstream, c.security.value.trustedUpstream))
    requires acc == TopAcc(Some(c.listenPort), [], Some(c.workers), c.logfile, None, None, c.interceptErrors)
    ensures TopLevel(env, acc, BlockLines(c, upstream)) ==
      Ok(acc.(routes := c.routes, security := c.security, cache := c.cache))
  {
    hide TopLevel, RoutesLines, SecurityLines, CacheLines, SecurityOk, RoutesOk, CacheOk, Spells;
    var routes := RoutesLines(c.routes);
    var cache := if c.cache.Some? then CacheLines(c.cache.value, routes) else routes;
    if c.security.Some? {
      SecurityParses(env, acc, c.security.value, upstream, cache);
    }
    var acc1 := acc.(security := c.security);
    if c.cache.Some? {
      CacheParses(env, acc1, c.cache.value, routes);
    }
    assert [] + c.routes == c.routes;
    RoutesParse(env, acc1.(cache := c.cache), c.routes);
  }

  /** The canonical lines of a well-formed configuration parse back to it. */
  lemma {:induction false} CanonicalParses(env: Env, c: ProxyConfig, upstream: string)
    requires WellFormed(env, c) && (c.security.Some? ==> Spells(env, upstream, c.security.value.trustedUpstream))
    ensures ParseLines(env, ConfigLines(c, upstream)) == Ok(c)
  {
    hide TopLevel, OptLine, Print, Word, SecurityOk, RoutesOk, CacheOk, Spells, BlockLines;
    var l4 := BlockLines(c, upstream);
    var l3 := OptLine("intercept_errors", OptFlag(c.interceptErrors), l4);
    var l2 := OptLine("logfile", c.logfile, l3);
    var l1 := OptLine("workers", Some(Print(c.workers)), l2);
    var a1 := NO_CONFIG.(listen := Some(c.listenPort));
    var a2 := a1.(workers := Some(c.workers));
    var a3 := a2.(logfile := c.logfile);
    ListenParses(env, NO_CONFIG, c.listenPort, l1);
    WorkersParses(env, a1, c.workers, l2);
    LogfileParses(env, a2, c.logfile, l3);
    InterceptParses(env, a3, c.interceptErrors, l4);
    BlocksParse(env, c, upstream, a3.(intercept := c.interceptErrors));
  }
}
