/** The configuration parser of src/parser.rs.

    The functions say what a list of trimmed lines parses to; the methods at the end are the source's loops over
    a shared line index, proved to compute those functions. */
module Parser {
  import opened Basics
  import opened Net
  import opened Text
  import opened Words
  import opened Comments
  import opened Router
  import opened Config

  datatype ParseError =
    | NoListenDirective
    | InvalidListenDirective
    | TooManyListenDirectives
    | InvalidPort(value: string)
    | NoRouteDirective
    | InvalidRouteDirective(value: string)
    | DuplicateRequestEndpoint(value: string)
    | MissingSemicolon(line: string)
    | InvalidUrlFormat(value: string)
    | InvalidDirectiveCase(directive: string)
    | UnknownDirective(directive: string)
    | InvalidWorkersValue(value: string)
    | TooManyWorkersDirectives
    | TooManyLogfileDirectives
    | IncompleteRouteCertBlock(endpoint: string)
    | CertNotAllowedForHttpRoute(endpoint: string)
    | UnexpectedBlockTerminator
    | InvalidSecurityBlock(value: string)
    | TooManySecurityDirectives
    | DuplicateSecurityDirective(directive: string)
    | InvalidSecurityValue(directive: string, value: string)
    | MissingSecurityDirective(directive: string)
    | UnterminatedSecurityBlock

  type Parallelism = n: nat | 0 < n <= USIZE_MAX witness 1

  /** What the parser takes from outside: the standard library's IPv6 text syntax, the number of CPUs, and whether
      Unicode lower-casing changes a text that is not ASCII. */
  datatype Env = Env(
    parseIpv6: string -> Option<Ipv6>, parallelism: Parallelism, changesInLowercase: string -> bool)

  // ---- helpers on one line ----

  predicate IsTerminator(line: string) {
    line == "}" || line == "};"
  }

  predicate OpensBlock(line: string) {
    line != "" && line[|line| - 1] == '{'
  }

  predicate EndsInSemicolon(s: string) {
    s != "" && s[|s| - 1] == ';'
  }

  predicate IsValidUrl(url: string) {
    (url != "" && url[0] == '/') || ':' in url
  }

  predicate IsAscii(s: string) {
    forall i :: 0 <= i < |s| ==> s[i] < 128 as char
  }

  /** Lower-casing changes the text. */
  predicate HasUpper(env: Env, s: string) {
    if IsAscii(s) then exists i :: 0 <= i < |s| && 'A' <= s[i] <= 'Z' else env.changesInLowercase(s)
  }

  /** The last position of `c` in `s`, or the length of `s`. */
  function FindLast(s: string, c: char): (p: nat)
    ensures p <= |s|
    ensures p < |s| ==> s[p] == c && forall q :: p < q < |s| ==> s[q] != c
  {
    if s == "" then 0
    else if s[|s| - 1] == c then |s| - 1
    else
      var p := FindLast(s[..|s| - 1], c);
      if p == |s| - 1 then |s| else p
  }

  predicate TrailingGarbage(line: string) {
    var t := Trim(line);
    var p := FindLast(t, ';');
    EndsInSemicolon(t) && p < |t| && Trim(t[p + 1..]) != ""
  }

  function GetDirective(line: string): Result<string, ParseError> {
    var parts := Tokens(line);
    if parts == [] then Err(UnknownDirective("")) else Ok(parts[0])
  }

  /** The checks every directive line inside a block goes through. */
  function BlockDirective(env: Env, line: string): Result<string, ParseError> {
    if !EndsInSemicolon(Trim(line)) then Err(MissingSemicolon(line))
    else match GetDirective(line)
      case Err(e) => Err(e)
      case Ok(d) =>
        if HasUpper(env, d) then Err(InvalidDirectiveCase(d))
        else if TrailingGarbage(line) then Err(InvalidListenDirective)
        else Ok(d)
  }

  /** The value of a directive that takes exactly one. */
  function SingleValue(line: string): Option<string> {
    var parts := Tokens(Trim(TrimSemicolons(line)));
    if |parts| == 2 then Some(parts[1]) else None
  }

  function ParseFlag(value: string): Option<bool> {
    if value == "on" || value == "yes" || value == "true" then Some(true)
    else if value == "off" || value == "no" || value == "false" then Some(false)
    else None
  }

  function ParseIpAddr(env: Env, s: string): Option<IpAddr> {
    match ParseIpv4(s)
    case Some(ip) => Some(V4(ip))
    case None =>
      match env.parseIpv6(s)
      case Some(ip) => Some(V6(ip))
      case None => None
  }

  function Multiplier(c: char): (m: nat)
    ensures m > 0
  {
    if c == 'k' || c == 'K' then 1024
    else if c == 'm' || c == 'M' then 1024 * 1024
    else if c == 'g' || c == 'G' then 1024 * 1024 * 1024
    else 1
  }

  /** `parse_size_string`: a number with an optional unit, refused when the product leaves the word. */
  function ParseSize(s: string): Option<nat> {
    var t := Trim(s);
    if t == "" then None
    else
      var m := Multiplier(t[|t| - 1]);
      match ParseUint(if m == 1 then t else t[..|t| - 1], USIZE_MAX)
      case None => None
      case Some(n) => if n * m <= USIZE_MAX then Some(n * m) else None
  }

  // ---- route blocks ----

  datatype RouteKey = Upstream | Auth | Cert | Key | RouteCache | Intercept

  function RouteKeyOf(d: string): Option<RouteKey> {
    if d == "upstream" || d == "forward" then Some(Upstream)
    else if d == "auth" then Some(Auth)
    else if d == "cert" then Some(Cert)
    else if d == "key" then Some(Key)
    else if d == "cache" then Some(RouteCache)
    else if d == "intercept_errors" then Some(Intercept)
    else None
  }

  datatype RouteAcc = RouteAcc(
    forward: Option<string>, auth: bool, cert: Option<string>, key: Option<string>,
    cache: Option<bool>, intercept: Option<bool>)

  const NO_ROUTE := RouteAcc(None, false, None, None, None, None)

  function ApplyRoute(acc: RouteAcc, key: RouteKey, value: string, line: string): Result<RouteAcc, ParseError> {
    match key
    case Upstream => if IsValidUrl(value) then Ok(acc.(forward := Some(value))) else Err(InvalidUrlFormat(value))
    case Cert => if acc.cert.Some? then Err(InvalidRouteDirective(line)) else Ok(acc.(cert := Some(value)))
    case Key => if acc.key.Some? then Err(InvalidRouteDirective(line)) else Ok(acc.(key := Some(value)))
    case _ =>
      match ParseFlag(value)
      case None => Err(InvalidRouteDirective(line))
      case Some(b) =>
        match key
        case Auth => Ok(acc.(auth := b))
        case RouteCache => Ok(acc.(cache := Some(b)))
        case _ => Ok(acc.(intercept := Some(b)))
  }

  function RouteStep(env: Env, acc: RouteAcc, line: string): Result<RouteAcc, ParseError> {
    if OpensBlock(line) then Err(InvalidRouteDirective(line))
    else match BlockDirective(env, line)
      case Err(e) => Err(e)
      case Ok(d) =>
        match RouteKeyOf(d)
        case None => Err(InvalidRouteDirective(line))
        case Some(key) =>
          match SingleValue(line)
          case None => Err(UnknownDirective(d))
          case Some(value) => ApplyRoute(acc, key, value, line)
  }

  function FinishRoute(endpoint: string, acc: RouteAcc): Result<Route, ParseError> {
    if acc.forward.None? then Err(InvalidRouteDirective(endpoint))
    else if HTTPS <= endpoint && (acc.cert.None? || acc.key.None?) then Err(IncompleteRouteCertBlock(endpoint))
    else if !(HTTPS <= endpoint) && (acc.cert.Some? || acc.key.Some?) then Err(CertNotAllowedForHttpRoute(endpoint))
    else Ok(Route(endpoint, acc.forward.value, acc.auth, acc.cert, acc.key, acc.cache, acc.intercept))
  }

  /** The lines after a block's header: the parsed block and the lines after its end. */
  function RouteBlock(env: Env, lines: seq<string>, endpoint: string, acc: RouteAcc):
    (r: Result<(Route, seq<string>), ParseError>)
    ensures r.Ok? ==> |r.value.1| < |lines|
  {
    if lines == [] then Err(InvalidRouteDirective(endpoint))
    else if IsTerminator(lines[0]) then
      match FinishRoute(endpoint, acc)
      case Err(e) => Err(e)
      case Ok(route) => Ok((route, lines[1..]))
    else
      match RouteStep(env, acc, lines[0])
      case Err(e) => Err(e)
      case Ok(acc') => RouteBlock(env, lines[1..], endpoint, acc')
  }

  // ---- the security block ----

  datatype SecurityKey =
    | ProxyProtocol | TrustedUpstream | Timeout | MaxTlsFailures | BanDuration | RateLimit
    | ForwardAuth | MaxBodySize | MaxHeaderSize

  function SecurityKeyOf(d: string): Option<SecurityKey> {
    if d == "proxy_protocol" then Some(ProxyProtocol)
    else if d == "trusted_upstream" then Some(TrustedUpstream)
    else if d == "timeout" then Some(Timeout)
    else if d == "max_tls_failures" then Some(MaxTlsFailures)
    else if d == "ban_duration" then Some(BanDuration)
    else if d == "rate_limit_rpm" || d == "rate_limit" then Some(RateLimit)
    else if d == "forward_auth" then Some(ForwardAuth)
    else if d == "max_body_size" then Some(MaxBodySize)
    else if d == "max_header_size" then Some(MaxHeaderSize)
    else None
  }

  datatype Setting = Flag(flag: bool) | Address(ip: IpAddr) | Number(n: nat) | Text(text: string)

  /** The settings given so far; each can be given once. */
  type Settings = map<SecurityKey, Setting>

  function ParseSetting(env: Env, key: SecurityKey, value: string): Option<Setting> {
    match key
    case ProxyProtocol =>
      if value == "on" || value == "true" then Some(Flag(true))
      else if value == "off" || value == "false" then Some(Flag(false))
      else None
    case TrustedUpstream =>
      (match ParseIpAddr(env, value)
       case Some(ip) => Some(Address(ip))
       case None => None)
    case ForwardAuth => Some(Text(value))
    case MaxBodySize => AsNumber(ParseSize(value))
    case MaxHeaderSize => AsNumber(ParseSize(value))
    case _ => AsNumber(ParseUint(value, USIZE_MAX))
  }

  function AsNumber(n: Option<nat>): Option<Setting> {
    match n
    case Some(v) => Some(Number(v))
    case None => None
  }

  function SecurityStep(env: Env, acc: Settings, line: string): Result<Settings, ParseError> {
    if OpensBlock(line) then Err(InvalidSecurityBlock(line))
    else match BlockDirective(env, line)
      case Err(e) => Err(e)
      case Ok(d) =>
        match SecurityKeyOf(d)
        case None => Err(InvalidSecurityBlock(line))
        case Some(key) =>
          match SingleValue(line)
          case None => Err(UnknownDirective(d))
          case Some(value) =>
            if key in acc then Err(DuplicateSecurityDirective(d))
            else
              match ParseSetting(env, key, value)
              case None => Err(InvalidSecurityValue(d, value))
              case Some(setting) => Ok(acc[key := setting])
  }

  function NumberOr(acc: Settings, key: SecurityKey, default: nat): nat {
    if key in acc && acc[key].Number? then acc[key].n else default
  }

  function FinishSecurity(acc: Settings): Result<SecurityConfig, ParseError> {
    var pp := ProxyProtocol in acc && acc[ProxyProtocol] == Flag(true);
    var given := TrustedUpstream in acc && acc[TrustedUpstream].Address?;
    if pp && !given then Err(MissingSecurityDirective("trusted_upstream"))
    else Ok(SecurityConfig(
      pp,
      if given then acc[TrustedUpstream].ip else V4(Ipv4(0, 0, 0, 0)),
      NumberOr(acc, Timeout, 200),
      NumberOr(acc, MaxTlsFailures, 5),
      NumberOr(acc, BanDuration, 3600),
      NumberOr(acc, RateLimit, 300),
      if ForwardAuth in acc && acc[ForwardAuth].Text? then Some(acc[ForwardAuth].text) else None,
      NumberOr(acc, MaxBodySize, 10 * 1024 * 1024),
      NumberOr(acc, MaxHeaderSize, 64 * 1024)))
  }

  function SecurityBlock(env: Env, lines: seq<string>, acc: Settings):
    (r: Result<(SecurityConfig, seq<string>), ParseError>)
    ensures r.Ok? ==> |r.value.1| < |lines|
    decreases |lines|
  {
    if lines == [] then Err(UnterminatedSecurityBlock)
    else if IsTerminator(lines[0]) then
      match FinishSecurity(acc)
      case Err(e) => Err(e)
      case Ok(sec) => Ok((sec, lines[1..]))
    else
      match SecurityStep(env, acc, lines[0])
      case Err(e) => Err(e)
      case Ok(acc') => SecurityBlock(env, lines[1..], acc')
  }

  // ---- the cache block ----

  datatype CacheKey = Enabled | MaxCapacity(mb: bool) | MaxFileSize(mb: bool) | Ttl

  function CacheKeyOf(d: string): Option<CacheKey> {
    if d == "enabled" || d == "cache" then Some(Enabled)
    else if d == "max_capacity" then Some(MaxCapacity(false))
    else if d == "max_capacity_mb" then Some(MaxCapacity(true))
    else if d == "max_file_size" then Some(MaxFileSize(false))
    else if d == "max_file_size_mb" then Some(MaxFileSize(true))
    else if d == "default_ttl" || d == "default_ttl_sec" || d == "ttl" then Some(Ttl)
    else None
  }

  const DEFAULT_CACHE := CacheConfig(true, 64 * 1024 * 1024, 2 * 1024 * 1024, 300)

  /** A bare number under a `_mb` directive counts mebibytes. */
  function SizeText(mb: bool, value: string): string {
    if mb && AllDigits(value) then value + "M" else value
  }

  function ApplyCache(acc: CacheConfig, key: CacheKey, d: string, value: string): Result<CacheConfig, ParseError> {
    match key
    case Enabled =>
      (match ParseFlag(value)
       case Some(b) => Ok(acc.(enabled := b))
       case None => Err(InvalidSecurityValue(d, value)))
    case MaxCapacity(mb) =>
      (match ParseSize(SizeText(mb, value))
       case Some(n) => Ok(acc.(maxCapacityBytes := n))
       case None => Err(InvalidSecurityValue(d, Trim(SizeText(mb, value)))))
    case MaxFileSize(mb) =>
      (match ParseSize(SizeText(mb, value))
       case Some(n) => Ok(acc.(maxFileSizeBytes := n))
       case None => Err(InvalidSecurityValue(d, Trim(SizeText(mb, value)))))
    case Ttl =>
      (match ParseUint(value, USIZE_MAX)
       case Some(n) => Ok(acc.(defaultTtlSec := n))
       case None => Err(InvalidSecurityValue(d, value)))
  }

  function CacheStep(env: Env, acc: CacheConfig, line: string): Result<CacheConfig, ParseError> {
    if OpensBlock(line) then Err(InvalidSecurityBlock(line))
    else match BlockDirective(env, line)
      case Err(e) => Err(e)
      case Ok(d) =>
        match CacheKeyOf(d)
        case None => Err(InvalidSecurityBlock(line))
        case Some(key) =>
          match SingleValue(line)
          case None => Err(UnknownDirective(d))
          case Some(value) => ApplyCache(acc, key, d, value)
  }

  function CacheBlock(env: Env, lines: seq<string>, acc: CacheConfig):
    (r: Result<(CacheConfig, seq<string>), ParseError>)
    ensures r.Ok? ==> |r.value.1| < |lines|
  {
    if lines == [] then Err(UnterminatedSecurityBlock)
    else if IsTerminator(lines[0]) then Ok((acc, lines[1..]))
    else
      match CacheStep(env, acc, lines[0])
      case Err(e) => Err(e)
      case Ok(acc') => CacheBlock(env, lines[1..], acc')
  }

  // ---- the top level ----

  datatype TopKey = Listen | Logfile | InterceptErrors | RouteBlockKey | SecurityBlockKey | Workers | CacheBlockKey

  function TopKeyOf(d: string): Option<TopKey> {
    if d == "listen" then Some(Listen)
    else if d == "route" then Some(RouteBlockKey)
    else if d == "workers" then Some(Workers)
    else if d == "logfile" then Some(Logfile)
    else if d == "security" then Some(SecurityBlockKey)
    else if d == "cache" then Some(CacheBlockKey)
    else if d == "intercept_errors" then Some(InterceptErrors)
    else None
  }

  datatype TopAcc = TopAcc(
    listen: Option<nat>, routes: seq<Route>, workers: Option<nat>, logfile: Option<string>,
    security: Option<SecurityConfig>, cache: Option<CacheConfig>, intercept: Option<bool>)

  const NO_CONFIG := TopAcc(None, [], None, None, None, None, None)

  function TopDirective(env: Env, line: string): Result<TopKey, ParseError> {
    if IsTerminator(line) then Err(UnexpectedBlockTerminator)
    else match GetDirective(line)
      case Err(e) => Err(e)
      case Ok(d) =>
        if HasUpper(env, d) then Err(InvalidDirectiveCase(d))
        else match TopKeyOf(d)
          case None => Err(UnknownDirective(d))
          case Some(key) => Ok(key)
  }

  function ParseListen(line: string): Result<nat, ParseError> {
    match SingleValue(line)
    case None => Err(InvalidListenDirective)
    case Some(value) =>
      match ParseUint(value, U16_MAX)
      case Some(port) => Ok(port)
      case None => Err(InvalidPort(value))
  }

  /** A top-level directive that is one line. */
  function SimpleStep(acc: TopAcc, key: TopKey, line: string): Result<TopAcc, ParseError>
    requires key.Listen? || key.Logfile? || key.InterceptErrors? || key.Workers?
  {
    if !EndsInSemicolon(Trim(line)) then Err(MissingSemicolon(line))
    else if TrailingGarbage(line) then Err(InvalidListenDirective)
    else match key
      case Listen =>
        if acc.listen.Some? then Err(TooManyListenDirectives)
        else (match ParseListen(line) case Ok(port) => Ok(acc.(listen := Some(port))) case Err(e) => Err(e))
      case Logfile =>
        if acc.logfile.Some? then Err(TooManyLogfileDirectives)
        else (match SingleValue(line)
              case Some(value) => Ok(acc.(logfile := Some(value)))
              case None => Err(UnknownDirective("logfile")))
      case InterceptErrors =>
        if acc.intercept.Some? then Err(TooManySecurityDirectives)
        else (match SingleValue(line)
              case None => Err(UnknownDirective("intercept_errors"))
              case Some(value) =>
                match ParseFlag(value)
                case Some(b) => Ok(acc.(intercept := Some(b)))
                case None => Err(UnknownDirective(line)))
      case Workers =>
        if acc.workers.Some? then Err(TooManyWorkersDirectives)
        else (match SingleValue(line)
              case None => Err(UnknownDirective("workers"))
              case Some(value) =>
                match ParseUint(value, USIZE_MAX)
                case None => Err(InvalidWorkersValue(value))
                case Some(n) => if n == 0 then Err(InvalidWorkersValue(value)) else Ok(acc.(workers := Some(n))))
  }

  function RouteHeader(line: string): Result<string, ParseError> {
    var parts := Tokens(line);
    if |parts| != 3 || parts[0] != "route" || parts[2] != "{" then Err(InvalidRouteDirective(line))
    else if !IsValidUrl(parts[1]) then Err(InvalidUrlFormat(parts[1]))
    else Ok(parts[1])
  }

  predicate HasEndpoint(routes: seq<Route>, endpoint: string) {
    exists i :: 0 <= i < |routes| && routes[i].requestEndpoint == endpoint
  }

  /** The checks in front of a route block: its endpoint, if it may start here. */
  function NewEndpoint(acc: TopAcc, line: string): Result<string, ParseError> {
    if !OpensBlock(line) then Err(InvalidRouteDirective(line))
    else match RouteHeader(line)
      case Err(e) => Err(e)
      case Ok(endpoint) =>
        if HasEndpoint(acc.routes, endpoint) then Err(DuplicateRequestEndpoint(endpoint)) else Ok(endpoint)
  }

  /** One top-level directive: the new accumulator and the lines after it. */
  function TopStep(env: Env, acc: TopAcc, lines: seq<string>): (r: Result<(TopAcc, seq<string>), ParseError>)
    requires lines != []
    ensures r.Ok? ==> |r.value.1| < |lines|
  {
    var line := lines[0];
    match TopDirective(env, line)
    case Err(e) => Err(e)
    case Ok(RouteBlockKey) =>
      (match NewEndpoint(acc, line)
       case Err(e) => Err(e)
       case Ok(endpoint) =>
         match RouteBlock(env, lines[1..], endpoint, NO_ROUTE)
         case Err(e) => Err(e)
         case Ok((route, rest)) => Ok((acc.(routes := acc.routes + [route]), rest)))
    case Ok(SecurityBlockKey) =>
      if !OpensBlock(line) then Err(InvalidSecurityBlock(line))
      else if acc.security.Some? then Err(TooManySecurityDirectives)
      else (match SecurityBlock(env, lines[1..], map[])
            case Err(e) => Err(e)
            case Ok((sec, rest)) => Ok((acc.(security := Some(sec)), rest)))
    case Ok(CacheBlockKey) =>
      if !OpensBlock(line) then Err(InvalidSecurityBlock(line))
      else if acc.cache.Some? then Err(TooManySecurityDirectives)
      else (match CacheBlock(env, lines[1..], DEFAULT_CACHE)
            case Err(e) => Err(e)
            case Ok((c, rest)) => Ok((acc.(cache := Some(c)), rest)))
    case Ok(key) =>
      match SimpleStep(acc, key, line)
      case Err(e) => Err(e)
      case Ok(acc') => Ok((acc', lines[1..]))
  }

  function TopLevel(env: Env, acc: TopAcc, lines: seq<string>): Result<TopAcc, ParseError>
    decreases |lines|
  {
    if lines == [] then Ok(acc)
    else
      match TopStep(env, acc, lines)
      case Err(e) => Err(e)
      case Ok((acc', rest)) => TopLevel(env, acc', rest)
  }

  predicate AnyAuth(routes: seq<Route>) {
    exists i :: 0 <= i < |routes| && routes[i].authRequired
  }

  /** The checks across blocks, once all lines are read. */
  function Finish(env: Env, acc: TopAcc): Result<ProxyConfig, ParseError> {
    if acc.listen.None? then Err(NoListenDirective)
    else if acc.routes == [] then Err(NoRouteDirective)
    else if AnyAuth(acc.routes) && (acc.security.None? || acc.security.value.forwardAuth.None?) then
      Err(MissingSecurityDirective("forward_auth"))
    else Ok(ProxyConfig(
      acc.listen.value, acc.routes, acc.workers.GetOr(env.parallelism), acc.logfile, acc.security, acc.cache,
      acc.intercept))
  }

  function ParseLines(env: Env, lines: seq<string>): Result<ProxyConfig, ParseError> {
    match TopLevel(env, NO_CONFIG, lines)
    case Err(e) => Err(e)
    case Ok(acc) => Finish(env, acc)
  }

  predicate IsKept(line: string) {
    line != "" && line[0] != '#'
  }

  function KeptLines(lines: seq<string>): seq<string> {
    if lines == [] then []
    else (if IsKept(Trim(lines[0])) then [Trim(lines[0])] else []) + KeptLines(lines[1..])
  }

  /** The trimmed lines of a text without comments. A carriage return before a newline is trimmed away. */
  function LinesOf(text: string): seq<string> {
    KeptLines(Split(text, '\n'))
  }

  function ParseConfig(env: Env, input: string): Result<ProxyConfig, ParseError> {
    ParseLines(env, LinesOf(Strip(input)))
  }

  // ---- the loops of the source ----

  method ParseRouteBlock(env: Env, lines: seq<string>, start: nat, endpoint: string)
    returns (r: Result<Route, ParseError>, index: nat)
    requires start < |lines|
    ensures start < index <= |lines|
    ensures r.Ok? ==>
      index < |lines| && RouteBlock(env, lines[start + 1..], endpoint, NO_ROUTE) == Ok((r.value, lines[index + 1..]))
    ensures r.Err? ==> RouteBlock(env, lines[start + 1..], endpoint, NO_ROUTE) == Err(r.error)
  {
    hide RouteStep, FinishRoute;
    var acc := NO_ROUTE;
    index := start + 1;
    while index < |lines|
      invariant start < index <= |lines|
      invariant RouteBlock(env, lines[index..], endpoint, acc) ==
        RouteBlock(env, lines[start + 1..], endpoint, NO_ROUTE)
    {
      var line := lines[index];
      assert lines[index..][1..] == lines[index + 1..];
      if IsTerminator(line) {
        r := FinishRoute(endpoint, acc);
        return;
      }
      var next := RouteStep(env, acc, line);
      if next.Err? {
        r := Err(next.error);
        return;
      }
      acc := next.value;
      index := index + 1;
    }
    r := Err(InvalidRouteDirective(endpoint));
  }

  method ParseSecurityBlock(env: Env, lines: seq<string>, start: nat)
    returns (r: Result<SecurityConfig, ParseError>, index: nat)
    requires start < |lines|
    ensures start < index <= |lines|
    ensures r.Ok? ==>
      index < |lines| && SecurityBlock(env, lines[start + 1..], map[]) == Ok((r.value, lines[index + 1..]))
    ensures r.Err? ==> SecurityBlock(env, lines[start + 1..], map[]) == Err(r.error)
  {
    hide SecurityStep, FinishSecurity;
    var acc: Settings := map[];
    index := start + 1;
    while index < |lines|
      invariant start < index <= |lines|
      invariant SecurityBlock(env, lines[index..], acc) == SecurityBlock(env, lines[start + 1..], map[])
    {
      var line := lines[index];
      assert lines[index..][1..] == lines[index + 1..];
      if IsTerminator(line) {
        r := FinishSecurity(acc);
        return;
      }
      var next := SecurityStep(env, acc, line);
      if next.Err? {
        r := Err(next.error);
        return;
      }
      acc := next.value;
      index := index + 1;
    }
    r := Err(UnterminatedSecurityBlock);
  }

  method ParseCacheBlock(env: Env, lines: seq<string>, start: nat)
    returns (r: Result<CacheConfig, ParseError>, index: nat)
    requires start < |lines|
    ensures start < index <= |lines|
    ensures r.Ok? ==>
      index < |lines| && CacheBlock(env, lines[start + 1..], DEFAULT_CACHE) == Ok((r.value, lines[index + 1..]))
    ensures r.Err? ==> CacheBlock(env, lines[start + 1..], DEFAULT_CACHE) == Err(r.error)
  {
    hide CacheStep;
    var acc := DEFAULT_CACHE;
    index := start + 1;
    while index < |lines|
      invariant start < index <= |lines|
      invariant CacheBlock(env, lines[index..], acc) == CacheBlock(env, lines[start + 1..], DEFAULT_CACHE)
    {
      var line := lines[index];
      assert lines[index..][1..] == lines[index + 1..];
      if IsTerminator(line) {
        r := Ok(acc);
        return;
      }
      var next := CacheStep(env, acc, line);
      if next.Err? {
        r := Err(next.error);
        return;
      }
      acc := next.value;
      index := index + 1;
    }
    r := Err(UnterminatedSecurityBlock);
  }

  /** One iteration of the top-level loop; `index` is left on the last line of the directive. */
  method ParseDirective(env: Env, acc: TopAcc, lines: seq<string>, start: nat)
    returns (r: Result<TopAcc, ParseError>, index: nat)
    requires start < |lines|
    ensures r.Ok? ==> start <= index < |lines| && TopStep(env, acc, lines[start..]) == Ok((r.value, lines[index + 1..]))
    ensures r.Err? ==> TopStep(env, acc, lines[start..]) == Err(r.error)
  {
    hide TopDirective, NewEndpoint, SimpleStep, RouteBlock, SecurityBlock, CacheBlock;
    var line := lines[start];
    index := start;
    assert lines[start..][0] == line && lines[start..][1..] == lines[start + 1..];
    var directive := TopDirective(env, line);
    if directive.Err? {
      return Err(directive.error), index;
    }
    match directive.value
    case RouteBlockKey =>
      var endpoint := NewEndpoint(acc, line);
      if endpoint.Err? {
        return Err(endpoint.error), index;
      }
      var route;
      route, index := ParseRouteBlock(env, lines, start, endpoint.value);
      r := match route case Ok(v) => Ok(acc.(routes := acc.routes + [v])) case Err(e) => Err(e);
    case SecurityBlockKey =>
      if !OpensBlock(line) {
        return Err(InvalidSecurityBlock(line)), index;
      }
      if acc.security.Some? {
        return Err(TooManySecurityDirectives), index;
      }
      var sec;
      sec, index := ParseSecurityBlock(env, lines, start);
      r := match sec case Ok(v) => Ok(acc.(security := Some(v))) case Err(e) => Err(e);
    case CacheBlockKey =>
      if !OpensBlock(line) {
        return Err(InvalidSecurityBlock(line)), index;
      }
      if acc.cache.Some? {
        return Err(TooManySecurityDirectives), index;
      }
      var cache;
      cache, index := ParseCacheBlock(env, lines, start);
      r := match cache case Ok(v) => Ok(acc.(cache := Some(v))) case Err(e) => Err(e);
    case _ =>
      r := SimpleStep(acc, directive.value, line);
  }

  method ParseProxyConfig(env: Env, input: string) returns (r: Result<ProxyConfig, ParseError>)
    ensures r == ParseConfig(env, input)
  {
    hide TopStep, Finish, LinesOf, Strip;
    var stripped := StripComments(input);
    var lines := LinesOf(stripped);
    var acc := NO_CONFIG;
    var index := 0;
    assert lines[0..] == lines;
    while index < |lines|
      invariant index <= |lines|
      invariant TopLevel(env, acc, lines[index..]) == TopLevel(env, NO_CONFIG, lines)
      decreases |lines| - index
    {
      var next, last := ParseDirective(env, acc, lines, index);
      if next.Err? {
        return Err(next.error);
      }
      acc := next.value;
      index := last + 1;
    }
    r := Finish(env, acc);
  }

  /** The check for text after the semicolon never finds any: it looks behind the last one. */
  lemma NoTrailingGarbage(line: string)
    ensures !TrailingGarbage(line)
  {
    var t := Trim(line);
    if EndsInSemicolon(t) {
      assert FindLast(t, ';') == |t| - 1;
      assert t[|t|..] == "";
    }
  }

  // ---- a directive consumes lines from the front only ----

  predicate Suffix(rest: seq<string>, lines: seq<string>) {
    |rest| <= |lines| && rest == lines[|lines| - |rest|..]
  }

  lemma SuffixOfTail(rest: seq<string>, lines: seq<string>)
    requires lines != [] && Suffix(rest, lines[1..])
    ensures Suffix(rest, lines)
  {
  }

  lemma {:induction false} RouteBlockRest(env: Env, lines: seq<string>, endpoint: string, acc: RouteAcc)
    ensures var r := RouteBlock(env, lines, endpoint, acc); r.Ok? ==> Suffix(r.value.1, lines)
    decreases |lines|
  {
    hide RouteStep, FinishRoute, Suffix;
    if lines != [] {
      SuffixRefl(lines[1..]);
      if !IsTerminator(lines[0]) && RouteStep(env, acc, lines[0]).Ok? {
        RouteBlockRest(env, lines[1..], endpoint, RouteStep(env, acc, lines[0]).value);
      }
      if RouteBlock(env, lines, endpoint, acc).Ok? {
        SuffixOfTail(RouteBlock(env, lines, endpoint, acc).value.1, lines);
      }
    }
  }

  lemma {:induction false} SecurityBlockRest(env: Env, lines: seq<string>, acc: Settings)
    ensures var r := SecurityBlock(env, lines, acc); r.Ok? ==> Suffix(r.value.1, lines)
    decreases |lines|
  {
    hide SecurityStep, FinishSecurity, Suffix;
    if lines != [] {
      SuffixRefl(lines[1..]);
      if !IsTerminator(lines[0]) && SecurityStep(env, acc, lines[0]).Ok? {
        SecurityBlockRest(env, lines[1..], SecurityStep(env, acc, lines[0]).value);
      }
      if SecurityBlock(env, lines, acc).Ok? {
        SuffixOfTail(SecurityBlock(env, lines, acc).value.1, lines);
      }
    }
  }

  lemma {:induction false} CacheBlockRest(env: Env, lines: seq<string>, acc: CacheConfig)
    ensures var r := CacheBlock(env, lines, acc); r.Ok? ==> Suffix(r.value.1, lines)
    decreases |lines|
  {
    hide CacheStep, Suffix;
    if lines != [] {
      SuffixRefl(lines[1..]);
      if !IsTerminator(lines[0]) && CacheStep(env, acc, lines[0]).Ok? {
        CacheBlockRest(env, lines[1..], CacheStep(env, acc, lines[0]).value);
      }
      if CacheBlock(env, lines, acc).Ok? {
        SuffixOfTail(CacheBlock(env, lines, acc).value.1, lines);
      }
    }
  }

  lemma SuffixRefl(lines: seq<string>)
    ensures Suffix(lines, lines)
  {
  }

  lemma TopStepRest(env: Env, acc: TopAcc, lines: seq<string>)
    requires lines != []
    ensures var r := TopStep(env, acc, lines); r.Ok? ==> Suffix(r.value.1, lines)
  {
    hide TopDirective, NewEndpoint, OpensBlock, SimpleStep, RouteBlock, SecurityBlock, CacheBlock, Suffix;
    if NewEndpoint(acc, lines[0]).Ok? {
      RouteBlockRest(env, lines[1..], NewEndpoint(acc, lines[0]).value, NO_ROUTE);
    }
    SecurityBlockRest(env, lines[1..], map[]);
    CacheBlockRest(env, lines[1..], DEFAULT_CACHE);
    SuffixRefl(lines[1..]);
    if TopStep(env, acc, lines).Ok? {
      SuffixOfTail(TopStep(env, acc, lines).value.1, lines);
    }
  }
}
