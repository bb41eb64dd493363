/** Every spelling a directive line may have, and the one field it sets. */
module ParserSpellings {
  import opened Basics
  import opened Net
  import opened Text
  import opened Words
  import opened Router
  import opened Config
  import opened Parser
  import opened ParserImage

  // ---- one line ----

  predicate White(s: string) {
    forall i :: 0 <= i < |s| ==> s[i] == ' ' || s[i] == '\t'
  }

  /** A directive, its value and a semicolon, with blanks and tabs between them. */
  function Spelled(name: string, gap: string, value: string, tail: string): string {
    name + gap + value + tail + ";"
  }

  predicate Spacing(gap: string, tail: string) {
    White(gap) && White(tail) && gap != ""
  }

  /** A text without white space that does not end in a semicolon. */
  predicate IsValue(s: string) {
    Word(s) && s[|s| - 1] != ';'
  }

  lemma {:induction false} TokensSkipWhite(gap: string, s: string)
    requires White(gap)
    ensures Tokens(gap + s) == Tokens(s)
  {
    hide Tokens;
    if gap == "" {
      assert gap + s == s;
    } else {
      TokensSkipWhite(gap[1..], s);
      TokensSkipSpace(gap[0], gap[1..] + s);
      assert gap + s == [gap[0]] + (gap[1..] + s);
    }
  }

  lemma {:induction false} TrimEndWhite(s: string, tail: string)
    requires White(tail) && s != "" && !IsSpace(s[|s| - 1])
    ensures TrimEnd(s + tail) == s
  {
    if tail == "" {
      assert s + tail == s;
    } else {
      var last := |tail| - 1;
      TrimEndWhite(s, tail[..last]);
      assert (s + tail)[..|s| + last] == s + tail[..last] && (s + tail)[|s| + last] == tail[last];
    }
  }

  /** The directive and the value of a spelled line. */
  lemma SpelledTokens(name: string, gap: string, value: string, tail: string)
    requires Word(name) && IsValue(value) && Spacing(gap, tail)
    ensures var line := Spelled(name, gap, value, tail);
      && |Tokens(line)| > 0 && Tokens(line)[0] == name && SingleValue(line) == Some(value)
      && Trim(line) == line && line[|line| - 1] == ';' && line[0] == name[0] && |line| >= 4
  {
    hide Tokens, TrimSemicolons, TrimStart, TrimEnd;
    var line, bare := Spelled(name, gap, value, tail), name + gap + value;
    assert line[|line| - 1] == ';' && line[0] == name[0] && !IsSpace(';');
    TrimmedAlready(line);
    assert line == name + gap + (value + tail + ";") && line == bare + tail + ";";
    assert bare[|bare| - 1] == value[|value| - 1] && bare[0] == name[0];
    FirstToken(name, gap, value + tail + ";");
    BareLine(bare, tail);
    FirstToken(name, gap, value);
    TokensOne(value);
  }

  /** A line without its semicolons and the blanks in front of them. */
  lemma BareLine(bare: string, tail: string)
    requires bare != "" && !IsSpace(bare[0]) && !IsSpace(bare[|bare| - 1]) && bare[|bare| - 1] != ';' && White(tail)
    ensures Trim(TrimSemicolons(bare + tail + ";")) == bare
  {
    NoSemicolonAtEnd(bare, tail);
    hide TrimSemicolons, TrimEnd;
    assert TrimStart(bare + tail) == bare + tail by {
      assert (bare + tail)[0] == bare[0];
    }
    TrimEndWhite(bare, tail);
  }

  lemma FirstToken(name: string, gap: string, rest: string)
    requires Word(name) && White(gap) && gap != ""
    ensures Tokens(name + gap + rest) == [name] + Tokens(rest)
  {
    hide Tokens;
    TokensCons(name, gap[0], gap[1..] + rest);
    assert name + gap + rest == name + [gap[0]] + (gap[1..] + rest);
    TokensSkipWhite(gap[1..], rest);
  }

  lemma NoSemicolonAtEnd(bare: string, tail: string)
    requires White(tail) && bare != "" && bare[|bare| - 1] != ';'
    ensures TrimSemicolons(bare + tail + ";") == bare + tail
  {
    var s := bare + tail;
    assert s[|s| - 1] == if tail == "" then bare[|bare| - 1] else tail[|tail| - 1];
    TrimOneSemicolon(s);
  }

  lemma SpelledChecks(env: Env, name: string, gap: string, value: string, tail: string)
    requires IsName(name) && IsValue(value) && Spacing(gap, tail)
    ensures var line := Spelled(name, gap, value, tail);
      && !IsTerminator(line) && !OpensBlock(line) && EndsInSemicolon(Trim(line)) && !TrailingGarbage(line)
      && GetDirective(line) == Ok(name) && BlockDirective(env, line) == Ok(name) && SingleValue(line) == Some(value)
  {
    NameIsWord(name);
    NameIsLowercase(env, name);
    SpelledTokens(name, gap, value, tail);
    NoTrailingGarbage(Spelled(name, gap, value, tail));
    hide Tokens, Trim, SingleValue, TrailingGarbage, HasUpper, Word, IsName, Spelled;
  }

  // ---- values ----

  predicate IsOn(word: string) {
    word in {"on", "yes", "true"}
  }

  predicate IsOff(word: string) {
    word in {"off", "no", "false"}
  }

  lemma FlagWords(word: string)
    ensures ParseFlag(word) == if IsOn(word) then Some(true) else if IsOff(word) then Some(false) else None
    ensures IsOn(word) || IsOff(word) ==> IsValue(word)
  {
  }

  /** The factor a unit letter stands for; without one, bytes. */
  predicate IsUnit(unit: string, factor: nat) {
    || (unit == "" && factor == 1)
    || (unit in {"k", "K"} && factor == 1024)
    || (unit in {"m", "M"} && factor == 1_048_576)
    || (unit in {"g", "G"} && factor == 1_073_741_824)
  }

  /** A number with a unit is the product, refused iff the product leaves the 64-bit word. */
  lemma SizeWithUnit(n: nat, unit: string, factor: nat)
    requires n <= USIZE_MAX && IsUnit(unit, factor)
    ensures ParseSize(Print(n) + unit) == (if n * factor <= USIZE_MAX then Some(n * factor) else None)
    ensures IsValue(Print(n) + unit)
  {
    PrintedIsValue(n);
    if unit == "" {
      assert Print(n) + unit == Print(n);
      NumberParses(n);
    } else {
      var s := Print(n) + unit;
      assert s[..|s| - 1] == Print(n) && s[|s| - 1] == unit[0] && s[0] == Print(n)[0];
      UnitFactor(unit, factor);
      assert IsDigit(Print(n)[0]);
      TrimmedAlready(s);
      ParsePrinted(n, USIZE_MAX);
      hide Trim, Print, ParseUint, Multiplier;
    }
  }

  lemma UnitFactor(unit: string, factor: nat)
    requires IsUnit(unit, factor) && unit != ""
    ensures Multiplier(unit[0]) == factor && factor != 1 && |unit| == 1 && !IsSpace(unit[0]) && unit[0] != ';'
  {
  }

  lemma PrintedIsValue(n: nat)
    ensures IsValue(Print(n))
  {
    DigitsAreWord(Print(n));
    assert IsDigit(Print(n)[|Print(n)| - 1]);
  }

  // ---- the cache block ----

  lemma CacheLine(env: Env, acc: CacheConfig, name: string, gap: string, value: string, tail: string, more: seq<string>)
    requires IsName(name) && IsValue(value) && Spacing(gap, tail)
    ensures var line := Spelled(name, gap, value, tail);
      CacheBlock(env, [line] + more, acc) ==
        if CacheKeyOf(name).None? then Err(InvalidSecurityBlock(line))
        else if ApplyCache(acc, CacheKeyOf(name).value, name, value).Err? then
          Err(ApplyCache(acc, CacheKeyOf(name).value, name, value).error)
        else CacheBlock(env, more, ApplyCache(acc, CacheKeyOf(name).value, name, value).value)
  {
    var line := Spelled(name, gap, value, tail);
    SpelledChecks(env, name, gap, value, tail);
    hide IsName, Word, ApplyCache, CacheKeyOf, Spelled, BlockDirective, SingleValue;
    assert ([line] + more)[1..] == more;
  }

  /** The nine names of the cache block. */
  lemma CacheSpellings()
    ensures CacheKeyOf("enabled") == CacheKeyOf("cache") == Some(Enabled)
    ensures CacheKeyOf("max_capacity") == Some(MaxCapacity(false)) &&
      CacheKeyOf("max_capacity_mb") == Some(MaxCapacity(true))
    ensures CacheKeyOf("max_file_size") == Some(MaxFileSize(false))
    ensures CacheKeyOf("max_file_size_mb") == Some(MaxFileSize(true))
    ensures CacheKeyOf("default_ttl") == CacheKeyOf("default_ttl_sec") == CacheKeyOf("ttl") == Some(Ttl)
  {
  }

  lemma CacheSpellingsAreNames()
    ensures IsName("enabled") && IsName("cache") && IsName("max_capacity") && IsName("max_capacity_mb")
    ensures IsName("max_file_size") && IsName("max_file_size_mb")
    ensures IsName("default_ttl") && IsName("default_ttl_sec") && IsName("ttl")
  {
  }

  /** `enabled` and `cache` switch the cache on or off. */
  lemma CacheFlagLines(env: Env, acc: CacheConfig, word: string, gap: string, tail: string, more: seq<string>)
    requires Spacing(gap, tail) && IsValue(word)
    ensures var r := CacheBlock(env, [Spelled("enabled", gap, word, tail)] + more, acc);
      if IsOn(word) then r == CacheBlock(env, more, acc.(enabled := true))
      else if IsOff(word) then r == CacheBlock(env, more, acc.(enabled := false))
      else r == Err(InvalidSecurityValue("enabled", word))
    ensures var r := CacheBlock(env, [Spelled("cache", gap, word, tail)] + more, acc);
      if IsOn(word) then r == CacheBlock(env, more, acc.(enabled := true))
      else if IsOff(word) then r == CacheBlock(env, more, acc.(enabled := false))
      else r == Err(InvalidSecurityValue("cache", word))
  {
    hide CacheBlock, CacheKeyOf, IsName, ParseFlag, IsOn, IsOff, IsValue, Spelled;
    CacheSpellings();
    CacheSpellingsAreNames();
    FlagWords(word);
    CacheLine(env, acc, "enabled", gap, word, tail, more);
    CacheLine(env, acc, "cache", gap, word, tail, more);
  }

  /** A bare number under a name in `_mb` counts mebibytes. */
  predicate IsSize(mb: bool, unit: string, factor: nat) {
    if mb && unit == "" then factor == 1_048_576 else IsUnit(unit, factor)
  }

  lemma CacheSize(env: Env, acc: CacheConfig, name: string, mb: bool, capacity: bool, n: nat, unit: string, factor: nat,
                  gap: string, tail: string, more: seq<string>)
    requires Spacing(gap, tail) && n <= USIZE_MAX && IsSize(mb, unit, factor)
    requires IsName(name) && CacheKeyOf(name) == Some(if capacity then MaxCapacity(mb) else MaxFileSize(mb))
    ensures var r := CacheBlock(env, [Spelled(name, gap, Print(n) + unit, tail)] + more, acc);
      if n * factor > USIZE_MAX then r.Err?
      else if capacity then r == CacheBlock(env, more, acc.(maxCapacityBytes := n * factor))
      else r == CacheBlock(env, more, acc.(maxFileSizeBytes := n * factor))
  {
    hide CacheBlock, Print, ParseSize, SizeText, IsValue, IsName, CacheKeyOf, IsSize, Spelled, Trim;
    SizeParses(mb, n, unit, factor);
    CacheLine(env, acc, name, gap, Print(n) + unit, tail, more);
  }

  /** Both capacity names set the capacity, both file size names the limit of a file. */
  lemma CacheSizeLines(env: Env, acc: CacheConfig, n: nat, unit: string, factor: nat, gap: string, tail: string,
                       more: seq<string>)
    requires Spacing(gap, tail) && n <= USIZE_MAX
    ensures IsSize(false, unit, factor) ==>
      var r := CacheBlock(env, [Spelled("max_capacity", gap, Print(n) + unit, tail)] + more, acc);
      if n * factor <= USIZE_MAX then r == CacheBlock(env, more, acc.(maxCapacityBytes := n * factor)) else r.Err?
    ensures IsSize(true, unit, factor) ==>
      var r := CacheBlock(env, [Spelled("max_capacity_mb", gap, Print(n) + unit, tail)] + more, acc);
      if n * factor <= USIZE_MAX then r == CacheBlock(env, more, acc.(maxCapacityBytes := n * factor)) else r.Err?
    ensures IsSize(false, unit, factor) ==>
      var r := CacheBlock(env, [Spelled("max_file_size", gap, Print(n) + unit, tail)] + more, acc);
      if n * factor <= USIZE_MAX then r == CacheBlock(env, more, acc.(maxFileSizeBytes := n * factor)) else r.Err?
    ensures IsSize(true, unit, factor) ==>
      var r := CacheBlock(env, [Spelled("max_file_size_mb", gap, Print(n) + unit, tail)] + more, acc);
      if n * factor <= USIZE_MAX then r == CacheBlock(env, more, acc.(maxFileSizeBytes := n * factor)) else r.Err?
  {
    hide CacheBlock, CacheKeyOf, IsName, Print, IsSize, Spelled, IsValue;
    CacheSpellings();
    CacheSpellingsAreNames();
    if IsSize(false, unit, factor) {
      CacheSize(env, acc, "max_capacity", false, true, n, unit, factor, gap, tail, more);
      CacheSize(env, acc, "max_file_size", false, false, n, unit, factor, gap, tail, more);
    }
    if IsSize(true, unit, factor) {
      CacheSize(env, acc, "max_capacity_mb", true, true, n, unit, factor, gap, tail, more);
      CacheSize(env, acc, "max_file_size_mb", true, false, n, unit, factor, gap, tail, more);
    }
  }

  lemma SizeParses(mb: bool, n: nat, unit: string, factor: nat)
    requires n <= USIZE_MAX && IsSize(mb, unit, factor)
    ensures ParseSize(SizeText(mb, Print(n) + unit)) == (if n * factor <= USIZE_MAX then Some(n * factor) else None)
    ensures IsValue(Print(n) + unit)
  {
    PrintedIsValue(n);
    if unit == "" {
      assert Print(n) + unit == Print(n);
      if mb {
        SizeWithUnit(n, "M", factor);
      } else {
        SizeWithUnit(n, unit, factor);
      }
    } else {
      SizeWithUnit(n, unit, factor);
      UnitFactor(unit, factor);
      assert (Print(n) + unit)[|Print(n)|] == unit[0];
      assert !AllDigits(Print(n) + unit) by {
        assert !IsDigit(unit[0]);
      }
    }
  }

  /** The three names of the default TTL. */
  lemma CacheTtlLines(env: Env, acc: CacheConfig, n: nat, gap: string, tail: string, more: seq<string>)
    requires Spacing(gap, tail)
    ensures var r := CacheBlock(env, [Spelled("default_ttl", gap, Print(n), tail)] + more, acc);
      if n <= USIZE_MAX then r == CacheBlock(env, more, acc.(defaultTtlSec := n)) else r.Err?
    ensures var r := CacheBlock(env, [Spelled("default_ttl_sec", gap, Print(n), tail)] + more, acc);
      if n <= USIZE_MAX then r == CacheBlock(env, more, acc.(defaultTtlSec := n)) else r.Err?
    ensures var r := CacheBlock(env, [Spelled("ttl", gap, Print(n), tail)] + more, acc);
      if n <= USIZE_MAX then r == CacheBlock(env, more, acc.(defaultTtlSec := n)) else r.Err?
  {
    hide CacheBlock, CacheKeyOf, IsName, Print, ParseUint, IsValue, Spelled;
    CacheSpellings();
    CacheSpellingsAreNames();
    PrintedIsValue(n);
    NumberIff(n, USIZE_MAX);
    CacheLine(env, acc, "default_ttl", gap, Print(n), tail, more);
    CacheLine(env, acc, "default_ttl_sec", gap, Print(n), tail, more);
    CacheLine(env, acc, "ttl", gap, Print(n), tail, more);
  }

  lemma NumberIff(n: nat, max: nat)
    ensures ParseUint(Print(n), max) == if n <= max then Some(n) else None
  {
    PrintValue(n);
    assert IsDigit(Print(n)[0]);
  }

  /** No other name is accepted. */
  lemma CacheUnknownLine(env: Env, acc: CacheConfig, name: string, value: string, gap: string, tail: string,
                         more: seq<string>)
    requires Spacing(gap, tail) && IsName(name) && IsValue(value)
    requires name !in {"enabled", "cache", "max_capacity", "max_capacity_mb", "max_file_size", "max_file_size_mb",
                       "default_ttl", "default_ttl_sec", "ttl"}
    ensures CacheBlock(env, [Spelled(name, gap, value, tail)] + more, acc) ==
      Err(InvalidSecurityBlock(Spelled(name, gap, value, tail)))
  {
    CacheLine(env, acc, name, gap, value, tail, more);
    hide CacheBlock, IsValue, IsName;
  }

  // ---- route blocks ----

  lemma RouteLine(env: Env, endpoint: string, acc: RouteAcc, name: string, gap: string, value: string, tail: string,
                  more: seq<string>)
    requires IsName(name) && IsValue(value) && Spacing(gap, tail)
    ensures var line := Spelled(name, gap, value, tail);
      RouteBlock(env, [line] + more, endpoint, acc) ==
        if RouteKeyOf(name).None? then Err(InvalidRouteDirective(line))
        else if ApplyRoute(acc, RouteKeyOf(name).value, value, line).Err? then
          Err(ApplyRoute(acc, RouteKeyOf(name).value, value, line).error)
        else RouteBlock(env, more, endpoint, ApplyRoute(acc, RouteKeyOf(name).value, value, line).value)
  {
    var line := Spelled(name, gap, value, tail);
    SpelledChecks(env, name, gap, value, tail);
    hide IsName, Word, ApplyRoute, RouteKeyOf, Spelled, BlockDirective, SingleValue;
    assert ([line] + more)[1..] == more;
  }

  lemma RouteSpellings()
    ensures RouteKeyOf("upstream") == RouteKeyOf("forward") == Some(Upstream)
    ensures RouteKeyOf("auth") == Some(Auth) && RouteKeyOf("cert") == Some(Cert) && RouteKeyOf("key") == Some(Key)
    ensures RouteKeyOf("cache") == Some(RouteCache) && RouteKeyOf("intercept_errors") == Some(Intercept)
    ensures IsName("forward")
  {
  }

  /** `upstream` and `forward` name the upstream, the last one counting; the value must begin with a slash or have a
      colon. */
  lemma RouteUpstreamLines(env: Env, endpoint: string, acc: RouteAcc, value: string, gap: string, tail: string,
                           more: seq<string>)
    requires Spacing(gap, tail) && IsValue(value)
    ensures var r := RouteBlock(env, [Spelled("upstream", gap, value, tail)] + more, endpoint, acc);
      if value[0] == '/' || ':' in value then r == RouteBlock(env, more, endpoint, acc.(forward := Some(value)))
      else r == Err(InvalidUrlFormat(value))
    ensures var r := RouteBlock(env, [Spelled("forward", gap, value, tail)] + more, endpoint, acc);
      if value[0] == '/' || ':' in value then r == RouteBlock(env, more, endpoint, acc.(forward := Some(value)))
      else r == Err(InvalidUrlFormat(value))
  {
    hide RouteBlock, RouteKeyOf, IsName, Spelled;
    RouteNames();
    RouteSpellings();
    RouteLine(env, endpoint, acc, "upstream", gap, value, tail, more);
    RouteLine(env, endpoint, acc, "forward", gap, value, tail, more);
  }

  /** The three switches of a route. */
  lemma RouteFlagLines(env: Env, endpoint: string, acc: RouteAcc, word: string, gap: string, tail: string,
                       more: seq<string>)
    requires Spacing(gap, tail) && IsValue(word)
    ensures var r := RouteBlock(env, [Spelled("auth", gap, word, tail)] + more, endpoint, acc);
      if IsOn(word) || IsOff(word) then r == RouteBlock(env, more, endpoint, acc.(auth := IsOn(word)))
      else r == Err(InvalidRouteDirective(Spelled("auth", gap, word, tail)))
    ensures var r := RouteBlock(env, [Spelled("cache", gap, word, tail)] + more, endpoint, acc);
      if IsOn(word) || IsOff(word) then r == RouteBlock(env, more, endpoint, acc.(cache := Some(IsOn(word))))
      else r == Err(InvalidRouteDirective(Spelled("cache", gap, word, tail)))
    ensures var r := RouteBlock(env, [Spelled("intercept_errors", gap, word, tail)] + more, endpoint, acc);
      if IsOn(word) || IsOff(word) then r == RouteBlock(env, more, endpoint, acc.(intercept := Some(IsOn(word))))
      else r == Err(InvalidRouteDirective(Spelled("intercept_errors", gap, word, tail)))
  {
    hide RouteBlock, RouteKeyOf, IsName, ParseFlag, IsOn, IsOff, IsValue, Spelled;
    RouteNames();
    FlagWords(word);
    RouteLine(env, endpoint, acc, "auth", gap, word, tail, more);
    RouteLine(env, endpoint, acc, "cache", gap, word, tail, more);
    RouteLine(env, endpoint, acc, "intercept_errors", gap, word, tail, more);
  }

  /** Certificate and key may be given once each. */
  lemma RouteFileLines(env: Env, endpoint: string, acc: RouteAcc, value: string, gap: string, tail: string,
                       more: seq<string>)
    requires Spacing(gap, tail) && IsValue(value)
    ensures var r := RouteBlock(env, [Spelled("cert", gap, value, tail)] + more, endpoint, acc);
      if acc.cert.None? then r == RouteBlock(env, more, endpoint, acc.(cert := Some(value)))
      else r == Err(InvalidRouteDirective(Spelled("cert", gap, value, tail)))
    ensures var r := RouteBlock(env, [Spelled("key", gap, value, tail)] + more, endpoint, acc);
      if acc.key.None? then r == RouteBlock(env, more, endpoint, acc.(key := Some(value)))
      else r == Err(InvalidRouteDirective(Spelled("key", gap, value, tail)))
  {
    hide RouteBlock, RouteKeyOf, IsName, IsValue, Spelled;
    RouteNames();
    RouteLine(env, endpoint, acc, "cert", gap, value, tail, more);
    RouteLine(env, endpoint, acc, "key", gap, value, tail, more);
  }

  lemma RouteUnknownLine(env: Env, endpoint: string, acc: RouteAcc, name: string, value: string, gap: string,
                         tail: string, more: seq<string>)
    requires Spacing(gap, tail) && IsName(name) && IsValue(value)
    requires name !in {"upstream", "forward", "auth", "cert", "key", "cache", "intercept_errors"}
    ensures RouteBlock(env, [Spelled(name, gap, value, tail)] + more, endpoint, acc) ==
      Err(InvalidRouteDirective(Spelled(name, gap, value, tail)))
  {
    RouteLine(env, endpoint, acc, name, gap, value, tail, more);
    hide RouteBlock, IsValue, IsName;
  }

  /** What the lines of a route block set becomes the route's fields of the same names. */
  lemma RouteFields(env: Env, endpoint: string, acc: RouteAcc, end: string, more: seq<string>)
    requires end in {"}", "};"} && acc.forward.Some?
    requires if HTTPS <= endpoint then acc.cert.Some? && acc.key.Some? else acc.cert.None? && acc.key.None?
    ensures var r := RouteBlock(env, [end] + more, endpoint, acc);
      && r.Ok? && r.value.1 == more && r.value.0.requestEndpoint == endpoint
      && Some(r.value.0.forwardEndpoint) == acc.forward && r.value.0.authRequired == acc.auth
      && r.value.0.certPath == acc.cert && r.value.0.keyPath == acc.key
      && r.value.0.cache == acc.cache && r.value.0.interceptErrors == acc.intercept
  {
    assert ([end] + more)[1..] == more;
  }

  // ---- the security block ----

  /** The settings of an empty block. */
  const DEFAULTS := SecurityConfig(false, V4(Ipv4(0, 0, 0, 0)), 200, 5, 3600, 300, None, 10_485_760, 65_536)

  lemma SecurityLine(env: Env, acc: Settings, name: string, gap: string, value: string, tail: string, more: seq<string>)
    requires IsName(name) && IsValue(value) && Spacing(gap, tail)
    ensures var line := Spelled(name, gap, value, tail);
      SecurityBlock(env, [line] + more, acc) ==
        if SecurityKeyOf(name).None? then Err(InvalidSecurityBlock(line))
        else if SecurityKeyOf(name).value in acc then Err(DuplicateSecurityDirective(name))
        else if ParseSetting(env, SecurityKeyOf(name).value, value).None? then Err(InvalidSecurityValue(name, value))
        else SecurityBlock(env, more, acc[SecurityKeyOf(name).value :=
               ParseSetting(env, SecurityKeyOf(name).value, value).value])
  {
    var line := Spelled(name, gap, value, tail);
    SpelledChecks(env, name, gap, value, tail);
    hide IsName, Word, ParseSetting, SecurityKeyOf, Spelled, BlockDirective, SingleValue;
    assert ([line] + more)[1..] == more;
  }

  /** A block of this one line parses to `sec`. */
  predicate GivesAlone(env: Env, line: string, sec: SecurityConfig, more: seq<string>) {
    SecurityBlock(env, [line] + (["}"] + more), map[]) == Ok((sec, more))
  }

  lemma OneSetting(env: Env, name: string, key: SecurityKey, value: string, setting: Setting, sec: SecurityConfig,
                   gap: string, tail: string, more: seq<string>)
    requires Spacing(gap, tail) && IsName(name) && IsValue(value)
    requires SecurityKeyOf(name) == Some(key) && ParseSetting(env, key, value) == Some(setting)
    requires FinishSecurity(map[key := setting]) == Ok(sec)
    ensures GivesAlone(env, Spelled(name, gap, value, tail), sec, more)
  {
    SecurityLine(env, map[], name, gap, value, tail, ["}"] + more);
    hide IsName, IsValue, SecurityKeyOf, ParseSetting, FinishSecurity, Spelled;
    assert map[][key := setting] == map[key := setting];
    assert (["}"] + more)[1..] == more;
  }

  lemma SecuritySpellings()
    ensures SecurityKeyOf("rate_limit_rpm") == SecurityKeyOf("rate_limit") == Some(RateLimit) && IsName("rate_limit")
  {
  }

  /** A block of one line that gives a number: the named limit is the number, every other setting its default. */
  lemma SecurityNumberLines(env: Env, n: nat, gap: string, tail: string, more: seq<string>)
    requires Spacing(gap, tail) && n <= USIZE_MAX
    ensures GivesAlone(env, Spelled("timeout", gap, Print(n), tail), DEFAULTS.(timeoutMs := n), more)
    ensures GivesAlone(env, Spelled("max_tls_failures", gap, Print(n), tail), DEFAULTS.(maxTlsFailures := n), more)
    ensures GivesAlone(env, Spelled("ban_duration", gap, Print(n), tail), DEFAULTS.(banDurationSec := n), more)
    ensures GivesAlone(env, Spelled("rate_limit_rpm", gap, Print(n), tail), DEFAULTS.(rateLimitRpm := n), more)
    ensures GivesAlone(env, Spelled("rate_limit", gap, Print(n), tail), DEFAULTS.(rateLimitRpm := n), more)
  {
    hide SecurityKeyOf, IsName, IsValue, ParseSetting, Print, GivesAlone, Spelled;
    SecurityNames1();
    SecurityNames2();
    SecuritySpellings();
    PrintedIsValue(n);
    NumberSetting(env, Timeout, n);
    NumberSetting(env, MaxTlsFailures, n);
    NumberSetting(env, BanDuration, n);
    NumberSetting(env, RateLimit, n);
    OneSetting(env, "timeout", Timeout, Print(n), Number(n), DEFAULTS.(timeoutMs := n), gap, tail, more);
    OneSetting(env, "max_tls_failures", MaxTlsFailures, Print(n), Number(n), DEFAULTS.(maxTlsFailures := n), gap, tail,
      more);
    OneSetting(env, "ban_duration", BanDuration, Print(n), Number(n), DEFAULTS.(banDurationSec := n), gap, tail, more);
    OneSetting(env, "rate_limit_rpm", RateLimit, Print(n), Number(n), DEFAULTS.(rateLimitRpm := n), gap, tail, more);
    OneSetting(env, "rate_limit", RateLimit, Print(n), Number(n), DEFAULTS.(rateLimitRpm := n), gap, tail, more);
  }

  /** The two sizes take units. */
  lemma SecuritySizeLines(env: Env, n: nat, unit: string, factor: nat, gap: string, tail: string, more: seq<string>)
    requires Spacing(gap, tail) && n <= USIZE_MAX && IsUnit(unit, factor) && n * factor <= USIZE_MAX
    ensures GivesAlone(env, Spelled("max_body_size", gap, Print(n) + unit, tail), DEFAULTS.(maxBodySize := n * factor),
      more)
    ensures GivesAlone(env, Spelled("max_header_size", gap, Print(n) + unit, tail),
      DEFAULTS.(maxHeaderSize := n * factor), more)
  {
    hide SecurityKeyOf, IsName, IsValue, Print, GivesAlone, Spelled, ParseSize, IsUnit;
    SecurityNames3();
    SizeWithUnit(n, unit, factor);
    var value, bytes := Print(n) + unit, n * factor;
    OneSetting(env, "max_body_size", MaxBodySize, value, Number(bytes), DEFAULTS.(maxBodySize := bytes), gap, tail,
      more);
    OneSetting(env, "max_header_size", MaxHeaderSize, value, Number(bytes), DEFAULTS.(maxHeaderSize := bytes), gap,
      tail, more);
  }

  /** The authentication address is taken as it stands, the trusted upstream in dotted form or as the library reads an
      IPv6 address. */
  lemma SecurityAddressLines(env: Env, url: string, ip: Ipv4, gap: string, tail: string, more: seq<string>)
    requires Spacing(gap, tail) && IsValue(url)
    ensures GivesAlone(env, Spelled("forward_auth", gap, url, tail), DEFAULTS.(forwardAuth := Some(url)), more)
    ensures GivesAlone(env, Spelled("trusted_upstream", gap, PrintIpv4(ip), tail),
      DEFAULTS.(trustedUpstream := V4(ip)), more)
  {
    hide SecurityKeyOf, IsName, IsValue, PrintIpv4, ParseIpv4, GivesAlone, Spelled;
    SecurityNames1();
    SecurityNames3();
    Ipv4Spelling(PrintIpv4(ip), ip);
    PrintedIpv4IsValue(ip);
    OneSetting(env, "forward_auth", ForwardAuth, url, Setting.Text(url), DEFAULTS.(forwardAuth := Some(url)), gap, tail,
      more);
    OneSetting(env, "trusted_upstream", TrustedUpstream, PrintIpv4(ip), Address(V4(ip)),
      DEFAULTS.(trustedUpstream := V4(ip)), gap, tail, more);
  }

  lemma PrintedIpv4IsValue(ip: Ipv4)
    ensures IsValue(PrintIpv4(ip))
  {
    Ipv4IsPlain(ip);
    var s := PrintIpv4(ip);
    assert IsDigit(PrintOctet(ip.d)[|PrintOctet(ip.d)| - 1]);
    assert s[|s| - 1] == PrintOctet(ip.d)[|PrintOctet(ip.d)| - 1];
  }

  /** The proxy protocol is switched off by `off` and `false`, and no other word but `on` and `true` is taken. */
  lemma ProxyProtocolOffLine(env: Env, word: string, gap: string, tail: string, more: seq<string>)
    requires Spacing(gap, tail) && IsValue(word) && word !in {"on", "true"}
    ensures var line := Spelled("proxy_protocol", gap, word, tail);
      if word in {"off", "false"} then GivesAlone(env, line, DEFAULTS, more)
      else SecurityBlock(env, [line] + (["}"] + more), map[]) == Err(InvalidSecurityValue("proxy_protocol", word))
  {
    hide SecurityBlock, GivesAlone, SecurityKeyOf, IsName, IsValue, Spelled;
    SecurityNames1();
    if word in {"off", "false"} {
      OneSetting(env, "proxy_protocol", ProxyProtocol, word, Flag(false), DEFAULTS, gap, tail, more);
    } else {
      SecurityLine(env, map[], "proxy_protocol", gap, word, tail, ["}"] + more);
    }
  }

  /** Switched on it needs the trusted upstream. */
  lemma ProxyProtocolOnLine(env: Env, word: string, ip: Ipv4, gap: string, tail: string, more: seq<string>)
    requires Spacing(gap, tail) && word in {"on", "true"}
    ensures var line := Spelled("proxy_protocol", gap, word, tail);
      var address := Spelled("trusted_upstream", gap, PrintIpv4(ip), tail);
      && SecurityBlock(env, [line] + (["}"] + more), map[]) == Err(MissingSecurityDirective("trusted_upstream"))
      && SecurityBlock(env, [line] + ([address] + (["}"] + more)), map[]) ==
           Ok((DEFAULTS.(proxyProtocol := true, trustedUpstream := V4(ip)), more))
  {
    hide SecurityBlock, FinishSecurity, SecurityKeyOf, IsName, IsValue, PrintIpv4, Spelled, ParseSetting;
    var end := ["}"] + more;
    var address := Spelled("trusted_upstream", gap, PrintIpv4(ip), tail);
    var on, both := map[ProxyProtocol := Flag(true)],
      map[ProxyProtocol := Flag(true), TrustedUpstream := Address(V4(ip))];
    SecurityNames1();
    OnWord(env, word);
    AddressWord(env, ip);
    FinishOn(ip);
    assert map[][ProxyProtocol := Flag(true)] == on && on[TrustedUpstream := Address(V4(ip))] == both;
    NewSetting(env, map[], "proxy_protocol", ProxyProtocol, word, Flag(true), gap, tail, end);
    NewSetting(env, map[], "proxy_protocol", ProxyProtocol, word, Flag(true), gap, tail, [address] + end);
    NewSetting(env, on, "trusted_upstream", TrustedUpstream, PrintIpv4(ip), Address(V4(ip)), gap, tail, end);
    BlockEnds(env, on, more);
    BlockEnds(env, both, more);
  }

  lemma NewSetting(env: Env, acc: Settings, name: string, key: SecurityKey, value: string, setting: Setting,
                   gap: string, tail: string, more: seq<string>)
    requires Spacing(gap, tail) && IsName(name) && IsValue(value) && key !in acc
    requires SecurityKeyOf(name) == Some(key) && ParseSetting(env, key, value) == Some(setting)
    ensures SecurityBlock(env, [Spelled(name, gap, value, tail)] + more, acc) ==
      SecurityBlock(env, more, acc[key := setting])
  {
    SecurityLine(env, acc, name, gap, value, tail, more);
    hide SecurityBlock, IsName, IsValue, SecurityKeyOf, ParseSetting, Spelled;
  }

  lemma OnWord(env: Env, word: string)
    requires word in {"on", "true"}
    ensures IsValue(word) && ParseSetting(env, ProxyProtocol, word) == Some(Flag(true))
  {
  }

  lemma AddressWord(env: Env, ip: Ipv4)
    ensures IsValue(PrintIpv4(ip)) && ParseSetting(env, TrustedUpstream, PrintIpv4(ip)) == Some(Address(V4(ip)))
  {
    hide ParseIpv4, PrintIpv4, IsValue;
    Ipv4Spelling(PrintIpv4(ip), ip);
    PrintedIpv4IsValue(ip);
  }

  lemma FinishOn(ip: Ipv4)
    ensures FinishSecurity(map[ProxyProtocol := Flag(true)]) == Err(MissingSecurityDirective("trusted_upstream"))
    ensures FinishSecurity(map[ProxyProtocol := Flag(true), TrustedUpstream := Address(V4(ip))]) ==
      Ok(DEFAULTS.(proxyProtocol := true, trustedUpstream := V4(ip)))
  {
  }

  lemma BlockEnds(env: Env, acc: Settings, more: seq<string>)
    ensures SecurityBlock(env, ["}"] + more, acc) ==
      if FinishSecurity(acc).Ok? then Ok((FinishSecurity(acc).value, more)) else Err(FinishSecurity(acc).error)
  {
    assert (["}"] + more)[1..] == more;
    hide FinishSecurity;
  }

  /** Both names of the rate limit do the same in every context that has not set it. */
  lemma RateLimitNames(env: Env, acc: Settings, n: nat, gap: string, tail: string, more: seq<string>)
    requires Spacing(gap, tail) && RateLimit !in acc && n <= USIZE_MAX
    ensures SecurityBlock(env, [Spelled("rate_limit", gap, Print(n), tail)] + more, acc) ==
      SecurityBlock(env, [Spelled("rate_limit_rpm", gap, Print(n), tail)] + more, acc)
  {
    hide SecurityBlock, SecurityKeyOf, IsName, IsValue, ParseSetting, Print, Spelled;
    SecurityNames2();
    SecuritySpellings();
    PrintedIsValue(n);
    NumberSetting(env, RateLimit, n);
    SecurityLine(env, acc, "rate_limit", gap, Print(n), tail, more);
    SecurityLine(env, acc, "rate_limit_rpm", gap, Print(n), tail, more);
  }

  lemma SecurityUnknownLine(env: Env, acc: Settings, name: string, value: string, gap: string, tail: string,
                            more: seq<string>)
    requires Spacing(gap, tail) && IsName(name) && IsValue(value)
    requires name !in {"proxy_protocol", "trusted_upstream", "timeout", "max_tls_failures", "ban_duration",
                       "rate_limit_rpm", "rate_limit", "forward_auth", "max_body_size", "max_header_size"}
    ensures SecurityBlock(env, [Spelled(name, gap, value, tail)] + more, acc) ==
      Err(InvalidSecurityBlock(Spelled(name, gap, value, tail)))
  {
    SecurityLine(env, acc, name, gap, value, tail, more);
    hide SecurityBlock, IsValue, IsName;
  }

  /** A setting given a second time is refused, whatever its value. */
  lemma SecurityGivenTwice(env: Env, name: string, first: string, second: string, gap: string, tail: string,
                           more: seq<string>)
    requires Spacing(gap, tail) && IsName(name) && IsValue(first) && IsValue(second)
    ensures SecurityBlock(env, [Spelled(name, gap, first, tail)] + ([Spelled(name, gap, second, tail)] + more),
      map[]).Err?
  {
    hide SecurityBlock, IsValue, IsName, SecurityKeyOf, ParseSetting, Spelled;
    SecurityLine(env, map[], name, gap, first, tail, [Spelled(name, gap, second, tail)] + more);
    if SecurityKeyOf(name).Some? && ParseSetting(env, SecurityKeyOf(name).value, first).Some? {
      var key := SecurityKeyOf(name).value;
      SecurityLine(env, map[][key := ParseSetting(env, key, first).value], name, gap, second, tail, more);
    }
  }

  // ---- the top level ----

  lemma TopLine(env: Env, acc: TopAcc, name: string, gap: string, value: string, tail: string, more: seq<string>)
    requires IsName(name) && IsValue(value) && Spacing(gap, tail)
    ensures var line := Spelled(name, gap, value, tail);
      && (TopKeyOf(name).None? ==> TopLevel(env, acc, [line] + more) == Err(UnknownDirective(name)))
      && (TopKeyOf(name).Some? && Simple(TopKeyOf(name).value) ==>
            var r := SimpleStep(acc, TopKeyOf(name).value, line);
            TopLevel(env, acc, [line] + more) == if r.Ok? then TopLevel(env, r.value, more) else Err(r.error))
  {
    var line := Spelled(name, gap, value, tail);
    SpelledChecks(env, name, gap, value, tail);
    NameIsLowercase(env, name);
    hide IsName, IsValue, Spelled, SimpleStep, TopKeyOf, GetDirective, HasUpper;
    assert ([line] + more)[1..] == more && ([line] + more)[0] == line;
  }

  predicate Simple(key: TopKey) {
    key.Listen? || key.Logfile? || key.InterceptErrors? || key.Workers?
  }

  /** The port and the number of workers: in range, and once each. */
  lemma TopNumberLines(env: Env, acc: TopAcc, n: nat, gap: string, tail: string, more: seq<string>)
    requires Spacing(gap, tail)
    ensures var r := TopLevel(env, acc, [Spelled("listen", gap, Print(n), tail)] + more);
      if acc.listen.Some? then r == Err(TooManyListenDirectives)
      else if n <= 65_535 then r == TopLevel(env, acc.(listen := Some(n)), more)
      else r == Err(InvalidPort(Print(n)))
    ensures var r := TopLevel(env, acc, [Spelled("workers", gap, Print(n), tail)] + more);
      if acc.workers.Some? then r == Err(TooManyWorkersDirectives)
      else if 1 <= n <= USIZE_MAX then r == TopLevel(env, acc.(workers := Some(n)), more)
      else r == Err(InvalidWorkersValue(Print(n)))
  {
    hide TopLevel, IsName, IsValue, Print, ParseUint, Spelled, TopKeyOf, SingleValue, TrailingGarbage, EndsInSemicolon;
    TopNames();
    PrintedIsValue(n);
    NumberIff(n, U16_MAX);
    NumberIff(n, USIZE_MAX);
    SpelledChecks(env, "listen", gap, Print(n), tail);
    SpelledChecks(env, "workers", gap, Print(n), tail);
    TopLine(env, acc, "listen", gap, Print(n), tail, more);
    TopLine(env, acc, "workers", gap, Print(n), tail, more);
  }

  /** The log file and error interception, once each. */
  lemma TopTextLines(env: Env, acc: TopAcc, value: string, gap: string, tail: string, more: seq<string>)
    requires Spacing(gap, tail) && IsValue(value)
    ensures var r := TopLevel(env, acc, [Spelled("logfile", gap, value, tail)] + more);
      if acc.logfile.Some? then r == Err(TooManyLogfileDirectives)
      else r == TopLevel(env, acc.(logfile := Some(value)), more)
    ensures var r := TopLevel(env, acc, [Spelled("intercept_errors", gap, value, tail)] + more);
      if acc.intercept.Some? then r == Err(TooManySecurityDirectives)
      else if IsOn(value) || IsOff(value) then r == TopLevel(env, acc.(intercept := Some(IsOn(value))), more)
      else r.Err?
  {
    hide TopLevel, IsName, IsValue, ParseFlag, IsOn, IsOff, Spelled, TopKeyOf, SingleValue, TrailingGarbage,
      EndsInSemicolon;
    TopNames();
    FlagWords(value);
    SpelledChecks(env, "logfile", gap, value, tail);
    SpelledChecks(env, "intercept_errors", gap, value, tail);
    TopLine(env, acc, "logfile", gap, value, tail, more);
    TopLine(env, acc, "intercept_errors", gap, value, tail, more);
  }

  lemma TopUnknownLine(env: Env, acc: TopAcc, name: string, value: string, gap: string, tail: string, more: seq<string>)
    requires Spacing(gap, tail) && IsName(name) && IsValue(value)
    requires name !in {"listen", "route", "workers", "logfile", "security", "cache", "intercept_errors"}
    ensures TopLevel(env, acc, [Spelled(name, gap, value, tail)] + more) == Err(UnknownDirective(name))
  {
    TopLine(env, acc, name, gap, value, tail, more);
    hide TopLevel, IsValue, IsName;
  }

  // ---- headers of blocks ----

  /** The directive of a line that opens a block. */
  lemma HeaderChecks(env: Env, name: string, gap: string, rest: string)
    requires IsName(name) && White(gap) && gap != "" && rest != "" && rest[|rest| - 1] == '{' && TopKeyOf(name).Some?
    ensures var line := name + gap + rest;
      && OpensBlock(line) && Tokens(line) == [name] + Tokens(rest)
      && TopDirective(env, line) == Ok(TopKeyOf(name).value)
  {
    var line := name + gap + rest;
    hide Tokens, HasUpper, IsName, Word, TopKeyOf, White;
    NameIsWord(name);
    NameIsLowercase(env, name);
    FirstToken(name, gap, rest);
    assert line[|line| - 1] == '{';
    assert GetDirective(line) == Ok(name);
    assert !IsTerminator(line) by {
      assert "}"[|"}"| - 1] == '}' && "};"[|"};"| - 1] == ';';
    }
  }

  /** A security block may stand at the top level once; its lines make the settings. */
  lemma SecurityHeader(env: Env, acc: TopAcc, gap: string, more: seq<string>)
    requires White(gap) && gap != ""
    ensures var r := SecurityBlock(env, more, map[]);
      TopLevel(env, acc, ["security" + gap + "{"] + more) ==
        if acc.security.Some? then Err(TooManySecurityDirectives)
        else if r.Err? then Err(r.error)
        else TopLevel(env, acc.(security := Some(r.value.0)), r.value.1)
  {
    var line := "security" + gap + "{";
    TopNames();
    HeaderChecks(env, "security", gap, "{");
    hide TopDirective, OpensBlock, SecurityBlock, TopKeyOf, IsName;
    assert ([line] + more)[0] == line && ([line] + more)[1..] == more;
  }

  /** So may a cache block; its lines change the defaults. */
  lemma CacheHeader(env: Env, acc: TopAcc, gap: string, more: seq<string>)
    requires White(gap) && gap != ""
    ensures var r := CacheBlock(env, more, CacheConfig(true, 67_108_864, 2_097_152, 300));
      TopLevel(env, acc, ["cache" + gap + "{"] + more) ==
        if acc.cache.Some? then Err(TooManySecurityDirectives)
        else if r.Err? then Err(r.error)
        else TopLevel(env, acc.(cache := Some(r.value.0)), r.value.1)
  {
    hide *;
    var line := "cache" + gap + "{";
    assert IsName("cache") && TopKeyOf("cache") == Some(CacheBlockKey) by {
      TopNames();
    }
    HeaderChecks(env, "cache", gap, "{");
    CacheOpens(env, acc, line, more);
  }

  lemma CacheOpens(env: Env, acc: TopAcc, line: string, more: seq<string>)
    requires TopDirective(env, line) == Ok(CacheBlockKey) && OpensBlock(line)
    ensures var r := CacheBlock(env, more, CacheConfig(true, 67_108_864, 2_097_152, 300));
      TopLevel(env, acc, [line] + more) ==
        if acc.cache.Some? then Err(TooManySecurityDirectives)
        else if r.Err? then Err(r.error)
        else TopLevel(env, acc.(cache := Some(r.value.0)), r.value.1)
  {
    hide TopDirective, OpensBlock, CacheBlock, SecurityBlock, RouteBlock, SimpleStep, NewEndpoint;
    assert DEFAULT_CACHE == CacheConfig(true, 67_108_864, 2_097_152, 300);
    assert ([line] + more)[0] == line && ([line] + more)[1..] == more;
  }

  /** A route block has an endpoint in its header that begins with a slash or has a colon and is new; its lines make the
      next route. */
  lemma RouteHeaderLine(env: Env, acc: TopAcc, endpoint: string, gap: string, tail: string, more: seq<string>)
    requires White(gap) && White(tail) && gap != "" && tail != "" && Word(endpoint)
    ensures var r := RouteBlock(env, more, endpoint, NO_ROUTE);
      var known := exists i :: 0 <= i < |acc.routes| && acc.routes[i].requestEndpoint == endpoint;
      TopLevel(env, acc, ["route" + gap + (endpoint + tail + "{")] + more) ==
        if endpoint[0] != '/' && ':' !in endpoint then Err(InvalidUrlFormat(endpoint))
        else if known then Err(DuplicateRequestEndpoint(endpoint))
        else if r.Err? then Err(r.error)
        else TopLevel(env, acc.(routes := acc.routes + [r.value.0]), r.value.1)
  {
    var line := "route" + gap + (endpoint + tail + "{");
    TopNames();
    RouteHeaderTokens(env, endpoint, gap, tail);
    hide TopDirective, OpensBlock, RouteBlock, TopKeyOf, IsName, Tokens, Word;
    assert ([line] + more)[0] == line && ([line] + more)[1..] == more;
  }

  lemma RouteHeaderTokens(env: Env, endpoint: string, gap: string, tail: string)
    requires White(gap) && White(tail) && gap != "" && tail != "" && Word(endpoint)
    ensures var line := "route" + gap + (endpoint + tail + "{");
      TopDirective(env, line) == Ok(RouteBlockKey) && OpensBlock(line) && Tokens(line) == ["route", endpoint, "{"]
  {
    var rest := endpoint + tail + "{";
    assert rest[|rest| - 1] == '{';
    TopNames();
    FirstToken(endpoint, tail, "{");
    TokensOne("{");
    HeaderChecks(env, "route", gap, rest);
    hide TopDirective, OpensBlock, TopKeyOf, IsName, Tokens, Word;
  }

  /** A route header with more than the endpoint between its name and its brace is refused. */
  lemma RouteHeaderExtra(env: Env, acc: TopAcc, endpoint: string, extra: string, gap: string, tail: string,
                         more: seq<string>)
    requires White(gap) && White(tail) && gap != "" && tail != "" && Word(endpoint) && Word(extra)
    ensures var line := "route" + gap + (endpoint + tail + (extra + tail + "{"));
      TopLevel(env, acc, [line] + more) == Err(InvalidRouteDirective(line))
  {
    var line, rest := "route" + gap + (endpoint + tail + (extra + tail + "{")), endpoint + tail + (extra + tail + "{");
    assert rest[|rest| - 1] == '{';
    TopNames();
    FirstToken(extra, tail, "{");
    FirstToken(endpoint, tail, extra + tail + "{");
    TokensOne("{");
    HeaderChecks(env, "route", gap, rest);
    hide TopDirective, OpensBlock, TopKeyOf, IsName, Tokens, Word;
    assert ([line] + more)[0] == line;
  }

  /** A directive with a second value is refused, at the top level and in every block. */
  lemma ExtraWordLine(env: Env, name: string, value: string, extra: string, gap: string, tail: string,
                      more: seq<string>, route: RouteAcc, settings: Settings, cache: CacheConfig, endpoint: string,
                      acc: TopAcc)
    requires IsName(name) && Word(value) && IsValue(extra) && Spacing(gap, tail)
    ensures var line := Spelled(name, gap, value + gap + extra, tail);
      && RouteBlock(env, [line] + more, endpoint, route).Err?
      && SecurityBlock(env, [line] + more, settings).Err?
      && CacheBlock(env, [line] + more, cache).Err?
      && TopLevel(env, acc, [line] + more).Err?
  {
    var line := Spelled(name, gap, value + gap + extra, tail);
    ExtraWordChecks(env, name, value, extra, gap, tail);
    assert line[|line| - 1] == ';';
    ExtraWordTop(env, line, more, acc);
    hide Spelled, BlockDirective, SingleValue, IsName, Word, OpensBlock, TopLevel;
  }

  lemma ExtraWordTop(env: Env, line: string, more: seq<string>, acc: TopAcc)
    requires !OpensBlock(line) && SingleValue(line) == None
    ensures TopLevel(env, acc, [line] + more).Err?
  {
    hide TopDirective, OpensBlock, SingleValue, CacheBlock, SecurityBlock, RouteBlock, RouteHeader;
    assert ([line] + more)[0] == line;
  }

  lemma ExtraWordChecks(env: Env, name: string, value: string, extra: string, gap: string, tail: string)
    requires IsName(name) && Word(value) && IsValue(extra) && Spacing(gap, tail)
    ensures var line := Spelled(name, gap, value + gap + extra, tail);
      !IsTerminator(line) && BlockDirective(env, line) == Ok(name) && SingleValue(line) == None
  {
    var values := value + gap + extra;
    var line, bare := Spelled(name, gap, values, tail), name + gap + values;
    NameIsWord(name);
    NameIsLowercase(env, name);
    hide Tokens, TrimSemicolons, TrimStart, TrimEnd, TrailingGarbage, HasUpper, IsName;
    assert line[|line| - 1] == ';' && line[0] == name[0] && !IsSpace(';') && |line| >= 4;
    TrimmedAlready(line);
    assert line == name + gap + (values + tail + ";") && line == bare + tail + ";";
    FirstToken(name, gap, values + tail + ";");
    FirstToken(name, gap, values);
    FirstToken(value, gap, extra);
    TokensOne(extra);
    assert bare[|bare| - 1] == extra[|extra| - 1] && bare[0] == name[0];
    NoTrailingGarbage(line);
    BareLine(bare, tail);
  }

  /** What the top-level directives set becomes the configuration's fields of the same names. Without `workers`, the
      number of CPUs counts. */
  lemma ConfigFields(env: Env, acc: TopAcc)
    ensures acc.listen.None? ==> Finish(env, acc) == Err(NoListenDirective)
    ensures acc.listen.Some? && acc.routes == [] ==> Finish(env, acc) == Err(NoRouteDirective)
    ensures var auth := exists i :: 0 <= i < |acc.routes| && acc.routes[i].authRequired;
      acc.listen.Some? && acc.routes != [] ==>
        if auth && (acc.security.None? || acc.security.value.forwardAuth.None?) then
          Finish(env, acc) == Err(MissingSecurityDirective("forward_auth"))
        else
          && Finish(env, acc).Ok?
          && var c := Finish(env, acc).value;
          && c.listenPort == acc.listen.value && c.routes == acc.routes && c.logfile == acc.logfile
          && c.workers == (if acc.workers.Some? then acc.workers.value else env.parallelism)
          && c.security == acc.security && c.cache == acc.cache && c.interceptErrors == acc.intercept
  {
  }

  /** A route block that only names its upstream: no authentication, no files, and the flags left open. */
  lemma RouteDefaults(env: Env, endpoint: string, value: string, gap: string, tail: string, more: seq<string>)
    requires Spacing(gap, tail) && IsValue(value) && ':' in value && !(HTTPS <= endpoint)
    ensures RouteBlock(env, [Spelled("upstream", gap, value, tail)] + (["}"] + more), endpoint, NO_ROUTE) ==
      Ok((Route(endpoint, value, false, None, None, None, None), more))
  {
    hide IsValue, Spelled;
    RouteUpstreamLines(env, endpoint, NO_ROUTE, value, gap, tail, ["}"] + more);
    assert (["}"] + more)[1..] == more;
  }

  // ---- what every block refuses ----

  /** A line without a semicolon at its end. */
  lemma LineWithoutSemicolon(env: Env, line: string, more: seq<string>, route: RouteAcc, settings: Settings,
                             cache: CacheConfig, endpoint: string)
    requires line != "" && Trim(line) == line && line[|line| - 1] !in {';', '{', '}'}
    ensures RouteBlock(env, [line] + more, endpoint, route) == Err(MissingSemicolon(line))
    ensures SecurityBlock(env, [line] + more, settings) == Err(MissingSemicolon(line))
    ensures CacheBlock(env, [line] + more, cache) == Err(MissingSemicolon(line))
  {
    assert line != "}" && line != "};";
    hide Trim;
  }

  /** A directive with a capital letter. */
  lemma CapitalDirective(env: Env, name: string, gap: string, value: string, tail: string, more: seq<string>,
                         route: RouteAcc, settings: Settings, cache: CacheConfig, endpoint: string)
    requires Word(name) && IsAscii(name) && (exists i :: 0 <= i < |name| && 'A' <= name[i] <= 'Z')
    requires IsValue(value) && Spacing(gap, tail)
    ensures var line := Spelled(name, gap, value, tail);
      && RouteBlock(env, [line] + more, endpoint, route) == Err(InvalidDirectiveCase(name))
      && SecurityBlock(env, [line] + more, settings) == Err(InvalidDirectiveCase(name))
      && CacheBlock(env, [line] + more, cache) == Err(InvalidDirectiveCase(name))
  {
    SpelledTokens(name, gap, value, tail);
    hide Tokens, Trim, SingleValue, Word, Spelled, TrailingGarbage, IsAscii;
  }

  /** A block that is never closed, and a closing brace outside a block. */
  lemma UnbalancedBraces(env: Env, route: RouteAcc, settings: Settings, cache: CacheConfig, endpoint: string,
                         acc: TopAcc, more: seq<string>)
    ensures RouteBlock(env, [], endpoint, route) == Err(InvalidRouteDirective(endpoint))
    ensures SecurityBlock(env, [], settings) == Err(UnterminatedSecurityBlock)
    ensures CacheBlock(env, [], cache) == Err(UnterminatedSecurityBlock)
    ensures TopLevel(env, acc, ["}"] + more) == TopLevel(env, acc, ["};"] + more) == Err(UnexpectedBlockTerminator)
  {
  }

  /** Nothing but `}` and `};` closes a block. */
  lemma OnlyBracesClose(env: Env, line: string, route: RouteAcc, settings: Settings, cache: CacheConfig,
                        endpoint: string)
    requires line !in {"}", "};"}
    ensures RouteBlock(env, [line], endpoint, route).Err?
    ensures SecurityBlock(env, [line], settings).Err? && CacheBlock(env, [line], cache).Err?
  {
    hide RouteStep, SecurityStep, CacheStep;
    assert [line][1..] == [];
  }

  // ---- lines of a text ----

  /** A line of a text is trimmed; blank lines and lines that begin with a number sign are skipped. */
  lemma LineOfText(line: string, rest: string)
    requires '\n' !in line
    ensures LinesOf(line + "\n" + rest) ==
      (if Trim(line) == "" || Trim(line)[0] == '#' then [] else [Trim(line)]) + LinesOf(rest)
    ensures LinesOf(line) == if Trim(line) == "" || Trim(line)[0] == '#' then [] else [Trim(line)]
  {
    hide Trim;
    SplitCons(line, '\n', rest);
    SplitLast(line, '\n');
    assert "\n" == ['\n'];
    assert line + "\n" + rest == line + ['\n'] + rest;
    var s := Split(line + ['\n'] + rest, '\n');
    assert s[0] == line && s[1..] == Split(rest, '\n');
    assert KeptLines([line][1..]) == [];
  }

  /** Blanks, tabs and carriage returns around a line do not count. */
  lemma {:induction false} TrimIgnoresWhite(lead: string, s: string, trail: string)
    requires forall i :: 0 <= i < |lead| ==> lead[i] in {' ', '\t', '\r'}
    requires forall i :: 0 <= i < |trail| ==> trail[i] in {' ', '\t', '\r'}
    requires s != "" && s[0] !in {' ', '\t', '\r'} && !IsSpace(s[0]) && !IsSpace(s[|s| - 1])
    ensures Trim(lead + s + trail) == s
  {
    TrimStartWhite(lead, s + trail);
    assert lead + s + trail == lead + (s + trail);
    assert TrimStart(s + trail) == s + trail by {
      assert (s + trail)[0] == s[0];
    }
    hide TrimStart;
    TrimEndReturns(s, trail);
  }

  lemma {:induction false} TrimStartWhite(lead: string, s: string)
    requires forall i :: 0 <= i < |lead| ==> lead[i] in {' ', '\t', '\r'}
    ensures TrimStart(lead + s) == TrimStart(s)
  {
    if lead == "" {
      assert lead + s == s;
    } else {
      TrimStartWhite(lead[1..], s);
      assert (lead + s)[1..] == lead[1..] + s && (lead + s)[0] == lead[0];
    }
  }

  lemma {:induction false} TrimEndReturns(s: string, trail: string)
    requires forall i :: 0 <= i < |trail| ==> trail[i] in {' ', '\t', '\r'}
    requires s != "" && !IsSpace(s[|s| - 1])
    ensures TrimEnd(s + trail) == s
  {
    if trail == "" {
      assert s + trail == s;
    } else {
      var last := |trail| - 1;
      TrimEndReturns(s, trail[..last]);
      assert (s + trail)[..|s| + last] == s + trail[..last] && (s + trail)[|s| + last] == trail[last];
    }
  }
}
