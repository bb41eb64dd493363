/** The parser on whole texts: what it can be made to return, and a text that makes it return it. */
module ParserText {
  import opened Basics
  import opened Text
  import opened Words
  import opened Comments
  import opened Router
  import opened Config
  import opened Parser
  import opened ParserImage

  /** A line that survives comment stripping, trimming and filtering as it is. */
  predicate CleanLine(line: string) {
    Trim(line) == line && IsKept(line) && '\n' !in line && CommentFree(line)
  }

  predicate AllClean(lines: seq<string>) {
    forall i :: 0 <= i < |lines| ==> CleanLine(lines[i])
  }

  function Render(lines: seq<string>): string {
    if lines == [] then "" else lines[0] + ['\n'] + Render(lines[1..])
  }

  lemma CommentFreeLines(a: string, b: string)
    requires CommentFree(a) && CommentFree(b)
    ensures CommentFree(a + ['\n'] + b)
  {
    var t := a + ['\n'] + b;
    forall i | 0 <= i < |t| ensures !Opens(t, i) {
      if i < |a| {
        assert !Opens(a, i);
      } else if i > |a| {
        assert !Opens(b, i - |a| - 1);
        assert i + 1 < |t| ==> t[i] == b[i - |a| - 1] && t[i + 1] == b[i - |a|];
      }
    }
  }

  lemma {:induction false} RenderedLines(lines: seq<string>)
    requires AllClean(lines)
    ensures CommentFree(Render(lines)) && LinesOf(Render(lines)) == lines
  {
    hide Opens, Trim, CommentFree;
    if lines == [] {
      assert CommentFree("") by {
        EmptyIsCommentFree();
      }
      assert Split("", '\n') == [""];
      assert Trim("") == "" by {
        EmptyIsCommentFree();
      }
    } else {
      RenderedLines(lines[1..]);
      CommentFreeLines(lines[0], Render(lines[1..]));
      SplitCons(lines[0], '\n', Render(lines[1..]));
      var parts := Split(Render(lines[1..]), '\n');
      assert ([lines[0]] + parts)[1..] == parts;
    }
  }

  lemma EmptyIsCommentFree()
    ensures CommentFree("") && Trim("") == ""
  {
  }

  /** A line of two words, the second free of broken comments, opens no comment. */
  lemma TwoWordsCommentFree(a: string, b: string, end: string)
    requires IsName(a) && Plain(b) && (end == " ;" || end == " {")
    ensures CommentFree(a + [GAP] + b + end)
  {
    var t := a + [GAP] + b + end;
    assert forall k :: 0 <= k < |a| ==> t[k] == a[k] != '/';
    forall i | 0 <= i < |t| - 1 && t[i] == '/' && (t[i + 1] == '/' || t[i + 1] == '*')
      ensures i > 0 && !IsBoundaryChar(t[i - 1])
    {
      var j := i - |a| - 1;
      assert 0 <= j < |b|;
      assert t[i] == b[j] && (j > 0 ==> t[i - 1] == b[j - 1]);
      assert j == 0 ==> t[i - 1] == GAP;
      assert j + 1 < |b| ==> t[i + 1] == b[j + 1];
      assert j > 0 ==> !IsSpace(b[j - 1]);
    }
  }

  lemma NoNewline(a: string, b: string, end: string)
    requires IsName(a) && Plain(b) && (end == " ;" || end == " {")
    ensures '\n' !in a + [GAP] + b + end
  {
    assert IsSpace('\n');
  }

  lemma DirectiveLineClean(name: string, value: string)
    requires IsName(name) && Plain(value)
    ensures CleanLine(DirectiveLine(name, value))
  {
    hide Trim, CommentFree;
    NameIsWord(name);
    DirectiveLineParts(name, value);
    TwoWordsCommentFree(name, value, " ;");
    NoNewline(name, value, " ;");
    assert IsKept(DirectiveLine(name, value)) by {
      assert name[0] != '#';
    }
  }

  lemma OptLineClean(name: string, value: Option<string>, more: seq<string>)
    requires IsName(name) && (value.Some? ==> Plain(value.value)) && AllClean(more)
    ensures AllClean(OptLine(name, value, more))
  {
    hide CleanLine, Plain, IsName, DirectiveLine;
    if value.Some? {
      DirectiveLineClean(name, value.value);
    }
  }

  lemma TextLinesUnbroken(text: string)
    requires Unbroken(text)
    ensures AllUnbroken(LinesOf(text))
  {
    SplitUnbroken(text, '\n');
    KeptUnbroken(Split(text, '\n'));
  }

  lemma {:induction false} KeptUnbroken(lines: seq<string>)
    requires AllUnbroken(lines)
    ensures AllUnbroken(KeptLines(lines))
  {
    hide Unbroken, Trim;
    if lines != [] {
      TrimUnbroken(lines[0]);
      KeptUnbroken(lines[1..]);
    }
  }

  lemma EndClean(more: seq<string>)
    requires AllClean(more)
    ensures AllClean(["}"] + more)
  {
    assert CleanLine("}") by {
      TrimmedAlready("}");
    }
  }

  lemma ConsClean(line: string, more: seq<string>)
    requires CleanLine(line) && AllClean(more)
    ensures AllClean([line] + more)
  {
    hide CleanLine;
  }

  lemma BlockHeaderClean(name: string)
    requires IsName(name)
    ensures CleanLine(name + " {")
  {
    var t := name + " {";
    NameIsWord(name);
    assert t[0] == name[0] && t[|t| - 1] == '{' && !IsSpace('{');
    TrimmedAlready(t);
    hide Trim;
    assert forall k :: 0 <= k < |name| ==> t[k] == name[k] != '/';
    assert CommentFree(t);
  }

  lemma HeaderLineClean(name: string, value: string)
    requires IsName(name) && Plain(value)
    ensures CleanLine(HeaderLine(name, value))
  {
    hide Trim, CommentFree;
    NameIsWord(name);
    HeaderLineParts(name, value);
    TwoWordsCommentFree(name, value, " {");
    NoNewline(name, value, " {");
    assert IsKept(HeaderLine(name, value)) by {
      assert name[0] != '#';
    }
  }

  lemma PrintIsPlain(n: nat)
    ensures Plain(Print(n))
  {
    DigitsAreWord(Print(n));
  }

  lemma FlagIsPlain(b: bool)
    ensures Plain(FlagText(b))
  {
  }

  lemma {:induction false} RouteLinesClean(r: Route, more: seq<string>)
    requires RouteOk(r) && AllClean(more)
    ensures AllClean(RouteLines(r, more))
  {
    hide AllClean, OptLine, IsName, Plain, IsValidUrl, RouteKeyOf, FlagText, HeaderLine, CleanLine;
    RouteNames();
    TopNames();
    FlagIsPlain(true);
    FlagIsPlain(false);
    var l6 := OptLine("intercept_errors", OptFlag(r.interceptErrors), ["}"] + more);
    var l5 := OptLine("cache", OptFlag(r.cache), l6);
    var l4 := OptLine("key", r.keyPath, l5);
    var l3 := OptLine("cert", r.certPath, l4);
    var l2 := OptLine("auth", Some(FlagText(r.authRequired)), l3);
    EndClean(more);
    OptLineClean("intercept_errors", OptFlag(r.interceptErrors), ["}"] + more);
    OptLineClean("cache", OptFlag(r.cache), l6);
    OptLineClean("key", r.keyPath, l5);
    OptLineClean("cert", r.certPath, l4);
    OptLineClean("auth", Some(FlagText(r.authRequired)), l3);
    OptLineClean("upstream", Some(r.forwardEndpoint), l2);
    HeaderLineClean("route", r.requestEndpoint);
    ConsClean(HeaderLine("route", r.requestEndpoint), OptLine("upstream", Some(r.forwardEndpoint), l2));
  }

  lemma {:induction false} RoutesLinesClean(routes: seq<Route>)
    requires RoutesOk(routes)
    ensures AllClean(RoutesLines(routes))
  {
    hide AllClean, RouteOk, RouteLines;
    if routes == [] {
      EmptyClean();
    } else {
      RoutesLinesClean(routes[1..]);
      RouteLinesClean(routes[0], RoutesLines(routes[1..]));
    }
  }

  lemma EmptyClean()
    ensures AllClean([])
  {
  }

  lemma {:induction false} SecurityLinesClean(env: Env, s: SecurityConfig, upstream: string, more: seq<string>)
    requires SecurityOk(env, s) && Spells(env, upstream, s.trustedUpstream) && AllClean(more)
    ensures AllClean(SecurityLines(s, upstream, more))
  {
    hide AllClean, OptLine, IsName, Plain, Print, SecurityKeyOf, FlagText, CleanLine, ParseIpAddr, TopKeyOf;
    SecurityNames();
    TopNames();
    FlagIsPlain(s.proxyProtocol);
    PrintIsPlain(s.timeoutMs);
    PrintIsPlain(s.maxTlsFailures);
    PrintIsPlain(s.banDurationSec);
    PrintIsPlain(s.rateLimitRpm);
    PrintIsPlain(s.maxBodySize);
    PrintIsPlain(s.maxHeaderSize);
    var l8 := OptLine("max_header_size", Some(Print(s.maxHeaderSize)), ["}"] + more);
    var l7 := OptLine("max_body_size", Some(Print(s.maxBodySize)), l8);
    var l6 := OptLine("forward_auth", s.forwardAuth, l7);
    var l5 := OptLine("rate_limit_rpm", Some(Print(s.rateLimitRpm)), l6);
    var l4 := OptLine("ban_duration", Some(Print(s.banDurationSec)), l5);
    var l3 := OptLine("max_tls_failures", Some(Print(s.maxTlsFailures)), l4);
    var l2 := OptLine("timeout", Some(Print(s.timeoutMs)), l3);
    var l1 := OptLine("trusted_upstream", Some(upstream), l2);
    EndClean(more);
    OptLineClean("max_header_size", Some(Print(s.maxHeaderSize)), ["}"] + more);
    OptLineClean("max_body_size", Some(Print(s.maxBodySize)), l8);
    OptLineClean("forward_auth", s.forwardAuth, l7);
    OptLineClean("rate_limit_rpm", Some(Print(s.rateLimitRpm)), l6);
    OptLineClean("ban_duration", Some(Print(s.banDurationSec)), l5);
    OptLineClean("max_tls_failures", Some(Print(s.maxTlsFailures)), l4);
    OptLineClean("timeout", Some(Print(s.timeoutMs)), l3);
    OptLineClean("trusted_upstream", Some(upstream), l2);
    OptLineClean("proxy_protocol", Some(FlagText(s.proxyProtocol)), l1);
    BlockHeaderClean("security");
    assert "security" + " {" == "security {";
    ConsClean("security {", OptLine("proxy_protocol", Some(FlagText(s.proxyProtocol)), l1));
  }

  lemma {:induction false} CacheLinesClean(c: CacheConfig, more: seq<string>)
    requires AllClean(more)
    ensures AllClean(CacheLines(c, more))
  {
    hide AllClean, OptLine, IsName, Plain, Print, CacheKeyOf, FlagText, CleanLine, TopKeyOf;
    CacheNames();
    TopNames();
    FlagIsPlain(c.enabled);
    PrintIsPlain(c.maxCapacityBytes);
    PrintIsPlain(c.maxFileSizeBytes);
    PrintIsPlain(c.defaultTtlSec);
    var l3 := OptLine("default_ttl", Some(Print(c.defaultTtlSec)), ["}"] + more);
    var l2 := OptLine("max_file_size", Some(Print(c.maxFileSizeBytes)), l3);
    var l1 := OptLine("max_capacity", Some(Print(c.maxCapacityBytes)), l2);
    EndClean(more);
    OptLineClean("default_ttl", Some(Print(c.defaultTtlSec)), ["}"] + more);
    OptLineClean("max_file_size", Some(Print(c.maxFileSizeBytes)), l3);
    OptLineClean("max_capacity", Some(Print(c.maxCapacityBytes)), l2);
    OptLineClean("enabled", Some(FlagText(c.enabled)), l1);
    BlockHeaderClean("cache");
    assert "cache" + " {" == "cache {";
    ConsClean("cache {", OptLine("enabled", Some(FlagText(c.enabled)), l1));
  }

  lemma {:induction false} ConfigLinesClean(env: Env, c: ProxyConfig, upstream: string)
    requires WellFormed(env, c) && (c.security.Some? ==> Spells(env, upstream, c.security.value.trustedUpstream))
    ensures AllClean(ConfigLines(c, upstream))
  {
    hide AllClean, OptLine, IsName, Plain, Print, TopKeyOf, FlagText, SecurityOk, RoutesOk, CacheOk, Spells,
      RoutesLines, CacheLines, SecurityLines;
    TopNames();
    FlagIsPlain(true);
    FlagIsPlain(false);
    PrintIsPlain(c.listenPort);
    PrintIsPlain(c.workers);
    RoutesLinesClean(c.routes);
    var cache := if c.cache.Some? then CacheLines(c.cache.value, RoutesLines(c.routes)) else RoutesLines(c.routes);
    if c.cache.Some? {
      CacheLinesClean(c.cache.value, RoutesLines(c.routes));
    }
    if c.security.Some? {
      SecurityLinesClean(env, c.security.value, upstream, cache);
    }
    var l4 := BlockLines(c, upstream);
    var l3 := OptLine("intercept_errors", OptFlag(c.interceptErrors), l4);
    var l2 := OptLine("logfile", c.logfile, l3);
    OptLineClean("intercept_errors", OptFlag(c.interceptErrors), l4);
    OptLineClean("logfile", c.logfile, l3);
    OptLineClean("workers", Some(Print(c.workers)), l2);
    OptLineClean("listen", Some(Print(c.listenPort)), OptLine("workers", Some(Print(c.workers)), l2));
  }

  /** The text of a well-formed configuration parses back to it. */
  lemma {:induction false} TextRoundTrip(env: Env, c: ProxyConfig, upstream: string)
    requires WellFormed(env, c) && (c.security.Some? ==> Spells(env, upstream, c.security.value.trustedUpstream))
    ensures ParseConfig(env, Render(ConfigLines(c, upstream))) == Ok(c)
  {
    hide ParseLines, ConfigLines, AllClean, Strip, LinesOf, CommentFree, WellFormed, Spells;
    var lines := ConfigLines(c, upstream);
    ConfigLinesClean(env, c, upstream);
    RenderedLines(lines);
    StripFixedIff(Render(lines));
    CanonicalParses(env, c, upstream);
  }

  /** Over all input texts, the parser's image is exactly the well-formed configurations. */
  lemma ImageIsWellFormed(env: Env, c: ProxyConfig)
    ensures (exists input :: ParseConfig(env, input) == Ok(c)) <==> WellFormed(env, c)
  {
    hide ParseConfig, WellFormed;
    if input :| ParseConfig(env, input) == Ok(c) {
      AcceptedTextIsWellFormed(env, input);
    }
    if WellFormed(env, c) {
      SomeTextParses(env, c);
    }
  }

  lemma AcceptedTextIsWellFormed(env: Env, input: string)
    requires ParseConfig(env, input).Ok?
    ensures WellFormed(env, ParseConfig(env, input).value)
  {
    hide ParseLines, Strip, LinesOf, WellFormed;
    StripUnbroken(input);
    TextLinesUnbroken(Strip(input));
    AcceptedIsWellFormed(env, LinesOf(Strip(input)));
  }

  lemma SomeTextParses(env: Env, c: ProxyConfig)
    requires WellFormed(env, c)
    ensures exists input :: ParseConfig(env, input) == Ok(c)
  {
    hide ParseConfig, ConfigLines, Spells;
    if c.security.Some? {
      var upstream :| Spells(env, upstream, c.security.value.trustedUpstream);
      TextRoundTrip(env, c, upstream);
    } else {
      TextRoundTrip(env, c, "");
    }
  }
}
