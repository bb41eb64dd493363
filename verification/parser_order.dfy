/** The security block: the order of its lines does not matter, and what the settings mean. */
module ParserOrder {
  import opened Basics
  import opened Net
  import opened Text
  import opened Words
  import opened Config
  import opened Parser

  /** The settings after all lines of a block body. */
  function Fold(env: Env, body: seq<string>, acc: Settings): Result<Settings, ParseError> {
    if body == [] then Ok(acc)
    else
      match SecurityStep(env, acc, body[0])
      case Err(e) => Err(e)
      case Ok(acc') => Fold(env, body[1..], acc')
  }

  /** The result of a block with the lines behind it. */
  function Closed(r: Result<SecurityConfig, ParseError>, more: seq<string>):
    Result<(SecurityConfig, seq<string>), ParseError>
  {
    match r
    case Err(e) => Err(e)
    case Ok(sec) => Ok((sec, more))
  }

  predicate NoEnd(body: seq<string>) {
    forall i :: 0 <= i < |body| ==> !IsTerminator(body[i])
  }

  lemma {:induction false} BlockIsFold(env: Env, body: seq<string>, end: string, more: seq<string>, acc: Settings)
    requires NoEnd(body) && IsTerminator(end)
    ensures SecurityBlock(env, body + [end] + more, acc) ==
      if Fold(env, body, acc).Ok? then Closed(FinishSecurity(Fold(env, body, acc).value), more)
      else Err(Fold(env, body, acc).error)
    decreases |body|
  {
    hide SecurityStep, FinishSecurity;
    var lines := body + [end] + more;
    if body == [] {
      assert lines[0] == end && lines[1..] == more;
    } else {
      assert lines[0] == body[0] && lines[1..] == body[1..] + [end] + more;
      if SecurityStep(env, acc, body[0]).Ok? {
        BlockIsFold(env, body[1..], end, more, SecurityStep(env, acc, body[0]).value);
      }
    }
  }

  /** The one setting a line gives, whatever was given before. */
  function Given(env: Env, line: string): Option<(SecurityKey, Setting)> {
    match SecurityStep(env, map[], line)
    case Err(_) => None
    case Ok(acc) =>
      var key := SecurityKeyOf(BlockDirective(env, line).value).value;
      Some((key, acc[key]))
  }

  lemma StepGives(env: Env, acc: Settings, line: string)
    ensures SecurityStep(env, acc, line).Ok? <==> Given(env, line).Some? && Given(env, line).value.0 !in acc
    ensures SecurityStep(env, acc, line).Ok? ==>
      SecurityStep(env, acc, line).value == acc[Given(env, line).value.0 := Given(env, line).value.1]
  {
    hide OpensBlock, BlockDirective, SecurityKeyOf, SingleValue, ParseSetting;
  }

  lemma {:induction false} SwapLines(env: Env, a: string, b: string, rest: seq<string>, acc: Settings)
    requires Fold(env, [a, b] + rest, acc).Ok?
    ensures Fold(env, [b, a] + rest, acc) == Fold(env, [a, b] + rest, acc)
  {
    hide SecurityStep, Given;
    FoldCons(env, a, [b] + rest, acc);
    FoldCons(env, b, [a] + rest, acc);
    assert [a, b] + rest == [a] + ([b] + rest) && [b, a] + rest == [b] + ([a] + rest);
    var acc1 := SecurityStep(env, acc, a).value;
    FoldCons(env, b, rest, acc1);
    StepGives(env, acc, a);
    StepGives(env, acc1, b);
    StepGives(env, acc, b);
    var acc2 := SecurityStep(env, acc, b).value;
    FoldCons(env, a, rest, acc2);
    StepGives(env, acc2, a);
    assert SecurityStep(env, acc1, b).value == SecurityStep(env, acc2, a).value;
  }

  lemma FoldCons(env: Env, line: string, rest: seq<string>, acc: Settings)
    ensures Fold(env, [line] + rest, acc) ==
      if SecurityStep(env, acc, line).Ok? then Fold(env, rest, SecurityStep(env, acc, line).value)
      else Err(SecurityStep(env, acc, line).error)
  {
    hide SecurityStep;
    assert ([line] + rest)[1..] == rest;
  }

  lemma {:induction false} MoveToFront(env: Env, body: seq<string>, i: nat, acc: Settings)
    requires i < |body| && Fold(env, body, acc).Ok?
    ensures Fold(env, [body[i]] + (body[..i] + body[i + 1..]), acc) == Fold(env, body, acc)
    decreases i
  {
    hide SecurityStep, Fold;
    if i == 0 {
      assert [body[0]] + (body[..0] + body[1..]) == body;
    } else {
      var first, rest := body[0], body[1..];
      assert body == [first] + rest;
      FoldCons(env, first, rest, acc);
      MoveToFront(env, rest, i - 1, SecurityStep(env, acc, first).value);
      MoveBack(env, body, i, acc);
    }
  }

  /** If moving a line to the front of the tail changes nothing, neither does moving it past the first line. */
  lemma {:induction false} MoveBack(env: Env, body: seq<string>, i: nat, acc: Settings)
    requires 0 < i < |body| && Fold(env, body, acc).Ok? && SecurityStep(env, acc, body[0]).Ok?
    requires var rest := body[1..];
      Fold(env, [rest[i - 1]] + (rest[..i - 1] + rest[i..]), SecurityStep(env, acc, body[0]).value) ==
        Fold(env, body, acc)
    ensures Fold(env, [body[i]] + (body[..i] + body[i + 1..]), acc) == Fold(env, body, acc)
  {
    hide SecurityStep, Fold;
    var first, line, rest := body[0], body[i], body[1..];
    var others := rest[..i - 1] + rest[i..];
    assert rest[i - 1] == line;
    FoldCons(env, first, [line] + others, acc);
    assert [first] + ([line] + others) == [first, line] + others;
    SwapLines(env, first, line, others, acc);
    assert [line] + (body[..i] + body[i + 1..]) == [line, first] + others;
  }

  /** Where the first element of a permutation stands in the original. */
  lemma RemoveOne(body: seq<string>, permuted: seq<string>) returns (i: nat)
    requires multiset(body) == multiset(permuted) && permuted != []
    ensures i < |body| && body[i] == permuted[0]
    ensures multiset(body[..i] + body[i + 1..]) == multiset(permuted[1..])
  {
    var line := permuted[0];
    assert line in multiset(body);
    i :| 0 <= i < |body| && body[i] == line;
    var others := body[..i] + body[i + 1..];
    assert body == body[..i] + [body[i]] + body[i + 1..];
    assert multiset(body) == multiset(others) + multiset{line};
    assert permuted == [line] + permuted[1..];
    assert multiset(permuted) == multiset(permuted[1..]) + multiset{line};
    assert multiset(others) == multiset(body) - multiset{line};
  }

  lemma {:induction false} FoldPermutes(env: Env, body: seq<string>, permuted: seq<string>, acc: Settings)
    requires multiset(body) == multiset(permuted)
    requires Fold(env, body, acc).Ok?
    ensures Fold(env, permuted, acc) == Fold(env, body, acc)
    decreases |permuted|
  {
    hide SecurityStep;
    if permuted == [] {
      assert |multiset(body)| == |body| == 0;
    } else {
      var line := permuted[0];
      assert permuted == [line] + permuted[1..];
      var i := RemoveOne(body, permuted);
      var others := body[..i] + body[i + 1..];
      MoveToFront(env, body, i, acc);
      FoldCons(env, line, others, acc);
      FoldCons(env, line, permuted[1..], acc);
      FoldPermutes(env, others, permuted[1..], SecurityStep(env, acc, line).value);
    }
  }

  /** If the lines of a security block parse, every permutation of them parses to the same settings, with either
      terminator and whatever lines follow the block. */
  lemma SecurityOrderIrrelevant(env: Env, body: seq<string>, permuted: seq<string>, end: string, end': string,
                                more: seq<string>)
    requires multiset(body) == multiset(permuted) && NoEnd(body) && IsTerminator(end) && IsTerminator(end')
    requires SecurityBlock(env, body + [end] + more, map[]).Ok?
    ensures SecurityBlock(env, permuted + [end'] + more, map[]) == SecurityBlock(env, body + [end] + more, map[])
  {
    hide SecurityBlock, Fold, FinishSecurity;
    forall i | 0 <= i < |permuted| ensures !IsTerminator(permuted[i]) {
      assert permuted[i] in multiset(body);
    }
    BlockIsFold(env, body, end, more, map[]);
    BlockIsFold(env, permuted, end', more, map[]);
    FoldPermutes(env, body, permuted, map[]);
  }

  /** A line that gives the trusted upstream's address. */
  predicate GivesUpstream(env: Env, line: string, ip: IpAddr) {
    Given(env, line) == Some((TrustedUpstream, Address(ip)))
  }

  lemma {:induction false} UpstreamWasGiven(env: Env, lines: seq<string>, acc: Settings)
    requires SecurityBlock(env, lines, acc).Ok? && SecurityBlock(env, lines, acc).value.0.proxyProtocol
    requires TrustedUpstream !in acc
    ensures exists i ::
      0 <= i < |lines| && GivesUpstream(env, lines[i], SecurityBlock(env, lines, acc).value.0.trustedUpstream)
    decreases |lines|
  {
    hide SecurityStep, Given;
    if !IsTerminator(lines[0]) {
      StepGives(env, acc, lines[0]);
      var acc' := SecurityStep(env, acc, lines[0]).value;
      if TrustedUpstream in acc' {
        UpstreamIsKept(env, lines[1..], acc');
        assert GivesUpstream(env, lines[0], SecurityBlock(env, lines, acc).value.0.trustedUpstream);
      } else {
        UpstreamWasGiven(env, lines[1..], acc');
        var i :| 0 <= i < |lines[1..]| &&
          GivesUpstream(env, lines[1..][i], SecurityBlock(env, lines[1..], acc').value.0.trustedUpstream);
        assert lines[i + 1] == lines[1..][i];
      }
    }
  }

  lemma {:induction false} UpstreamIsKept(env: Env, lines: seq<string>, acc: Settings)
    requires SecurityBlock(env, lines, acc).Ok? && SecurityBlock(env, lines, acc).value.0.proxyProtocol
    requires TrustedUpstream in acc
    ensures acc[TrustedUpstream] == Address(SecurityBlock(env, lines, acc).value.0.trustedUpstream)
    decreases |lines|
  {
    hide SecurityStep, Given;
    if !IsTerminator(lines[0]) {
      StepGives(env, acc, lines[0]);
      UpstreamIsKept(env, lines[1..], SecurityStep(env, acc, lines[0]).value);
    }
  }

  /** With the proxy protocol on, a line of the block names the trusted upstream; it is never the default. */
  lemma ProxyProtocolNeedsUpstream(env: Env, lines: seq<string>)
    requires SecurityBlock(env, lines, map[]).Ok? && SecurityBlock(env, lines, map[]).value.0.proxyProtocol
    ensures exists i ::
      0 <= i < |lines| && GivesUpstream(env, lines[i], SecurityBlock(env, lines, map[]).value.0.trustedUpstream)
  {
    hide SecurityBlock, Given;
    UpstreamWasGiven(env, lines, map[]);
  }

  /** Where the security settings of one directive come from. */
  lemma TopStepSecurity(env: Env, acc: TopAcc, lines: seq<string>)
    requires lines != [] && TopStep(env, acc, lines).Ok?
    ensures var (acc', _) := TopStep(env, acc, lines).value;
      acc'.security == acc.security ||
      (SecurityBlock(env, lines[1..], map[]).Ok? &&
        acc'.security == Some(SecurityBlock(env, lines[1..], map[]).value.0))
  {
    hide TopDirective, NewEndpoint, OpensBlock, SingleValue, TrailingGarbage, RouteBlock, SecurityBlock, CacheBlock;
  }

  lemma {:induction false} TopLevelUpstream(env: Env, acc: TopAcc, lines: seq<string>)
    requires acc.security.None? && TopLevel(env, acc, lines).Ok?
    requires TopLevel(env, acc, lines).value.security.Some? &&
      TopLevel(env, acc, lines).value.security.value.proxyProtocol
    ensures exists i ::
      0 <= i < |lines| && GivesUpstream(env, lines[i], TopLevel(env, acc, lines).value.security.value.trustedUpstream)
    decreases |lines|
  {
    hide TopStep, SecurityBlock, GivesUpstream;
    var (acc', rest) := TopStep(env, acc, lines).value;
    TopStepSecurity(env, acc, lines);
    TopStepRest(env, acc, lines);
    if acc'.security.None? {
      TopLevelUpstream(env, acc', rest);
      var i :| 0 <= i < |rest| &&
        GivesUpstream(env, rest[i], TopLevel(env, acc', rest).value.security.value.trustedUpstream);
      assert rest[i] == lines[|lines| - |rest| + i];
    } else {
      SecurityIsKept(env, acc', rest);
      ProxyProtocolNeedsUpstream(env, lines[1..]);
      var upstream := TopLevel(env, acc, lines).value.security.value.trustedUpstream;
      var i :| 0 <= i < |lines[1..]| && GivesUpstream(env, lines[1..][i], upstream);
      assert lines[1..][i] == lines[i + 1];
    }
  }

  lemma {:induction false} SecurityIsKept(env: Env, acc: TopAcc, lines: seq<string>)
    requires acc.security.Some? && TopLevel(env, acc, lines).Ok?
    ensures TopLevel(env, acc, lines).value.security == acc.security
    decreases |lines|
  {
    hide TopStep;
    if lines != [] {
      SecondBlockRefused(env, acc, lines);
      SecurityIsKept(env, TopStep(env, acc, lines).value.0, TopStep(env, acc, lines).value.1);
    }
  }

  lemma SecondBlockRefused(env: Env, acc: TopAcc, lines: seq<string>)
    requires lines != [] && acc.security.Some? && TopStep(env, acc, lines).Ok?
    ensures TopStep(env, acc, lines).value.0.security == acc.security
  {
    hide TopDirective, NewEndpoint, OpensBlock, SingleValue, TrailingGarbage, RouteBlock, SecurityBlock, CacheBlock;
  }

  /** In every accepted input with the proxy protocol on, some line names the trusted upstream explicitly. */
  lemma AcceptedNamesUpstream(env: Env, lines: seq<string>)
    requires ParseLines(env, lines).Ok?
    ensures var c := ParseLines(env, lines).value;
      c.security.Some? && c.security.value.proxyProtocol ==>
        exists i :: 0 <= i < |lines| && GivesUpstream(env, lines[i], c.security.value.trustedUpstream)
  {
    hide TopLevel, GivesUpstream;
    var acc := TopLevel(env, NO_CONFIG, lines).value;
    if acc.security.Some? && acc.security.value.proxyProtocol {
      TopLevelUpstream(env, NO_CONFIG, lines);
    }
  }

  /** What a block says when it says nothing. */
  lemma EmptyBlocksGiveDefaults(env: Env, more: seq<string>)
    ensures SecurityBlock(env, ["}"] + more, map[]) ==
      Ok((SecurityConfig(false, V4(Ipv4(0, 0, 0, 0)), 200, 5, 3600, 300, None, 10_485_760, 65_536), more))
    ensures CacheBlock(env, ["}"] + more, DEFAULT_CACHE) == Ok((CacheConfig(true, 67_108_864, 2_097_152, 300), more))
  {
    assert (["}"] + more)[1..] == more;
  }
}
