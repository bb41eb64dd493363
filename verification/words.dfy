/** Whitespace, trimming and tokenising, as `str::trim`, `trim_end_matches` and `split_whitespace` do it. */
module Words {
  import opened Text
  import opened Comments

  /** The Unicode White_Space property. */
  predicate IsSpace(c: char) {
    || '\U{0009}' <= c <= '\U{000D}' || c == ' ' || c == '\U{0085}' || c == '\U{00A0}' || c == '\U{1680}'
    || '\U{2000}' <= c <= '\U{200A}' || c == '\U{2028}' || c == '\U{2029}' || c == '\U{202F}'
    || c == '\U{205F}' || c == '\U{3000}'
  }

  /** A token: not empty and without white space. */
  predicate Word(s: string) {
    s != "" && forall i :: 0 <= i < |s| ==> !IsSpace(s[i])
  }

  function TrimStart(s: string): (t: string)
    ensures |t| <= |s|
    ensures t != "" ==> !IsSpace(t[0])
  {
    if s != "" && IsSpace(s[0]) then TrimStart(s[1..]) else s
  }

  function TrimEnd(s: string): string {
    if s != "" && IsSpace(s[|s| - 1]) then TrimEnd(s[..|s| - 1]) else s
  }

  function Trim(s: string): string {
    TrimEnd(TrimStart(s))
  }

  /** `trim_end_matches(';')`. */
  function TrimSemicolons(s: string): string {
    if s != "" && s[|s| - 1] == ';' then TrimSemicolons(s[..|s| - 1]) else s
  }

  /** Length of the leading run of characters that are not white space. */
  function WordLength(s: string): (n: nat)
    ensures n <= |s|
    ensures forall i :: 0 <= i < n ==> !IsSpace(s[i])
    ensures n < |s| ==> IsSpace(s[n])
  {
    if s == "" || IsSpace(s[0]) then 0 else 1 + WordLength(s[1..])
  }

  /** `split_whitespace`. */
  function Tokens(s: string): (ts: seq<string>)
    ensures forall i :: 0 <= i < |ts| ==> Word(ts[i])
    decreases |s|
  {
    var t := TrimStart(s);
    if t == "" then [] else [t[..WordLength(t)]] + Tokens(t[WordLength(t)..])
  }

  lemma WordLengthUnique(s: string, n: nat)
    requires n <= |s| && (forall i :: 0 <= i < n ==> !IsSpace(s[i])) && (n < |s| ==> IsSpace(s[n]))
    ensures WordLength(s) == n
  {
  }

  lemma TokensSkipSpace(gap: char, s: string)
    requires IsSpace(gap)
    ensures Tokens([gap] + s) == Tokens(s)
  {
    assert ([gap] + s)[1..] == s;
  }

  lemma TokensCons(w: string, gap: char, s: string)
    requires Word(w) && IsSpace(gap)
    ensures Tokens(w + [gap] + s) == [w] + Tokens(s)
  {
    var t := w + [gap] + s;
    assert t[0] == w[0];
    assert forall i :: 0 <= i < |w| ==> t[i] == w[i];
    WordLengthUnique(t, |w|);
    assert t[..|w|] == w && t[|w|..] == [gap] + s;
    TokensSkipSpace(gap, s);
  }

  lemma TokensOne(w: string)
    requires Word(w)
    ensures Tokens(w) == [w]
  {
    WordLengthUnique(w, |w|);
    assert w[..|w|] == w && w[|w|..] == "";
  }

  lemma TrimmedAlready(s: string)
    requires s != "" && !IsSpace(s[0]) && !IsSpace(s[|s| - 1])
    ensures Trim(s) == s
  {
  }

  lemma TrimTrailingSpace(s: string)
    requires s != "" && !IsSpace(s[0]) && !IsSpace(s[|s| - 1])
    ensures Trim(s + " ") == s
  {
    var t := s + " ";
    assert t[0] == s[0] && t[|t| - 1] == ' ' && t[..|t| - 1] == s;
    assert TrimStart(t) == t;
    assert TrimEnd(t) == TrimEnd(s);
  }

  // ---- the pieces of an unbroken text are unbroken ----

  predicate AllUnbroken(ss: seq<string>) {
    forall i :: 0 <= i < |ss| ==> Unbroken(ss[i])
  }

  lemma {:induction false} TrimStartUnbroken(s: string)
    requires Unbroken(s)
    ensures Unbroken(TrimStart(s))
  {
    if s != "" && IsSpace(s[0]) {
      UnbrokenSlice(s, 1, |s|);
      TrimStartUnbroken(s[1..]);
    }
  }

  lemma {:induction false} TrimEndUnbroken(s: string)
    requires Unbroken(s)
    ensures Unbroken(TrimEnd(s)) && Unbroken(TrimSemicolons(s))
  {
    if s != "" {
      UnbrokenSlice(s, 0, |s| - 1);
      TrimEndUnbroken(s[..|s| - 1]);
    }
  }

  lemma TrimUnbroken(s: string)
    requires Unbroken(s)
    ensures Unbroken(Trim(s))
  {
    TrimStartUnbroken(s);
    TrimEndUnbroken(TrimStart(s));
  }

  lemma {:induction false} TokensUnbroken(s: string)
    requires Unbroken(s)
    ensures AllUnbroken(Tokens(s))
    decreases |s|
  {
    var t := TrimStart(s);
    TrimStartUnbroken(s);
    if t != "" {
      var n := WordLength(t);
      UnbrokenSlice(t, 0, n);
      UnbrokenSlice(t, n, |t|);
      TokensUnbroken(t[n..]);
    }
  }

  lemma {:induction false} SplitUnbroken(s: string, c: char)
    requires Unbroken(s)
    ensures AllUnbroken(Split(s, c))
    decreases |s|
  {
    var p := Find(s, c);
    if p < |s| {
      UnbrokenSlice(s, 0, p);
      UnbrokenSlice(s, p + 1, |s|);
      SplitUnbroken(s[p + 1..], c);
    }
  }

  // ---- one directive line ----

  /** White space after which no comment opens, so that a value may begin with two slashes. */
  const GAP := '\U{000C}'

  /** The canonical line of a directive with one value. */
  function DirectiveLine(directive: string, value: string): string {
    directive + [GAP] + value + " ;"
  }

  lemma DirectiveLineParts(directive: string, value: string)
    requires Word(directive) && Word(value)
    ensures var line := DirectiveLine(directive, value);
      && Trim(line) == line && line[|line| - 1] == ';' && line[0] == directive[0]
      && Tokens(line)[..1] == [directive]
      && Tokens(Trim(TrimSemicolons(line))) == [directive, value]
  {
    var line := DirectiveLine(directive, value);
    assert line[|line| - 1] == ';' && !IsSpace(';') && line[0] == directive[0];
    TrimmedAlready(line);
    assert line == directive + [GAP] + (value + " ;");
    TokensCons(directive, GAP, value + " ;");
    DirectiveLineValue(directive, value);
  }

  lemma DirectiveLineValue(directive: string, value: string)
    requires Word(directive) && Word(value)
    ensures Tokens(Trim(TrimSemicolons(DirectiveLine(directive, value)))) == [directive, value]
  {
    var bare := directive + [GAP] + value;
    assert bare[|bare| - 1] == value[|value| - 1] && bare[0] == directive[0];
    TrimOneSemicolon(bare + " ");
    assert DirectiveLine(directive, value) == bare + " " + ";";
    TrimTrailingSpace(bare);
    TokensCons(directive, GAP, value);
    TokensOne(value);
  }

  lemma TrimOneSemicolon(s: string)
    requires s != "" && s[|s| - 1] != ';'
    ensures TrimSemicolons(s + ";") == s
  {
    assert (s + ";")[|s|] == ';' && (s + ";")[..|s|] == s;
  }

  /** The canonical header of a block with a name. */
  function HeaderLine(a: string, b: string): string {
    a + [GAP] + b + " {"
  }

  lemma HeaderLineParts(a: string, b: string)
    requires Word(a) && Word(b)
    ensures var line := HeaderLine(a, b);
      Trim(line) == line && line[0] == a[0] && line[|line| - 1] == '{'
    ensures Tokens(HeaderLine(a, b)) == [a, b, "{"]
  {
    var line := HeaderLine(a, b);
    assert line[|line| - 1] == '{' && !IsSpace('{') && line[0] == a[0];
    TrimmedAlready(line);
    HeaderLineTokens(a, b);
  }

  lemma HeaderLineTokens(a: string, b: string)
    requires Word(a) && Word(b)
    ensures Tokens(HeaderLine(a, b)) == [a, b, "{"]
  {
    var rest := b + [' '] + "{";
    assert " {" == [' '] + "{";
    assert HeaderLine(a, b) == a + [GAP] + rest;
    TokensCons(a, GAP, rest);
    TokensCons(b, ' ', "{");
    TokensOne("{");
  }
}
