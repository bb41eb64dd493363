/** The comment scanner of the configuration parser, `strip_comments` in src/parser.rs. */
module Comments {

  /** The characters after which a comment may open. */
  predicate IsBoundaryChar(c: char) {
    c == ' ' || c == '\t' || c == ';' || c == '\n'
  }

  /** A comment opens at `i`: slash slash or slash star, at the very start or after a boundary character. */
  predicate Opens(s: string, i: nat) {
    && i + 1 < |s| && s[i] == '/' && (s[i + 1] == '/' || s[i + 1] == '*')
    && (i == 0 || IsBoundaryChar(s[i - 1]))
  }

  datatype Mode = Code | LineComment | BlockComment

  /** The reference lexer: the text from `i` on with its comments blanked, newlines kept. */
  function Lex(s: string, i: nat, mode: Mode): string
    decreases |s| - i, mode != Code
  {
    if i >= |s| then ""
    else match mode
      case Code =>
        if Opens(s, i) then "  " + Lex(s, i + 2, if s[i + 1] == '/' then LineComment else BlockComment)
        else [s[i]] + Lex(s, i + 1, Code)
      case LineComment =>
        if s[i] == '\n' then Lex(s, i, Code) else " " + Lex(s, i + 1, LineComment)
      case BlockComment =>
        if s[i] == '*' && i + 1 < |s| && s[i + 1] == '/' then "  " + Lex(s, i + 2, Code)
        else [if s[i] == '\n' then '\n' else ' '] + Lex(s, i + 1, BlockComment)
  }

  function Strip(s: string): string {
    Lex(s, 0, Code)
  }

  /** Only spaces and tabs stand between the start of the line and `i`. */
  predicate BlankBefore(s: string, i: nat)
    requires i <= |s|
  {
    i == 0 || s[i - 1] == '\n' || ((s[i - 1] == ' ' || s[i - 1] == '\t') && BlankBefore(s, i - 1))
  }

  /** The backward scan over the current line. */
  method ScanBack(s: string, i: nat) returns (onlyWhitespace: bool)
    requires i <= |s|
    ensures onlyWhitespace <==> BlankBefore(s, i)
  {
    var temp := i;
    onlyWhitespace := true;
    while temp > 0
      invariant 0 <= temp <= i && onlyWhitespace && BlankBefore(s, temp) == BlankBefore(s, i)
    {
      temp := temp - 1;
      if s[temp] == '\n' {
        break;
      }
      if s[temp] != ' ' && s[temp] != '\t' {
        onlyWhitespace := false;
        break;
      }
    }
  }

  /** The scanner's boundary test: the backward scan accepts nothing the previous character does not. */
  method AtBoundary(s: string, i: nat) returns (boundary: bool)
    requires i < |s|
    ensures boundary <==> i == 0 || IsBoundaryChar(s[i - 1])
  {
    if i == 0 || IsBoundaryChar(s[i - 1]) {
      return true;
    }
    boundary := ScanBack(s, i);
  }

  method StripComments(s: string) returns (result: string)
    ensures result == Strip(s)
  {
    result := "";
    var i := 0;
    while i < |s|
      invariant i <= |s| && result + Lex(s, i, Code) == Strip(s)
      decreases |s| - i
    {
      if s[i] == '/' && i + 1 < |s| && (s[i + 1] == '/' || s[i + 1] == '*') {
        var boundary := AtBoundary(s, i);
        if boundary {
          result, i := BlankComment(s, i, result);
          continue;
        }
      }
      assert !Opens(s, i);
      assert result + [s[i]] + Lex(s, i + 1, Code) == result + Lex(s, i, Code);
      result := result + [s[i]];
      i := i + 1;
    }
  }

  method BlankComment(s: string, start: nat, before: string) returns (result: string, i: nat)
    requires Opens(s, start)
    ensures start < i <= |s|
    ensures result + Lex(s, i, Code) == before + Lex(s, start, Code)
  {
    result, i := before + [' '] + [' '], start + 2;
    assert result + Lex(s, i, if s[start + 1] == '/' then LineComment else BlockComment) ==
      before + Lex(s, start, Code);
    if s[start + 1] == '/' {
      result, i := BlankLine(s, i, result);
    } else {
      result, i := BlankBlock(s, i, result);
    }
  }

  /** The inner loop of a line comment: blanks up to the end of the line. */
  method BlankLine(s: string, start: nat, before: string) returns (result: string, i: nat)
    requires start <= |s|
    ensures start <= i <= |s|
    ensures result + Lex(s, i, Code) == before + Lex(s, start, LineComment)
  {
    result, i := before, start;
    while i < |s| && s[i] != '\n'
      invariant start <= i <= |s|
      invariant result + Lex(s, i, LineComment) == before + Lex(s, start, LineComment)
    {
      assert result + [' '] + Lex(s, i + 1, LineComment) == result + Lex(s, i, LineComment);
      result := result + [' '];
      i := i + 1;
    }
  }

  /** The inner loop of a block comment: blanks up to and including its end, keeping newlines. */
  method BlankBlock(s: string, start: nat, before: string) returns (result: string, i: nat)
    requires start <= |s|
    ensures start <= i <= |s|
    ensures result + Lex(s, i, Code) == before + Lex(s, start, BlockComment)
  {
    result, i := before, start;
    while i < |s|
      invariant start <= i <= |s|
      invariant result + Lex(s, i, BlockComment) == before + Lex(s, start, BlockComment)
    {
      if s[i] == '*' && i + 1 < |s| && s[i + 1] == '/' {
        assert result + [' '] + [' '] + Lex(s, i + 2, Code) == result + Lex(s, i, BlockComment);
        result := result + [' '] + [' '];
        i := i + 2;
        return;
      }
      ghost var blank := if s[i] == '\n' then '\n' else ' ';
      assert result + [blank] + Lex(s, i + 1, BlockComment) == result + Lex(s, i, BlockComment);
      if s[i] == '\n' {
        result := result + ['\n'];
      } else {
        result := result + [' '];
      }
      i := i + 1;
    }
  }

  /** `out` is `s` with some characters other than newlines replaced by spaces. */
  predicate Blanked(out: string, s: string) {
    && |out| == |s|
    && (forall k :: 0 <= k < |s| ==> out[k] == s[k] || out[k] == ' ')
    && (forall k :: 0 <= k < |s| ==> (out[k] == '\n' <==> s[k] == '\n'))
  }

  lemma BlankedConcat(a: string, s: string, b: string, t: string)
    requires Blanked(a, s) && Blanked(b, t)
    ensures Blanked(a + b, s + t)
  {
  }

  lemma {:induction false} LexBlanks(s: string, i: nat, mode: Mode)
    requires i <= |s|
    ensures Blanked(Lex(s, i, mode), s[i..])
    decreases |s| - i, mode != Code
  {
    if i == |s| {
      return;
    }
    assert s[i..] == [s[i]] + s[i + 1..];
    assert i + 1 < |s| ==> s[i..] == s[i..i + 2] + s[i + 2..];
    match mode
    case Code =>
      if Opens(s, i) {
        LexBlanks(s, i + 2, if s[i + 1] == '/' then LineComment else BlockComment);
        BlankedConcat("  ", s[i..i + 2], Lex(s, i + 2, if s[i + 1] == '/' then LineComment else BlockComment),
          s[i + 2..]);
      } else {
        LexBlanks(s, i + 1, Code);
        BlankedConcat([s[i]], [s[i]], Lex(s, i + 1, Code), s[i + 1..]);
      }
    case LineComment =>
      if s[i] == '\n' {
        LexBlanks(s, i, Code);
      } else {
        LexBlanks(s, i + 1, LineComment);
        BlankedConcat(" ", [s[i]], Lex(s, i + 1, LineComment), s[i + 1..]);
      }
    case BlockComment =>
      if s[i] == '*' && i + 1 < |s| && s[i + 1] == '/' {
        LexBlanks(s, i + 2, Code);
        BlankedConcat("  ", s[i..i + 2], Lex(s, i + 2, Code), s[i + 2..]);
      } else {
        LexBlanks(s, i + 1, BlockComment);
        BlankedConcat([if s[i] == '\n' then '\n' else ' '], [s[i]], Lex(s, i + 1, BlockComment), s[i + 1..]);
      }
  }

  /** Stripping keeps the length and the line structure, and only ever replaces characters by spaces. */
  lemma StripKeepsLayout(s: string)
    ensures Blanked(Strip(s), s)
  {
    LexBlanks(s, 0, Code);
    assert s[0..] == s;
  }

  predicate CommentFree(s: string) {
    forall i :: 0 <= i < |s| ==> !Opens(s, i)
  }

  lemma {:induction false} LexUnchangedIff(s: string, i: nat)
    requires i <= |s|
    ensures Lex(s, i, Code) == s[i..] <==> forall j :: i <= j < |s| ==> !Opens(s, j)
    decreases |s| - i
  {
    if i < |s| {
      if Opens(s, i) {
        assert Lex(s, i, Code)[0] == ' ' && s[i..][0] == '/';
      } else {
        LexUnchangedIff(s, i + 1);
        assert Lex(s, i, Code) == [s[i]] + Lex(s, i + 1, Code);
        assert s[i..] == [s[i]] + s[i + 1..];
        assert Lex(s, i, Code)[1..] == Lex(s, i + 1, Code);
        assert s[i..][1..] == s[i + 1..];
      }
    }
  }

  /** A text is left as it is exactly when no comment opens in it. */
  lemma StripFixedIff(s: string)
    ensures Strip(s) == s <==> CommentFree(s)
  {
    LexUnchangedIff(s, 0);
    assert s[0..] == s;
  }

  // ---- when a second pass strips more ----

  /** Two characters that would open a comment stand right behind the end of a block comment. The scanner leaves them,
      since the character before them in the text is the slash of the closed comment. */
  predicate Abuts(s: string, i: nat, mode: Mode)
    decreases |s| - i, mode != Code
  {
    i < |s| &&
    match mode
    case Code =>
      if Opens(s, i) then Abuts(s, i + 2, if s[i + 1] == '/' then LineComment else BlockComment)
      else Abuts(s, i + 1, Code)
    case LineComment =>
      if s[i] == '\n' then Abuts(s, i, Code) else Abuts(s, i + 1, LineComment)
    case BlockComment =>
      if s[i] == '*' && i + 1 < |s| && s[i + 1] == '/' then LooksOpening(s, i + 2) || Abuts(s, i + 2, Code)
      else Abuts(s, i + 1, BlockComment)
  }

  predicate LooksOpening(s: string, i: nat) {
    i + 1 < |s| && s[i] == '/' && (s[i + 1] == '/' || s[i + 1] == '*')
  }

  /** No comment opens in `t`, which stands behind a boundary if `b` holds. */
  predicate OpenFree(b: bool, t: string)
    decreases |t|
  {
    t == "" || (!(b && LooksOpening(t, 0)) && OpenFree(IsBoundaryChar(t[0]), t[1..]))
  }

  lemma {:induction false} OpenFreeFrom(t: string, i: nat)
    requires i <= |t|
    ensures OpenFree(i == 0 || IsBoundaryChar(t[i - 1]), t[i..]) <==> forall j :: i <= j < |t| ==> !Opens(t, j)
    decreases |t| - i
  {
    if i < |t| {
      OpenFreeFrom(t, i + 1);
      assert t[i..][1..] == t[i + 1..] && t[i..][0] == t[i];
      assert LooksOpening(t[i..], 0) <==> LooksOpening(t, i);
      assert Opens(t, i) <==> LooksOpening(t, i) && (i == 0 || IsBoundaryChar(t[i - 1]));
      assert (forall j :: i <= j < |t| ==> !Opens(t, j)) <==>
        !Opens(t, i) && (forall j :: i + 1 <= j < |t| ==> !Opens(t, j));
    }
  }

  lemma OpenFreeIff(t: string)
    ensures OpenFree(true, t) <==> CommentFree(t)
  {
    OpenFreeFrom(t, 0);
    assert t[0..] == t;
  }

  lemma OpenFreeCons(b: bool, c: char, t: string)
    ensures OpenFree(b, [c] + t) <==>
      !(b && c == '/' && t != "" && (t[0] == '/' || t[0] == '*')) && OpenFree(IsBoundaryChar(c), t)
  {
    assert ([c] + t)[1..] == t;
  }

  lemma OpenFreeBlanks(b: bool, t: string)
    ensures OpenFree(b, "  " + t) <==> OpenFree(true, t)
  {
    OpenFreeCons(b, ' ', [' '] + t);
    OpenFreeCons(true, ' ', t);
    assert "  " + t == [' '] + ([' '] + t);
  }

  /** A character in code that opens no comment is kept. */
  lemma LexHead(s: string, i: nat)
    requires i < |s|
    ensures |Lex(s, i, Code)| > 0 && Lex(s, i, Code)[0] == if Opens(s, i) then ' ' else s[i]
  {
  }

  /** The output from `i` on opens no comment, given what stands before it in the output. */
  lemma {:induction false} LexOpenFree(s: string, i: nat, mode: Mode)
    requires i <= |s|
    ensures mode == Code ==> (OpenFree(i == 0 || IsBoundaryChar(s[i - 1]), Lex(s, i, Code)) <==> !Abuts(s, i, Code))
    ensures mode != Code ==> (OpenFree(true, Lex(s, i, mode)) <==> !Abuts(s, i, mode))
    decreases |s| - i, mode != Code
  {
    hide OpenFree;
    if i == |s| {
      OpenFreeIff("");
      OpenFreeEmpty();
      return;
    }
    match mode
    case Code =>
      if Opens(s, i) {
        var inner := if s[i + 1] == '/' then LineComment else BlockComment;
        LexOpenFree(s, i + 2, inner);
        OpenFreeBlanks(true, Lex(s, i + 2, inner));
      } else {
        LexOpenFree(s, i + 1, Code);
        if i + 1 < |s| {
          LexHead(s, i + 1);
        }
        OpenFreeCons(i == 0 || IsBoundaryChar(s[i - 1]), s[i], Lex(s, i + 1, Code));
      }
    case LineComment =>
      if s[i] == '\n' {
        LexOpenFree(s, i, Code);
        LexHead(s, i);
        OpenFreeCons(true, '\n', Lex(s, i + 1, Code));
        OpenFreeCons(i == 0 || IsBoundaryChar(s[i - 1]), '\n', Lex(s, i + 1, Code));
      } else {
        LexOpenFree(s, i + 1, LineComment);
        OpenFreeCons(true, ' ', Lex(s, i + 1, LineComment));
      }
    case BlockComment =>
      if s[i] == '*' && i + 1 < |s| && s[i + 1] == '/' {
        LexOpenFree(s, i + 2, Code);
        OpenFreeBlanks(true, Lex(s, i + 2, Code));
        AfterBlock(s, i + 2);
      } else {
        LexOpenFree(s, i + 1, BlockComment);
        OpenFreeCons(true, if s[i] == '\n' then '\n' else ' ', Lex(s, i + 1, BlockComment));
      }
  }

  lemma OpenFreeEmpty()
    ensures OpenFree(true, "") && OpenFree(false, "")
  {
  }

  /** Behind a closed block comment the output stands behind a space, the text behind a slash. */
  lemma {:induction false} AfterBlock(s: string, i: nat)
    requires 0 < i <= |s| && s[i - 1] == '/'
    ensures OpenFree(true, Lex(s, i, Code)) <==> !LooksOpening(s, i) && OpenFree(false, Lex(s, i, Code))
  {
    hide OpenFree;
    if i == |s| {
      OpenFreeEmpty();
    } else {
      assert Lex(s, i, Code) == [s[i]] + Lex(s, i + 1, Code);
      if i + 1 < |s| {
        LexHead(s, i + 1);
      }
      OpenFreeCons(true, s[i], Lex(s, i + 1, Code));
      OpenFreeCons(false, s[i], Lex(s, i + 1, Code));
    }
  }

  /** Stripping is idempotent exactly on the texts in which no block comment is directly followed by the opening of
      another comment. */
  lemma StripIdempotentIff(s: string)
    ensures Strip(Strip(s)) == Strip(s) <==> !Abuts(s, 0, Code)
  {
    StripFixedIff(Strip(s));
    OpenFreeIff(Strip(s));
    LexOpenFree(s, 0, Code);
  }

  lemma StripIsNotIdempotent()
    ensures Strip("/* *///x") == "     //x" && Strip("     //x") == "        "
  {
    var s := "/* *///x";
    calc {
      Strip(s);
      "  " + Lex(s, 2, BlockComment);
      "  " + ([' '] + Lex(s, 3, BlockComment));
      "  " + ([' '] + ("  " + Lex(s, 5, Code)));
      { assert !Opens(s, 5) && !Opens(s, 6) && !Opens(s, 7); }
      "  " + ([' '] + ("  " + ("/" + ("/" + ("x" + Lex(s, 8, Code))))));
      "     //x";
    }
    var t := "     //x";
    assert !Opens(t, 0) && !Opens(t, 1) && !Opens(t, 2) && !Opens(t, 3) && !Opens(t, 4) && Opens(t, 5);
    assert Lex(t, 8, LineComment) == "" && Lex(t, 7, LineComment) == " ";
    assert Lex(t, 5, Code) == "   ";
    assert Lex(t, 4, Code) == "    " && Lex(t, 3, Code) == "     " && Lex(t, 2, Code) == "      ";
  }

  /** No comment begins right behind a semicolon. */
  predicate Unbroken(s: string) {
    forall i :: 0 < i < |s| - 1 && s[i - 1] == ';' && s[i] == '/' ==> s[i + 1] != '/' && s[i + 1] != '*'
  }

  lemma UnbrokenSlice(s: string, a: nat, b: nat)
    requires Unbroken(s) && a <= b <= |s|
    ensures Unbroken(s[a..b])
  {
    var t := s[a..b];
    forall i | 0 < i < |t| - 1 && t[i - 1] == ';' && t[i] == '/' ensures t[i + 1] != '/' && t[i + 1] != '*' {
      assert s[a + i] == t[i];
    }
  }

  lemma UnbrokenCons(c: char, t: string)
    requires Unbroken(t)
    requires c == ';' && |t| > 1 && t[0] == '/' ==> t[1] != '/' && t[1] != '*'
    ensures Unbroken([c] + t)
  {
    var u := [c] + t;
    forall i | 0 < i < |u| - 1 && u[i - 1] == ';' && u[i] == '/' ensures u[i + 1] != '/' && u[i + 1] != '*' {
      assert u[i] == t[i - 1] && u[i + 1] == t[i];
    }
  }

  lemma {:induction false} LexUnbroken(s: string, i: nat, mode: Mode)
    requires i <= |s|
    ensures Unbroken(Lex(s, i, mode))
    decreases |s| - i, mode != Code
  {
    if i == |s| {
      return;
    }
    match mode
    case Code =>
      if Opens(s, i) {
        var rest := Lex(s, i + 2, if s[i + 1] == '/' then LineComment else BlockComment);
        LexUnbroken(s, i + 2, if s[i + 1] == '/' then LineComment else BlockComment);
        UnbrokenBlanks(rest);
      } else {
        LexUnbroken(s, i + 1, Code);
        LexBlanks(s, i + 1, Code);
        assert i + 1 < |s| && Opens(s, i + 1) ==> Lex(s, i + 1, Code)[0] == ' ';
        UnbrokenCons(s[i], Lex(s, i + 1, Code));
      }
    case LineComment =>
      if s[i] == '\n' {
        LexUnbroken(s, i, Code);
      } else {
        LexUnbroken(s, i + 1, LineComment);
        UnbrokenCons(' ', Lex(s, i + 1, LineComment));
      }
    case BlockComment =>
      if s[i] == '*' && i + 1 < |s| && s[i + 1] == '/' {
        LexUnbroken(s, i + 2, Code);
        UnbrokenBlanks(Lex(s, i + 2, Code));
      } else {
        LexUnbroken(s, i + 1, BlockComment);
        UnbrokenCons(if s[i] == '\n' then '\n' else ' ', Lex(s, i + 1, BlockComment));
      }
  }

  lemma UnbrokenBlanks(t: string)
    requires Unbroken(t)
    ensures Unbroken("  " + t)
  {
    UnbrokenCons(' ', t);
    UnbrokenCons(' ', [' '] + t);
    assert "  " + t == [' '] + ([' '] + t);
  }

  /** What stands in the stripped text was never the start of a comment behind a semicolon. */
  lemma StripUnbroken(s: string)
    ensures Unbroken(Strip(s))
  {
    LexUnbroken(s, 0, Code);
  }
}
