/** What stripping comments does to a text, said by the places where comments open and end. */
module CommentLaws {
  import opened Comments

  /** Two slashes or a slash and a star, at the start of the text or behind a space, tab, semicolon or newline. */
  predicate OpeningAt(s: string, i: int) {
    && 0 <= i <= |s| - 2 && (s[i..i + 2] == "//" || s[i..i + 2] == "/*")
    && (i == 0 || s[i - 1] in {' ', '\t', ';', '\n'})
  }

  predicate NoOpeningBefore(s: string, n: int) {
    forall i :: 0 <= i < n ==> !OpeningAt(s, i)
  }

  predicate EndAt(s: string, i: int) {
    0 <= i <= |s| - 2 && s[i..i + 2] == "*/"
  }

  /** Spaces in place of everything but newlines. */
  function BlankOut(t: string): string {
    seq(|t|, i requires 0 <= i < |t| => if t[i] == '\n' then '\n' else ' ')
  }

  // ---- the laws ----

  /** A comment of the kind given by `second` opens at `n`, the first one of the text. */
  predicate FirstComment(s: string, n: nat, second: char) {
    n + 2 <= |s| && OpeningAt(s, n) && s[n + 1] == second && NoOpeningBefore(s, n)
  }

  /** A text without an opening is left as it is. */
  predicate PlainLaw(f: string -> string, s: string) {
    NoOpeningBefore(s, |s|) ==> f(s) == s
  }

  /** A line comment reaches from `n` to a newline or the end of the text, at `e`. */
  predicate LineSpans(s: string, n: nat, e: nat) {
    && FirstComment(s, n, '/') && n + 2 <= e <= |s| && (e == |s| || s[e] == '\n')
    && forall k :: n + 2 <= k < e ==> s[k] != '\n'
  }

  /** It is blanked, what stands before it is kept, and the rest is stripped. */
  predicate LineLaw(f: string -> string, s: string, n: nat, e: nat) {
    LineSpans(s, n, e) ==> f(s) == s[..n] + BlankOut(s[n..e]) + f(s[e..])
  }

  /** A block comment reaches from `n` to the first end behind its opening, at `e`. */
  predicate BlockSpans(s: string, n: nat, e: nat) {
    FirstComment(s, n, '*') && n + 2 <= e && EndAt(s, e) && forall k :: n + 2 <= k < e ==> !EndAt(s, k)
  }

  /** It is blanked with its end, and the rest is stripped as text that stands behind another character. */
  predicate BlockLaw(f: string -> string, s: string, n: nat, e: nat) {
    BlockSpans(s, n, e) ==> f(s) == s[..n] + BlankOut(s[n..e + 2]) + Behind(f, s[e + 2..])
  }

  /** A block comment without an end is blanked to the end of the text. */
  predicate OpenBlockLaw(f: string -> string, s: string, n: nat) {
    FirstComment(s, n, '*') && (forall k :: n + 2 <= k < |s| ==> !EndAt(s, k)) ==> f(s) == s[..n] + BlankOut(s[n..])
  }

  function Behind(f: string -> string, c: string): string {
    var t := f("x" + c);
    if t == "" then "" else t[1..]
  }

  ghost predicate Laws(f: string -> string) {
    && (forall s :: PlainLaw(f, s))
    && (forall s, n: nat, e: nat :: LineLaw(f, s, n, e))
    && (forall s, n: nat, e: nat :: BlockLaw(f, s, n, e))
    && (forall s, n: nat :: OpenBlockLaw(f, s, n))
  }

  // ---- stripping obeys them ----

  lemma OpeningIff(s: string, i: nat)
    ensures OpeningAt(s, i) <==> Opens(s, i)
  {
    if i + 2 <= |s| {
      assert s[i..i + 2] == [s[i], s[i + 1]];
      assert "//" == ['/', '/'] && "/*" == ['/', '*'];
    }
  }

  lemma EndIff(s: string, i: nat)
    ensures EndAt(s, i) <==> i + 1 < |s| && s[i] == '*' && s[i + 1] == '/'
  {
    if i + 2 <= |s| {
      assert s[i..i + 2] == [s[i], s[i + 1]] && "*/" == ['*', '/'];
    }
  }

  /** Code up to the first opening is kept. */
  lemma {:induction false} CodeIsKept(s: string, i: nat, n: nat)
    requires i <= n <= |s| && forall k :: i <= k < n ==> !Opens(s, k)
    ensures Lex(s, i, Code) == s[i..n] + Lex(s, n, Code)
    decreases n - i
  {
    if i < n {
      CodeIsKept(s, i + 1, n);
      assert s[i..n] == [s[i]] + s[i + 1..n];
    }
  }

  lemma {:induction false} BlockIsBlanked(s: string, i: nat, e: nat)
    requires i <= e <= |s| && forall k :: i <= k < e ==> !EndAt(s, k)
    ensures Lex(s, i, BlockComment) == BlankOut(s[i..e]) + Lex(s, e, BlockComment)
    decreases e - i
  {
    hide Lex, EndAt;
    if i < e {
      EndIff(s, i);
      BlockIsBlanked(s, i + 1, e);
      BlankCons(s, i, e);
      BlockGoesOn(s, i);
      hide BlankOut;
    }
  }

  lemma BlockGoesOn(s: string, i: nat)
    requires i < |s| && !(i + 1 < |s| && s[i] == '*' && s[i + 1] == '/')
    ensures Lex(s, i, BlockComment) == [if s[i] == '\n' then '\n' else ' '] + Lex(s, i + 1, BlockComment)
  {
  }

  lemma BlankCons(s: string, i: nat, e: nat)
    requires i < e <= |s|
    ensures BlankOut(s[i..e]) == [if s[i] == '\n' then '\n' else ' '] + BlankOut(s[i + 1..e])
  {
    assert s[i..e][1..] == s[i + 1..e];
  }

  lemma {:induction false} LineIsBlanked(s: string, i: nat, e: nat)
    requires i <= e <= |s| && forall k :: i <= k < e ==> s[k] != '\n'
    ensures Lex(s, i, LineComment) == BlankOut(s[i..e]) + Lex(s, e, LineComment)
    decreases e - i
  {
    if i < e {
      LineIsBlanked(s, i + 1, e);
      BlankCons(s, i, e);
    }
  }

  predicate BoundaryAt(s: string, i: nat) {
    i == 0 || (i <= |s| && IsBoundaryChar(s[i - 1]))
  }

  /** The rest of a text is stripped the same behind any text that ends in a boundary alike. */
  lemma {:induction false} LexOfSuffix(s: string, i: nat, t: string, j: nat, mode: Mode)
    requires i <= |s| && j <= |t| && s[i..] == t[j..]
    requires mode == Code ==> (BoundaryAt(s, i) <==> BoundaryAt(t, j))
    ensures Lex(s, i, mode) == Lex(t, j, mode)
    decreases |s| - i, mode != Code
  {
    if i < |s| {
      assert |s| - i == |t| - j && s[i] == s[i..][0] == t[j];
      assert i + 1 < |s| ==> s[i + 1] == s[i..][1] == t[j + 1];
      assert s[i + 1..] == s[i..][1..] == t[j + 1..];
      match mode
      case Code =>
        if Opens(s, i) {
          assert s[i + 2..] == s[i..][2..] == t[j + 2..];
          LexOfSuffix(s, i + 2, t, j + 2, if s[i + 1] == '/' then LineComment else BlockComment);
        } else {
          LexOfSuffix(s, i + 1, t, j + 1, Code);
        }
      case LineComment =>
        if s[i] == '\n' {
          LexOfNewline(s, i);
          LexOfNewline(t, j);
          LexOfSuffix(s, i + 1, t, j + 1, Code);
        } else {
          LexOfSuffix(s, i + 1, t, j + 1, LineComment);
        }
      case BlockComment =>
        if s[i] == '*' && i + 1 < |s| && s[i + 1] == '/' {
          assert s[i + 2..] == s[i..][2..] == t[j + 2..];
          LexOfSuffix(s, i + 2, t, j + 2, Code);
        } else {
          LexOfSuffix(s, i + 1, t, j + 1, BlockComment);
        }
    }
  }

  lemma LexOfNewline(s: string, i: nat)
    requires i < |s| && s[i] == '\n'
    ensures Lex(s, i, Code) == "\n" + Lex(s, i + 1, Code)
  {
  }

  lemma PlainHolds(s: string)
    ensures PlainLaw(Strip, s)
  {
    if NoOpeningBefore(s, |s|) {
      forall i: nat | i < |s| ensures !Opens(s, i) {
        OpeningIff(s, i);
      }
      StripFixedIff(s);
    }
  }

  lemma FirstOpening(s: string, n: nat)
    requires n <= |s| && NoOpeningBefore(s, n)
    ensures Strip(s) == s[..n] + Lex(s, n, Code)
  {
    forall k: nat | k < n ensures !Opens(s, k) {
      OpeningIff(s, k);
    }
    CodeIsKept(s, 0, n);
  }

  lemma LineHolds(s: string, n: nat, e: nat)
    ensures LineLaw(Strip, s, n, e)
  {
    if LineSpans(s, n, e) {
      hide Lex, OpeningAt, NoOpeningBefore, Strip;
      FirstOpening(s, n);
      OpeningIff(s, n);
      LineIsBlanked(s, n + 2, e);
      LineEnds(s, e);
      assert Lex(s, e, LineComment) == Strip(s[e..]) by {
        LineTail(s, e);
      }
      OpensAs(s, n);
      BlankTwo(s, n, e);
    }
  }

  lemma LineTail(s: string, e: nat)
    requires e <= |s| && (e == |s| || s[e] == '\n')
    ensures Lex(s, e, LineComment) == Strip(s[e..])
  {
    var c := s[e..];
    LineEnds(c, 0);
    LexOfSuffix(s, e, c, 0, LineComment);
  }

  lemma BlankTwo(s: string, n: nat, e: nat)
    requires n + 2 <= e <= |s| && s[n] != '\n' && s[n + 1] != '\n'
    ensures BlankOut(s[n..e]) == "  " + BlankOut(s[n + 2..e])
  {
    BlankCons(s, n, e);
    BlankCons(s, n + 1, e);
  }

  lemma LineEnds(s: string, e: nat)
    requires e <= |s| && (e == |s| || s[e] == '\n')
    ensures Lex(s, e, LineComment) == Lex(s, e, Code)
  {
  }

  lemma OpensAs(s: string, n: nat)
    requires Opens(s, n)
    ensures Lex(s, n, Code) == "  " + Lex(s, n + 2, if s[n + 1] == '/' then LineComment else BlockComment)
  {
  }

  lemma BlockHolds(s: string, n: nat, e: nat)
    ensures BlockLaw(Strip, s, n, e)
  {
    if BlockSpans(s, n, e) {
      EndIff(s, e);
      hide Lex, OpeningAt, NoOpeningBefore, EndAt, Strip;
      FirstOpening(s, n);
      OpeningIff(s, n);
      BlockIsBlanked(s, n + 2, e);
      OpensAs(s, n);
      BlockCloses(s, e);
      TailBehind(s, e + 2);
      BlankTwo(s, n, e + 2);
      BlankEnd(s, n + 2, e);
      hide BlankOut, Behind, FirstComment;
    }
  }

  lemma BlankEnd(s: string, i: nat, e: nat)
    requires i <= e && e + 2 <= |s| && s[e] == '*' && s[e + 1] == '/'
    ensures BlankOut(s[i..e + 2]) == BlankOut(s[i..e]) + "  "
  {
  }

  lemma BlockCloses(s: string, e: nat)
    requires e + 2 <= |s| && s[e] == '*' && s[e + 1] == '/'
    ensures Lex(s, e, BlockComment) == "  " + Lex(s, e + 2, Code)
  {
  }

  lemma TailBehind(s: string, e: nat)
    requires 0 < e <= |s| && s[e - 1] == '/'
    ensures Lex(s, e, Code) == Behind(Strip, s[e..])
  {
    var t := "x" + s[e..];
    assert t[1..] == s[e..] && t[0] == 'x';
    LexOfSuffix(s, e, t, 1, Code);
    assert Lex(t, 0, Code) == [t[0]] + Lex(t, 1, Code);
  }

  lemma OpenBlockHolds(s: string, n: nat)
    ensures OpenBlockLaw(Strip, s, n)
  {
    if FirstComment(s, n, '*') && (forall k :: n + 2 <= k < |s| ==> !EndAt(s, k)) {
      hide Lex, OpeningAt, NoOpeningBefore, EndAt, Strip;
      FirstOpening(s, n);
      OpeningIff(s, n);
      BlockIsBlanked(s, n + 2, |s|);
      OpensAs(s, n);
      BlankTwo(s, n, |s|);
      LexAtEnd(s);
      assert s[n..] == s[n..|s|];
    }
  }

  lemma LexAtEnd(s: string)
    ensures Lex(s, |s|, BlockComment) == ""
  {
  }

  /** Stripping obeys the four laws. */
  lemma StripObeysLaws()
    ensures Laws(Strip)
  {
    hide PlainLaw, LineLaw, BlockLaw, OpenBlockLaw;
    forall s ensures PlainLaw(Strip, s) {
      PlainHolds(s);
    }
    forall s, n: nat, e: nat ensures LineLaw(Strip, s, n, e) {
      LineHolds(s, n, e);
    }
    forall s, n: nat, e: nat ensures BlockLaw(Strip, s, n, e) {
      BlockHolds(s, n, e);
    }
    forall s, n: nat ensures OpenBlockLaw(Strip, s, n) {
      OpenBlockHolds(s, n);
    }
  }

  // ---- nothing else does ----

  lemma {:induction false} FindOpening(s: string, from: nat) returns (n: nat)
    requires from <= |s| && NoOpeningBefore(s, from)
    ensures n <= |s| && NoOpeningBefore(s, n) && (n < |s| ==> OpeningAt(s, n))
    decreases |s| - from
  {
    if from == |s| || OpeningAt(s, from) {
      n := from;
    } else {
      n := FindOpening(s, from + 1);
    }
  }

  lemma {:induction false} FindNewline(s: string, from: nat) returns (e: nat)
    requires from <= |s|
    ensures from <= e <= |s| && (e == |s| || s[e] == '\n') && forall k :: from <= k < e ==> s[k] != '\n'
    decreases |s| - from
  {
    if from == |s| || s[from] == '\n' {
      e := from;
    } else {
      e := FindNewline(s, from + 1);
    }
  }

  lemma {:induction false} FindEnd(s: string, from: nat) returns (e: nat)
    requires from <= |s|
    ensures from <= e <= |s| && (e < |s| ==> EndAt(s, e)) && forall k :: from <= k < e ==> !EndAt(s, k)
    decreases |s| - from
  {
    if from == |s| || EndAt(s, from) {
      e := from;
    } else {
      e := FindEnd(s, from + 1);
    }
  }

  /** The laws determine the result on every text: a function that obeys them is stripping. */
  lemma {:induction false} OnlyStripObeysLaws(f: string -> string, s: string)
    requires Laws(f)
    ensures f(s) == Strip(s)
    decreases |s|
  {
    StripObeysLaws();
    hide OpeningAt, EndAt, NoOpeningBefore, Strip, BlankOut;
    var n := FindOpening(s, 0);
    if n == |s| {
      assert PlainLaw(f, s) && PlainLaw(Strip, s);
    } else {
      OpeningKinds(s, n);
      if s[n + 1] == '/' {
        var e := FindNewline(s, n + 2);
        assert LineLaw(f, s, n, e) && LineLaw(Strip, s, n, e);
        OnlyStripObeysLaws(f, s[e..]);
      } else {
        var e := FindEnd(s, n + 2);
        if e == |s| {
          assert OpenBlockLaw(f, s, n) && OpenBlockLaw(Strip, s, n);
        } else {
          EndBound(s, e);
          assert BlockLaw(f, s, n, e) && BlockLaw(Strip, s, n, e);
          OnlyStripObeysLaws(f, "x" + s[e + 2..]);
        }
      }
    }
  }

  lemma OpeningKinds(s: string, n: nat)
    requires OpeningAt(s, n)
    ensures n + 2 <= |s| && (s[n + 1] == '/' || s[n + 1] == '*')
  {
    OpeningIff(s, n);
  }

  lemma EndBound(s: string, e: nat)
    requires EndAt(s, e)
    ensures e + 2 <= |s|
  {
  }
}
