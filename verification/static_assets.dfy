/** Which resources count as static assets: `is_static_asset` and `is_uncacheable_entrypoint` in src/cache.rs. */
module StaticAssets {
  import opened Basics
  import opened Text

  predicate ContainsText(s: string, sub: string) {
    sub <= s || (s != "" && ContainsText(s[1..], sub))
  }

  predicate OccursAt(s: string, i: int, sub: string) {
    0 <= i <= |s| - |sub| && s[i..i + |sub|] == sub
  }

  /** Containing a text is having it as a slice. */
  lemma {:induction false} ContainsTextIff(s: string, sub: string)
    ensures ContainsText(s, sub) <==> exists i :: OccursAt(s, i, sub)
  {
    if sub <= s {
      assert OccursAt(s, 0, sub);
    } else if s != "" {
      ContainsTextIff(s[1..], sub);
      forall i | OccursAt(s[1..], i, sub) ensures OccursAt(s, i + 1, sub) {
        assert s[i + 1..i + 1 + |sub|] == s[1..][i..i + |sub|];
      }
      forall i | OccursAt(s, i, sub) ensures i > 0 && OccursAt(s[1..], i - 1, sub) {
        assert i > 0 ==> s[1..][i - 1..i - 1 + |sub|] == s[i..i + |sub|];
      }
    }
  }

  /** `str::to_lowercase` as far as a comparison with ASCII text can tell: of the capitals outside ASCII only these two
      have ASCII letters in lower case. */
  function LowerChar(c: char): string {
    if 'A' <= c <= 'Z' then [c + 32 as char]
    else if c == '\U{212A}' then "k"
    else if c == '\U{0130}' then "i\U{0307}"
    else [c]
  }

  function Lower(s: string): string {
    if s == "" then "" else LowerChar(s[0]) + Lower(s[1..])
  }

  predicate EndsWithAny(s: string, suffixes: seq<string>) {
    exists k :: 0 <= k < |suffixes| && EndsWith(s, suffixes[k])
  }

  predicate ContainsAny(s: string, parts: seq<string>) {
    exists k :: 0 <= k < |parts| && ContainsText(s, parts[k])
  }

  const ENTRYPOINT_SUFFIXES := ["sw.js", ".webmanifest", ".html"]
  const ENTRYPOINT_PARTS := ["service-worker", "registersw", "workbox"]
  const STATIC_SUFFIXES :=
    [".css", ".js", ".png", ".jpg", ".jpeg", ".svg", ".ico", ".woff2", ".woff", ".ttf", ".webp", ".json", ".wasm"]
  const STATIC_TYPES := ["text/css", "application/javascript", "text/javascript", "image/", "font/", "application/wasm"]

  /** Service workers, manifests and HTML pages, told by the end or a part of path and query. */
  predicate IsEntrypoint(path: string) {
    EndsWithAny(Lower(path), ENTRYPOINT_SUFFIXES) || ContainsAny(Lower(path), ENTRYPOINT_PARTS) || Lower(path) == "/"
  }

  predicate IsStaticAsset(path: string, contentType: Option<string>) {
    if IsEntrypoint(path) then false
    else if EndsWithAny(Lower(path), STATIC_SUFFIXES) then true
    else if contentType.None? || ContainsText(Lower(contentType.value), "text/html") then false
    else ContainsAny(Lower(contentType.value), STATIC_TYPES)
  }

  /** The ends and parts that make an entry point, in any case of the letters. */
  lemma EntrypointIff(path: string)
    ensures var p := Lower(path);
      IsEntrypoint(path) <==>
        || EndsWith(p, "sw.js") || EndsWith(p, ".webmanifest") || EndsWith(p, ".html") || p == "/"
        || (exists i :: OccursAt(p, i, "service-worker")) || (exists i :: OccursAt(p, i, "registersw"))
        || (exists i :: OccursAt(p, i, "workbox"))
  {
    var p := Lower(path);
    ContainsTextIff(p, "service-worker");
    ContainsTextIff(p, "registersw");
    ContainsTextIff(p, "workbox");
    hide Lower, EndsWith, ContainsText, OccursAt;
    EntrypointTables(p);
  }

  lemma EntrypointTables(p: string)
    ensures EndsWithAny(p, ENTRYPOINT_SUFFIXES) <==>
      EndsWith(p, "sw.js") || EndsWith(p, ".webmanifest") || EndsWith(p, ".html")
    ensures ContainsAny(p, ENTRYPOINT_PARTS) <==>
      ContainsText(p, "service-worker") || ContainsText(p, "registersw") || ContainsText(p, "workbox")
  {
    hide EndsWith, ContainsText;
    var s, c := ENTRYPOINT_SUFFIXES, ENTRYPOINT_PARTS;
    assert s[0] == "sw.js" && s[1] == ".webmanifest" && s[2] == ".html" && |s| == 3;
    assert c[0] == "service-worker" && c[1] == "registersw" && c[2] == "workbox" && |c| == 3;
  }

  /** The endings that make a path static, and the content types that do so for any other path. */
  lemma StaticIff(path: string, contentType: Option<string>)
    ensures IsStaticAsset(path, contentType) <==>
      !IsEntrypoint(path) && (StaticEnding(Lower(path)) || (contentType.Some? && StaticType(Lower(contentType.value))))
  {
    hide Lower, IsEntrypoint, EndsWith, ContainsText;
    StaticTables(Lower(path));
    if contentType.Some? {
      StaticTables(Lower(contentType.value));
    }
  }

  predicate StaticEnding(p: string) {
    || EndsWith(p, ".css") || EndsWith(p, ".js") || EndsWith(p, ".png") || EndsWith(p, ".jpg") || EndsWith(p, ".jpeg")
    || EndsWith(p, ".svg") || EndsWith(p, ".ico") || EndsWith(p, ".woff2") || EndsWith(p, ".woff")
    || EndsWith(p, ".ttf") || EndsWith(p, ".webp") || EndsWith(p, ".json") || EndsWith(p, ".wasm")
  }

  predicate StaticType(t: string) {
    && !ContainsText(t, "text/html")
    && (|| ContainsText(t, "text/css") || ContainsText(t, "application/javascript")
        || ContainsText(t, "text/javascript")
        || ContainsText(t, "image/") || ContainsText(t, "font/") || ContainsText(t, "application/wasm"))
  }

  lemma StaticTables(p: string)
    ensures EndsWithAny(p, STATIC_SUFFIXES) <==> StaticEnding(p)
    ensures !ContainsText(p, "text/html") && ContainsAny(p, STATIC_TYPES) <==> StaticType(p)
  {
    hide EndsWith, ContainsText;
    var s, c := STATIC_SUFFIXES, STATIC_TYPES;
    assert s[0] == ".css" && s[1] == ".js" && s[2] == ".png" && s[3] == ".jpg" && s[4] == ".jpeg" && s[5] == ".svg";
    assert s[6] == ".ico" && s[7] == ".woff2" && s[8] == ".woff" && s[9] == ".ttf" && s[10] == ".webp";
    assert s[11] == ".json" && s[12] == ".wasm" && |s| == 13;
    assert c[0] == "text/css" && c[1] == "application/javascript" && c[2] == "text/javascript" && c[3] == "image/";
    assert c[4] == "font/" && c[5] == "application/wasm" && |c| == 6;
  }

  /** Lower-casing ASCII text. */
  lemma {:induction false} LowerAscii(s: string)
    requires forall i :: 0 <= i < |s| ==> s[i] < 128 as char
    ensures |Lower(s)| == |s|
    ensures forall i :: 0 <= i < |s| ==> Lower(s)[i] == if 'A' <= s[i] <= 'Z' then s[i] + 32 as char else s[i]
  {
    if s != "" {
      LowerAscii(s[1..]);
      assert forall i :: 0 < i < |s| ==> s[i] == s[1..][i - 1];
    }
  }

  // ---- which paths can be static at all ----

  const IMAGE := "image/png"
  const SCRIPT := "text/javascript"

  lemma {:induction false} NoPartWithout(s: string, sub: string, c: char)
    requires c in sub && c !in s
    ensures !ContainsText(s, sub)
  {
    if s != "" {
      NoPartWithout(s[1..], sub, c);
    }
  }

  lemma {:induction false} ShorterHasNoPart(s: string, sub: string)
    requires |s| < |sub|
    ensures !ContainsText(s, sub)
  {
    if s != "" {
      ShorterHasNoPart(s[1..], sub);
    }
  }

  lemma {:induction false} LowerStays(s: string)
    requires forall i :: 0 <= i < |s| ==> 'a' <= s[i] <= 'z' || s[i] == '/'
    ensures Lower(s) == s
  {
    if s != "" {
      LowerStays(s[1..]);
      assert s == [s[0]] + s[1..];
    }
  }

  lemma ImageIsStatic(path: string)
    requires !IsEntrypoint(path)
    ensures IsStaticAsset(path, Some(IMAGE))
  {
    assert STATIC_TYPES[3] == IMAGE[..6];
    TypeIsStatic(path, IMAGE, 3);
  }

  lemma ScriptIsStatic(path: string)
    requires !IsEntrypoint(path)
    ensures IsStaticAsset(path, Some(SCRIPT))
  {
    TypeIsStatic(path, SCRIPT, 2);
  }

  /** A content type that begins with an entry of the table and has no `h`, so that it is not HTML. */
  lemma TypeIsStatic(path: string, contentType: string, k: nat)
    requires !IsEntrypoint(path) && k < |STATIC_TYPES| && STATIC_TYPES[k] <= contentType
    requires forall i :: 0 <= i < |contentType| ==> ('a' <= contentType[i] <= 'z' || contentType[i] == '/')
    requires 'h' !in contentType
    ensures IsStaticAsset(path, Some(contentType))
  {
    hide IsEntrypoint, EndsWithAny;
    LowerStays(contentType);
    assert "text/html"[5] == 'h';
    NoPartWithout(contentType, "text/html", 'h');
    assert ContainsText(contentType, STATIC_TYPES[k]);
  }

  /** No content type makes a resource static exactly when its path and query name an entry point. */
  lemma NeverStaticIff(path: string)
    ensures (forall contentType :: !IsStaticAsset(path, contentType)) <==> IsEntrypoint(path)
  {
    hide IsEntrypoint;
    if !IsEntrypoint(path) {
      ImageIsStatic(path);
    }
  }

  // ---- the query is part of the tested text ----

  lemma {:induction false} LowerConcat(a: string, b: string)
    ensures Lower(a + b) == Lower(a) + Lower(b)
  {
    hide LowerChar;
    if a == "" {
      assert a + b == b;
    } else {
      LowerConcat(a[1..], b);
      assert (a + b)[0] == a[0] && (a + b)[1..] == a[1..] + b;
      assert Lower(a + b) == LowerChar(a[0]) + Lower(a[1..] + b);
    }
  }

  lemma {:induction false} PartsAvoid(a: string, b: string, sub: string)
    requires sub != "" && '?' !in sub
    ensures ContainsText(a + "?" + b, sub) <==> ContainsText(a, sub) || ContainsText(b, sub)
  {
    var s := a + "?" + b;
    PrefixAvoids(a, b, sub);
    if a == "" {
      assert s[1..] == b;
    } else {
      assert s[1..] == a[1..] + "?" + b;
      PartsAvoid(a[1..], b, sub);
    }
  }

  lemma PrefixAvoids(a: string, b: string, sub: string)
    requires '?' !in sub
    ensures sub <= a + "?" + b <==> sub <= a
  {
    var s := a + "?" + b;
    assert s[..|a|] == a;
    if sub <= s {
      if |a| < |sub| {
        PrefixReaches(a, b, sub);
      } else {
        assert sub == s[..|sub|] == a[..|sub|];
      }
    }
  }

  lemma PrefixReaches(a: string, b: string, sub: string)
    requires sub <= a + "?" + b && |a| < |sub|
    ensures '?' in sub
  {
    assert sub[|a|] == (a + "?" + b)[|a|];
  }

  lemma SuffixAvoids(a: string, b: string, suffix: string)
    requires '?' !in suffix
    ensures EndsWith(a + "?" + b, suffix) <==> EndsWith(b, suffix)
  {
    var s := a + "?" + b;
    if |suffix| <= |b| {
      assert s[|s| - |suffix|..] == b[|b| - |suffix|..];
    } else if EndsWith(s, suffix) {
      SuffixReaches(a, b, suffix);
    }
  }

  lemma SuffixReaches(a: string, b: string, suffix: string)
    requires EndsWith(a + "?" + b, suffix) && |b| < |suffix|
    ensures '?' in suffix
  {
    var s := a + "?" + b;
    assert suffix[|suffix| - |b| - 1] == s[|s| - |suffix|..][|suffix| - |b| - 1];
  }

  lemma AnyPartAvoids(a: string, b: string, parts: seq<string>)
    requires forall k :: 0 <= k < |parts| ==> parts[k] != "" && '?' !in parts[k]
    ensures ContainsAny(a + "?" + b, parts) <==> ContainsAny(a, parts) || ContainsAny(b, parts)
  {
    hide ContainsText;
    forall k | 0 <= k < |parts|
      ensures ContainsText(a + "?" + b, parts[k]) <==> ContainsText(a, parts[k]) || ContainsText(b, parts[k])
    {
      PartsAvoid(a, b, parts[k]);
    }
  }

  lemma AnySuffixAvoids(a: string, b: string, suffixes: seq<string>)
    requires forall k :: 0 <= k < |suffixes| ==> '?' !in suffixes[k]
    ensures EndsWithAny(a + "?" + b, suffixes) <==> EndsWithAny(b, suffixes)
  {
    hide EndsWith;
    forall k | 0 <= k < |suffixes| ensures EndsWith(a + "?" + b, suffixes[k]) <==> EndsWith(b, suffixes[k]) {
      SuffixAvoids(a, b, suffixes[k]);
    }
  }

  lemma LowerQuery(path: string, query: string)
    ensures Lower(path + "?" + query) == Lower(path) + "?" + Lower(query)
  {
    LowerConcat(path + "?", query);
    LowerConcat(path, "?");
    assert Lower("?") == "?";
  }

  lemma PartsHaveNoMark()
    ensures forall k :: 0 <= k < |ENTRYPOINT_PARTS| ==> ENTRYPOINT_PARTS[k] != "" && '?' !in ENTRYPOINT_PARTS[k]
  {
  }

  lemma SuffixesHaveNoMark()
    ensures forall k :: 0 <= k < |ENTRYPOINT_SUFFIXES| ==> '?' !in ENTRYPOINT_SUFFIXES[k]
  {
  }

  /** With a query, an entry point is told by a part of path or query or by the end of the query; the end of the path no
      longer counts. */
  lemma QueryDecidesEntrypoint(path: string, query: string)
    ensures IsEntrypoint(path + "?" + query) <==>
      || ContainsAny(Lower(path), ENTRYPOINT_PARTS) || ContainsAny(Lower(query), ENTRYPOINT_PARTS)
      || EndsWithAny(Lower(query), ENTRYPOINT_SUFFIXES)
  {
    hide ContainsAny, EndsWithAny, Lower;
    var a, b := Lower(path), Lower(query);
    LowerQuery(path, query);
    assert (a + "?" + b)[|a|] == '?';
    PartsHaveNoMark();
    AnyPartAvoids(a, b, ENTRYPOINT_PARTS);
    SuffixesHaveNoMark();
    AnySuffixAvoids(a, b, ENTRYPOINT_SUFFIXES);
  }

  /** A service worker that the query turns into a static asset. */
  lemma QueryHidesEntrypoint()
    ensures IsEntrypoint("/sw.js") && !IsEntrypoint("/sw.js?v=1") && IsStaticAsset("/sw.js?v=1", Some(SCRIPT))
  {
    ShortTexts();
    WorkerIsEntrypoint();
    assert "/sw.js" + "?" + "v=1" == "/sw.js?v=1";
    hide ContainsAny, EndsWithAny, Lower, IsEntrypoint, IsStaticAsset;
    QueryDecidesEntrypoint("/sw.js", "v=1");
    ScriptIsStatic("/sw.js?v=1");
  }

  lemma WorkerIsEntrypoint()
    ensures IsEntrypoint("/sw.js")
  {
    hide ContainsAny;
    assert Lower("/sw.js") == "/sw.js";
    assert "/sw.js"[1..] == ENTRYPOINT_SUFFIXES[0];
  }

  lemma ShortTexts()
    ensures !ContainsAny(Lower("/sw.js"), ENTRYPOINT_PARTS) && !ContainsAny(Lower("v=1"), ENTRYPOINT_PARTS)
    ensures !EndsWithAny(Lower("v=1"), ENTRYPOINT_SUFFIXES)
  {
    assert Lower("/sw.js") == "/sw.js" && Lower("v=1") == "v=1";
    hide Lower, ContainsText;
    NoPart("/sw.js");
    NoPart("v=1");
  }

  lemma NoPart(s: string)
    requires |s| < 7
    ensures !ContainsAny(s, ENTRYPOINT_PARTS)
  {
    hide ContainsText;
    forall k | 0 <= k < |ENTRYPOINT_PARTS| ensures !ContainsText(s, ENTRYPOINT_PARTS[k]) {
      ShorterHasNoPart(s, ENTRYPOINT_PARTS[k]);
    }
  }
}
