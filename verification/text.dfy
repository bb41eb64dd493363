/** The string operations of the standard library the proxy relies on: `find`, `split`, decimal numbers and
    dotted IPv4 addresses, each with the printer that inverts it. */
module Text {
  import opened Basics
  import opened Net

  /** The first position of `c` in `s`, or the length of `s`. */
  function Find(s: string, c: char): (p: nat)
    ensures p <= |s|
    ensures p < |s| ==> s[p] == c
    ensures forall q :: 0 <= q < p ==> s[q] != c
  {
    if s == [] || s[0] == c then 0 else 1 + Find(s[1..], c)
  }

  lemma FindUnique(s: string, c: char, p: nat)
    requires p < |s| && s[p] == c && forall q :: 0 <= q < p ==> s[q] != c
    ensures Find(s, c) == p
  {
  }

  lemma PrefixDrop(a: string, b: string, n: nat)
    requires n <= |a| && n <= |b| && a[..n] == b[..n]
    ensures a <= b <==> a[n..] <= b[n..]
  {
    if a[n..] <= b[n..] {
      forall i | 0 <= i < |a| ensures a[i] == b[i] {
        if i < n {
          assert a[..n][i] == b[..n][i];
        } else {
          assert a[n..][i - n] == b[n..][i - n];
        }
      }
    }
  }

  predicate EndsWith(s: string, suffix: string) {
    |suffix| <= |s| && s[|s| - |suffix|..] == suffix
  }

  // ---- split ----

  /** `str::split` on one character: always at least one part. */
  function Split(s: string, c: char): (parts: seq<string>)
    ensures |parts| >= 1
    decreases |s|
  {
    var p := Find(s, c);
    if p == |s| then [s] else [s[..p]] + Split(s[p + 1..], c)
  }

  lemma SplitLast(s: string, c: char)
    requires c !in s
    ensures Split(s, c) == [s]
  {
  }

  lemma SplitCons(part: string, c: char, rest: string)
    requires c !in part
    ensures Split(part + [c] + rest, c) == [part] + Split(rest, c)
  {
    var s := part + [c] + rest;
    assert s[|part|] == c;
    FindUnique(s, c, |part|);
    assert s[..|part|] == part && s[|part| + 1..] == rest;
  }

  /** Splitting one part off: the parts never contain the separator and put back together give the text. */
  lemma SplitParts(s: string, c: char) returns (rest: string)
    ensures |Split(s, c)| >= 1 && c !in Split(s, c)[0]
    ensures |Split(s, c)| == 1 ==> s == Split(s, c)[0]
    ensures |Split(s, c)| > 1 ==> s == Split(s, c)[0] + [c] + rest && Split(s, c)[1..] == Split(rest, c)
  {
    var p := Find(s, c);
    if p < |s| {
      SplitHead(s, c);
      rest := s[p + 1..];
      hide Split, Find;
      assert s == s[..p] + [c] + rest;
    } else {
      SplitLast(s, c);
      rest := "";
    }
  }

  lemma SplitHead(s: string, c: char)
    requires Find(s, c) < |s|
    ensures Split(s, c) == [s[..Find(s, c)]] + Split(s[Find(s, c) + 1..], c)
    ensures Split(s, c)[1..] == Split(s[Find(s, c) + 1..], c)
  {
    hide Find;
    var p := Find(s, c);
    assert Split(s, c) == [s[..p]] + Split(s[p + 1..], c);
  }

  // ---- decimal numbers ----

  predicate IsDigit(c: char) {
    '0' <= c <= '9'
  }

  predicate AllDigits(s: string) {
    forall i :: 0 <= i < |s| ==> IsDigit(s[i])
  }

  function Digit(n: nat): (c: char)
    requires n < 10
    ensures IsDigit(c) && DigitValue(c) == n
  {
    '0' + n as char
  }

  function DigitValue(c: char): (n: nat)
    requires IsDigit(c)
    ensures n < 10
  {
    (c - '0') as int
  }

  function Value(s: string): nat
    requires AllDigits(s)
  {
    if s == [] then 0 else 10 * Value(s[..|s| - 1]) + DigitValue(s[|s| - 1])
  }

  function Print(n: nat): (s: string)
    ensures |s| > 0 && AllDigits(s)
  {
    if n < 10 then [Digit(n)] else Print(n / 10) + [Digit(n % 10)]
  }

  /** `uN::from_str`: an optional plus sign, at least one digit, a value within the type. */
  function ParseUint(s: string, max: nat): Option<nat> {
    var digits := if |s| > 0 && s[0] == '+' then s[1..] else s;
    if digits != [] && AllDigits(digits) && Value(digits) <= max then Some(Value(digits)) else None
  }

  lemma {:induction false} PrintValue(n: nat)
    ensures Value(Print(n)) == n
  {
    if n >= 10 {
      PrintValue(n / 10);
      assert Print(n)[..|Print(n)| - 1] == Print(n / 10);
    }
  }

  lemma ParsePrinted(n: nat, max: nat)
    requires n <= max
    ensures ParseUint(Print(n), max) == Some(n)
  {
    PrintValue(n);
    assert IsDigit(Print(n)[0]);
  }

  /** Decimal notation: one digit stands for itself, and a digit behind a number for ten times the number more. */
  lemma PrintIsDecimal(n: nat, d: nat)
    requires d < 10
    ensures Print(d) == [['0', '1', '2', '3', '4', '5', '6', '7', '8', '9'][d]]
    ensures n > 0 ==> Print(10 * n + d) == Print(n) + Print(d)
  {
  }

  /** A plus sign in front of a number does not count. */
  lemma ParseSigned(n: nat, max: nat)
    ensures ParseUint("+" + Print(n), max) == ParseUint(Print(n), max)
  {
    assert ("+" + Print(n))[1..] == Print(n);
    PrintValue(n);
    assert IsDigit(Print(n)[0]);
  }

  /** No leading zero. */
  predicate Canonical(s: string) {
    AllDigits(s) && s != [] && (|s| == 1 || s[0] != '0')
  }

  lemma {:induction false} PrintCanonical(n: nat)
    ensures Canonical(Print(n)) && (n > 0 ==> Print(n)[0] != '0')
  {
    if n >= 10 {
      PrintCanonical(n / 10);
      assert Print(n)[0] == Print(n / 10)[0];
    } else if n > 0 {
      assert DigitValue(Print(n)[0]) == n;
    }
  }

  lemma {:induction false} CanonicalIsPrinted(s: string)
    requires Canonical(s)
    ensures Print(Value(s)) == s
    ensures s[0] != '0' ==> Value(s) > 0
  {
    var t, d := s[..|s| - 1], s[|s| - 1];
    if t == [] {
      assert Value(s) == DigitValue(d);
      DigitUnique(d);
      assert s == [d];
    } else {
      CanonicalIsPrinted(t);
      DigitUnique(d);
      assert s == t + [d];
    }
  }

  lemma DigitUnique(c: char)
    requires IsDigit(c)
    ensures Digit(DigitValue(c)) == c
  {
  }

  lemma {:induction false} PrintLength(n: nat, k: nat)
    requires k > 0 && n < Pow10(k)
    ensures |Print(n)| <= k
  {
    if n >= 10 {
      PrintLength(n / 10, k - 1);
    }
  }

  function Pow10(k: nat): (p: nat)
    ensures p > 0
  {
    if k == 0 then 1 else 10 * Pow10(k - 1)
  }

  // ---- IPv4 addresses ----

  /** One to three digits without a leading zero, at most 255. */
  function ParseOctet(s: string): Option<byte> {
    if Canonical(s) && |s| <= 3 && Value(s) <= 255 then Some(Value(s) as byte) else None
  }

  function PrintOctet(b: byte): string {
    Print(b as nat)
  }

  /** An octet has exactly one spelling. */
  lemma OctetSpelling(s: string, b: byte)
    ensures ParseOctet(s) == Some(b) <==> s == PrintOctet(b)
  {
    var n := b as nat;
    PrintValue(n);
    PrintCanonical(n);
    assert Pow10(3) == 1000 by {
      assert Pow10(0) == 1 && Pow10(1) == 10 && Pow10(2) == 100;
    }
    PrintLength(n, 3);
    if Canonical(s) {
      CanonicalIsPrinted(s);
    }
  }

  /** `Ipv4Addr::from_str`. */
  function ParseIpv4(s: string): Option<Ipv4> {
    var parts := Split(s, '.');
    if |parts| != 4 then None
    else
      match (ParseOctet(parts[0]), ParseOctet(parts[1]), ParseOctet(parts[2]), ParseOctet(parts[3]))
      case (Some(a), Some(b), Some(c), Some(d)) => Some(Ipv4(a, b, c, d))
      case _ => None
  }

  function PrintIpv4(ip: Ipv4): string {
    PrintOctet(ip.a) + "." + (PrintOctet(ip.b) + "." + (PrintOctet(ip.c) + "." + PrintOctet(ip.d)))
  }

  lemma Ipv4Text(ip: Ipv4)
    ensures PrintIpv4(ip) ==
      Print(ip.a as nat) + "." + Print(ip.b as nat) + "." + Print(ip.c as nat) + "." + Print(ip.d as nat)
  {
    assert "." == ['.'];
  }

  lemma OctetHasNo(b: byte, c: char)
    requires !IsDigit(c)
    ensures c !in PrintOctet(b)
  {
  }

  /** Four pieces without the separator, joined, split back into the same pieces. */
  lemma SplitFour(a: string, b: string, c: string, d: string, sep: char)
    requires sep !in a && sep !in b && sep !in c && sep !in d
    ensures Split(a + [sep] + (b + [sep] + (c + [sep] + d)), sep) == [a, b, c, d]
  {
    hide Split;
    var last := c + [sep] + d;
    var rest := b + [sep] + last;
    SplitCons(a, sep, rest);
    SplitCons(b, sep, last);
    SplitCons(c, sep, d);
    SplitLast(d, sep);
    assert Split(last, sep) == [c, d];
    assert Split(rest, sep) == [b, c, d];
  }

  lemma PrintedIpv4Parts(ip: Ipv4)
    ensures Split(PrintIpv4(ip), '.') == [PrintOctet(ip.a), PrintOctet(ip.b), PrintOctet(ip.c), PrintOctet(ip.d)]
  {
    OctetHasNo(ip.a, '.');
    OctetHasNo(ip.b, '.');
    OctetHasNo(ip.c, '.');
    OctetHasNo(ip.d, '.');
    hide Split, PrintOctet;
    SplitFour(PrintOctet(ip.a), PrintOctet(ip.b), PrintOctet(ip.c), PrintOctet(ip.d), '.');
  }

  /** Four parts in order put back together. */
  lemma FourParts(s: string, c: char)
    requires |Split(s, c)| == 4
    ensures var p := Split(s, c); s == p[0] + [c] + (p[1] + [c] + (p[2] + [c] + p[3]))
    ensures var p := Split(s, c); c !in p[0] && c !in p[1] && c !in p[2] && c !in p[3]
  {
    hide Split, Find;
    var s1 := SplitParts(s, c);
    var s2 := SplitParts(s1, c);
    var s3 := SplitParts(s2, c);
    var _ := SplitParts(s3, c);
  }

  /** An IPv4 address has exactly one spelling. */
  lemma Ipv4Spelling(s: string, ip: Ipv4)
    ensures ParseIpv4(s) == Some(ip) <==> s == PrintIpv4(ip)
  {
    PrintedIpv4Parts(ip);
    var parts := Split(s, '.');
    if |parts| == 4 {
      FourParts(s, '.');
      OctetSpelling(parts[0], ip.a);
      OctetSpelling(parts[1], ip.b);
      OctetSpelling(parts[2], ip.c);
      OctetSpelling(parts[3], ip.d);
    }
  }
}
