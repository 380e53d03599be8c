/** The JavaScript string operations the BFF layer and the scaffolder rely on,
    stated over Dafny strings (`seq<char>`, one Unicode scalar value per
    element). */
module Text {

  datatype Option<+T> = None | Some(value: T)

  /** JavaScript truthiness of an optional string: present and not empty. */
  predicate TruthyStr(s: Option<string>) {
    s.Some? && s.value != ""
  }

  /** JavaScript truthiness of an optional number: present and not zero. */
  predicate TruthyInt(n: Option<int>) {
    n.Some? && n.value != 0
  }

  // ---------------------------------------------------------------------------
  // Searching: indexOf, includes, replace

  predicate OccursAt(s: string, sub: string, i: nat) {
    i + |sub| <= |s| && s[i..i + |sub|] == sub
  }

  /** The first index at or after `from` where `sub` occurs in `s`. */
  function IndexFrom(s: string, sub: string, from: nat): (r: Option<nat>)
    requires from <= |s|
    ensures r.Some? ==> from <= r.value && OccursAt(s, sub, r.value)
    ensures r.Some? ==> forall j :: from <= j < r.value ==> !OccursAt(s, sub, j)
    ensures r.None? ==> forall j :: from <= j <= |s| ==> !OccursAt(s, sub, j)
    decreases |s| - from
  {
    if OccursAt(s, sub, from) then Some(from)
    else if from == |s| then None
    else IndexFrom(s, sub, from + 1)
  }

  /** `s.indexOf(sub)`, with "not found" as None. */
  function IndexOf(s: string, sub: string): (r: Option<nat>)
    ensures r.Some? ==> OccursAt(s, sub, r.value)
    ensures r.Some? ==> forall j :: 0 <= j < r.value ==> !OccursAt(s, sub, j)
    ensures r.None? ==> forall j :: 0 <= j <= |s| ==> !OccursAt(s, sub, j)
  {
    IndexFrom(s, sub, 0)
  }

  /** `s.includes(sub)` */
  predicate Contains(s: string, sub: string) {
    IndexOf(s, sub).Some?
  }

  lemma ContainsAt(s: string, sub: string, i: nat)
    requires OccursAt(s, sub, i)
    ensures Contains(s, sub)
  {
  }

  /** `s.replace(pattern, replacement)` with a string pattern: only the first
      occurrence is replaced. */
  function ReplaceFirst(s: string, pattern: string, replacement: string): (r: string)
    ensures IndexOf(s, pattern).None? ==> r == s
    ensures IndexOf(s, pattern).Some? ==>
      var i := IndexOf(s, pattern).value;
      r == s[..i] + replacement + s[i + |pattern|..]
  {
    match IndexOf(s, pattern)
    case None => s
    case Some(i) => s[..i] + replacement + s[i + |pattern|..]
  }

  predicate StartsWith(s: string, prefix: string) {
    |prefix| <= |s| && s[..|prefix|] == prefix
  }

  // ---------------------------------------------------------------------------
  // Case folding: toLowerCase, restricted to ASCII letters

  function LowerChar(c: char): char {
    if 'A' <= c <= 'Z' then (c as int + 32) as char else c
  }

  function ToLower(s: string): (r: string)
    ensures |r| == |s|
    ensures forall i :: 0 <= i < |s| ==> r[i] == LowerChar(s[i])
  {
    if s == [] then [] else [LowerChar(s[0])] + ToLower(s[1..])
  }

  /** Case-insensitive `includes`, as the source writes it:
      `a.toLowerCase().includes(b.toLowerCase())`. */
  predicate ContainsIgnoringCase(s: string, sub: string) {
    Contains(ToLower(s), ToLower(sub))
  }

  // ---------------------------------------------------------------------------
  // trim

  /** ECMAScript WhiteSpace and LineTerminator code points, which `trim`
      removes. */
  predicate IsWhitespace(c: char) {
    c == ' ' || c == '\t' || c == '\n' || c == '\r' || c == '\U{000B}' || c == '\U{000C}'
    || c == '\U{00A0}' || c == '\U{1680}' || ('\U{2000}' <= c <= '\U{200A}')
    || c == '\U{2028}' || c == '\U{2029}' || c == '\U{202F}' || c == '\U{205F}'
    || c == '\U{3000}' || c == '\U{FEFF}'
  }

  function TrimStart(s: string): (r: string)
    ensures |r| <= |s| && r == s[|s| - |r|..]
    ensures r != [] ==> !IsWhitespace(r[0])
    ensures forall i :: 0 <= i < |s| - |r| ==> IsWhitespace(s[i])
  {
    if s != [] && IsWhitespace(s[0]) then TrimStart(s[1..]) else s
  }

  function TrimEnd(s: string): (r: string)
    ensures |r| <= |s| && r == s[..|r|]
    ensures r != [] ==> !IsWhitespace(r[|r| - 1])
    ensures forall i :: |r| <= i < |s| ==> IsWhitespace(s[i])
  {
    if s != [] && IsWhitespace(s[|s| - 1]) then TrimEnd(s[..|s| - 1]) else s
  }

  /** `s.trim()`: leading whitespace is cut first, then trailing whitespace;
      the result neither starts nor ends with whitespace. */
  function Trim(s: string): (r: string)
    ensures |r| <= |s|
    ensures r != [] ==> !IsWhitespace(r[0]) && !IsWhitespace(r[|r| - 1])
  {
    TrimEnd(TrimStart(s))
  }

  /** `s.trim()` is the stretch `s[i..j]` of `s` left when only whitespace is
      cut away at either end. */
  lemma TrimBounds(s: string) returns (i: nat, j: nat)
    ensures i <= j <= |s| && Trim(s) == s[i..j]
    ensures forall k :: 0 <= k < i ==> IsWhitespace(s[k])
    ensures forall k :: j <= k < |s| ==> IsWhitespace(s[k])
    ensures i < j ==> !IsWhitespace(s[i]) && !IsWhitespace(s[j - 1])
  {
    i := |s| - |TrimStart(s)|;
    assert TrimStart(s) == s[i..];
    j := TrimEndOfSuffix(s, i);
    if i < j {
      assert s[i] == s[i..][0];
    }
  }

  /** `TrimEnd` of the suffix `s[i..]` ends at some `j`, with only whitespace
      after it. */
  lemma TrimEndOfSuffix(s: string, i: nat) returns (j: nat)
    requires i <= |s|
    ensures i <= j <= |s| && TrimEnd(s[i..]) == s[i..j]
    ensures forall k :: j <= k < |s| ==> IsWhitespace(s[k])
    ensures i < j ==> !IsWhitespace(s[j - 1])
  {
    var front := s[i..];
    var t := TrimEnd(front);
    j := i + |t|;
    assert t == front[..|t|];
    assert front[..|t|] == s[i..j];
    forall k | j <= k < |s| ensures IsWhitespace(s[k]) {
      assert s[k] == front[k - i];
    }
    if i < j {
      assert s[j - 1] == t[|t| - 1];
    }
  }

  /** The same for the trim of a prefix `s[..n]`, stated on `s`. */
  lemma TrimPrefixBounds(s: string, n: nat) returns (i: nat, j: nat)
    requires n <= |s|
    ensures i <= j <= n && Trim(s[..n]) == s[i..j]
    ensures forall k :: 0 <= k < i ==> IsWhitespace(s[k])
    ensures forall k :: j <= k < n ==> IsWhitespace(s[k])
    ensures i < j ==> !IsWhitespace(s[i]) && !IsWhitespace(s[j - 1])
  {
    var p := s[..n];
    i, j := TrimBounds(p);
    assert p[i..j] == s[i..j];
    forall k | 0 <= k < i ensures IsWhitespace(s[k]) {
      assert IsWhitespace(p[k]);
      assert p[k] == s[k];
    }
    forall k | j <= k < n ensures IsWhitespace(s[k]) {
      assert IsWhitespace(p[k]);
      assert p[k] == s[k];
    }
    if i < j {
      assert p[i] == s[i];
      assert p[j - 1] == s[j - 1];
    }
  }


  /** A string that already starts and ends with a non-whitespace character,
      wrapped in whitespace, trims back to itself. */
  lemma {:induction false} TrimWrapped(pre: string, s: string, post: string)
    requires forall i :: 0 <= i < |pre| ==> IsWhitespace(pre[i])
    requires forall i :: 0 <= i < |post| ==> IsWhitespace(post[i])
    requires s != [] && !IsWhitespace(s[0]) && !IsWhitespace(s[|s| - 1])
    ensures Trim(pre + s + post) == s
  {
    TrimStartWrapped(pre, s + post);
    assert TrimStart(pre + s + post) == s + post by {
      assert pre + s + post == pre + (s + post);
    }
    TrimEndWrapped(s, post);
  }

  lemma {:induction false} TrimStartWrapped(pre: string, s: string)
    requires forall i :: 0 <= i < |pre| ==> IsWhitespace(pre[i])
    requires s != [] && !IsWhitespace(s[0])
    ensures TrimStart(pre + s) == s
  {
    if pre != [] {
      assert (pre + s)[0] == pre[0];
      assert (pre + s)[1..] == pre[1..] + s;
      forall i | 0 <= i < |pre[1..]| ensures IsWhitespace(pre[1..][i]) {
        assert pre[1..][i] == pre[i + 1];
      }
      TrimStartWrapped(pre[1..], s);
    } else {
      assert pre + s == s;
    }
  }

  lemma {:induction false} TrimEndWrapped(s: string, post: string)
    requires forall i :: 0 <= i < |post| ==> IsWhitespace(post[i])
    requires s != [] && !IsWhitespace(s[|s| - 1])
    ensures TrimEnd(s + post) == s
  {
    if post != [] {
      assert (s + post)[..|s + post| - 1] == s + post[..|post| - 1];
      TrimEndWrapped(s, post[..|post| - 1]);
    }
  }

  // ---------------------------------------------------------------------------
  // join and line splitting

  /** `parts.join(sep)` */
  function Join(parts: seq<string>, sep: string): string {
    if |parts| == 0 then ""
    else if |parts| == 1 then parts[0]
    else parts[0] + sep + Join(parts[1..], sep)
  }

  lemma JoinTwo(a: string, b: string, sep: string)
    ensures Join([a, b], sep) == a + sep + b
  {
    assert [a, b][1..] == [b];
  }

  /** Joining two non-empty lists joins their joins. */
  lemma {:induction false} JoinAppend(a: seq<string>, b: seq<string>, sep: string)
    requires |a| >= 1 && |b| >= 1
    ensures Join(a + b, sep) == Join(a, sep) + sep + Join(b, sep)
  {
    if |a| > 1 {
      assert (a + b)[1..] == a[1..] + b;
      JoinAppend(a[1..], b, sep);
    }
  }

  /** Wrapping every part in `pre` and `post` and joining with `sep` is the
      join of the parts with `post + sep + pre`, wrapped once. */
  lemma {:induction false} JoinWrapped(parts: seq<string>, pre: string, post: string, sep: string)
    requires |parts| >= 1
    ensures Join(seq(|parts|, k requires 0 <= k < |parts| => pre + parts[k] + post), sep)
      == pre + Join(parts, post + sep + pre) + post
  {
    var wrapped := seq(|parts|, k requires 0 <= k < |parts| => pre + parts[k] + post);
    if |parts| > 1 {
      var rest := seq(|parts| - 1, k requires 0 <= k < |parts| - 1 => pre + parts[1..][k] + post);
      assert wrapped[1..] == rest;
      JoinWrapped(parts[1..], pre, post, sep);
    }
  }

  /** A join starts where its first part starts. */
  lemma JoinFirst(parts: seq<string>, sep: string)
    requires |parts| >= 1 && parts[0] != ""
    ensures Join(parts, sep) != [] && Join(parts, sep)[0] == parts[0][0]
  {
  }

  /** A join ends where its last part ends. */
  lemma {:induction false} JoinLast(parts: seq<string>, sep: string)
    requires |parts| >= 1 && parts[|parts| - 1] != ""
    ensures var j := Join(parts, sep); j != [] && j[|j| - 1] == parts[|parts| - 1][|parts[|parts| - 1]| - 1]
  {
    if |parts| > 1 {
      JoinLast(parts[1..], sep);
    }
  }

  /** The lines of `s`, split at every '\n' (the inverse of joining with
      "\n"). */
  function Lines(s: string): (r: seq<string>)
    ensures |r| >= 1
    decreases |s|
  {
    match IndexOf(s, "\n")
    case None => [s]
    case Some(i) => [s[..i]] + Lines(s[i + 1..])
  }

  predicate NoNewline(s: string) {
    '\n' !in s
  }

  lemma NoNewlineConcat(a: string, b: string)
    requires NoNewline(a) && NoNewline(b)
    ensures NoNewline(a + b)
  {
    forall i | 0 <= i < |a + b| ensures (a + b)[i] != '\n' {
      if i >= |a| { assert (a + b)[i] == b[i - |a|]; }
    }
  }

  lemma NoNewlineNotFound(s: string)
    requires NoNewline(s)
    ensures IndexOf(s, "\n").None?
  {
    forall j | 0 <= j <= |s| ensures !OccursAt(s, "\n", j) {
      if j + 1 <= |s| {
        assert s[j..j + 1][0] == s[j];
      }
    }
  }

  /** Splitting a "\n"-join of newline-free lines gives the lines back. */
  lemma {:induction false} LinesOfJoin(parts: seq<string>)
    requires |parts| >= 1
    requires forall k :: 0 <= k < |parts| ==> NoNewline(parts[k])
    ensures Lines(Join(parts, "\n")) == parts
  {
    if |parts| == 1 {
      NoNewlineNotFound(parts[0]);
    } else {
      var s := Join(parts, "\n");
      var p := parts[0];
      assert s == p + "\n" + Join(parts[1..], "\n");
      assert s[|p|..|p| + 1] == "\n";
      forall j | 0 <= j < |p| ensures !OccursAt(s, "\n", j) {
        assert s[j] == p[j];
        assert s[j..j + 1][0] == s[j];
      }
      assert OccursAt(s, "\n", |p|);
      assert IndexOf(s, "\n") == Some(|p|);
      assert s[..|p|] == p;
      assert s[|p| + 1..] == Join(parts[1..], "\n");
      LinesOfJoin(parts[1..]);
      assert [p] + parts[1..] == parts;
    }
  }

  // ---------------------------------------------------------------------------
  // String(n) for integers

  function DigitChar(d: int): (c: char)
    requires 0 <= d < 10
    ensures '0' <= c <= '9'
  {
    ('0' as int + d) as char
  }

  function NatToString(n: nat): (r: string)
    ensures |r| >= 1
    ensures forall i :: 0 <= i < |r| ==> '0' <= r[i] <= '9'
  {
    if n < 10 then [DigitChar(n)] else NatToString(n / 10) + [DigitChar(n % 10)]
  }

  /** `String(n)` for an integer: decimal digits, with a leading '-' when
      negative. */
  function IntToString(n: int): (r: string)
    ensures |r| >= 1
    ensures (r[0] == '-') <==> n < 0
  {
    if n < 0 then "-" + NatToString(-n) else NatToString(n)
  }

  predicate AllDigits(s: string) {
    forall i :: 0 <= i < |s| ==> '0' <= s[i] <= '9'
  }

  /** The value of a string of decimal digits (`Number(s)` on such a
      string). */
  function DigitsValue(s: string): nat
    requires AllDigits(s)
  {
    if s == [] then 0 else 10 * DigitsValue(s[..|s| - 1]) + (s[|s| - 1] as int - '0' as int)
  }

  /** `Number(s)` on the text `String(n)` produces for an integer. */
  function ParseInt(s: string): int
    requires |s| >= 1
    requires s[0] == '-' ==> AllDigits(s[1..])
    requires s[0] != '-' ==> AllDigits(s)
  {
    if s[0] == '-' then 0 - DigitsValue(s[1..]) as int else DigitsValue(s)
  }

  lemma {:induction false} NatToStringRoundTrip(n: nat)
    ensures DigitsValue(NatToString(n)) == n
  {
    if n >= 10 {
      var s := NatToString(n);
      assert s[..|s| - 1] == NatToString(n / 10);
      NatToStringRoundTrip(n / 10);
    }
  }

  /** `String(n)` loses nothing: reading the text back gives `n`. */
  lemma IntToStringRoundTrip(n: int)
    ensures var s := IntToString(n);
      && (s[0] == '-' ==> AllDigits(s[1..]))
      && (s[0] != '-' ==> AllDigits(s))
      && ParseInt(s) == n
  {
    if n < 0 {
      assert IntToString(n)[1..] == NatToString(-n);
      NatToStringRoundTrip(-n);
    } else {
      NatToStringRoundTrip(n);
    }
  }

  // ---------------------------------------------------------------------------
  // A total order on strings, standing for `localeCompare`.

  /** Lexicographic comparison by code point: -1, 0 or 1. */
  function LexCmp(a: string, b: string): (c: int)
    ensures -1 <= c <= 1
    ensures c == 0 <==> a == b
  {
    if a == [] && b == [] then 0
    else if a == [] then -1
    else if b == [] then 1
    else if a[0] < b[0] then -1
    else if a[0] > b[0] then 1
    else
      var c := LexCmp(a[1..], b[1..]);
      assert c == 0 ==> a == [a[0]] + a[1..] == [b[0]] + b[1..] == b;
      c
  }

  lemma {:induction false} LexCmpAntisymmetric(a: string, b: string)
    ensures LexCmp(a, b) == -LexCmp(b, a)
  {
    if a != [] && b != [] && a[0] == b[0] {
      LexCmpAntisymmetric(a[1..], b[1..]);
    }
  }

  lemma {:induction false} LexCmpTransitive(a: string, b: string, c: string)
    requires LexCmp(a, b) <= 0 && LexCmp(b, c) <= 0
    ensures LexCmp(a, c) <= 0
  {
    if a != [] && b != [] && c != [] && a[0] == b[0] == c[0] {
      LexCmpTransitive(a[1..], b[1..], c[1..]);
    }
  }
}
