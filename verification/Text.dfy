/** Text as the program sees it: Unicode characters, their UTF-8 sizes, and the character classes of
    the standard library. */
module Text {
  import opened Types

  /** The bytes a character takes in UTF-8. */
  function Width(c: char): nat {
    var code := c as int;
    if code < 0x80 then 1 else if code < 0x800 then 2 else if code < 0x10000 then 3 else 4
  }

  function Bytes(s: string): nat {
    if s == "" then 0 else Width(s[0]) + Bytes(s[1..])
  }

  lemma {:induction false} BytesAppend(s: string, t: string)
    ensures Bytes(s + t) == Bytes(s) + Bytes(t)
    decreases |s|
  {
    if s == "" {
      assert s + t == t;
    } else {
      assert (s + t)[1..] == s[1..] + t;
      BytesAppend(s[1..], t);
    }
  }

  /** `char::is_whitespace`: the White_Space property. */
  predicate IsWhitespace(c: char) {
    var code := c as int;
    || 0x9 <= code <= 0xD || code == 0x20 || code == 0x85 || code == 0xA0 || code == 0x1680
    || 0x2000 <= code <= 0x200A || code == 0x2028 || code == 0x2029 || code == 0x202F || code == 0x205F
    || code == 0x3000
  }

  /** `char::is_ascii_punctuation`. */
  predicate IsPunctuation(c: char) {
    '!' <= c <= '/' || ':' <= c <= '@' || '[' <= c <= '`' || '{' <= c <= '~'
  }

  function TrimStart(s: string, drop: char -> bool): string {
    if s != "" && drop(s[0]) then TrimStart(s[1..], drop) else s
  }

  function TrimEnd(s: string, drop: char -> bool): string {
    if s != "" && drop(s[|s| - 1]) then TrimEnd(s[..|s| - 1], drop) else s
  }

  /** `trim_matches`. */
  function Trim(s: string, drop: char -> bool): string {
    TrimEnd(TrimStart(s, drop), drop)
  }

  predicate AllOf(s: string, p: char -> bool) {
    forall i | 0 <= i < |s| :: p(s[i])
  }

  lemma AllOfAppend(a: string, b: string, p: char -> bool)
    ensures AllOf(a + b, p) <==> AllOf(a, p) && AllOf(b, p)
  {
    assert forall i | 0 <= i < |a| :: (a + b)[i] == a[i];
    assert forall i | 0 <= i < |b| :: (a + b)[|a| + i] == b[i];
  }

  lemma {:induction false} TrimStartSplits(s: string, drop: char -> bool) returns (pre: string)
    ensures s == pre + TrimStart(s, drop) && AllOf(pre, drop)
    ensures TrimStart(s, drop) != "" ==> !drop(TrimStart(s, drop)[0])
    decreases |s|
  {
    if s != "" && drop(s[0]) {
      var rest := TrimStartSplits(s[1..], drop);
      pre := [s[0]] + rest;
    } else {
      pre := "";
    }
  }

  lemma {:induction false} TrimEndSplits(s: string, drop: char -> bool) returns (post: string)
    ensures s == TrimEnd(s, drop) + post && AllOf(post, drop)
    ensures TrimEnd(s, drop) != "" ==> !drop(TrimEnd(s, drop)[|TrimEnd(s, drop)| - 1])
    decreases |s|
  {
    if s != "" && drop(s[|s| - 1]) {
      var rest := TrimEndSplits(s[..|s| - 1], drop);
      post := rest + [s[|s| - 1]];
    } else {
      post := "";
    }
  }

  /** What is trimmed off is droppable, and what is left starts and ends with something that is not. */
  lemma TrimSplits(s: string, drop: char -> bool) returns (pre: string, post: string)
    ensures s == pre + Trim(s, drop) + post && AllOf(pre, drop) && AllOf(post, drop)
    ensures var t := Trim(s, drop); t != "" ==> !drop(t[0]) && !drop(t[|t| - 1])
  {
    pre := TrimStartSplits(s, drop);
    var start := TrimStart(s, drop);
    post := TrimEndSplits(start, drop);
    assert s == pre + (Trim(s, drop) + post) == pre + Trim(s, drop) + post;
  }

  lemma {:induction false} TrimStartSkips(pre: string, t: string, drop: char -> bool)
    requires AllOf(pre, drop) && t != "" && !drop(t[0])
    ensures TrimStart(pre + t, drop) == t
    decreases |pre|
  {
    if pre == "" {
      assert pre + t == t;
    } else {
      assert (pre + t)[1..] == pre[1..] + t;
      TrimStartSkips(pre[1..], t, drop);
    }
  }

  lemma {:induction false} TrimEndSkips(t: string, post: string, drop: char -> bool)
    requires AllOf(post, drop) && t != "" && !drop(t[|t| - 1])
    ensures TrimEnd(t + post, drop) == t
    decreases |post|
  {
    if post == "" {
      assert t + post == t;
    } else {
      assert (t + post)[..|t + post| - 1] == t + post[..|post| - 1];
      TrimEndSkips(t, post[..|post| - 1], drop);
    }
  }

  /** Trimming finds back what was wrapped in droppable characters. */
  lemma TrimUnwraps(pre: string, t: string, post: string, drop: char -> bool)
    requires AllOf(pre, drop) && AllOf(post, drop) && t != "" && !drop(t[0]) && !drop(t[|t| - 1])
    ensures Trim(pre + t + post, drop) == t
  {
    assert pre + t + post == pre + (t + post);
    TrimStartSkips(pre, t + post, drop);
    TrimEndSkips(t, post, drop);
  }

  /** Splits at the first separator. */
  function SplitOnce(s: string, sep: char): (halves: Option<(string, string)>)
    ensures halves.None? <==> sep !in s
    ensures halves.Some? ==> s == halves.value.0 + [sep] + halves.value.1 && sep !in halves.value.0
  {
    if s == "" then None
    else if s[0] == sep then Some(("", s[1..]))
    else
      match SplitOnce(s[1..], sep)
      case None => None
      case Some((a, b)) => Some(([s[0]] + a, b))
  }

  /** The pieces between separators; at least one, possibly empty. */
  function Split(s: string, sep: char): (pieces: seq<string>)
    ensures pieces != [] && forall p <- pieces :: sep !in p
    decreases |s|
  {
    match SplitOnce(s, sep)
    case None => [s]
    case Some((a, b)) => [a] + Split(b, sep)
  }

  /** The pieces with separators between them. */
  function JoinWith(pieces: seq<string>, sep: char): string {
    if pieces == [] then "" else if |pieces| == 1 then pieces[0] else pieces[0] + [sep] + JoinWith(pieces[1..], sep)
  }

  lemma {:induction false} SplitOnceFinds(a: string, sep: char, b: string)
    requires sep !in a
    ensures SplitOnce(a + [sep] + b, sep) == Some((a, b))
    decreases |a|
  {
    var s := a + [sep] + b;
    if a == "" {
      assert s[1..] == b;
    } else {
      assert a[0] in a && a == [a[0]] + a[1..];
      assert s[0] == a[0] && s[1..] == a[1..] + [sep] + b;
      SplitOnceFinds(a[1..], sep, b);
    }
  }

  /** Splitting undoes joining. */
  lemma {:induction false} SplitJoined(pieces: seq<string>, sep: char)
    requires pieces != [] && forall p <- pieces :: sep !in p
    ensures Split(JoinWith(pieces, sep), sep) == pieces
    decreases |pieces|
  {
    if |pieces| > 1 {
      SplitOnceFinds(pieces[0], sep, JoinWith(pieces[1..], sep));
      SplitJoined(pieces[1..], sep);
    }
  }

  // --- UTF-8 -------------------------------------------------------------------------------------------

  /** The bytes of a character. */
  function Encoded(c: char): seq<int> {
    var code := c as int;
    if code < 0x80 then [code]
    else if code < 0x800 then [0xC0 + code / 64, 0x80 + code % 64]
    else if code < 0x10000 then [0xE0 + code / 64 / 64, 0x80 + code / 64 % 64, 0x80 + code % 64]
    else [0xF0 + code / 64 / 64 / 64, 0x80 + code / 64 / 64 % 64, 0x80 + code / 64 % 64, 0x80 + code % 64]
  }

  /** The code that bytes of this length stand for. */
  function Decoded(bytes: seq<int>): int {
    match |bytes|
    case 1 => bytes[0]
    case 2 => (bytes[0] - 0xC0) * 64 + (bytes[1] - 0x80)
    case 3 => ((bytes[0] - 0xE0) * 64 + (bytes[1] - 0x80)) * 64 + (bytes[2] - 0x80)
    case 4 => (((bytes[0] - 0xF0) * 64 + (bytes[1] - 0x80)) * 64 + (bytes[2] - 0x80)) * 64 + (bytes[3] - 0x80)
    case _ => -1
  }

  lemma Sixes(n: nat)
    ensures n == n / 64 * 64 + n % 64 && 0 <= n % 64 < 64
  {
  }

  /** A lead byte for this length, with none of the overlong forms, and continuations after it. */
  predicate WellFormed(bytes: seq<int>) {
    && 1 <= |bytes| <= 4
    && (forall i | 0 < i < |bytes| :: 0x80 <= bytes[i] < 0xC0)
    && (|bytes| == 1 ==> 0 <= bytes[0] < 0x80)
    && (|bytes| == 2 ==> 0xC2 <= bytes[0] < 0xE0)
    && (|bytes| == 3 ==> 0xE0 <= bytes[0] < 0xF0 && (bytes[0] == 0xE0 ==> bytes[1] >= 0xA0))
    && (|bytes| == 4 ==> 0xF0 <= bytes[0] < 0xF5 && (bytes[0] == 0xF0 ==> bytes[1] >= 0x90))
  }

  /** A character takes as many bytes as its UTF-8 form has, from which the character comes back. */
  lemma WidthIsUtf8(c: char)
    ensures |Encoded(c)| == Width(c) && WellFormed(Encoded(c)) && Decoded(Encoded(c)) == c as int
  {
    var code := c as int;
    Sixes(code);
    Sixes(code / 64);
    Sixes(code / 64 / 64);
  }

  /** ASCII punctuation is what is left of the printable characters without letters and digits. */
  lemma PunctuationIsTheRest(c: char)
    ensures IsPunctuation(c)
            <==> 0x21 <= c as int <= 0x7E && !('0' <= c <= '9') && !('A' <= c <= 'Z') && !('a' <= c <= 'z')
  {
  }
}
