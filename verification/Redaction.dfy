/** The two secret redactors: one keeps every whitespace character in place, the other joins the words
    with single spaces. */
module Redaction {
  import opened Text

  const REDACTED := "<redacted>"

  predicate StartsWith(s: string, prefix: string) {
    prefix <= s
  }

  predicate LooksLikeSecret(text: string) {
    && Bytes(text) >= 12
    && (StartsWith(text, "sk-") || StartsWith(text, "sk_") || StartsWith(text, "sk-ant-")
        || StartsWith(text, "sess-") || StartsWith(text, "eyJ"))
  }

  /** A secret is twelve bytes or more and begins as keys, sessions and tokens do. */
  lemma SecretsByTheirPrefix(text: string)
    ensures LooksLikeSecret(text)
            <==> Bytes(text) >= 12 && |text| >= 3
                 && (text[..3] == "sk-" || text[..3] == "sk_" || text[..3] == "eyJ"
                     || (|text| >= 5 && text[..5] == "sess-"))
  {
    hide Bytes;
    PrefixIsSlice(text, "sk-");
    PrefixIsSlice(text, "sk_");
    PrefixIsSlice(text, "eyJ");
    PrefixIsSlice(text, "sess-");
    assert StartsWith(text, "sk-ant-") ==> text[..3] == "sk-";
    assert Bytes(text) >= 12 ==> text != "" by {
      EmptyHasNoBytes();
    }
  }

  lemma EmptyHasNoBytes()
    ensures Bytes("") == 0
  {
  }

  lemma PrefixIsSlice(s: string, prefix: string)
    ensures StartsWith(s, prefix) <==> |s| >= |prefix| && s[..|prefix|] == prefix
  {
  }

  /** A word is redacted exactly if what its punctuation wraps is a secret, and then only that. */
  lemma WordByItsCore(word: string, pre: string, core: string, post: string)
    requires word == pre + core + post && AllOf(pre, IsPunctuation) && AllOf(post, IsPunctuation)
    requires core != "" && !IsPunctuation(core[0]) && !IsPunctuation(core[|core| - 1])
    ensures if LooksLikeSecret(core) then RedactWord(word) == pre + "<redacted>" + post else RedactWord(word) == word
  {
    TrimUnwraps(pre, core, post, IsPunctuation);
    if LooksLikeSecret(core) {
      FindSkips(pre, core, post);
      assert word[|pre|..] == core + post && word[|pre| + |core|..] == post && word[..|pre|] == pre;
      assert core <= core + post;
    }
  }

  /** Where `t` first occurs in `s`; the length of `s` if it does not. */
  function Find(s: string, t: string): (at: nat)
    ensures at <= |s|
  {
    if s == "" || t <= s then 0 else 1 + Find(s[1..], t)
  }

  /** `replacen(t, u, 1)`. */
  function ReplaceFirst(s: string, t: string, u: string): string {
    var at := Find(s, t);
    if t <= s[at..] then s[..at] + u + s[at + |t|..] else s
  }

  function RedactWord(word: string): string {
    var trimmed := Trim(word, IsPunctuation);
    if LooksLikeSecret(trimmed) then ReplaceFirst(word, trimmed, REDACTED) else word
  }

  // --- Words and whitespace --------------------------------------------------------------------------

  datatype Token = Gap(c: char) | Word(text: string)

  function Flush(word: string): seq<Token> {
    if word == "" then [] else [Word(word)]
  }

  /** The tokens of a text that comes after an unfinished word. */
  function Tokens(word: string, text: string): seq<Token>
    decreases |text|
  {
    if text == "" then Flush(word)
    else if IsWhitespace(text[0]) then Flush(word) + [Gap(text[0])] + Tokens("", text[1..])
    else Tokens(word + [text[0]], text[1..])
  }

  function Shown(t: Token): string {
    match t
    case Gap(c) => [c]
    case Word(text) => text
  }

  function Render(ts: seq<Token>): string {
    if ts == [] then "" else Shown(ts[0]) + Render(ts[1..])
  }

  predicate NoSpace(c: char) {
    !IsWhitespace(c)
  }

  /** Whitespace in gaps and nowhere else; words are not empty and do not touch. */
  predicate Proper(ts: seq<Token>)
    decreases |ts|
  {
    ts == [] ||
    (Proper(ts[1..]) &&
     match ts[0]
     case Gap(c) => IsWhitespace(c)
     case Word(text) => text != "" && AllOf(text, NoSpace) && (|ts| > 1 ==> ts[1].Gap?))
  }

  function RedactToken(t: Token): Token {
    match t
    case Gap(_) => t
    case Word(text) => Word(RedactWord(text))
  }

  function RedactTokens(ts: seq<Token>): (r: seq<Token>)
    ensures |r| == |ts|
  {
    seq(|ts|, i requires 0 <= i < |ts| => RedactToken(ts[i]))
  }

  function Words(ts: seq<Token>): seq<string> {
    if ts == [] then [] else (if ts[0].Word? then [ts[0].text] else []) + Words(ts[1..])
  }

  function Preserving(text: string): string {
    Render(RedactTokens(Tokens("", text)))
  }

  function SplitWhitespace(text: string): seq<string> {
    Words(Tokens("", text))
  }

  function JoinWords(words: seq<string>): string
    decreases |words|
  {
    if words == [] then ""
    else JoinWords(words[..|words| - 1]) + (if |words| == 1 then "" else " ") + words[|words| - 1]
  }

  function RedactWords(words: seq<string>): (r: seq<string>)
    ensures |r| == |words|
  {
    seq(|words|, i requires 0 <= i < |words| => RedactWord(words[i]))
  }

  function SecretText(text: string): string {
    JoinWords(RedactWords(SplitWhitespace(text)))
  }

  // --- The redactors as written ------------------------------------------------------------------------

  method FlushWord(word: string, out: string) returns (flushed: string)
    ensures flushed == out + Render(RedactTokens(Flush(word)))
  {
    if word == "" {
      return out;
    }
    var trimmed := Trim(word, IsPunctuation);
    if LooksLikeSecret(trimmed) {
      flushed := out + ReplaceFirst(word, trimmed, REDACTED);
    } else {
      flushed := out + word;
    }
    assert RedactTokens([Word(word)]) == [Word(RedactWord(word))];
    assert Render([Word(RedactWord(word))]) == RedactWord(word) + Render([]);
  }

  method RedactSecretsPreserving(text: string) returns (out: string)
    ensures out == Preserving(text)
  {
    out := "";
    var word := "";
    assert text[0..] == text;
    assert Preserving(text) == out + Render(RedactTokens(Tokens(word, text[0..])));
    for i := 0 to |text|
      invariant Preserving(text) == out + Render(RedactTokens(Tokens(word, text[i..])))
    {
      var ch := text[i];
      assert text[i..][1..] == text[i + 1..];
      if IsWhitespace(ch) {
        FlushedThenGap(out, word, ch, text[i + 1..]);
        out := FlushWord(word, out);
        word := "";
        out := out + [ch];
      } else {
        word := word + [ch];
      }
    }
    assert text[|text|..] == "";
    out := FlushWord(word, out);
  }

  lemma {:induction false} RenderAppend(a: seq<Token>, b: seq<Token>)
    ensures Render(a + b) == Render(a) + Render(b)
    decreases |a|
  {
    if a == [] {
      assert a + b == b;
    } else {
      assert (a + b)[1..] == a[1..] + b;
      RenderAppend(a[1..], b);
      assert Shown(a[0]) + (Render(a[1..]) + Render(b)) == Shown(a[0]) + Render(a[1..]) + Render(b);
    }
  }

  lemma RenderGap(a: seq<Token>, c: char, b: seq<Token>)
    ensures Render(a + [Gap(c)] + b) == Render(a) + [c] + Render(b)
  {
    RenderAppend(a + [Gap(c)], b);
    RenderAppend(a, [Gap(c)]);
    assert Render([Gap(c)]) == [c] + Render([]);
  }

  lemma RedactedAround(a: seq<Token>, c: char, b: seq<Token>)
    ensures RedactTokens(a + [Gap(c)] + b) == RedactTokens(a) + [Gap(c)] + RedactTokens(b)
  {
  }

  lemma FlushedThenGap(out: string, word: string, c: char, rest: string)
    ensures out + Render(RedactTokens(Flush(word) + [Gap(c)] + Tokens("", rest)))
            == out + Render(RedactTokens(Flush(word))) + [c] + Render(RedactTokens(Tokens("", rest)))
  {
    RedactedAround(Flush(word), c, Tokens("", rest));
    RenderGap(RedactTokens(Flush(word)), c, RedactTokens(Tokens("", rest)));
  }

  method RedactSecretText(text: string) returns (redacted: string)
    ensures redacted == SecretText(text)
  {
    var words := SplitWhitespace(text);
    redacted := "";
    for index := 0 to |words|
      invariant redacted == JoinWords(RedactWords(words)[..index])
    {
      assert RedactWords(words)[..index + 1][..index] == RedactWords(words)[..index];
      if index > 0 {
        redacted := redacted + " ";
      }
      redacted := redacted + RedactWord(words[index]);
    }
    assert RedactWords(words)[..|words|] == RedactWords(words);
  }

  // --- Tokens are the text ---------------------------------------------------------------------------

  lemma RenderPieces(word: string, c: char, rest: seq<Token>)
    ensures Render(Flush(word)) == word
    ensures Render(Flush(word) + [Gap(c)] + rest) == word + [c] + Render(rest)
  {
    assert word != "" ==> Render([Word(word)]) == word + Render([]);
    RenderGap(Flush(word), c, rest);
  }

  /** Reading a text into tokens loses nothing. */
  lemma {:induction false} TokensRender(word: string, text: string)
    ensures Render(Tokens(word, text)) == word + text
    decreases |text|
  {
    if text == "" {
      RenderPieces(word, ' ', []);
    } else {
      var c, rest := text[0], text[1..];
      assert text == [c] + rest;
      if IsWhitespace(c) {
        TokensRender("", rest);
        RenderPieces(word, c, Tokens("", rest));
      } else {
        TokensRender(word + [c], rest);
      }
    }
  }

  lemma {:induction false} TokensAreProper(word: string, text: string)
    requires AllOf(word, NoSpace)
    ensures Proper(Tokens(word, text))
    decreases |text|
  {
    if text != "" {
      if IsWhitespace(text[0]) {
        TokensAreProper("", text[1..]);
        var rest := [Gap(text[0])] + Tokens("", text[1..]);
        assert rest[1..] == Tokens("", text[1..]);
        assert Flush(word) + [Gap(text[0])] + Tokens("", text[1..]) == Flush(word) + rest;
        assert word != "" ==> (Flush(word) + rest)[1..] == rest;
      } else {
        TokensAreProper(word + [text[0]], text[1..]);
      }
    }
  }

  lemma {:induction false} WordGrows(word: string, more: string, text: string)
    requires AllOf(more, NoSpace)
    ensures Tokens(word, more + text) == Tokens(word + more, text)
    decreases |more|
  {
    if more == "" {
      assert more + text == text && word + more == word;
    } else {
      assert (more + text)[1..] == more[1..] + text && NoSpace(more[0]);
      WordGrows(word + [more[0]], more[1..], text);
      assert word + [more[0]] + more[1..] == word + more;
    }
  }

  /** Proper tokens are the only ones that render to their text. */
  lemma {:induction false} RenderTokens(ts: seq<Token>)
    requires Proper(ts)
    ensures Tokens("", Render(ts)) == ts
    decreases |ts|
  {
    if ts != [] {
      var rest := ts[1..];
      assert ts == [ts[0]] + rest;
      match ts[0] {
        case Gap(c) =>
          RenderTokens(rest);
          assert Render(ts)[1..] == Render(rest);
        case Word(w) =>
          WordGrows("", w, Render(rest));
          assert "" + w == w;
          if rest != [] {
            RenderTokens(rest[1..]);
            assert Render(rest)[1..] == Render(rest[1..]);
            assert rest == [rest[0]] + rest[1..];
          }
      }
    }
  }

  // --- Redacting a word --------------------------------------------------------------------------------

  lemma {:induction false} FindSkips(pre: string, t: string, post: string)
    requires AllOf(pre, IsPunctuation) && t != "" && !IsPunctuation(t[0])
    ensures Find(pre + t + post, t) == |pre|
    decreases |pre|
  {
    var s := pre + t + post;
    if pre == "" {
      assert s[..|t|] == t;
    } else {
      assert s[0] == pre[0] && s[1..] == pre[1..] + t + post;
      FindSkips(pre[1..], t, post);
    }
  }

  /** A secret word keeps the punctuation around it and loses everything else. */
  lemma RedactedWord(word: string) returns (pre: string, post: string)
    requires LooksLikeSecret(Trim(word, IsPunctuation))
    ensures word == pre + Trim(word, IsPunctuation) + post && RedactWord(word) == pre + REDACTED + post
    ensures AllOf(pre, IsPunctuation) && AllOf(post, IsPunctuation)
  {
    pre, post := TrimSplits(word, IsPunctuation);
    var t := Trim(word, IsPunctuation);
    FindSkips(pre, t, post);
    assert word[|pre|..] == t + post && word[|pre| + |t|..] == post && word[..|pre|] == pre;
    assert t <= t + post;
  }

  lemma RedactedTrims(pre: string, post: string)
    requires AllOf(pre, IsPunctuation) && AllOf(post, IsPunctuation)
    ensures !LooksLikeSecret(Trim(pre + REDACTED + post, IsPunctuation))
  {
    assert pre + REDACTED + post == (pre + "<") + "redacted" + (">" + post);
    TrimUnwraps(pre + "<", "redacted", ">" + post, IsPunctuation);
    assert Bytes("redacted") == 8;
  }

  /** No redacted word looks like a secret, and redacting it again leaves it alone. */
  lemma RedactedIsNoSecret(word: string)
    ensures !LooksLikeSecret(Trim(RedactWord(word), IsPunctuation))
    ensures RedactWord(RedactWord(word)) == RedactWord(word)
  {
    if LooksLikeSecret(Trim(word, IsPunctuation)) {
      var pre, post := RedactedWord(word);
      RedactedTrims(pre, post);
    }
  }

  lemma Rewrapped(pre: string, t: string, u: string, post: string, p: char -> bool)
    requires AllOf(pre + t + post, p) && AllOf(u, p)
    ensures AllOf(pre + u + post, p)
  {
    AllOfAppend(pre + t, post, p);
    AllOfAppend(pre, t, p);
    AllOfAppend(pre, u, p);
    AllOfAppend(pre + u, post, p);
  }

  lemma MarkerHasNoSpace()
    ensures AllOf(REDACTED, NoSpace)
  {
  }

  lemma RedactedStaysAWord(word: string)
    requires word != "" && AllOf(word, NoSpace)
    ensures RedactWord(word) != "" && AllOf(RedactWord(word), NoSpace)
  {
    if LooksLikeSecret(Trim(word, IsPunctuation)) {
      var pre, post := RedactedWord(word);
      var t := Trim(word, IsPunctuation);
      MarkerHasNoSpace();
      Rewrapped(pre, t, REDACTED, post, NoSpace);
    }
  }

  // --- Redacting a text --------------------------------------------------------------------------------

  lemma {:induction false} RedactedStaysProper(ts: seq<Token>)
    requires Proper(ts)
    ensures Proper(RedactTokens(ts))
    decreases |ts|
  {
    if ts != [] {
      RedactedStaysProper(ts[1..]);
      assert RedactTokens(ts)[1..] == RedactTokens(ts[1..]);
      if ts[0].Word? {
        RedactedStaysAWord(ts[0].text);
      }
    }
  }

  /** The output has the same whitespace at the same places between words, and its words are the
      redacted words of the input. */
  lemma OutputTokens(text: string)
    ensures Tokens("", Preserving(text)) == RedactTokens(Tokens("", text))
  {
    TokensAreProper("", text);
    RedactedStaysProper(Tokens("", text));
    RenderTokens(RedactTokens(Tokens("", text)));
  }

  /** The whitespace characters of a text, in order. */
  function Gaps(s: string): string {
    if s == "" then "" else GapOf(s[0]) + Gaps(s[1..])
  }

  function GapOf(c: char): string {
    if IsWhitespace(c) then [c] else ""
  }

  function GapsOf(ts: seq<Token>): string {
    if ts == [] then "" else (if ts[0].Gap? then [ts[0].c] else "") + GapsOf(ts[1..])
  }

  lemma {:induction false} GapsAppend(a: string, b: string)
    ensures Gaps(a + b) == Gaps(a) + Gaps(b)
    decreases |a|
  {
    if a == "" {
      assert a + b == b;
    } else {
      assert (a + b)[1..] == a[1..] + b;
      GapsAppend(a[1..], b);
      assert GapOf(a[0]) + (Gaps(a[1..]) + Gaps(b)) == GapOf(a[0]) + Gaps(a[1..]) + Gaps(b);
    }
  }

  lemma {:induction false} NoGaps(s: string)
    requires AllOf(s, NoSpace)
    ensures Gaps(s) == ""
    decreases |s|
  {
    if s != "" {
      assert NoSpace(s[0]);
      NoGaps(s[1..]);
    }
  }

  lemma {:induction false} GapsOfTokens(ts: seq<Token>)
    requires Proper(ts)
    ensures Gaps(Render(ts)) == GapsOf(ts)
    decreases |ts|
  {
    if ts != [] {
      GapsOfTokens(ts[1..]);
      GapsAppend(Shown(ts[0]), Render(ts[1..]));
      if ts[0].Word? {
        NoGaps(ts[0].text);
      } else {
        assert Gaps([ts[0].c]) == GapOf(ts[0].c) + Gaps("");
      }
    }
  }

  lemma {:induction false} RedactingKeepsGaps(ts: seq<Token>)
    ensures GapsOf(RedactTokens(ts)) == GapsOf(ts)
    decreases |ts|
  {
    if ts != [] {
      RedactingKeepsGaps(ts[1..]);
      assert RedactTokens(ts)[1..] == RedactTokens(ts[1..]);
    }
  }

  lemma WhitespaceIsPreserved(text: string)
    ensures Gaps(Preserving(text)) == Gaps(text)
  {
    hide Tokens, Proper, RedactTokens, Gaps, GapsOf, Render;
    var ts := Tokens("", text);
    TokensAreProper("", text);
    RedactedStaysProper(ts);
    GapsOfTokens(ts);
    GapsOfTokens(RedactTokens(ts));
    RedactingKeepsGaps(ts);
    TokensRender("", text);
    assert "" + text == text;
  }

  /** Redacting twice is redacting once. */
  lemma PreservingIsIdempotent(text: string)
    ensures Preserving(Preserving(text)) == Preserving(text)
  {
    OutputTokens(text);
    var ts := Tokens("", text);
    forall i | 0 <= i < |ts| ensures RedactToken(RedactToken(ts[i])) == RedactToken(ts[i]) {
      if ts[i].Word? {
        RedactedIsNoSecret(ts[i].text);
      }
    }
    assert RedactTokens(RedactTokens(ts)) == RedactTokens(ts);
  }

  lemma {:induction false} WordsOfRedacted(ts: seq<Token>)
    ensures Words(RedactTokens(ts)) == RedactWords(Words(ts))
    decreases |ts|
  {
    if ts != [] {
      WordsOfRedacted(ts[1..]);
      assert RedactTokens(ts)[1..] == RedactTokens(ts[1..]);
    }
  }

  /** No word of the output looks like a secret once its punctuation is trimmed. */
  lemma NoSecretIsLeft(text: string, i: nat)
    requires i < |SplitWhitespace(Preserving(text))|
    ensures !LooksLikeSecret(Trim(SplitWhitespace(Preserving(text))[i], IsPunctuation))
  {
    OutputTokens(text);
    WordsOfRedacted(Tokens("", text));
    RedactedIsNoSecret(SplitWhitespace(text)[i]);
  }

  /** The redactors agree: the one is the other with its words joined by single spaces. */
  lemma RedactorsAgree(text: string)
    ensures SecretText(text) == JoinWords(SplitWhitespace(Preserving(text)))
  {
    OutputTokens(text);
    WordsOfRedacted(Tokens("", text));
  }

  /** The words with one space between any two. */
  function Spaced(words: seq<string>): seq<Token>
    decreases |words|
  {
    if words == [] then []
    else if |words| == 1 then [Word(words[0])]
    else Spaced(words[..|words| - 1]) + [Gap(' ')] + [Word(words[|words| - 1])]
  }

  predicate IsWord(word: string) {
    word != "" && AllOf(word, NoSpace)
  }

  lemma {:induction false} SpacedRenders(words: seq<string>)
    ensures Render(Spaced(words)) == JoinWords(words)
    decreases |words|
  {
    if |words| == 1 {
      assert JoinWords(words[..0]) == "";
      RenderPieces(words[0], ' ', []);
      assert Render([Word(words[0])]) == words[0] + Render([]);
    } else if |words| > 1 {
      var init, last := words[..|words| - 1], words[|words| - 1];
      SpacedRenders(init);
      RenderGap(Spaced(init), ' ', [Word(last)]);
      assert Render([Word(last)]) == last + Render([]);
    }
  }

  lemma {:induction false} ProperGrows(ts: seq<Token>, c: char, word: string)
    requires Proper(ts) && IsWhitespace(c) && word != "" && AllOf(word, NoSpace)
    ensures Proper(ts + [Gap(c)] + [Word(word)])
    decreases |ts|
  {
    var all := ts + [Gap(c)] + [Word(word)];
    if ts == [] {
      assert all[1..] == [Word(word)] && [Word(word)][1..] == [];
    } else {
      assert all[1..] == ts[1..] + [Gap(c)] + [Word(word)];
      ProperGrows(ts[1..], c, word);
    }
  }

  lemma {:induction false} SpacedIsProper(words: seq<string>)
    requires forall i | 0 <= i < |words| :: IsWord(words[i])
    ensures Proper(Spaced(words))
    decreases |words|
  {
    if |words| == 1 {
      assert [Word(words[0])][1..] == [] && IsWord(words[0]);
    } else if |words| > 1 {
      SpacedIsProper(words[..|words| - 1]);
      assert IsWord(words[|words| - 1]);
      ProperGrows(Spaced(words[..|words| - 1]), ' ', words[|words| - 1]);
    }
  }

  /** Joined words are those words again, with a single space in every gap. */
  lemma JoinedBySpaces(words: seq<string>)
    requires forall i | 0 <= i < |words| :: IsWord(words[i])
    ensures Tokens("", JoinWords(words)) == Spaced(words)
  {
    SpacedRenders(words);
    SpacedIsProper(words);
    RenderTokens(Spaced(words));
  }
}
