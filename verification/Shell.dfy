/** pkg/shell/shellquote.go: splitting a command line into words with the quoting rules of
    section 2.2 of the Shell Command Language chapter of IEEE Std 1003.1-2017.

    A string is a sequence of decoded runes.  Every character with a meaning here is ASCII, so
    an undecodable byte behaves like any other ordinary rune. */
module Shell {
  import opened Basics

  datatype Error = UnterminatedSingleQuote | UnterminatedDoubleQuote | UnterminatedEscape

  /** On an error the words completed so far are returned with it. */
  datatype Outcome = Words(words: seq<string>) | Failed(words: seq<string>, error: Error)

  predicate IsSeparator(c: char) {
    c == ' ' || c == '\n' || c == '\t'
  }

  predicate IsDoubleEscapable(c: char) {
    c == '$' || c == '`' || c == '"' || c == '\n' || c == '\\'
  }

  // ----- the reference: one character at a time -----

  datatype Mode = Between | BetweenEscape | Raw | Escape | Single | Double | DoubleEscape

  datatype State = State(mode: Mode, words: seq<string>, word: string)

  const START := State(Between, [], "")

  function Next(s: State, c: char): State {
    match s.mode
    case Between =>
      if IsSeparator(c) then s
      else if c == '\\' then s.(mode := BetweenEscape)
      else if c == '\'' then State(Single, s.words, "")
      else if c == '"' then State(Double, s.words, "")
      else State(Raw, s.words, [c])
    case BetweenEscape =>
      if c == '\n' then s.(mode := Between) else State(Raw, s.words, [c])
    case Raw =>
      if IsSeparator(c) then State(Between, s.words + [s.word], "")
      else if c == '\\' then s.(mode := Escape)
      else if c == '\'' then s.(mode := Single)
      else if c == '"' then s.(mode := Double)
      else s.(word := s.word + [c])
    case Escape =>
      if c == '\n' then s.(mode := Raw) else State(Raw, s.words, s.word + [c])
    case Single =>
      if c == '\'' then s.(mode := Raw) else s.(word := s.word + [c])
    case Double =>
      if c == '"' then s.(mode := Raw)
      else if c == '\\' then s.(mode := DoubleEscape)
      else s.(word := s.word + [c])
    case DoubleEscape =>
      if c == '\n' then s.(mode := Double)
      else if IsDoubleEscapable(c) then State(Double, s.words, s.word + [c])
      else State(Double, s.words, s.word + ['\\', c])
  }

  function Feed(s: State, input: string): State
    decreases |input|
  {
    if input == "" then s else Feed(Next(s, input[0]), input[1..])
  }

  function Finish(s: State): Outcome {
    match s.mode
    case Between => Words(s.words)
    case Raw => Words(s.words + [s.word])
    case BetweenEscape | Escape => Failed(s.words, UnterminatedEscape)
    case Single => Failed(s.words, UnterminatedSingleQuote)
    case Double | DoubleEscape => Failed(s.words, UnterminatedDoubleQuote)
  }

  function Splits(input: string): Outcome {
    Finish(Feed(START, input))
  }

  lemma {:induction false} FeedAppend(s: State, a: string, b: string)
    ensures Feed(s, a + b) == Feed(Feed(s, a), b)
    decreases |a|
  {
    if a == "" {
      assert a + b == b;
    } else {
      assert (a + b)[1..] == a[1..] + b;
      FeedAppend(Next(s, a[0]), a[1..], b);
    }
  }

  /** Earlier words are carried along untouched. */
  lemma {:induction false} FeedCarriesWords(s: State, before: seq<string>, input: string)
    ensures var r := Feed(s, input);
            Feed(s.(words := before + s.words), input) == r.(words := before + r.words)
    decreases |input|
  {
    if input != "" {
      FeedCarriesWords(Next(s, input[0]), before, input[1..]);
      assert before + s.words + [s.word] == before + (s.words + [s.word]);
    }
  }

  function Behind(words: seq<string>, rest: Outcome): Outcome {
    rest.(words := words + rest.words)
  }

  /** If a splits without error, a separator behind it isolates it from whatever follows. */
  lemma {:induction false} SplitsConcatenate(a: string, sep: char, b: string)
    requires Splits(a).Words? && (sep == ' ' || sep == '\n' || sep == '\t')
    ensures Splits(a + [sep] + b) == Behind(Splits(a).words, Splits(b))
  {
    var s := Feed(START, a);
    var words := Splits(a).words;
    FeedAppend(START, a, [sep]);
    FeedAppend(START, a + [sep], b);
    assert [sep][1..] == "";
    assert Feed(s, [sep]) == Next(s, sep) == State(Between, words, s.word) || Feed(s, [sep]) == State(Between, words, "");
    if s.mode == Between {
      BetweenForgets(s.(words := words), b);
    }
    FeedCarriesWords(START, words, b);
    assert words + [] == words;
  }

  /** Between words the last word no longer matters. */
  lemma {:induction false} BetweenForgets(s: State, input: string)
    requires s.mode == Between || s.mode == BetweenEscape
    ensures Finish(Feed(s, input)) == Finish(Feed(s.(word := ""), input))
    decreases |input|
  {
    if input != "" && (Next(s, input[0]).mode == Between || Next(s, input[0]).mode == BetweenEscape) {
      BetweenForgets(Next(s, input[0]), input[1..]);
    }
  }

  // ----- the printer -----

  /** The inside of a single-quoted word; a quote leaves the quotes, is escaped, and reopens. */
  function QuotedBody(w: string): string {
    if w == "" then ""
    else (if w[0] == '\'' then "'\\''" else [w[0]]) + QuotedBody(w[1..])
  }

  function Quoted(w: string): string {
    "'" + QuotedBody(w) + "'"
  }

  function Joined(parts: seq<string>, sep: char): string {
    if parts == [] then ""
    else if |parts| == 1 then parts[0]
    else parts[0] + [sep] + Joined(parts[1..], sep)
  }

  /** Parts that split into one word each, joined with a separator, split into these words; the
      parts may be printed in different ways. */
  lemma {:induction false} JoinedSplits(parts: seq<string>, words: seq<string>, sep: char)
    requires |parts| == |words| && (sep == ' ' || sep == '\n' || sep == '\t')
    requires forall i | 0 <= i < |parts| :: Splits(parts[i]) == Words([words[i]])
    ensures Splits(Joined(parts, sep)) == Words(words)
    decreases |parts|
  {
    if |parts| == 1 {
      assert words == [words[0]];
    } else if parts != [] {
      JoinedSplits(parts[1..], words[1..], sep);
      SplitsConcatenate(parts[0], sep, Joined(parts[1..], sep));
      assert [words[0]] + words[1..] == words;
    }
  }

  lemma {:induction false} FeedQuotedBody(s: State, w: string)
    requires s.mode == Single
    ensures Feed(s, QuotedBody(w)) == s.(word := s.word + w)
    decreases |w|
  {
    if w != "" {
      var head := if w[0] == '\'' then "'\\''" else [w[0]];
      FeedAppend(s, head, QuotedBody(w[1..]));
      var t := s.(word := s.word + [w[0]]);
      assert Feed(s, head) == t by {
        if w[0] == '\'' {
          var h1, h2, h3 := head[1..], head[2..], head[3..];
          assert h1[1..] == h2 && h2[1..] == h3 && h3[1..] == "";
          assert Feed(s, head) == Feed(s.(mode := Raw), h1);
          assert Feed(s.(mode := Raw), h1) == Feed(s.(mode := Escape), h2);
          assert Feed(s.(mode := Escape), h2) == Feed(t.(mode := Raw), h3);
          assert Feed(t.(mode := Raw), h3) == Feed(t, "");
        } else {
          assert head[1..] == "";
        }
      }
      FeedQuotedBody(t, w[1..]);
      assert s.word + [w[0]] + w[1..] == s.word + w;
    }
  }

  lemma {:induction false} SplitsQuoted(w: string)
    ensures Splits(Quoted(w)) == Words([w])
  {
    FeedStartQuoted(w);
  }

  /** Any list of words, single-quoted and joined with blanks, splits into itself. */
  lemma {:induction false} RoundTrip(words: seq<string>)
    ensures Splits(Joined(seq(|words|, i requires 0 <= i < |words| => Quoted(words[i])), ' ')) == Words(words)
  {
    var parts := seq(|words|, i requires 0 <= i < |words| => Quoted(words[i]));
    forall i | 0 <= i < |parts| ensures Splits(parts[i]) == Words([words[i]]) {
      SplitsQuoted(words[i]);
    }
    JoinedSplits(parts, words, ' ');
  }

  // ----- the second printer: double quotes -----

  /** The inside of a double-quoted word: a backslash in front of the four characters that
      need one. */
  function DoubleBody(w: string): string {
    if w == "" then ""
    else (if w[0] == '$' || w[0] == '`' || w[0] == '"' || w[0] == '\\' then ['\\', w[0]] else [w[0]]) + DoubleBody(w[1..])
  }

  function DoubleQuoted(w: string): string {
    "\"" + DoubleBody(w) + "\""
  }

  /** What a backslash and c stand for between double quotes. */
  function DoubleEscaped(c: char): string {
    if c == '\n' then ""
    else if c == '$' || c == '`' || c == '"' || c == '\\' then [c]
    else ['\\', c]
  }

  lemma {:induction false} FeedTwo(s: State, c: char, d: char)
    ensures Feed(s, [c, d]) == Next(Next(s, c), d)
  {
    assert [c, d][1..] == [d];
    FeedOne(Next(s, c), d);
  }

  lemma {:induction false} FeedOne(s: State, c: char)
    ensures Feed(s, [c]) == Next(s, c)
  {
    assert [c][1..] == "";
  }

  lemma {:induction false} FeedDoubleEscape(s: State, c: char)
    requires s.mode == Double
    ensures Feed(s, ['\\', c]) == s.(word := s.word + DoubleEscaped(c))
  {
    FeedTwo(s, '\\', c);
    assert Next(s, '\\') == s.(mode := DoubleEscape);
    if c == '\n' {
      assert s.word + DoubleEscaped(c) == s.word;
    }
  }

  lemma {:induction false} FeedDoubleBody(s: State, w: string)
    requires s.mode == Double
    ensures Feed(s, DoubleBody(w)) == s.(word := s.word + w)
    decreases |w|
  {
    if w == "" {
      assert s.word + w == s.word;
    } else {
      var c, t := w[0], s.(word := s.word + [w[0]]);
      var head := if c == '$' || c == '`' || c == '"' || c == '\\' then ['\\', c] else [c];
      assert Feed(s, head) == t by {
        if |head| == 2 {
          FeedDoubleEscape(s, c);
        } else {
          FeedOne(s, c);
        }
      }
      FeedAppend(s, head, DoubleBody(w[1..]));
      FeedDoubleBody(t, w[1..]);
      assert s.word + [c] + w[1..] == s.word + w;
    }
  }

  /** Feeding a double-quoted text to a state inside or in front of a word. */
  lemma {:induction false} FeedDoubleQuoted(s: State, w: string)
    requires s.mode == Raw || s == State(Between, s.words, "")
    ensures Feed(s, DoubleQuoted(w)) == State(Raw, s.words, s.word + w)
  {
    var q := "\"" + DoubleBody(w);
    FeedAppend(s, "\"", DoubleBody(w));
    FeedAppend(s, q, "\"");
    FeedOne(s, '"');
    var t := State(Double, s.words, s.word);
    assert Feed(s, "\"") == t;
    FeedDoubleBody(t, w);
    FeedOne(t.(word := s.word + w), '"');
  }

  lemma {:induction false} SplitsDoubleQuoted(w: string)
    ensures Splits(DoubleQuoted(w)) == Words([w])
  {
    FeedDoubleQuoted(START, w);
    assert "" + w == w;
  }

  /** Any list of words, double-quoted and joined with blanks, splits into itself. */
  lemma {:induction false} DoubleRoundTrip(words: seq<string>)
    ensures Splits(Joined(seq(|words|, i requires 0 <= i < |words| => DoubleQuoted(words[i])), ' ')) == Words(words)
  {
    var parts := seq(|words|, i requires 0 <= i < |words| => DoubleQuoted(words[i]));
    forall i | 0 <= i < |parts| ensures Splits(parts[i]) == Words([words[i]]) {
      SplitsDoubleQuoted(words[i]);
    }
    JoinedSplits(parts, words, ' ');
  }

  /** Between double quotes a backslash and a newline vanish, a backslash in front of a dollar,
      a backquote, a double quote or a backslash leaves that character, and in front of any other
      character it stays. */
  lemma {:induction false} BackslashInDoubleQuotes(u: string, c: char, v: string)
    ensures Splits("\"" + DoubleBody(u) + ['\\', c] + DoubleBody(v) + "\"") ==
            Words([u + (if c == '\n' then ""
                        else if c == '$' || c == '`' || c == '"' || c == '\\' then [c]
                        else ['\\', c]) + v])
  {
    var a := "\"" + DoubleBody(u);
    var b := a + ['\\', c];
    var d := b + DoubleBody(v);
    var s0 := State(Double, [], "");
    FeedAppend(START, "\"", DoubleBody(u));
    FeedOne(START, '"');
    FeedDoubleBody(s0, u);
    assert "" + u == u;
    var s1 := s0.(word := u);
    FeedAppend(START, a, ['\\', c]);
    FeedDoubleEscape(s1, c);
    var s2 := s1.(word := u + DoubleEscaped(c));
    FeedAppend(START, b, DoubleBody(v));
    FeedDoubleBody(s2, v);
    FeedAppend(START, d, "\"");
    FeedOne(s2.(word := u + DoubleEscaped(c) + v), '"');
  }

  // ----- text without quotes -----

  /** No blank, newline, tab, quote or backslash. */
  predicate IsPlain(w: string) {
    forall i | 0 <= i < |w| ::
      w[i] != ' ' && w[i] != '\n' && w[i] != '\t' && w[i] != '\'' && w[i] != '"' && w[i] != '\\'
  }

  lemma {:induction false} FeedPlain(s: State, w: string)
    requires s.mode == Raw && IsPlain(w)
    ensures Feed(s, w) == s.(word := s.word + w)
    decreases |w|
  {
    if w == "" {
      assert s.word + w == s.word;
    } else {
      FeedPlain(s.(word := s.word + [w[0]]), w[1..]);
      assert s.word + [w[0]] + w[1..] == s.word + w;
    }
  }

  lemma {:induction false} StartPlain(w: string)
    requires IsPlain(w)
    ensures Feed(START, w) == if w == "" then START else State(Raw, [], w)
  {
    if w != "" {
      FeedPlain(State(Raw, [], [w[0]]), w[1..]);
      assert [w[0]] + w[1..] == w;
    }
  }

  /** A plain word is kept whole; plain words end at every blank, newline or tab. */
  lemma {:induction false} PlainRoundTrip(words: seq<string>, sep: char)
    requires sep == ' ' || sep == '\n' || sep == '\t'
    requires forall i | 0 <= i < |words| :: words[i] != "" && IsPlain(words[i])
    ensures Splits(Joined(words, sep)) == Words(words)
  {
    forall i | 0 <= i < |words| ensures Splits(words[i]) == Words([words[i]]) {
      StartPlain(words[i]);
    }
    JoinedSplits(words, words, sep);
  }

  /** Separators in front of a line do not matter. */
  lemma {:induction false} LeadingSeparator(sep: char, b: string)
    requires sep == ' ' || sep == '\n' || sep == '\t'
    ensures Splits([sep] + b) == Splits(b)
  {
    assert ([sep] + b)[1..] == b;
  }

  /** Outside quotes a backslash and a newline vanish, and any other character behind a
      backslash is kept, separators and quotes included. */
  lemma {:induction false} BackslashOutside(u: string, c: char, v: string)
    requires IsPlain(u) && IsPlain(v)
    ensures Splits(u + ['\\', c] + v) ==
            if c != '\n' then Words([u + [c] + v])
            else if u + v == "" then Words([]) else Words([u + v])
  {
    FeedAppend(START, u, ['\\', c]);
    FeedAppend(START, u + ['\\', c], v);
    StartPlain(u);
    FeedTwo(Feed(START, u), '\\', c);
    assert "" + v == v && u + "" == u && "" + [c] == [c];
    if c == '\n' && u == "" {
      StartPlain(v);
    } else {
      FeedPlain(Feed(START, u + ['\\', c]), v);
    }
  }

  /** Pieces that touch are one word, however each of them is quoted. */
  lemma {:induction false} PiecesTouch(u: string, v: string, w: string)
    requires IsPlain(w)
    ensures Splits(Quoted(u) + DoubleQuoted(v) + w) == Words([u + v + w])
  {
    FeedAppend(START, Quoted(u), DoubleQuoted(v));
    FeedAppend(START, Quoted(u) + DoubleQuoted(v), w);
    FeedStartQuoted(u);
    FeedDoubleQuoted(State(Raw, [], u), v);
    FeedPlain(State(Raw, [], u + v), w);
  }

  lemma {:induction false} FeedStartQuoted(w: string)
    ensures Feed(START, Quoted(w)) == State(Raw, [], w)
  {
    var single := State(Single, [], "");
    FeedAppend(START, "'" + QuotedBody(w), "'");
    FeedAppend(START, "'", QuotedBody(w));
    FeedOne(START, '\'');
    FeedQuotedBody(single, w);
    FeedOne(single.(word := w), '\'');
    assert "" + w == w;
  }

  /** Each of the three things that can be left open is reported as such. */
  lemma {:induction false} LeftOpen(u: string, v: string)
    requires IsPlain(u)
    ensures '\'' !in v ==> Splits(u + "'" + v) == Failed([], UnterminatedSingleQuote)
    ensures Splits(u + "\"" + DoubleBody(v)) == Failed([], UnterminatedDoubleQuote)
    ensures Splits(u + "\\") == Failed([], UnterminatedEscape)
  {
    StartPlain(u);
    var s := Feed(START, u);
    FeedAppend(START, u, "'");
    FeedAppend(START, u, "\"");
    FeedAppend(START, u, "\\");
    FeedOne(s, '\'');
    FeedOne(s, '"');
    FeedOne(s, '\\');
    FeedAppend(START, u + "'", v);
    if '\'' !in v {
      FeedSingle(Next(s, '\''), v);
    }
    FeedAppend(START, u + "\"", DoubleBody(v));
    FeedDoubleBody(Next(s, '"'), v);
  }

  // ----- the goto machine -----

  datatype Label = LRaw | LEscape | LSingle | LDouble

  function ModeOf(l: Label): Mode {
    match l
    case LRaw => Raw
    case LEscape => Escape
    case LSingle => Single
    case LDouble => Double
  }

  method IndexRune(s: string, c: char) returns (i: int)
    ensures i == -1 ==> c !in s
    ensures i != -1 ==> 0 <= i < |s| && s[i] == c && c !in s[..i]
  {
    i := 0;
    while i < |s|
      invariant 0 <= i <= |s| && c !in s[..i]
    {
      if s[i] == c {
        return;
      }
      i := i + 1;
    }
    i := -1;
  }

  lemma {:induction false} FeedSingle(s: State, p: string)
    requires s.mode == Single && '\'' !in p
    ensures Feed(s, p) == s.(word := s.word + p)
    decreases |p|
  {
    if p != "" {
      FeedSingle(s.(word := s.word + [p[0]]), p[1..]);
      assert s.word + [p[0]] + p[1..] == s.word + p;
    } else {
      assert s.word + p == s.word;
    }
  }

  /** The block raw: scans to the next quote, escape, separator or the end. */
  method ScanRaw(input: string, ghost words: seq<string>, buf: string)
    returns (buf': string, rest: string, next: Option<Label>)
    ensures next.Some? ==>
              && |rest| < |input|
              && Feed(State(Raw, words, buf), input) == Feed(State(ModeOf(next.value), words, buf'), rest)
    ensures next.None? ==>
              && |rest| <= |input|
              && (input != "" ==> |rest| < |input|)
              && Finish(Feed(State(Raw, words, buf), input)) == Finish(Feed(State(Between, words + [buf'], ""), rest))
  {
    var cur := input;
    assert buf + "" == buf;
    while |cur| > 0
      invariant |cur| <= |input| && cur == input[|input| - |cur|..]
      invariant Feed(State(Raw, words, buf), input) == Feed(State(Raw, words, buf + input[..|input| - |cur|]), cur)
    {
      var c := cur[0];
      ghost var n := |input| - |cur|;
      assert buf + input[..n + 1] == buf + input[..n] + [c];
      cur := cur[1..];
      if c == '\'' {
        return buf + input[..|input| - |cur| - 1], cur, Some(LSingle);
      } else if c == '"' {
        return buf + input[..|input| - |cur| - 1], cur, Some(LDouble);
      } else if c == '\\' {
        return buf + input[..|input| - |cur| - 1], cur, Some(LEscape);
      } else if IsSeparator(c) {
        return buf + input[..|input| - |cur| - 1], cur, None;
      }
    }
    assert input[..|input|] == input;
    return buf + input, "", None;
  }

  /** The block double: copies in slices, flushing where an escape is rewritten. */
  method ScanDouble(input0: string, ghost words: seq<string>, buf0: string)
    returns (buf: string, input: string, closed: bool)
    ensures closed ==>
              && |input| < |input0|
              && Feed(State(Double, words, buf0), input0) == Feed(State(Raw, words, buf), input)
    ensures !closed ==> Finish(Feed(State(Double, words, buf0), input0)) == Failed(words, UnterminatedDoubleQuote)
  {
    buf, input := buf0, input0;
    var cur := input;
    assert buf + "" == buf;
    while |cur| > 0
      invariant |cur| <= |input| <= |input0| && cur == input[|input| - |cur|..]
      invariant Feed(State(Double, words, buf0), input0) == Feed(State(Double, words, buf + input[..|input| - |cur|]), cur)
    {
      var c := cur[0];
      ghost var was := cur;
      ghost var n := |input| - |cur|;
      assert buf + input[..n + 1] == buf + input[..n] + [c];
      cur := cur[1..];
      if c == '"' {
        buf := buf + input[..|input| - |cur| - 1];
        input := cur;
        return buf, input, true;
      } else if c == '\\' {
        if |cur| == 0 {
          break;
        }
        var c2 := cur[0];
        cur := cur[1..];
        assert was[1..][1..] == cur;
        if IsDoubleEscapable(c2) {
          buf := buf + input[..|input| - |cur| - 2];
          if c2 != '\n' {
            buf := buf + [c2];
          }
          input := cur;
          assert buf + input[..0] == buf;
        } else {
          assert buf + input[..n + 2] == buf + input[..n] + ['\\', c2];
        }
      }
    }
    return buf, input, false;
  }

  method SplitWord(input0: string, ghost words: seq<string>)
    returns (word: string, remainder: string, err: Option<Error>)
    ensures err.None? ==>
              && (input0 != "" ==> |remainder| < |input0|)
              && Finish(Feed(State(Raw, words, ""), input0)) == Finish(Feed(State(Between, words + [word], ""), remainder))
    ensures err.Some? ==> Finish(Feed(State(Raw, words, ""), input0)) == Failed(words, err.value)
  {
    var buf, input, at := "", input0, LRaw;
    while true
      invariant |input| <= |input0|
      invariant Feed(State(Raw, words, ""), input0) == Feed(State(ModeOf(at), words, buf), input)
      invariant input == input0 || |input| < |input0|
      decreases |input|
    {
      match at
      case LRaw =>
        var b, rest, next := ScanRaw(input, words, buf);
        buf, input := b, rest;
        if next.None? {
          return buf, input, None;
        }
        at := next.value;
      case LEscape =>
        if |input| == 0 {
          return "", "", Some(UnterminatedEscape);
        }
        var c := input[0];
        if c != '\n' {
          buf := buf + [c];
        }
        input := input[1..];
        at := LRaw;
      case LSingle =>
        var i := IndexRune(input, '\'');
        if i == -1 {
          FeedSingle(State(Single, words, buf), input);
          return "", "", Some(UnterminatedSingleQuote);
        }
        FeedSingle(State(Single, words, buf), input[..i]);
        FeedAppend(State(Single, words, buf), input[..i], input[i..]);
        assert input == input[..i] + input[i..];
        buf := buf + input[..i];
        assert input[i..][1..] == input[i + 1..];
        input := input[i + 1..];
        at := LRaw;
      case LDouble =>
        var b, rest, closed := ScanDouble(input, words, buf);
        if !closed {
          return "", "", Some(UnterminatedDoubleQuote);
        }
        buf, input := b, rest;
        at := LRaw;
    }
  }

  method QuoteSplit(input0: string) returns (words: seq<string>, err: Option<Error>)
    ensures Splits(input0) == if err.None? then Words(words) else Failed(words, err.value)
  {
    var input := input0;
    words := [];
    while |input| > 0
      invariant Splits(input0) == Finish(Feed(State(Between, words, ""), input))
      decreases |input|
    {
      var c := input[0];
      if IsSeparator(c) {
        input := input[1..];
        continue;
      } else if c == '\\' {
        var next := input[1..];
        if |next| == 0 {
          return words, Some(UnterminatedEscape);
        }
        if next[0] == '\n' {
          input := next[1..];
          continue;
        }
        assert Feed(State(Raw, words, ""), input) == Feed(State(Between, words, ""), input) by {
          assert "" + [next[0]] == [next[0]];
          assert Feed(State(Between, words, ""), input) == Feed(State(BetweenEscape, words, ""), next);
          assert Feed(State(Raw, words, ""), input) == Feed(State(Escape, words, ""), next);
        }
      } else {
        assert "" + [c] == [c];
      }
      var word, remainder, e := SplitWord(input, words);
      if e.Some? {
        return words, e;
      }
      input := remainder;
      words := words + [word];
    }
    return words, None;
  }
}
