/** The token checker and the exact checker: what two outputs have to have in common to match. */
module Checkers {
  import opened Text

  const TWO_64: nat := 0x1_0000_0000_0000_0000

  // ---------------------------------------------------------------------- tokens

  /** Length of the leading run of white space. */
  function Spaces(s: string): (n: nat)
    ensures n <= |s| && (forall i :: 0 <= i < n ==> IsSpace(s[i])) && (n < |s| ==> !IsSpace(s[n]))
  {
    if s == "" || !IsSpace(s[0]) then 0 else 1 + Spaces(s[1..])
  }

  /** Length of the leading run without white space. */
  function Word(s: string): (n: nat)
    ensures n <= |s| && (forall i :: 0 <= i < n ==> !IsSpace(s[i])) && (n < |s| ==> IsSpace(s[n]))
  {
    if s == "" || IsSpace(s[0]) then 0 else 1 + Word(s[1..])
  }

  /** `strings.Fields`. */
  function Fields(s: string): seq<string>
    decreases |s|
  {
    var t := AfterSpaces(s);
    if t == "" then [] else [t[..Word(t)]] + Fields(t[Word(t)..])
  }

  /** The text from its first word on. */
  function AfterSpaces(s: string): (t: string)
    ensures |t| <= |s| && (t != "" ==> Word(t) > 0)
  {
    var t := s[Spaces(s)..];
    assert t != "" ==> t[0] == s[Spaces(s)];
    t
  }

  predicate IsToken(t: string)
  {
    t != "" && forall i :: 0 <= i < |t| ==> !IsSpace(t[i])
  }

  predicate AreTokens(tokens: seq<string>)
  {
    forall i :: 0 <= i < |tokens| ==> IsToken(tokens[i])
  }

  lemma OneMoreToken(word: string, tokens: seq<string>)
    requires IsToken(word) && AreTokens(tokens)
    ensures AreTokens([word] + tokens)
  {
  }

  lemma {:induction false} FieldsAreTokens(s: string)
    ensures AreTokens(Fields(s))
    decreases |s|
  {
    var t := AfterSpaces(s);
    if t != "" {
      FieldsAreTokens(t[Word(t)..]);
      WordIsToken(t);
      FieldsStep(s, t[..Word(t)], t[Word(t)..]);
      OneMoreToken(t[..Word(t)], Fields(t[Word(t)..]));
    }
  }

  lemma WordIsToken(t: string)
    requires t != "" && Word(t) > 0
    ensures IsToken(t[..Word(t)])
  {
  }

  function JoinWords(tokens: seq<string>): string
  {
    if tokens == [] then "" else " " + tokens[0] + JoinWords(tokens[1..])
  }

  /** Splitting what was joined gives the tokens back: `Fields` loses nothing but white space. */
  lemma {:induction false} FieldsOfJoined(tokens: seq<string>)
    requires AreTokens(tokens)
    ensures Fields(JoinWords(tokens)) == tokens
  {
    if tokens != [] {
      assert IsToken(tokens[0]) && AreTokens(tokens[1..]);
      FieldsOfJoined(tokens[1..]);
      JoinedStarts(tokens);
      FieldsStep(JoinWords(tokens), tokens[0], JoinWords(tokens[1..]));
      assert tokens == [tokens[0]] + tokens[1..];
    }
  }

  lemma FieldsStep(s: string, word: string, rest: string)
    requires AfterSpaces(s) != "" && AfterSpaces(s)[..Word(AfterSpaces(s))] == word
    requires AfterSpaces(s)[Word(AfterSpaces(s))..] == rest
    ensures Fields(s) == [word] + Fields(rest)
  {
  }

  lemma JoinedStarts(tokens: seq<string>)
    requires tokens != [] && IsToken(tokens[0])
    ensures
      var t := AfterSpaces(JoinWords(tokens));
      t != "" && t[..Word(t)] == tokens[0] && t[Word(t)..] == JoinWords(tokens[1..])
  {
    var rest := JoinWords(tokens[1..]);
    var t := tokens[0] + rest;
    assert JoinWords(tokens) == " " + t;
    OneSpace(t);
    assert (" " + t)[1..] == t;
    WordEnds(tokens[0], rest);
  }

  lemma OneSpace(t: string)
    requires t != "" && !IsSpace(t[0])
    ensures Spaces(" " + t) == 1
  {
  }

  lemma WordEnds(token: string, rest: string)
    requires IsToken(token) && (rest == "" || rest[0] == ' ')
    ensures Word(token + rest) == |token|
  {
    var t := token + rest;
    assert forall i :: 0 <= i < |token| ==> t[i] == token[i];
    assert rest != "" ==> t[|token|] == ' ';
    WordIs(t, |token|);
  }

  lemma WordIs(s: string, n: nat)
    requires n <= |s| && (forall i :: 0 <= i < n ==> !IsSpace(s[i])) && (n < |s| ==> IsSpace(s[n]))
    ensures Word(s) == n
  {
  }

  // --------------------------------------------------------------------- framing

  /** `binary.BigEndian.PutUint64` for `k == 8`. */
  function BigEndian(n: nat, k: nat): (b: seq<Byte>)
    ensures |b| == k
  {
    if k == 0 then [] else BigEndian(n / 256, k - 1) + [n % 256]
  }

  function BigEndianValue(b: seq<Byte>): nat
  {
    if b == [] then 0 else 256 * BigEndianValue(b[..|b| - 1]) + b[|b| - 1]
  }

  function Power256(k: nat): nat
  {
    if k == 0 then 1 else 256 * Power256(k - 1)
  }

  lemma {:induction false} BigEndianRoundTrip(n: nat, k: nat)
    requires n < Power256(k)
    ensures BigEndianValue(BigEndian(n, k)) == n
  {
    if k > 0 {
      BigEndianRoundTrip(n / 256, k - 1);
      assert BigEndian(n, k)[..k - 1] == BigEndian(n / 256, k - 1);
    }
  }

  /** What the hasher is fed for one token: its length in bytes, then its bytes. */
  function Entry(token: string): (b: seq<Byte>)
    ensures |b| == 8 + ByteLength(token)
  {
    BigEndian(ByteLength(token), 8) + Utf8(token)
  }

  function Frame(tokens: seq<string>): seq<Byte>
  {
    if tokens == [] then [] else Entry(tokens[0]) + Frame(tokens[1..])
  }

  predicate Measurable(tokens: seq<string>)
  {
    forall i :: 0 <= i < |tokens| ==> ByteLength(tokens[i]) < TWO_64
  }

  lemma Power256Of8()
    ensures Power256(8) == TWO_64
  {
  }

  /** One entry can be read off the front of any frame. */
  lemma EntryPrefixFree(s: string, x: seq<Byte>, t: string, y: seq<Byte>)
    requires ByteLength(s) < TWO_64 && ByteLength(t) < TWO_64
    requires Entry(s) + x == Entry(t) + y
    ensures s == t && x == y
  {
    HeadIsRead(BigEndian(ByteLength(s), 8), Utf8(s), x, BigEndian(ByteLength(t), 8), Utf8(t), y);
    LengthIsRead(ByteLength(s), ByteLength(t));
    SameHead(Utf8(s), x, Utf8(t), y);
    Utf8Injective(s, t);
  }

  lemma HeadIsRead(p: seq<Byte>, u: seq<Byte>, x: seq<Byte>, q: seq<Byte>, v: seq<Byte>, y: seq<Byte>)
    requires p + u + x == q + v + y && |p| == |q|
    ensures p == q && u + x == v + y
  {
    assert p + u + x == p + (u + x) && q + v + y == q + (v + y);
    SameHead(p, u + x, q, v + y);
  }

  lemma LengthIsRead(a: nat, b: nat)
    requires a < TWO_64 && b < TWO_64 && BigEndian(a, 8) == BigEndian(b, 8)
    ensures a == b
  {
    Power256Of8();
    BigEndianRoundTrip(a, 8);
    BigEndianRoundTrip(b, 8);
  }

  /** The framing is injective: different token lists are fed differently. */
  lemma {:induction false} FrameInjective(a: seq<string>, b: seq<string>)
    requires Measurable(a) && Measurable(b) && Frame(a) == Frame(b)
    ensures a == b
  {
    if a == [] || b == [] {
      assert |Frame(a)| == |Frame(b)|;
    } else {
      EntryPrefixFree(a[0], Frame(a[1..]), b[0], Frame(b[1..]));
      FrameInjective(a[1..], b[1..]);
      assert a == [a[0]] + a[1..] && b == [b[0]] + b[1..];
    }
  }

  /** Without the length prefix it would not be: two token lists with the same bytes. */
  lemma ConcatenationIsAmbiguous()
    ensures Utf8("ab") + Utf8("c") == Utf8("a") + Utf8("bc") && ["ab", "c"] != ["a", "bc"]
  {
  }

  lemma {:induction false} FrameAppend(tokens: seq<string>, t: string)
    ensures Frame(tokens + [t]) == Frame(tokens) + Entry(t)
  {
    if tokens == [] {
      assert [t][1..] == [];
    } else {
      assert (tokens + [t])[1..] == tokens[1..] + [t];
      FrameAppend(tokens[1..], t);
    }
  }

  /** The bytes `tokenOutputSHA256` writes into the hasher. */
  method TokenBytes(output: string) returns (bytes: seq<Byte>)
    ensures bytes == Frame(Fields(output))
  {
    var tokens := Fields(output);
    bytes := [];
    var i := 0;
    while i < |tokens|
      invariant i <= |tokens| && bytes == Frame(tokens[..i])
    {
      bytes := bytes + BigEndian(ByteLength(tokens[i]), 8);
      bytes := bytes + Utf8(tokens[i]);
      FrameAppend(tokens[..i], tokens[i]);
      assert tokens[..i + 1] == tokens[..i] + [tokens[i]];
      i := i + 1;
    }
    assert tokens[..i] == tokens;
  }

  ghost predicate CollisionFree<D(!new)>(hash: seq<Byte> -> D)
  {
    forall x, y :: hash(x) == hash(y) ==> x == y
  }

  /** With a collision-free hash, comparing digests decides exactly whether the token lists are equal. */
  lemma DigestsDecideTokens<D(!new)>(hash: seq<Byte> -> D, actual: string, expected: string)
    requires CollisionFree(hash) && Measurable(Fields(actual)) && Measurable(Fields(expected))
    ensures hash(Frame(Fields(actual))) == hash(Frame(Fields(expected))) <==> Fields(actual) == Fields(expected)
  {
    if hash(Frame(Fields(actual))) == hash(Frame(Fields(expected))) {
      assert Frame(Fields(actual)) == Frame(Fields(expected));
      FrameInjective(Fields(actual), Fields(expected));
    }
  }

  /** The token comparison of `outputsMatch`. */
  method TokensMatch(actual: string, expected: string) returns (same: bool)
    ensures same <==> Fields(actual) == Fields(expected)
  {
    var a, b := Fields(actual), Fields(expected);
    if |a| != |b| {
      return false;
    }
    var i := 0;
    while i < |a|
      invariant i <= |a| && a[..i] == b[..i]
    {
      if a[i] != b[i] {
        return false;
      }
      i := i + 1;
    }
    assert a[..i] == a && b[..i] == b;
    same := true;
  }

  // ----------------------------------------------------------------------- lines

  /** Both replacements at once: CR LF and a lone CR become LF. */
  function ReplaceCrLf(s: string): string
  {
    if s == "" then ""
    else if |s| >= 2 && s[0] == '\r' && s[1] == '\n' then "\n" + ReplaceCrLf(s[2..])
    else [s[0]] + ReplaceCrLf(s[1..])
  }

  function ReplaceCr(s: string): (r: string)
    ensures |r| == |s| && forall i :: 0 <= i < |s| ==> r[i] == if s[i] == '\r' then '\n' else s[i]
  {
    if s == "" then "" else [if s[0] == '\r' then '\n' else s[0]] + ReplaceCr(s[1..])
  }

  /** `strings.Split(s, "\n")`. */
  function Lines(s: string): seq<string>
  {
    Split(s, '\n')
  }

  /** `strings.Join(lines, "\n")`. */
  function JoinLines(lines: seq<string>): string
    requires |lines| > 0
  {
    Join(lines, '\n')
  }

  function TrimAll(lines: seq<string>): (r: seq<string>)
    ensures |r| == |lines| && forall i :: 0 <= i < |lines| ==> r[i] == Trim(lines[i])
  {
    seq(|lines|, i requires 0 <= i < |lines| => Trim(lines[i]))
  }

  function Normalize(value: string): string
  {
    Trim(JoinLines(TrimAll(Lines(ReplaceCr(ReplaceCrLf(value))))))
  }

  /** The normaliser as the program runs it: the lines are rewritten in place. */
  method NormalizeExactOutput(value: string) returns (r: string)
    ensures r == Normalize(value)
  {
    var text := ReplaceCr(ReplaceCrLf(value));
    var split := Lines(text);
    var lines := new string[|split|](i requires 0 <= i < |split| => split[i]);
    var index := 0;
    while index < lines.Length
      invariant index <= lines.Length
      invariant forall i :: 0 <= i < index ==> lines[i] == Trim(split[i])
      invariant forall i :: index <= i < lines.Length ==> lines[i] == split[i]
    {
      lines[index] := Trim(lines[index]);
      index := index + 1;
    }
    assert lines[..] == TrimAll(split);
    r := Trim(JoinLines(lines[..]));
  }

  // ---------------------------------------------------------------- normal forms

  /** White space inside a line. */
  predicate Blankish(c: char)
  {
    IsSpace(c) && c != '\n'
  }

  predicate NoCr(s: string)
  {
    forall i :: 0 <= i < |s| ==> s[i] != '\r'
  }

  /** No line begins or ends with white space, as far as its neighbouring line breaks tell. */
  predicate TightBreaks(s: string)
  {
    forall i :: 0 <= i < |s| - 1 ==> !(s[i] == '\n' && Blankish(s[i + 1])) && !(s[i + 1] == '\n' && Blankish(s[i]))
  }

  predicate Trimmed(s: string)
  {
    s == "" || (!IsSpace(s[0]) && !IsSpace(s[|s| - 1]))
  }

  predicate OneLine(s: string)
  {
    forall i :: 0 <= i < |s| ==> s[i] != '\n'
  }

  predicate NormalForm(s: string)
  {
    NoCr(s) && TightBreaks(s) && Trimmed(s)
  }

  lemma TrimmedIsTrim(s: string)
    requires Trimmed(s)
    ensures Trim(s) == s
  {
  }

  lemma {:induction false} TrimSlice(s: string) returns (i: nat, j: nat)
    ensures i <= j <= |s| && Trim(s) == s[i..j]
    ensures Trimmed(Trim(s))
  {
    if s == "" {
      i, j := 0, 0;
    } else if IsSpace(s[0]) {
      i, j := TrimSlice(s[1..]);
      assert s[1..][i..j] == s[i + 1..j + 1];
      i, j := i + 1, j + 1;
    } else if IsSpace(s[|s| - 1]) {
      i, j := TrimSlice(s[..|s| - 1]);
      assert s[..|s| - 1][i..j] == s[i..j];
    } else {
      i, j := 0, |s|;
    }
  }

  lemma {:induction false} NoCrIsKept(s: string)
    requires NoCr(s)
    ensures ReplaceCrLf(s) == s && ReplaceCr(s) == s
  {
    if s != "" {
      NoCrIsKept(s[1..]);
      assert s == [s[0]] + s[1..];
    }
  }

  /** Where a line of a tight text begins and ends there is no white space, except at the very beginning of the text. */
  predicate LineOk(s: string, lines: seq<string>, i: nat)
    requires i < |lines|
  {
    && OneLine(lines[i])
    && (lines[i] != "" ==> !IsSpace(lines[i][|lines[i]| - 1]))
    && (lines[i] != "" && i > 0 ==> !IsSpace(lines[i][0]))
    && (lines[i] != "" && i == 0 ==> s != "" && lines[0][0] == s[0])
    && (lines[i] == "" && i == 0 ==> s == "" || s[0] == '\n')
  }

  lemma {:induction false} TightLines(s: string)
    requires TightBreaks(s) && (s != "" ==> !Blankish(s[|s| - 1]))
    ensures forall i :: 0 <= i < |Lines(s)| ==> LineOk(s, Lines(s), i)
  {
    if s != "" {
      var tail := s[1..];
      var rest := Lines(tail);
      forall i | 0 <= i < |tail| - 1
        ensures !(tail[i] == '\n' && Blankish(tail[i + 1])) && !(tail[i + 1] == '\n' && Blankish(tail[i]))
      {
        assert tail[i] == s[i + 1] && tail[i + 1] == s[i + 1 + 1];
      }
      TightLines(tail);
      assert LineOk(tail, rest, 0);
      forall i | 0 <= i < |Lines(s)| ensures LineOk(s, Lines(s), i) {
        FirstLine(s, rest, i);
      }
    }
  }

  lemma FirstLine(s: string, rest: seq<string>, i: nat)
    requires s != "" && rest == Lines(s[1..]) && i < |Lines(s)| && TightBreaks(s) && !Blankish(s[|s| - 1])
    requires forall k :: 0 <= k < |rest| ==> LineOk(s[1..], rest, k)
    ensures LineOk(s, Lines(s), i)
  {
    if s[0] == '\n' {
      AfterBreak(s, rest, i);
    } else {
      WithinLine(s, rest, i);
    }
  }

  lemma AfterBreak(s: string, rest: seq<string>, i: nat)
    requires s != "" && s[0] == '\n' && rest == Lines(s[1..]) && i < |Lines(s)| && TightBreaks(s)
    requires forall k :: 0 <= k < |rest| ==> LineOk(s[1..], rest, k)
    ensures LineOk(s, Lines(s), i)
  {
    if i > 0 {
      assert Lines(s)[i] == rest[i - 1] && LineOk(s[1..], rest, i - 1);
    }
  }

  lemma WithinLine(s: string, rest: seq<string>, i: nat)
    requires s != "" && s[0] != '\n' && rest == Lines(s[1..]) && i < |Lines(s)| && TightBreaks(s)
    requires !Blankish(s[|s| - 1])
    requires forall k :: 0 <= k < |rest| ==> LineOk(s[1..], rest, k)
    ensures LineOk(s, Lines(s), i)
  {
    if i > 0 {
      assert Lines(s)[i] == rest[i] && LineOk(s[1..], rest, i);
    } else {
      assert LineOk(s[1..], rest, 0);
      LineGrows(s, rest);
    }
  }

  lemma LineGrows(s: string, rest: seq<string>)
    requires s != "" && s[0] != '\n' && rest == Lines(s[1..]) && TightBreaks(s) && !Blankish(s[|s| - 1])
    requires LineOk(s[1..], rest, 0)
    ensures LineOk(s, Lines(s), 0)
  {
  }

  /** A text in normal form is its own normalisation. */
  lemma NormalFormIsKept(t: string)
    requires NormalForm(t)
    ensures Normalize(t) == t
  {
    NoCrIsKept(t);
    TightLines(t);
    var lines := Lines(t);
    forall i | 0 <= i < |lines| ensures TrimAll(lines)[i] == lines[i] {
      assert LineOk(t, lines, i);
      TrimmedIsTrim(lines[i]);
    }
    assert TrimAll(lines) == lines;
    JoinOfSplit(t, '\n');
    TrimmedIsTrim(t);
  }

  /** A line of a text has no line break, and no CR if the text has none. */
  lemma {:induction false} LinesAreLines(s: string)
    requires NoCr(s)
    ensures forall i :: 0 <= i < |Lines(s)| ==> OneLine(Lines(s)[i]) && NoCr(Lines(s)[i])
  {
    if s != "" {
      var rest := Lines(s[1..]);
      LinesAreLines(s[1..]);
      assert OneLine(rest[0]) && NoCr(rest[0]);
      assert s[0] != '\n' ==> Lines(s) == [[s[0]] + rest[0]] + rest[1..];
    }
  }

  lemma TrimKeepsLine(s: string)
    requires OneLine(s) && NoCr(s)
    ensures OneLine(Trim(s)) && NoCr(Trim(s)) && Trimmed(Trim(s))
  {
  }

  /** Joining trimmed lines gives tight breaks. */
  lemma {:induction false} JoinIsTight(lines: seq<string>)
    requires |lines| > 0 && forall i :: 0 <= i < |lines| ==> OneLine(lines[i]) && NoCr(lines[i]) && Trimmed(lines[i])
    ensures TightBreaks(JoinLines(lines)) && NoCr(JoinLines(lines))
    ensures JoinLines(lines) == "" || !Blankish(JoinLines(lines)[0])
  {
    if |lines| > 1 {
      JoinIsTight(lines[1..]);
      BreakIsTight(lines[0], JoinLines(lines[1..]));
    }
  }

  lemma BreakIsTight(line: string, rest: string)
    requires OneLine(line) && NoCr(line) && Trimmed(line) && TightBreaks(rest) && NoCr(rest)
    requires (rest == "" || !Blankish(rest[0]))
    ensures
      var s := line + "\n" + rest;
      TightBreaks(s) && NoCr(s) && !Blankish(s[0])
  {
  }

  lemma SliceIsTight(s: string, i: nat, j: nat)
    requires i <= j <= |s| && TightBreaks(s) && NoCr(s)
    ensures TightBreaks(s[i..j]) && NoCr(s[i..j])
  {
  }

  /** Every normalised output is in normal form. */
  lemma NormalizeIsNormal(value: string)
    ensures NormalForm(Normalize(value))
  {
    var text := ReplaceCr(ReplaceCrLf(value));
    assert NoCr(text);
    var lines := TrimAll(Lines(text));
    LinesAreLines(text);
    forall i | 0 <= i < |lines| ensures OneLine(lines[i]) && NoCr(lines[i]) && Trimmed(lines[i]) {
      TrimKeepsLine(Lines(text)[i]);
    }
    JoinIsTight(lines);
    var i, j := TrimSlice(JoinLines(lines));
    SliceIsTight(JoinLines(lines), i, j);
  }

  /**
   * The normaliser is idempotent and its results are exactly the normal forms, so the exact comparison is equality of
   * normal forms: every output matches its own normal form, and two normal forms match only if they are the same.
   */
  lemma NormalizeIsIdempotent(value: string)
    ensures Normalize(Normalize(value)) == Normalize(value)
    ensures NormalForm(value) <==> Normalize(value) == value
  {
    NormalizeIsNormal(value);
    NormalFormIsKept(Normalize(value));
    if NormalForm(value) {
      NormalFormIsKept(value);
    }
  }

  // -------------------------------------------------------------------- matching

  datatype Checker = Exact | Token | Special

  /** `outputsMatch`: token lists for the token checker, normal forms for the exact one. */
  predicate OutputsMatch(checker: Checker, actual: string, expected: string)
  {
    if checker == Token then Fields(actual) == Fields(expected) else Normalize(actual) == Normalize(expected)
  }

  /** What the pipeline retains of an expected output: only a digest of its tokens for the token checker. */
  datatype ExpectedCheck<D> = Output(text: string) | TokenDigest(digest: D)

  function ExpectedCheckOf<D>(hash: seq<Byte> -> D, checker: Checker, expected: string): ExpectedCheck<D>
  {
    if checker == Token then TokenDigest(hash(Frame(Fields(expected)))) else Output(expected)
  }

  /** `outputMatchesExpectedCheck`. */
  predicate OutputMatchesCheck<D(==)>(hash: seq<Byte> -> D, checker: Checker, actual: string, check: ExpectedCheck<D>)
  {
    match check
    case TokenDigest(digest) => hash(Frame(Fields(actual))) == digest
    case Output(text) => OutputsMatch(checker, actual, text)
  }

  /** With a collision-free hash the retained check decides what the outputs themselves would. */
  lemma CheckDecidesOutputs<D(!new)>(hash: seq<Byte> -> D, checker: Checker, actual: string, expected: string)
    requires CollisionFree(hash) && Measurable(Fields(actual)) && Measurable(Fields(expected))
    ensures OutputMatchesCheck(hash, checker, actual, ExpectedCheckOf(hash, checker, expected)) <==>
      OutputsMatch(checker, actual, expected)
  {
    DigestsDecideTokens(hash, actual, expected);
  }
}
