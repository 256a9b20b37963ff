/** What it takes for two outputs to match, without the functions that decide it. */
module Outputs {
  import opened Text
  import opened Checkers

  predicate AllSpace(s: string)
  {
    forall i :: 0 <= i < |s| ==> IsSpace(s[i])
  }

  /** Trimming takes white space off both ends, and nothing else; `Trimmed` says that it takes all of it. */
  lemma {:induction false} TrimTakesSpace(s: string) returns (front: string, back: string)
    ensures s == front + Trim(s) + back && AllSpace(front) && AllSpace(back)
  {
    front, back := "", "";
    if s == "" {
    } else if IsSpace(s[0]) {
      var f, b := TrimTakesSpace(s[1..]);
      FrontGrows(s, f, Trim(s), b);
      front, back := [s[0]] + f, b;
    } else if IsSpace(s[|s| - 1]) {
      var f, b := TrimTakesSpace(s[..|s| - 1]);
      BackGrows(s, f, Trim(s), b);
      front, back := f, b + [s[|s| - 1]];
    }
  }

  lemma FrontGrows(s: string, f: string, t: string, b: string)
    requires s != "" && IsSpace(s[0]) && s[1..] == f + t + b && AllSpace(f)
    ensures s == [s[0]] + f + t + b && AllSpace([s[0]] + f)
  {
    assert s == [s[0]] + s[1..];
  }

  lemma BackGrows(s: string, f: string, t: string, b: string)
    requires s != "" && IsSpace(s[|s| - 1]) && s[..|s| - 1] == f + t + b && AllSpace(b)
    ensures s == f + t + (b + [s[|s| - 1]]) && AllSpace(b + [s[|s| - 1]])
  {
    assert s == s[..|s| - 1] + [s[|s| - 1]];
  }

  // ---------------------------------------------------------------------- tokens

  /** The first token of a text starts after `i` characters of white space and is `n` long. */
  predicate FirstToken(s: string, token: string, i: nat, n: nat)
  {
    && i + n <= |s| && (forall k :: 0 <= k < i ==> IsSpace(s[k]))
    && s[i..i + n] == token && (i + n == |s| || IsSpace(s[i + n]))
  }

  /** The text consists of the tokens in their order, with white space between and around them. */
  ghost predicate ConsistsOf(s: string, tokens: seq<string>)
    decreases |tokens|
  {
    if tokens == [] then AllSpace(s)
    else
      && IsToken(tokens[0])
      && exists i: nat, n: nat :: FirstToken(s, tokens[0], i, n) && ConsistsOf(s[i + n..], tokens[1..])
  }

  lemma {:induction false} FieldsConsist(s: string)
    ensures ConsistsOf(s, Fields(s))
    decreases |s|
  {
    var t := AfterSpaces(s);
    var i := Spaces(s);
    if t != "" {
      var n := Word(t);
      WordIsToken(t);
      FieldsConsist(t[n..]);
      assert t[n..] == s[i + n..] && t[..n] == s[i..i + n];
      assert i + n < |s| ==> s[i + n] == t[n];
      FieldsStep(s, t[..n], t[n..]);
      assert Fields(s)[0] == t[..n] && Fields(s)[1..] == Fields(t[n..]);
      assert FirstToken(s, Fields(s)[0], i, n);
    }
  }

  lemma FirstTokenIs(s: string, token: string, i: nat, n: nat)
    requires IsToken(token) && FirstToken(s, token, i, n)
    ensures
      var t := AfterSpaces(s);
      Spaces(s) == i && t != "" && Word(t) == n && t[..n] == token && t[n..] == s[i + n..]
  {
    assert s[i] == token[0];
    SpacesAre(s, i);
    var t := s[i..];
    forall k | 0 <= k < n ensures !IsSpace(t[k]) { assert t[k] == token[k]; }
    assert n < |t| ==> t[n] == s[i + n];
    WordIs(t, n);
  }

  lemma SpacesAre(s: string, i: nat)
    requires i < |s| && (forall k :: 0 <= k < i ==> IsSpace(s[k])) && !IsSpace(s[i])
    ensures Spaces(s) == i
  {
  }

  lemma SpaceHasNoFields(s: string)
    requires AllSpace(s)
    ensures Fields(s) == []
  {
    assert Spaces(s) == |s|;
  }

  /** The tokens of a text are the only ones it consists of. */
  lemma {:induction false} FieldsAreTheTokens(s: string, tokens: seq<string>)
    ensures ConsistsOf(s, tokens) <==> tokens == Fields(s)
    decreases |tokens|
  {
    FieldsConsist(s);
    if ConsistsOf(s, tokens) {
      if tokens == [] {
        SpaceHasNoFields(s);
      } else {
        var i: nat, n: nat :| FirstToken(s, tokens[0], i, n) && ConsistsOf(s[i + n..], tokens[1..]);
        FirstTokenIs(s, tokens[0], i, n);
        FieldsAreTheTokens(s[i + n..], tokens[1..]);
        FieldsStep(s, tokens[0], s[i + n..]);
        assert tokens == [tokens[0]] + tokens[1..];
      }
    }
  }

  /** Under the token checker two outputs match if and only if they consist of the same tokens. */
  lemma TokenMatch(actual: string, expected: string, tokens: seq<string>)
    ensures OutputsMatch(Token, actual, expected) ==> (ConsistsOf(actual, tokens) <==> ConsistsOf(expected, tokens))
    ensures ConsistsOf(actual, tokens) && ConsistsOf(expected, tokens) ==> OutputsMatch(Token, actual, expected)
  {
    FieldsAreTheTokens(actual, tokens);
    FieldsAreTheTokens(expected, tokens);
  }

  // ----------------------------------------------------------------------- lines

  /** The lines of a text, ended by LF, CR or CR LF. */
  function TextLines(s: string): (lines: seq<string>)
    ensures |lines| > 0
    decreases |s|
  {
    if s == "" then [""]
    else if |s| >= 2 && s[0] == '\r' && s[1] == '\n' then [""] + TextLines(s[2..])
    else if s[0] == '\r' || s[0] == '\n' then [""] + TextLines(s[1..])
    else
      var rest := TextLines(s[1..]);
      [[s[0]] + rest[0]] + rest[1..]
  }

  lemma {:induction false} LinesOfText(s: string)
    ensures Lines(ReplaceCr(ReplaceCrLf(s))) == TextLines(s)
    decreases |s|
  {
    if s != "" {
      var pair := |s| >= 2 && s[0] == '\r' && s[1] == '\n';
      var rest := if pair then s[2..] else s[1..];
      var head := if pair then '\n' else s[0];
      LinesOfText(rest);
      ReplacedHead(head, ReplaceCrLf(rest));
      assert ReplaceCrLf(s) == [head] + ReplaceCrLf(rest);
    }
  }

  lemma ReplacedHead(head: char, rest: string)
    ensures
      var c := if head == '\r' then '\n' else head;
      && ReplaceCr([head] + rest) == [c] + ReplaceCr(rest)
      && Lines([c] + ReplaceCr(rest)) ==
           if c == '\n' then [""] + Lines(ReplaceCr(rest))
           else [[c] + Lines(ReplaceCr(rest))[0]] + Lines(ReplaceCr(rest))[1..]
  {
    var c := if head == '\r' then '\n' else head;
    assert ([head] + rest)[1..] == rest;
    assert ([c] + ReplaceCr(rest))[1..] == ReplaceCr(rest);
  }

  /** The lines between the first and the last that is not empty. */
  function WithoutBlankEnds(lines: seq<string>): (r: seq<string>)
    ensures r == [] || (r[0] != "" && r[|r| - 1] != "")
  {
    if lines == [] then []
    else if lines[0] == "" then WithoutBlankEnds(lines[1..])
    else if lines[|lines| - 1] == "" then WithoutBlankEnds(lines[..|lines| - 1])
    else lines
  }

  predicate AreTrimmed(lines: seq<string>)
  {
    forall i :: 0 <= i < |lines| ==> Trimmed(lines[i]) && OneLine(lines[i])
  }

  lemma {:induction false} KeptLinesAreTrimmed(lines: seq<string>)
    requires AreTrimmed(lines)
    ensures AreTrimmed(WithoutBlankEnds(lines))
  {
    if lines != [] {
      if lines[0] == "" {
        KeptLinesAreTrimmed(lines[1..]);
      } else if lines[|lines| - 1] == "" {
        KeptLinesAreTrimmed(lines[..|lines| - 1]);
      }
    }
  }

  lemma {:induction false} JoinLast(lines: seq<string>)
    requires |lines| > 1
    ensures JoinLines(lines) == JoinLines(lines[..|lines| - 1]) + "\n" + lines[|lines| - 1]
  {
    var n := |lines| - 1;
    assert JoinLines(lines) == lines[0] + "\n" + JoinLines(lines[1..]);
    if n == 1 {
      assert lines[1..] == [lines[1]] && lines[..1] == [lines[0]];
    } else {
      JoinLast(lines[1..]);
      assert lines[1..][..n - 1] == lines[..n][1..] && lines[1..][n - 1] == lines[n];
      assert JoinLines(lines[..n]) == lines[0] + "\n" + JoinLines(lines[..n][1..]);
    }
  }

  lemma {:induction false} JoinEnds(lines: seq<string>)
    requires |lines| > 0 && lines[0] != "" && lines[|lines| - 1] != ""
    ensures
      var s := JoinLines(lines);
      s != "" && s[0] == lines[0][0] && s[|s| - 1] == lines[|lines| - 1][|lines[|lines| - 1]| - 1]
  {
    if |lines| > 1 {
      JoinLast(lines);
    }
  }

  lemma JoinStarts(lines: seq<string>)
    requires |lines| > 0 && lines[0] != ""
    ensures JoinLines(lines) != "" && JoinLines(lines)[0] == lines[0][0]
  {
  }

  lemma TrimOfBreak(s: string)
    ensures Trim("\n" + s) == Trim(s)
    ensures s != "" && !IsSpace(s[0]) ==> Trim(s + "\n") == Trim(s)
  {
    assert ("\n" + s)[1..] == s;
    assert (s + "\n")[..|s|] == s;
  }

  /** Trimming joined lines removes the blank ones at both ends. */
  lemma {:induction false} TrimOfJoin(lines: seq<string>)
    requires |lines| > 0 && AreTrimmed(lines)
    ensures Trim(JoinLines(lines)) ==
      if WithoutBlankEnds(lines) == [] then "" else JoinLines(WithoutBlankEnds(lines))
    decreases |lines|
  {
    var n := |lines| - 1;
    if lines[0] == "" {
      if n > 0 {
        TrimOfJoin(lines[1..]);
        TrimOfBreak(JoinLines(lines[1..]));
        assert JoinLines(lines) == "\n" + JoinLines(lines[1..]);
      } else {
        assert lines[1..] == [];
      }
    } else if lines[n] == "" {
      TrimOfJoin(lines[..n]);
      JoinLast(lines);
      JoinStarts(lines[..n]);
      TrimOfBreak(JoinLines(lines[..n]));
      assert JoinLines(lines) == JoinLines(lines[..n]) + "\n";
    } else {
      JoinEnds(lines);
      TrimmedIsTrim(JoinLines(lines));
    }
  }

  /** What counts of an output: its lines without white space around them, and without blank lines around those. */
  function ContentLines(value: string): seq<string>
  {
    WithoutBlankEnds(TrimAll(TextLines(value)))
  }

  lemma ContentIsTrimmed(value: string)
    ensures AreTrimmed(TrimAll(TextLines(value))) && AreTrimmed(ContentLines(value))
  {
    var text := ReplaceCr(ReplaceCrLf(value));
    LinesOfText(value);
    assert NoCr(text);
    LinesAreLines(text);
    forall i | 0 <= i < |TextLines(value)|
      ensures Trimmed(TrimAll(TextLines(value))[i]) && OneLine(TrimAll(TextLines(value))[i])
    {
      TrimKeepsLine(Lines(text)[i]);
    }
    KeptLinesAreTrimmed(TrimAll(TextLines(value)));
  }

  lemma NormalizeIsContent(value: string)
    ensures Normalize(value) == if ContentLines(value) == [] then "" else JoinLines(ContentLines(value))
  {
    LinesOfText(value);
    ContentIsTrimmed(value);
    TrimOfJoin(TrimAll(TextLines(value)));
  }

  lemma JoinedLinesDiffer(a: seq<string>, b: seq<string>)
    requires |a| > 0 && |b| > 0 && AreTrimmed(a) && AreTrimmed(b) && JoinLines(a) == JoinLines(b)
    ensures a == b
  {
    SplitOfJoin(a, '\n');
    SplitOfJoin(b, '\n');
  }

  /**
   * Under the exact checker two outputs match if and only if their content agrees line by line: white space around a
   * line, the kind of line break, and blank lines before and after everything do not count.
   */
  lemma ExactMatch(actual: string, expected: string)
    ensures OutputsMatch(Exact, actual, expected) <==> ContentLines(actual) == ContentLines(expected)
  {
    NormalizeIsContent(actual);
    NormalizeIsContent(expected);
    ContentIsTrimmed(actual);
    ContentIsTrimmed(expected);
    var a, b := ContentLines(actual), ContentLines(expected);
    if a != [] {
      JoinStarts(a);
    }
    if b != [] {
      JoinStarts(b);
    }
    if a != [] && b != [] && JoinLines(a) == JoinLines(b) {
      JoinedLinesDiffer(a, b);
    }
  }
}
