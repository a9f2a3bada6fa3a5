/**
 * Reading a text file the way Python's `open(path, "r")` followed by
 * `for line in file` does: universal-newline translation, then a split of
 * the text into lines that keep their terminator.
 */
module TextFiles {

  /** Text-mode translation: "\r\n" and a lone "\r" both become "\n". */
  function Universal(raw: string): (text: string)
    ensures '\r' !in text
    ensures |text| <= |raw|
    decreases |raw|
  {
    if raw == [] then []
    else if raw[0] == '\r' && |raw| >= 2 && raw[1] == '\n' then "\n" + Universal(raw[2..])
    else if raw[0] == '\r' then "\n" + Universal(raw[1..])
    else [raw[0]] + Universal(raw[1..])
  }

  /** A file without carriage returns is read back unchanged. */
  lemma {:induction false} UniversalKeepsPlainText(raw: string)
    requires '\r' !in raw
    ensures Universal(raw) == raw
    decreases |raw|
  {
    if raw != [] {
      assert raw[0] in raw;
      assert forall c | c in raw[1..] :: c in raw;
      UniversalKeepsPlainText(raw[1..]);
    }
  }

  /** The number of times `c` occurs in `s`. */
  function Count(s: string, c: char): nat
    decreases |s|
  {
    if s == [] then 0 else (if s[0] == c then 1 else 0) + Count(s[1..], c)
  }

  /** The number of "\r\n" pairs in `s`. */
  function Pairs(s: string): nat
    decreases |s|
  {
    if |s| < 2 then 0 else (if s[0] == '\r' && s[1] == '\n' then 1 else 0) + Pairs(s[1..])
  }

  /** `s` without its carriage returns and line feeds. */
  function Plain(s: string): string
    decreases |s|
  {
    if s == [] then [] else (if s[0] == '\r' || s[0] == '\n' then [] else [s[0]]) + Plain(s[1..])
  }

  /**
   * Every line break of the raw file becomes exactly one "\n": each "\n"
   * and each "\r" counts once, except that a "\r\n" pair counts once.
   */
  lemma {:induction false} UniversalCountsBreaks(raw: string)
    ensures Count(Universal(raw), '\n') == Count(raw, '\n') + Count(raw, '\r') - Pairs(raw)
    decreases |raw|
  {
    if raw == [] {
    } else if raw[0] == '\r' && |raw| >= 2 && raw[1] == '\n' {
      UniversalCountsBreaks(raw[2..]);
      assert raw[1..][1..] == raw[2..];
      assert ("\n" + Universal(raw[2..]))[1..] == Universal(raw[2..]);
      assert Pairs(raw[1..]) == Pairs(raw[2..]);
    } else if raw[0] == '\r' {
      UniversalCountsBreaks(raw[1..]);
      assert ("\n" + Universal(raw[1..]))[1..] == Universal(raw[1..]);
    } else {
      UniversalCountsBreaks(raw[1..]);
      assert ([raw[0]] + Universal(raw[1..]))[1..] == Universal(raw[1..]);
    }
  }

  /** Apart from the line breaks, the text is the raw file's characters, in order. */
  lemma {:induction false} UniversalKeepsOtherChars(raw: string)
    ensures Plain(Universal(raw)) == Plain(raw)
    decreases |raw|
  {
    if raw == [] {
    } else if raw[0] == '\r' && |raw| >= 2 && raw[1] == '\n' {
      UniversalKeepsOtherChars(raw[2..]);
      assert raw[1..][1..] == raw[2..];
      assert ("\n" + Universal(raw[2..]))[1..] == Universal(raw[2..]);
    } else if raw[0] == '\r' {
      UniversalKeepsOtherChars(raw[1..]);
      assert ("\n" + Universal(raw[1..]))[1..] == Universal(raw[1..]);
    } else {
      UniversalKeepsOtherChars(raw[1..]);
      assert ([raw[0]] + Universal(raw[1..]))[1..] == Universal(raw[1..]);
    }
  }

  /**
   * The translation works break by break: a file cut anywhere except
   * between the two characters of a "\r\n" translates as its two halves do.
   */
  lemma {:induction false} UniversalOfConcat(a: string, b: string)
    requires a == [] || a[|a| - 1] != '\r' || b == [] || b[0] != '\n'
    ensures Universal(a + b) == Universal(a) + Universal(b)
    decreases |a|
  {
    if a == [] {
      assert a + b == b;
    } else if b == [] {
      assert a + b == a;
    } else {
      var k := if a[0] == '\r' && |a| >= 2 && a[1] == '\n' then 2 else 1;
      var rest := a[k..];
      assert rest == [] || rest[|rest| - 1] == a[|a| - 1];
      UniversalOfConcat(rest, b);
      if k == 2 {
        ConcatAfterReturnNewline(a, b);
      } else if a[0] == '\r' && |a| == 1 {
        ConcatAfterFinalReturn(a, b);
      } else if a[0] == '\r' {
        ConcatAfterLoneReturn(a, b);
      } else {
        ConcatAfterOther(a, b);
      }
    }
  }

  /** The induction step for a file that starts with "\r\n". */
  lemma ConcatAfterReturnNewline(a: string, b: string)
    requires |a| >= 2 && a[0] == '\r' && a[1] == '\n'
    requires Universal(a[2..] + b) == Universal(a[2..]) + Universal(b)
    ensures Universal(a + b) == Universal(a) + Universal(b)
  {
    var ab := a + b;
    assert ab[0] == '\r' && ab[1] == '\n' && ab[2..] == a[2..] + b;
    UniversalOfReturnNewline(a);
    UniversalOfReturnNewline(ab);
    Rejoin(Universal(ab), Universal(a), "\n", Universal(a[2..] + b), Universal(a[2..]), Universal(b));
  }

  /** The induction step for a file that starts with a "\r" followed by a character other than "\n". */
  lemma ConcatAfterLoneReturn(a: string, b: string)
    requires |a| >= 2 && a[0] == '\r' && a[1] != '\n'
    requires Universal(a[1..] + b) == Universal(a[1..]) + Universal(b)
    ensures Universal(a + b) == Universal(a) + Universal(b)
  {
    var ab := a + b;
    assert ab[0] == '\r' && ab[1] == a[1] && ab[1..] == a[1..] + b;
    UniversalOfLoneReturn(a);
    UniversalOfLoneReturn(ab);
    Rejoin(Universal(ab), Universal(a), "\n", Universal(a[1..] + b), Universal(a[1..]), Universal(b));
  }

  /** The induction step for a file that is a single "\r", followed by a character other than "\n". */
  lemma ConcatAfterFinalReturn(a: string, b: string)
    requires |a| == 1 && a[0] == '\r'
    requires b != [] && b[0] != '\n'
    ensures Universal(a + b) == Universal(a) + Universal(b)
  {
    var ab := a + b;
    assert ab[0] == '\r' && ab[1] == b[0] && ab[1..] == b;
    assert a[1..] == [];
    UniversalOfLoneReturn(a);
    UniversalOfLoneReturn(ab);
  }

  /** The induction step for a file that starts with any other character. */
  lemma ConcatAfterOther(a: string, b: string)
    requires a != [] && a[0] != '\r'
    requires Universal(a[1..] + b) == Universal(a[1..]) + Universal(b)
    ensures Universal(a + b) == Universal(a) + Universal(b)
  {
    var ab := a + b;
    assert ab[0] == a[0] && ab[1..] == a[1..] + b;
    UniversalOfOther(a);
    UniversalOfOther(ab);
    Rejoin(Universal(ab), Universal(a), [a[0]], Universal(a[1..] + b), Universal(a[1..]), Universal(b));
  }

  /** Both translations start with the same head, and their tails differ by b's translation. */
  lemma Rejoin(uab: string, ua: string, h: string, utail: string, ut: string, ub: string)
    requires uab == h + utail && ua == h + ut && utail == ut + ub
    ensures uab == ua + ub
  {
  }

  lemma UniversalOfReturnNewline(s: string)
    requires |s| >= 2 && s[0] == '\r' && s[1] == '\n'
    ensures Universal(s) == "\n" + Universal(s[2..])
  {
  }

  lemma UniversalOfLoneReturn(s: string)
    requires s != [] && s[0] == '\r' && (|s| == 1 || s[1] != '\n')
    ensures Universal(s) == "\n" + Universal(s[1..])
  {
  }

  lemma UniversalOfOther(s: string)
    requires s != [] && s[0] != '\r'
    ensures Universal(s) == [s[0]] + Universal(s[1..])
  {
  }

  /** Length of the first line of `s`: up to and including its first "\n", or all of `s`. */
  function LineEnd(s: string): (n: nat)
    requires s != []
    ensures 1 <= n <= |s|
    ensures '\n' !in s[..n - 1]
    ensures n < |s| ==> s[n - 1] == '\n'
    decreases |s|
  {
    if s[0] == '\n' || |s| == 1 then 1
    else
      var m := LineEnd(s[1..]);
      assert s[..m] == [s[0]] + s[1..][..m - 1];
      1 + m
  }

  /** The lines Python's file iterator yields, each with its "\n" if it has one. */
  function Lines(text: string): seq<string>
    decreases |text|
  {
    if text == [] then [] else [text[..LineEnd(text)]] + Lines(text[LineEnd(text)..])
  }

  function Concat(lines: seq<string>): string
    decreases |lines|
  {
    if lines == [] then [] else lines[0] + Concat(lines[1..])
  }

  /** One line as the iterator yields it: non-empty, no "\n" before its end, and a "\n" at its end unless it is the last. */
  predicate IsLine(line: string, last: bool)
  {
    line != [] && '\n' !in line[..|line| - 1] && (!last ==> line[|line| - 1] == '\n')
  }

  predicate IsLineSplit(lines: seq<string>)
  {
    forall i | 0 <= i < |lines| :: IsLine(lines[i], i == |lines| - 1)
  }

  /** Iterating over the lines loses nothing: the lines put back together give the text. */
  lemma {:induction false} LinesSplit(text: string)
    ensures Concat(Lines(text)) == text
    ensures IsLineSplit(Lines(text))
    decreases |text|
  {
    if text != [] {
      var n := LineEnd(text);
      LinesSplit(text[n..]);
      var rest := Lines(text[n..]);
      assert Lines(text) == [text[..n]] + rest;
      assert text == text[..n] + text[n..];
      LineSplitCons(text[..n], rest, n == |text|);
    }
  }

  /** A line in front of a split is a split again, provided it may stand there. */
  lemma LineSplitCons(line: string, rest: seq<string>, last: bool)
    requires IsLine(line, last) && IsLineSplit(rest)
    requires last <==> rest == []
    ensures IsLineSplit([line] + rest)
  {
    var lines := [line] + rest;
    forall i | 0 <= i < |lines| ensures IsLine(lines[i], i == |lines| - 1) {
      if i > 0 {
        assert lines[i] == rest[i - 1];
      }
    }
  }

  /** The split into lines is unique: any sequence of well-formed lines is what the iterator yields for their concatenation. */
  lemma {:induction false} LinesUnique(lines: seq<string>)
    requires IsLineSplit(lines)
    ensures Lines(Concat(lines)) == lines
    decreases |lines|
  {
    if lines != [] {
      var rest := lines[1..];
      LineSplitTail(lines);
      LinesUnique(rest);
      FirstLineStop(lines);
      var text := Concat(lines);
      assert Lines(text) == [text[..LineEnd(text)]] + Lines(text[LineEnd(text)..]);
      assert lines == [lines[0]] + rest;
    }
  }

  /** The lines after the first still form a split. */
  lemma LineSplitTail(lines: seq<string>)
    requires lines != [] && IsLineSplit(lines)
    ensures IsLineSplit(lines[1..])
  {
    var rest := lines[1..];
    forall i | 0 <= i < |rest| ensures IsLine(rest[i], i == |rest| - 1) {
      assert rest[i] == lines[i + 1];
    }
  }

  /** The iterator cuts the concatenation of a split right after its first line. */
  lemma FirstLineStop(lines: seq<string>)
    requires lines != [] && IsLineSplit(lines)
    ensures var text := Concat(lines);
      text != [] && LineEnd(text) == |lines[0]|
      && text[..|lines[0]|] == lines[0] && text[|lines[0]|..] == Concat(lines[1..])
  {
    var rest := lines[1..];
    assert IsLine(lines[0], |lines| == 1);
    assert |lines| > 1 ==> Concat(rest) != [] by {
      if |lines| > 1 {
        assert IsLine(lines[1], |lines| == 2);
        assert Concat(rest) == lines[1] + Concat(rest[1..]);
      }
    }
    LineEndOf(lines[0], Concat(rest));
    var text := Concat(lines);
    assert text == lines[0] + Concat(rest);
    assert text[..|lines[0]|] == lines[0];
    assert text[|lines[0]|..] == Concat(rest);
  }

  /** A well-formed first line is exactly where the iterator stops. */
  lemma {:induction false} LineEndOf(line: string, rest: string)
    requires line != [] && '\n' !in line[..|line| - 1]
    requires rest == [] || line[|line| - 1] == '\n'
    ensures LineEnd(line + rest) == |line|
    decreases |line|
  {
    var s := line + rest;
    if |line| == 1 {
      if s[0] != '\n' {
        assert rest == [];
      }
    } else {
      assert line[0] in line[..|line| - 1];
      assert s[1..] == line[1..] + rest;
      assert line[1..][..|line| - 2] == line[1..|line| - 1];
      assert line[1..|line| - 1] == line[..|line| - 1][1..];
      LineEndOf(line[1..], rest);
    }
  }
}
