/**
 * The string operations the intake pipeline relies on: splitting recognised
 * text into lines (`components(separatedBy: .newlines)`), joining lines with
 * "\n" (`joined(separator:)`) and trimming blanks at both ends
 * (`trimmingCharacters(in: .whitespaces)`). Characters are Unicode scalars and
 * a string's length stands for Swift's character count.
 */
module TextLines {

  /** The newline character set: U+000A to U+000D, U+0085, U+2028, U+2029. */
  predicate IsNewline(c: char)
  {
    ('\n' <= c <= '\r') || c == '\U{0085}' || c == '\U{2028}' || c == '\U{2029}'
  }

  /** The whitespace character set: tab and the space separators (Zs). */
  predicate IsWhitespace(c: char)
  {
    c == '\t' || c == ' ' || c == '\U{00A0}' || c == '\U{1680}'
    || ('\U{2000}' <= c <= '\U{200A}') || c == '\U{202F}' || c == '\U{205F}' || c == '\U{3000}'
  }

  predicate NoNewline(s: string)
  {
    forall i :: 0 <= i < |s| ==> !IsNewline(s[i])
  }

  /** Every newline that occurs in `s` is a line feed. */
  predicate OnlyLineFeeds(s: string)
  {
    forall i :: 0 <= i < |s| && IsNewline(s[i]) ==> s[i] == '\n'
  }

  /** How many newline characters `s` holds. */
  function NewlineCount(s: string): (n: nat)
    ensures n <= |s|
    ensures n == 0 <==> NoNewline(s)
  {
    if s == [] then 0 else (if IsNewline(s[0]) then 1 else 0) + NewlineCount(s[1..])
  }

  /**
   * Splits at every newline character; n separators give n + 1 pieces, so the
   * empty string gives one empty line and "\r\n" an empty line between.
   */
  function SplitLines(s: string): (lines: seq<string>)
    ensures |lines| >= 1
    ensures forall k :: 0 <= k < |lines| ==> NoNewline(lines[k])
  {
    if s == [] then [""]
    else
      var rest := SplitLines(s[1..]);
      if IsNewline(s[0]) then [""] + rest
      else [[s[0]] + rest[0]] + rest[1..]
  }

  /** The combined length of `lines`. */
  function TotalLength(lines: seq<string>): nat
  {
    if lines == [] then 0 else |lines[0]| + TotalLength(lines[1..])
  }

  /** n newline characters give n + 1 pieces. */
  lemma {:induction false} SplitLinesCount(s: string)
    ensures |SplitLines(s)| == NewlineCount(s) + 1
  {
    if s != [] {
      SplitLinesCount(s[1..]);
    }
  }

  /** The lines in order with "\n" between neighbours; no lines give "". */
  function JoinLines(lines: seq<string>): (text: string)
    ensures |lines| >= 1 ==> |text| == TotalLength(lines) + |lines| - 1
    ensures |lines| >= 1 ==> text[..|lines[0]|] == lines[0]
    ensures |lines| >= 2 ==> text[|lines[0]|] == '\n'
  {
    if |lines| == 0 then ""
    else if |lines| == 1 then lines[0]
    else lines[0] + "\n" + JoinLines(lines[1..])
  }

  /** Drops leading blanks. */
  function TrimStart(s: string): (r: string)
    ensures |r| <= |s| && r == s[|s| - |r|..]
    ensures forall i :: 0 <= i < |s| - |r| ==> IsWhitespace(s[i])
    ensures r == [] || !IsWhitespace(r[0])
  {
    if s != [] && IsWhitespace(s[0]) then TrimStart(s[1..]) else s
  }

  /** Drops trailing blanks. */
  function TrimEnd(s: string): (r: string)
    ensures |r| <= |s| && r == s[..|r|]
    ensures forall i :: |r| <= i < |s| ==> IsWhitespace(s[i])
    ensures r == [] || !IsWhitespace(r[|r| - 1])
  {
    if s != [] && IsWhitespace(s[|s| - 1]) then TrimEnd(s[..|s| - 1]) else s
  }

  /** Drops blanks at both ends. */
  function Trim(s: string): (r: string)
    ensures |r| <= |s|
    ensures r == [] || (!IsWhitespace(r[0]) && !IsWhitespace(r[|r| - 1]))
    ensures NoNewline(s) ==> NoNewline(r)
  {
    TrimEnd(TrimStart(s))
  }

  /** A string trims to nothing exactly when it is all blanks. */
  lemma {:induction false} TrimEmptyIffBlank(s: string)
    ensures Trim(s) == [] <==> forall i :: 0 <= i < |s| ==> IsWhitespace(s[i])
  {
    if forall i :: 0 <= i < |s| ==> IsWhitespace(s[i]) {
      TrimStartBlank(s);
    }
  }

  lemma {:induction false} TrimStartBlank(s: string)
    requires forall i :: 0 <= i < |s| ==> IsWhitespace(s[i])
    ensures TrimStart(s) == []
  {
    if s != [] {
      assert IsWhitespace(s[0]);
      assert forall i :: 0 <= i < |s[1..]| ==> s[1..][i] == s[i + 1];
      TrimStartBlank(s[1..]);
    }
  }

  /** Trimming twice is trimming once. */
  lemma {:induction false} TrimIdempotent(s: string)
    ensures Trim(Trim(s)) == Trim(s)
  {
    var r := Trim(s);
    assert TrimStart(r) == r;
    assert TrimEnd(r) == r;
  }

  /** One step of splitting: a character that is not a newline joins the first piece. */
  lemma SplitLinesCons(c: char, t: string)
    requires !IsNewline(c)
    ensures SplitLines([c] + t) == [[c] + SplitLines(t)[0]] + SplitLines(t)[1..]
  {
    assert ([c] + t)[1..] == t;
  }

  /** The inductive step of `SplitLinesPrefix`, for one more leading character. */
  lemma SplitLinesPrefixStep(c: char, a: string, t: string)
    requires !IsNewline(c)
    requires SplitLines(a + t) == [a + SplitLines(t)[0]] + SplitLines(t)[1..]
    ensures SplitLines(([c] + a) + t) == [([c] + a) + SplitLines(t)[0]] + SplitLines(t)[1..]
  {
    var st := SplitLines(t);
    var rest := SplitLines(a + t);
    assert rest[0] == a + st[0] && rest[1..] == st[1..];
    assert ([c] + a) + t == [c] + (a + t);
    SplitLinesCons(c, a + t);
    assert [c] + rest[0] == ([c] + a) + st[0];
  }

  /** Splitting inside a first piece that holds no newline. */
  lemma {:induction false} SplitLinesPrefix(a: string, t: string)
    requires NoNewline(a)
    ensures SplitLines(a + t) == [a + SplitLines(t)[0]] + SplitLines(t)[1..]
  {
    if a == [] {
      var st := SplitLines(t);
      assert a + t == t && a + st[0] == st[0];
      assert st == [st[0]] + st[1..];
    } else {
      assert !IsNewline(a[0]) && NoNewline(a[1..]);
      SplitLinesPrefix(a[1..], t);
      SplitLinesPrefixStep(a[0], a[1..], t);
      assert [a[0]] + a[1..] == a;
    }
  }

  /** Joining a first line in front of at least one more. */
  lemma {:induction false} JoinCons(x: string, rest: seq<string>)
    requires |rest| >= 1
    ensures JoinLines([x] + rest) == x + "\n" + JoinLines(rest)
  {
    assert ([x] + rest)[1..] == rest;
  }

  /** Joining, when one character is put in front of the first line. */
  lemma {:induction false} JoinPrependChar(c: char, rest: seq<string>)
    requires |rest| >= 1
    ensures JoinLines([[c] + rest[0]] + rest[1..]) == [c] + JoinLines(rest)
  {
    var lines := [[c] + rest[0]] + rest[1..];
    assert lines[0] == [c] + rest[0];
    if |rest| > 1 {
      assert lines[1..] == rest[1..];
      var j := JoinLines(rest[1..]);
      assert JoinLines(lines) == ([c] + rest[0]) + "\n" + j;
      assert JoinLines(rest) == rest[0] + "\n" + j;
      assert ([c] + rest[0]) + "\n" + j == [c] + (rest[0] + "\n" + j);
    } else {
      assert |lines| == 1;
    }
  }

  lemma OnlyLineFeedsTail(s: string)
    requires s != [] && OnlyLineFeeds(s)
    ensures OnlyLineFeeds(s[1..])
  {
    forall i | 0 <= i < |s[1..]| && IsNewline(s[1..][i]) ensures s[1..][i] == '\n' {
      assert s[1..][i] == s[i + 1];
    }
  }

  /** Joining the split lines restores the text when its newlines are all "\n". */
  lemma {:induction false} JoinSplit(s: string)
    requires OnlyLineFeeds(s)
    ensures JoinLines(SplitLines(s)) == s
  {
    if s != [] {
      var rest := SplitLines(s[1..]);
      OnlyLineFeedsTail(s);
      JoinSplit(s[1..]);
      assert s == [s[0]] + s[1..];
      if IsNewline(s[0]) {
        JoinCons("", rest);
      } else {
        JoinPrependChar(s[0], rest);
      }
    }
  }

  /** Splitting the joined lines gives them back, if none holds a newline. */
  lemma {:induction false} SplitJoin(lines: seq<string>)
    requires |lines| >= 1
    requires forall k :: 0 <= k < |lines| ==> NoNewline(lines[k])
    ensures SplitLines(JoinLines(lines)) == lines
  {
    if |lines| == 1 {
      SplitLinesPrefix(lines[0], "");
      assert lines[0] + "" == lines[0];
    } else {
      SplitJoin(lines[1..]);
      var tail := "\n" + JoinLines(lines[1..]);
      assert lines[0] + "\n" + JoinLines(lines[1..]) == lines[0] + tail;
      SplitLinesPrefix(lines[0], tail);
      assert tail[1..] == JoinLines(lines[1..]);
      assert SplitLines(tail) == [""] + lines[1..];
      assert lines[0] + "" == lines[0];
    }
  }
}
