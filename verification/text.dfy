/** The few java.lang.String operations the generators rely on:
    `String.format` with `%s` placeholders, `trim`, and line joining. */
module Text {

  predicate StartsWith(s: string, prefix: string) {
    |prefix| <= |s| && s[..|prefix|] == prefix
  }

  predicate EndsWith(s: string, suffix: string) {
    |suffix| <= |s| && s[|s| - |suffix|..] == suffix
  }

  /** A concatenation starts with its first part and ends with its second. */
  lemma ConcatAffixes(a: string, b: string)
    ensures StartsWith(a + b, a) && EndsWith(a + b, b)
  {
    assert (a + b)[..|a|] == a;
    assert (a + b)[|a + b| - |b|..] == b;
  }

  predicate NoNewline(s: string) {
    forall i :: 0 <= i < |s| ==> s[i] != '\n'
  }

  /** `String.format(template, args...)` for a template whose only directives are `%s`.
      The template is kept as the literal pieces between its placeholders, so a template
      with k placeholders has k + 1 pieces; surplus arguments are ignored, as in Java. */
  function Fill(pieces: seq<string>, args: seq<string>): string
    requires |pieces| >= 1 && |args| >= |pieces| - 1
    decreases |pieces|
  {
    if |pieces| == 1 then pieces[0] else pieces[0] + args[0] + Fill(pieces[1..], args[1..])
  }

  lemma {:induction false} FillNoNewline(pieces: seq<string>, args: seq<string>)
    requires |pieces| >= 1 && |args| >= |pieces| - 1
    requires forall i :: 0 <= i < |pieces| ==> NoNewline(pieces[i])
    requires forall i :: 0 <= i < |args| ==> NoNewline(args[i])
    ensures NoNewline(Fill(pieces, args))
    decreases |pieces|
  {
    if |pieces| > 1 {
      FillNoNewline(pieces[1..], args[1..]);
    }
  }

  /** Arguments beyond the template's placeholders leave no trace in the result. */
  lemma {:induction false} FillIgnoresSurplus(pieces: seq<string>, args: seq<string>, extra: seq<string>)
    requires |pieces| >= 1 && |args| >= |pieces| - 1
    ensures Fill(pieces, args + extra) == Fill(pieces, args)
    decreases |pieces|
  {
    if |pieces| > 1 {
      assert (args + extra)[1..] == args[1..] + extra;
      FillIgnoresSurplus(pieces[1..], args[1..], extra);
    }
  }

  /** The last character of a filled template comes from its last piece, or, when that
      piece is empty, from the argument standing in front of it. */
  lemma {:induction false} FillEndsWith(pieces: seq<string>, args: seq<string>, c: char)
    requires |pieces| >= 2 && |args| >= |pieces| - 1
    requires |pieces[|pieces| - 1]| > 0 ==> pieces[|pieces| - 1][|pieces[|pieces| - 1]| - 1] == c
    requires |pieces[|pieces| - 1]| == 0 ==> |args[|pieces| - 2]| > 0 && args[|pieces| - 2][|args[|pieces| - 2]| - 1] == c
    ensures |Fill(pieces, args)| > 0 && Fill(pieces, args)[|Fill(pieces, args)| - 1] == c
    decreases |pieces|
  {
    if |pieces| > 2 {
      FillEndsWith(pieces[1..], args[1..], c);
    }
  }

  /** Lines separated by a single newline, with none after the last line. */
  function JoinLines(lines: seq<string>): string
    decreases |lines|
  {
    if |lines| == 0 then ""
    else if |lines| == 1 then lines[0]
    else lines[0] + "\n" + JoinLines(lines[1..])
  }

  /** Cuts a text at every newline; the independent reading-back of `JoinLines`. */
  function SplitLines(s: string): (r: seq<string>)
    ensures |r| >= 1
    decreases |s|
  {
    if |s| == 0 then [""]
    else
      var rest := SplitLines(s[1..]);
      if s[0] == '\n' then [""] + rest
      else [[s[0]] + rest[0]] + rest[1..]
  }

  lemma {:induction false} SplitSingleLine(l: string)
    requires NoNewline(l)
    ensures SplitLines(l) == [l]
    decreases |l|
  {
    if |l| > 0 {
      SplitSingleLine(l[1..]);
      assert [l[0]] + l[1..] == l;
    }
  }

  lemma {:induction false} SplitFirstLine(l: string, t: string)
    requires NoNewline(l)
    ensures SplitLines(l + "\n" + t) == [l] + SplitLines(t)
    decreases |l|
  {
    var s := l + "\n" + t;
    if |l| == 0 {
      assert s == "\n" + t;
      assert s[1..] == t;
    } else {
      assert s[1..] == l[1..] + "\n" + t;
      SplitFirstLine(l[1..], t);
      assert [l[0]] + l[1..] == l;
    }
  }

  /** Joining lines that contain no newline and splitting the result gives the lines back. */
  lemma {:induction false} SplitJoinLines(lines: seq<string>)
    requires |lines| >= 1
    requires forall i :: 0 <= i < |lines| ==> NoNewline(lines[i])
    ensures SplitLines(JoinLines(lines)) == lines
    decreases |lines|
  {
    if |lines| == 1 {
      SplitSingleLine(lines[0]);
    } else {
      SplitFirstLine(lines[0], JoinLines(lines[1..]));
      SplitJoinLines(lines[1..]);
    }
  }

  /** Java's `String.trim`: drops every leading and trailing character whose code is at most U+0020. */
  function Trim(s: string): string {
    TrimEnd(TrimStart(s))
  }

  function TrimStart(s: string): string
    decreases |s|
  {
    if |s| > 0 && s[0] <= ' ' then TrimStart(s[1..]) else s
  }

  function TrimEnd(s: string): string
    decreases |s|
  {
    if |s| > 0 && s[|s| - 1] <= ' ' then TrimEnd(s[..|s| - 1]) else s
  }

  /** Trimming a text that starts with a visible character and ends with a visible
      character followed by one newline removes exactly that newline. */
  lemma TrimDropsFinalNewline(s: string)
    requires |s| > 0 && s[0] > ' ' && s[|s| - 1] > ' '
    ensures Trim(s + "\n") == s
  {
    var t := s + "\n";
    assert TrimStart(t) == t;
    assert t[..|t| - 1] == s;
    assert TrimEnd(t) == TrimEnd(s);
  }
}
