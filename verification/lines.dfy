/** Text viewed as a sequence of lines separated by newline characters. */
module Lines {

  /** True if the text holds no line break, so that it renders as part of a single line. */
  predicate OneLine(s: string)
  {
    '\n' !in s
  }

  predicate AllOneLine(ls: seq<string>)
  {
    forall i :: 0 <= i < |ls| ==> OneLine(ls[i])
  }

  /** Each line preceded by a line break, concatenated: how the messages are grown, one `'\n' + line` at a time. */
  function Prefixed(ls: seq<string>): (s: string)
    ensures |ls| == 0 <==> |s| == 0
  {
    if ls == [] then "" else "\n" + ls[0] + Prefixed(ls[1..])
  }

  /** The lines joined with line breaks between them. */
  function Join(ls: seq<string>): string
    requires |ls| >= 1
  {
    ls[0] + Prefixed(ls[1..])
  }

  /** Position of the first line break of s, or |s| when there is none. */
  function LineEnd(s: string): (i: nat)
    ensures i <= |s|
    ensures forall j :: 0 <= j < i ==> s[j] != '\n'
    ensures i < |s| <==> '\n' in s
    ensures i < |s| ==> s[i] == '\n'
  {
    if s == [] then 0
    else if s[0] == '\n' then 0
    else 1 + LineEnd(s[1..])
  }

  /** Cut the text at every line break. */
  function Split(s: string): (ls: seq<string>)
    ensures |ls| >= 1
    ensures OneLine(ls[0])
    decreases |s|
  {
    var i := LineEnd(s);
    if i == |s| then [s] else [s[..i]] + Split(s[i + 1..])
  }

  lemma {:induction false} PrefixedAppend(a: seq<string>, b: seq<string>)
    ensures Prefixed(a + b) == Prefixed(a) + Prefixed(b)
    decreases |a|
  {
    if a == [] {
      assert a + b == b;
    } else {
      assert (a + b)[1..] == a[1..] + b;
      PrefixedAppend(a[1..], b);
    }
  }

  /** Appending prefixed lines to a joined text extends its line list. */
  lemma JoinAppend(a: seq<string>, b: seq<string>)
    requires |a| >= 1
    ensures Join(a + b) == Join(a) + Prefixed(b)
  {
    assert (a + b)[1..] == a[1..] + b;
    PrefixedAppend(a[1..], b);
  }

  /** A line without a break is found whole by LineEnd when a break or the end of the text follows it. */
  lemma {:induction false} LineEndOfLine(l: string, rest: string)
    requires OneLine(l)
    requires rest == [] || rest[0] == '\n'
    ensures LineEnd(l + rest) == |l|
    decreases |l|
  {
    if l != [] {
      assert (l + rest)[1..] == l[1..] + rest;
      LineEndOfLine(l[1..], rest);
    }
  }

  /** A text without a break splits into itself alone. */
  lemma SplitOne(l: string)
    requires OneLine(l)
    ensures Split(l) == [l]
  {
    LineEndOfLine(l, "");
    assert l + "" == l;
  }

  /** Splitting a line followed by a break and more text peels off that line. */
  lemma SplitCons(l: string, rest: string)
    requires OneLine(l)
    ensures Split(l + "\n" + rest) == [l] + Split(rest)
  {
    var s := l + "\n" + rest;
    assert s == l + ("\n" + rest);
    LineEndOfLine(l, "\n" + rest);
    assert s[..|l|] == l;
    assert s[|l| + 1..] == rest;
  }

  /** Splitting joined lines gives the lines back, provided none holds a break. */
  lemma {:induction false} SplitJoin(ls: seq<string>)
    requires |ls| >= 1
    requires AllOneLine(ls)
    ensures Split(Join(ls)) == ls
    decreases |ls|
  {
    if |ls| == 1 {
      assert ls[1..] == [];
      assert Join(ls) == ls[0] + "";
      assert ls[0] + "" == ls[0];
      SplitOne(ls[0]);
    } else {
      assert ls[1..][1..] == ls[2..];
      assert Join(ls) == ls[0] + "\n" + Join(ls[1..]);
      SplitCons(ls[0], Join(ls[1..]));
      SplitJoin(ls[1..]);
      assert ls == [ls[0]] + ls[1..];
    }
  }
}
