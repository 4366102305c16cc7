/** The two Python string operations that world/handlers/map.py and
    commands/building/combat_map_builder.py build on: `s.split('\n')`, which
    cuts a multi-line template into rows, and `sep.join(parts)`, which glues
    rows and cells back together. */
module Text {

  /** The position of the first occurrence of `c` in `s`. */
  function IndexOf(s: string, c: char): (i: nat)
    requires c in s
    ensures i < |s| && s[i] == c && c !in s[..i]
  {
    if s[0] == c then 0 else
      assert c in s[1..] by { assert s == [s[0]] + s[1..]; }
      var j := IndexOf(s[1..], c);
      assert s[..j + 1] == [s[0]] + s[1..][..j];
      j + 1
  }

  /** Python's `s.split('\n')`: the pieces between newlines, left to right. */
  function SplitLines(s: string): (r: seq<string>)
    ensures |r| >= 1
    ensures forall k :: 0 <= k < |r| ==> '\n' !in r[k]
    decreases |s|
  {
    if '\n' !in s then [s]
    else
      var i := IndexOf(s, '\n');
      [s[..i]] + SplitLines(s[i + 1..])
  }

  /** There is always one more piece than there are newlines, so the empty
      string gives `[""]` and a trailing newline gives a trailing `""`. */
  lemma {:induction false} SplitCount(s: string)
    ensures |SplitLines(s)| == multiset(s)['\n'] + 1
    decreases |s|
  {
    if '\n' !in s {
      assert multiset(s)['\n'] == 0;
    } else {
      var i := IndexOf(s, '\n');
      assert s == s[..i] + [s[i]] + s[i + 1..];
      assert multiset(s[..i])['\n'] == 0;
      SplitCount(s[i + 1..]);
    }
  }

  /** Python's `sep.join(parts)`: the parts with `sep` between neighbours. */
  function Join(sep: string, parts: seq<string>): string
  {
    if |parts| == 0 then ""
    else if |parts| == 1 then parts[0]
    else parts[0] + sep + Join(sep, parts[1..])
  }

  /** Python's `list(line)`: one single-character string per character. */
  function Chars(line: string): (r: seq<string>)
    ensures |r| == |line|
    ensures forall k :: 0 <= k < |line| ==> r[k] == [line[k]]
  {
    seq(|line|, k requires 0 <= k < |line| => [line[k]])
  }

  /** Keeps the characters at even positions: undoes a one-character separator. */
  function Unspace(s: string): string
  {
    if |s| <= 1 then s else [s[0]] + Unspace(s[2..])
  }

  /** Joining the pieces of a split with newlines gives the text back. */
  lemma {:induction false} JoinSplit(s: string)
    ensures Join("\n", SplitLines(s)) == s
    decreases |s|
  {
    if '\n' in s {
      var i := IndexOf(s, '\n');
      var rest := SplitLines(s[i + 1..]);
      JoinSplit(s[i + 1..]);
      assert SplitLines(s) == [s[..i]] + rest;
      assert Join("\n", SplitLines(s)) == s[..i] + "\n" + Join("\n", rest);
      Reassemble(s, i);
    }
  }

  /** Cutting a text around one position and gluing it back. */
  lemma Reassemble(s: string, i: int)
    requires 0 <= i < |s|
    ensures s[..i] + [s[i]] + s[i + 1..] == s
  {
    assert s[..i] + [s[i]] == s[..i + 1];
  }

  /** Splitting newline-joined lines that hold no newline gives the lines back. */
  lemma {:induction false} SplitJoin(lines: seq<string>)
    requires |lines| >= 1
    requires forall k :: 0 <= k < |lines| ==> '\n' !in lines[k]
    ensures SplitLines(Join("\n", lines)) == lines
    decreases |lines|
  {
    if |lines| > 1 {
      var tail := Join("\n", lines[1..]);
      assert Join("\n", lines) == lines[0] + "\n" + tail;
      SplitFirst(lines[0], tail);
      SplitJoin(lines[1..]);
      assert lines == [lines[0]] + lines[1..];
    }
  }

  /** Splitting text whose first newline follows `head` cuts `head` off. */
  lemma SplitFirst(head: string, tail: string)
    requires '\n' !in head
    ensures SplitLines(head + "\n" + tail) == [head] + SplitLines(tail)
  {
    var s := head + "\n" + tail;
    assert s[|head|] == '\n';
    assert s[..|head|] == head;
    assert IndexOf(s, '\n') == |head|;
    assert s[|head| + 1..] == tail;
  }

  /** Removing the separators of `" ".join(list(line))` gives the line back. */
  lemma {:induction false} UnspaceJoinChars(line: string)
    ensures Unspace(Join(" ", Chars(line))) == line
    decreases |line|
  {
    if |line| > 1 {
      UnspaceJoinChars(line[1..]);
      assert Chars(line)[1..] == Chars(line[1..]);
      var tail := Join(" ", Chars(line[1..]));
      assert Join(" ", Chars(line)) == [line[0]] + " " + tail;
      assert ([line[0]] + " " + tail)[2..] == tail;
      assert line == [line[0]] + line[1..];
    } else if |line| == 1 {
      assert Chars(line) == [[line[0]]];
      assert line == [line[0]];
    }
  }
}
