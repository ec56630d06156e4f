/** Small facts about strings used to state what the error messages contain. */
module Strings {

  datatype Option<T> = None | Some(value: T)

  /** `t` occurs in `s` starting at index `i`. */
  predicate OccursAt(s: string, t: string, i: nat) {
    i + |t| <= |s| && s[i..i + |t|] == t
  }

  /** `t` is a substring of `s`. */
  predicate Contains(s: string, t: string) {
    exists i: nat | i <= |s| :: OccursAt(s, t, i)
  }

  /** A substring of `s` is still a substring once text is put in front of `s`. */
  lemma ContainsAfterPrefix(p: string, s: string, t: string)
    requires Contains(s, t)
    ensures Contains(p + s, t)
  {
    var i: nat :| i <= |s| && OccursAt(s, t, i);
    assert (p + s)[|p| + i..|p| + i + |t|] == s[i..i + |t|];
    assert OccursAt(p + s, t, |p| + i);
  }

  /** The index of the last occurrence of `c` in `s`, if any. */
  function LastIndexOf(s: string, c: char): (r: Option<nat>)
    ensures r.None? <==> c !in s
    ensures r.Some? ==> r.value < |s| && s[r.value] == c
    ensures r.Some? ==> forall j :: r.value < j < |s| ==> s[j] != c
  {
    if |s| == 0 then None
    else if s[|s| - 1] == c then Some(|s| - 1)
    else
      var r := LastIndexOf(s[..|s| - 1], c);
      assert s == s[..|s| - 1] + [s[|s| - 1]];
      r
  }

  /** Concatenation is associative. */
  lemma SeqAppendAssoc(a: string, b: string, c: string)
    ensures a + (b + c) == a + b + c
  {
  }

  /** Every string contains itself. */
  lemma ContainsSelf(t: string)
    ensures Contains(t, t)
  {
    assert OccursAt(t, t, 0);
  }

  /** A substring of `s` is still a substring once text is put after `s`. */
  lemma ContainsBeforeSuffix(s: string, q: string, t: string)
    requires Contains(s, t)
    ensures Contains(s + q, t)
  {
    var i: nat :| i <= |s| && OccursAt(s, t, i);
    assert (s + q)[i..i + |t|] == s[i..i + |t|];
    assert OccursAt(s + q, t, i);
  }

  /**
    The text of a triple-quoted literal whose opening quotes end their line:
    each of `lines` starts on a new line after `indent`, and the closing
    quotes stand on a line holding only `indent`.
   */
  function IndentedLines(indent: string, lines: seq<string>): string
  {
    if lines == [] then "\n" + indent
    else "\n" + indent + lines[0] + IndentedLines(indent, lines[1..])
  }

  /** The text opens with a newline and closes with a newline followed by the indentation. */
  lemma {:induction false} IndentedLinesShape(indent: string, lines: seq<string>)
    ensures var r := IndentedLines(indent, lines);
      |r| >= |indent| + 1 && r[0] == '\n' && r[|r| - |indent| - 1..] == "\n" + indent
  {
    if lines != [] {
      IndentedLinesShape(indent, lines[1..]);
      var rest := IndentedLines(indent, lines[1..]);
      assert IndentedLines(indent, lines)[|IndentedLines(indent, lines)| - |indent| - 1..] == rest[|rest| - |indent| - 1..];
    }
  }

  /** Whatever one of the lines contains, the whole text contains. */
  lemma {:induction false} IndentedLinesContains(indent: string, lines: seq<string>, k: nat, t: string)
    requires k < |lines| && Contains(lines[k], t)
    ensures Contains(IndentedLines(indent, lines), t)
  {
    var rest := IndentedLines(indent, lines[1..]);
    if k == 0 {
      ContainsAfterPrefix("\n" + indent, lines[0], t);
      ContainsBeforeSuffix("\n" + indent + lines[0], rest, t);
    } else {
      IndentedLinesContains(indent, lines[1..], k - 1, t);
      ContainsAfterPrefix("\n" + indent + lines[0], rest, t);
    }
  }
}
