/** Splitting a text into lines, as `str.splitlines` does once reading has turned every line end into a line feed. */
module TextLines {
  import opened Common

  /** The line boundaries that JSON text may hold: next line, line separator and paragraph separator. */
  predicate Separator(ch: char) {
    ch == '\U{0085}' || ch == '\U{2028}' || ch == '\U{2029}'
  }

  /** The characters at which `str.splitlines` cuts. */
  predicate LineBoundary(ch: char) {
    '\n' <= ch <= '\r' || '\U{001C}' <= ch <= '\U{001E}' || Separator(ch)
  }

  predicate Cut(text: string) {
    exists i :: 0 <= i < |text| && LineBoundary(text[i])
  }

  /** The lines a text has ended, and the one it has begun. */
  datatype Split = Split(ended: seq<string>, begun: string)

  function Splitting(text: string): Split {
    if text == "" then Split([], "")
    else
      var before, ch := Splitting(text[..|text| - 1]), text[|text| - 1];
      if LineBoundary(ch) then Split(before.ended + [before.begun], "")
      else before.(begun := before.begun + [ch])
  }

  /** The last line needs no boundary after it. */
  function SplitLines(text: string): seq<string> {
    var s := Splitting(text);
    if s.begun == "" then s.ended else s.ended + [s.begun]
  }

  /** A text whose last line is ended, as every file the logger writes. */
  predicate Terminated(text: string) {
    text != "" ==> LineBoundary(text[|text| - 1])
  }

  /** What follows an ended line does not change the lines before it. */
  lemma SplitConcat(a: string, b: string)
    requires Terminated(a)
    ensures SplitLines(a + b) == SplitLines(a) + SplitLines(b)
  {
    SplittingConcat(a, b);
    Regroup(Splitting(a).ended, Splitting(b).ended, [Splitting(b).begun]);
  }

  lemma {:induction false} SplittingConcat(a: string, b: string)
    requires Terminated(a)
    ensures Splitting(a).begun == ""
    ensures Splitting(a + b) == Split(Splitting(a).ended + Splitting(b).ended, Splitting(b).begun)
  {
    if b == "" {
      assert a + b == a;
    } else {
      var before := b[..|b| - 1];
      assert (a + b)[..|a + b| - 1] == a + before;
      SplittingConcat(a, before);
      Regroup(Splitting(a).ended, Splitting(before).ended, [Splitting(before).begun]);
    }
  }

  /** Ending a text that does not end in a boundary adds no line. */
  lemma SplitEnded(text: string)
    requires text != "" && !LineBoundary(text[|text| - 1])
    ensures SplitLines(text + "\n") == SplitLines(text)
  {
    assert (text + "\n")[..|text|] == text;
  }

  /** A text without a boundary is one line. */
  lemma {:induction false} SplitWhole(text: string)
    requires !Cut(text)
    ensures Splitting(text) == Split([], text)
  {
    if text != "" {
      var before := text[..|text| - 1];
      assert forall i :: 0 <= i < |before| ==> before[i] == text[i];
      SplitWhole(before);
      assert text == before + [text[|text| - 1]];
    }
  }

  lemma CutConcat(a: string, b: string)
    ensures Cut(a + b) <==> Cut(a) || Cut(b)
  {
    if Cut(a) {
      var i :| 0 <= i < |a| && LineBoundary(a[i]);
      assert (a + b)[i] == a[i];
    }
    if Cut(b) {
      var i :| 0 <= i < |b| && LineBoundary(b[i]);
      assert (a + b)[|a| + i] == b[i];
    }
  }
}
