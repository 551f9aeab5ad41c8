/**
 * `diffLines`: the change list of a line diff between the old and the new
 * editor text turned into editor edit operations. The change list, which
 * the `diff` library computes, is the input.
 */
module EditorDiff {

  /** One chunk of a line diff: its text, its line count and whether it was added or removed. */
  datatype Change = Change(value: string, count: nat, added: bool, removed: bool)

  datatype Range = Range(startLineNumber: int, startColumn: int, endLineNumber: int, endColumn: int)

  datatype Operation = Add(range: Range, text: string) | Remove(range: Range)

  // JavaScript's `value.split('\n').filter(Boolean)`.

  predicate NoNewline(s: string) {
    forall i :: 0 <= i < |s| ==> s[i] != '\n'
  }

  /** `s.split('\n')`: the pieces between newlines, empty ones included; never empty. */
  function Split(s: string): (r: seq<string>)
    ensures |r| >= 1
    ensures forall k :: 0 <= k < |r| ==> NoNewline(r[k])
    decreases |s|
  {
    if s == [] then [""]
    else
      var t := Split(s[1..]);
      if s[0] == '\n' then [""] + t else [[s[0]] + t[0]] + t[1..]
  }

  /** `parts.join('\n')`. */
  function Join(parts: seq<string>): string
    requires |parts| >= 1
  {
    if |parts| == 1 then parts[0] else parts[0] + "\n" + Join(parts[1..])
  }

  /** Joining the pieces of a split gives back the text. */
  lemma {:induction false} JoinSplit(s: string)
    ensures Join(Split(s)) == s
    decreases |s|
  {
    if s != [] {
      var t := Split(s[1..]);
      JoinSplit(s[1..]);
      if s[0] == '\n' {
        assert ([""] + t)[1..] == t;
        assert s == [s[0]] + s[1..];
      } else {
        var r := [[s[0]] + t[0]] + t[1..];
        assert r[1..] == t[1..];
        if |t| == 1 {
          assert s == [s[0]] + t[0];
        } else {
          assert Join(t) == t[0] + "\n" + Join(t[1..]);
          assert s == [s[0]] + s[1..];
        }
      }
    }
  }

  /** Splitting a join of newline-free pieces gives back the pieces. */
  lemma {:induction false} SplitJoin(parts: seq<string>)
    requires |parts| >= 1
    requires forall k :: 0 <= k < |parts| ==> NoNewline(parts[k])
    ensures Split(Join(parts)) == parts
    decreases |parts|, |parts[0]|
  {
    var p := parts[0];
    if p != [] {
      var parts' := [p[1..]] + parts[1..];
      assert parts'[1..] == parts[1..];
      SplitJoin(parts');
      var s := Join(parts);
      if |parts| == 1 {
        assert s[1..] == Join(parts');
      } else {
        assert s[1..] == p[1..] + "\n" + Join(parts[1..]) == Join(parts');
      }
      assert s[0] == p[0];
      assert [p[0]] + p[1..] == p;
      assert [p] + parts[1..] == parts;
    } else if |parts| > 1 {
      SplitJoin(parts[1..]);
      var s := Join(parts);
      assert s == "\n" + Join(parts[1..]);
      assert s[1..] == Join(parts[1..]);
      assert [""] + parts[1..] == parts;
    }
  }

  /** `filter(Boolean)`: the non-empty strings, in order. */
  function NonEmpty(segments: seq<string>): (r: seq<string>)
    ensures |r| <= |segments|
    ensures forall k :: 0 <= k < |r| ==> r[k] != "" && r[k] in segments
  {
    if segments == [] then []
    else if segments[0] == "" then NonEmpty(segments[1..])
    else [segments[0]] + NonEmpty(segments[1..])
  }

  /** The lines of a change's text: newline-free, non-empty, in order. */
  function Lines(value: string): (r: seq<string>)
    ensures forall k :: 0 <= k < |r| ==> r[k] != "" && NoNewline(r[k])
  {
    NonEmpty(Split(value))
  }

  lemma {:induction false} NonEmptyKeepsNonEmpty(segments: seq<string>)
    requires forall k :: 0 <= k < |segments| ==> segments[k] != ""
    ensures NonEmpty(segments) == segments
    decreases |segments|
  {
    if segments != [] {
      NonEmptyKeepsNonEmpty(segments[1..]);
      assert [segments[0]] + segments[1..] == segments;
    }
  }

  lemma {:induction false} NonEmptyConcat(a: seq<string>, b: seq<string>)
    ensures NonEmpty(a + b) == NonEmpty(a) + NonEmpty(b)
    decreases |a|
  {
    if a == [] {
      assert a + b == b;
    } else {
      assert (a + b)[0] == a[0] && (a + b)[1..] == a[1..] + b;
      NonEmptyConcat(a[1..], b);
    }
  }

  /**
   * The text of lines each ended by a newline, as the diff library hands
   * out a chunk, has exactly those lines; so does the text without the
   * final newline.
   */
  lemma LinesOfText(lines: seq<string>)
    requires |lines| >= 1
    requires forall k :: 0 <= k < |lines| ==> lines[k] != "" && NoNewline(lines[k])
    ensures Lines(Join(lines)) == lines
    ensures Lines(Join(lines + [""])) == lines
  {
    SplitJoin(lines);
    NonEmptyKeepsNonEmpty(lines);
    LinesOfTerminatedText(lines);
  }

  lemma LinesOfTerminatedText(lines: seq<string>)
    requires |lines| >= 1
    requires forall k :: 0 <= k < |lines| ==> lines[k] != "" && NoNewline(lines[k])
    ensures Lines(Join(lines + [""])) == lines
  {
    var parts := lines + [""];
    TerminatedPartsNoNewline(lines);
    SplitJoin(parts);
    assert Lines(Join(parts)) == NonEmpty(parts);
    NonEmptyKeepsNonEmpty(lines);
    NonEmptyConcat(lines, [""]);
    assert [""][1..] == [];
    assert NonEmpty([""]) == [];
    assert lines + [] == lines;
  }

  lemma TerminatedPartsNoNewline(lines: seq<string>)
    requires forall k :: 0 <= k < |lines| ==> NoNewline(lines[k])
    ensures forall k :: 0 <= k < |lines + [""]| ==> NoNewline((lines + [""])[k])
  {
    var parts := lines + [""];
    forall k | 0 <= k < |parts|
      ensures NoNewline(parts[k])
    {
      if k < |lines| { assert parts[k] == lines[k]; }
    }
  }

  /**
   * JavaScript's `line.length`: UTF-16 code units, two for a character
   * beyond the Basic Multilingual Plane.
   */
  function Utf16Length(s: string): (n: nat)
    ensures |s| <= n <= 2 * |s|
  {
    if s == [] then 0 else (if s[0] as int >= 0x1_0000 then 2 else 1) + Utf16Length(s[1..])
  }

  lemma {:induction false} Utf16LengthOfBmp(s: string)
    requires forall i :: 0 <= i < |s| ==> s[i] as int < 0x1_0000
    ensures Utf16Length(s) == |s|
    decreases |s|
  {
    if s != [] {
      Utf16LengthOfBmp(s[1..]);
    }
  }

  // The operations, as a function of the change list and the running line number.

  /** An insertion of `text` at column 1 of line `line`. */
  function AddOp(line: int, text: string): Operation {
    Add(Range(line, 1, line, 1), text)
  }

  /** A deletion of line `line` from column 1 to one past its last UTF-16 unit. */
  function RemoveOp(line: int, text: string): Operation {
    Remove(Range(line, 1, line, Utf16Length(text) + 1))
  }

  /** One insertion per line, on consecutive lines from `line`. */
  function AddOps(lines: seq<string>, line: int): seq<Operation>
    decreases |lines|
  {
    if lines == [] then [] else [AddOp(line, lines[0])] + AddOps(lines[1..], line + 1)
  }

  /** One deletion per line, on consecutive lines from `line`. */
  function RemoveOps(lines: seq<string>, line: int): seq<Operation>
    decreases |lines|
  {
    if lines == [] then [] else [RemoveOp(line, lines[0])] + RemoveOps(lines[1..], line + 1)
  }

  /** The operations of one change whose first line is `line`. */
  function ChangeOps(c: Change, line: int): seq<Operation> {
    if c.added then AddOps(Lines(c.value), line)
    else if c.removed then RemoveOps(Lines(c.value), line)
    else []
  }

  /** The running line number after a change: removed lines are not in the new text. */
  function Advance(c: Change, line: int): int {
    if c.removed then line else line + c.count
  }

  function Operations(changes: seq<Change>, line: int): seq<Operation>
    decreases |changes|
  {
    if changes == [] then []
    else ChangeOps(changes[0], line) + Operations(changes[1..], Advance(changes[0], line))
  }

  /** The running line number after all of `changes`. */
  function LineAfter(changes: seq<Change>, line: int): int
    decreases |changes|
  {
    if changes == [] then line else LineAfter(changes[1..], Advance(changes[0], line))
  }

  lemma ConcatAssociative(a: seq<Operation>, b: seq<Operation>, c: seq<Operation>)
    ensures a + (b + c) == (a + b) + c
  {
  }

  /**
   * The body of `diffLines`'s loop for one change: its operations are
   * appended, on consecutive lines from `lineNumber`.
   */
  method AppendChangeOps(operations: seq<Operation>, change: Change, lineNumber: int)
    returns (result: seq<Operation>)
    ensures result == operations + ChangeOps(change, lineNumber)
  {
    var lines := Lines(change.value);
    var newLineNumber := lineNumber;
    result := operations;
    if change.added {
      for j := 0 to |lines|
        invariant newLineNumber == lineNumber + j
        invariant result + AddOps(lines[j..], newLineNumber) == operations + AddOps(lines, lineNumber)
      {
        assert lines[j..][1..] == lines[j + 1..];
        result := result + [AddOp(newLineNumber, lines[j])];
        newLineNumber := newLineNumber + 1;
      }
    } else if change.removed {
      for j := 0 to |lines|
        invariant newLineNumber == lineNumber + j
        invariant result + RemoveOps(lines[j..], newLineNumber) == operations + RemoveOps(lines, lineNumber)
      {
        assert lines[j..][1..] == lines[j + 1..];
        result := result + [RemoveOp(newLineNumber, lines[j])];
        newLineNumber := newLineNumber + 1;
      }
    }
    assert lines[|lines|..] == [];
    assert result + [] == result;
  }

  /** `diffLines(oldText, newText)` given the diff library's change list. */
  method DiffLines(changes: seq<Change>) returns (operations: seq<Operation>)
    ensures operations == Operations(changes, 1)
  {
    var lineNumber := 1;
    operations := [];
    for i := 0 to |changes|
      invariant Operations(changes, 1) == operations + Operations(changes[i..], lineNumber)
    {
      var change := changes[i];
      ghost var before := operations;
      ghost var start := lineNumber;
      operations := AppendChangeOps(operations, change, lineNumber);
      if !change.removed {
        lineNumber := lineNumber + change.count;
      }
      assert changes[i..][1..] == changes[i + 1..];
      ghost var rest := Operations(changes[i + 1..], lineNumber);
      assert Operations(changes[i..], start) == ChangeOps(change, start) + rest;
      ConcatAssociative(before, ChangeOps(change, start), rest);
    }
  }

  // What `diffLines` promises about its operations.

  lemma {:induction false} AddOpsShape(lines: seq<string>, line: int)
    ensures |AddOps(lines, line)| == |lines|
    ensures forall k :: 0 <= k < |lines| ==> AddOps(lines, line)[k] == AddOp(line + k, lines[k])
    decreases |lines|
  {
    if lines != [] {
      AddOpsShape(lines[1..], line + 1);
    }
  }

  lemma {:induction false} RemoveOpsShape(lines: seq<string>, line: int)
    ensures |RemoveOps(lines, line)| == |lines|
    ensures forall k :: 0 <= k < |lines| ==> RemoveOps(lines, line)[k] == RemoveOp(line + k, lines[k])
    decreases |lines|
  {
    if lines != [] {
      RemoveOpsShape(lines[1..], line + 1);
    }
  }

  /**
   * One change's operations: none for an unchanged chunk; otherwise one
   * per non-empty line of its text, on consecutive single lines from
   * `line`, starting at column 1. An insertion carries the line's text and
   * ends at column 1; a deletion ends one past the line's last UTF-16 unit.
   * A change flagged both added and removed is treated as added.
   */
  lemma ChangeOpsSpec(c: Change, line: int)
    ensures |ChangeOps(c, line)| == if c.added || c.removed then |Lines(c.value)| else 0
    ensures forall k :: 0 <= k < |ChangeOps(c, line)| ==>
      var op := ChangeOps(c, line)[k];
      && op.range.startLineNumber == op.range.endLineNumber == line + k
      && op.range.startColumn == 1
      && (c.added ==> op.Add? && op.text == Lines(c.value)[k] && op.range.endColumn == 1)
      && (!c.added ==> op.Remove? && op.range.endColumn == Utf16Length(Lines(c.value)[k]) + 1)
  {
    AddOpsShape(Lines(c.value), line);
    RemoveOpsShape(Lines(c.value), line);
  }

  /** The operations of consecutive change lists follow each other, the second from where the first left off. */
  lemma {:induction false} OperationsConcat(a: seq<Change>, b: seq<Change>, line: int)
    ensures Operations(a + b, line) == Operations(a, line) + Operations(b, LineAfter(a, line))
    decreases |a|
  {
    if a == [] {
      assert a + b == b;
    } else {
      assert (a + b)[0] == a[0] && (a + b)[1..] == a[1..] + b;
      OperationsConcat(a[1..], b, Advance(a[0], line));
    }
  }

  /** The lines of the new text a change list accounts for: the counts of its chunks that were not removed. */
  function KeptLines(changes: seq<Change>): nat {
    if changes == [] then 0
    else (if changes[0].removed then 0 else changes[0].count) + KeptLines(changes[1..])
  }

  /** The running line number only moves past text that is in the new version. */
  lemma {:induction false} LineAfterKeptLines(changes: seq<Change>, line: int)
    ensures LineAfter(changes, line) == line + KeptLines(changes)
    decreases |changes|
  {
    if changes != [] {
      LineAfterKeptLines(changes[1..], Advance(changes[0], line));
    }
  }

  /** The non-empty lines of the added and removed chunks. */
  function EditedLines(changes: seq<Change>): nat {
    if changes == [] then 0
    else
      var own := if changes[0].added || changes[0].removed then |Lines(changes[0].value)| else 0;
      own + EditedLines(changes[1..])
  }

  /** One operation per non-empty line of an added or removed chunk, whatever the chunks' counts say. */
  lemma {:induction false} OperationCount(changes: seq<Change>, line: int)
    ensures |Operations(changes, line)| == EditedLines(changes)
    decreases |changes|
  {
    if changes != [] {
      ChangeOpsSpec(changes[0], line);
      OperationCount(changes[1..], Advance(changes[0], line));
    }
  }

  /**
   * `"a\nb\n"` edited to `"a\nc\n"`: line 2 is deleted and `c` inserted at
   * line 2; the removed chunk does not move the running line number.
   */
  lemma ExampleReplaceSecondLine()
    ensures Operations([Change("a\n", 1, false, false), Change("b\n", 1, false, true), Change("c\n", 1, true, false)], 1)
      == [Remove(Range(2, 1, 2, 2)), Add(Range(2, 1, 2, 1), "c")]
  {
    SingleLineText("b");
    SingleLineText("c");
    assert Utf16Length("b") == 1;
    var cs := [Change("a\n", 1, false, false), Change("b\n", 1, false, true), Change("c\n", 1, true, false)];
    assert ChangeOps(cs[1], 2) == [Remove(Range(2, 1, 2, 2))];
    assert ChangeOps(cs[2], 2) == [Add(Range(2, 1, 2, 1), "c")];
    assert cs[1..][1..] == [cs[2]];
    assert cs[1..][1..][1..] == [];
    assert Operations([cs[2]], 2) == ChangeOps(cs[2], 2) + [];
    assert Operations(cs[1..], 2) == ChangeOps(cs[1], 2) + Operations([cs[2]], 2);
  }

  /** A one-line text with its newline is that one line. */
  lemma SingleLineText(line: string)
    requires line != "" && NoNewline(line)
    ensures Lines(line + "\n") == [line]
  {
    LinesOfText([line]);
    assert [line] + [""] == [line, ""] && [line, ""][1..] == [""];
    assert Join([""]) == "";
    assert Join([line, ""]) == line + "\n" + "" == line + "\n";
  }

  /**
   * An added chunk `"x\n\ny\n"` (three lines, the middle one blank): the
   * blank line gets no operation and `y` is numbered right after `x`.
   */
  lemma ExampleBlankLineSkipped()
    ensures Operations([Change("x\n\ny\n", 3, true, false)], 1) == [AddOp(1, "x"), AddOp(2, "y")]
  {
    BlankLineDropped();
    var lines := ["x", "y"];
    assert lines[1..] == ["y"] && lines[1..][1..] == [];
    assert AddOps(lines, 1) == [AddOp(1, "x"), AddOp(2, "y")];
    var cs := [Change("x\n\ny\n", 3, true, false)];
    assert cs[1..] == [];
  }

  /** The empty segment between two newlines yields no line. */
  lemma BlankLineDropped()
    ensures Lines("x\n\ny\n") == ["x", "y"]
  {
    var parts := ["x", "", "y", ""];
    SplitJoin(parts);
    assert parts[1..] == ["", "y", ""] && parts[1..][1..] == ["y", ""] && parts[1..][1..][1..] == [""];
    assert Join(parts) == "x\n\ny\n";
    assert NonEmpty([""]) == [];
    assert NonEmpty(["y", ""]) == ["y"];
    assert NonEmpty(["", "y", ""]) == ["y"];
  }
}
