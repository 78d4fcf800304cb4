/** How the log server turns raw log text into the lines it sends: split on
    '\n', drop the lines that are blank after trimming, and keep the trimmed
    rest in order. The streaming path (one stdout chunk of the follower,
    index.js:122-128) and the snapshot route (the whole tail output,
    index.js:425-430) apply the same rule. */
module Lines {
  import opened Text

  const NewLine: string := "\n"

  /** One entry of a log buffer or of the snapshot route's answer. The
      timestamp is an ISO-8601 string the model does not interpret. */
  datatype LogLine = LogLine(timestamp: string, content: string)

  /** The trimmed, non-blank members of `lines`, in order. */
  function KeepNonBlank(lines: seq<string>): (r: seq<string>)
    ensures |r| <= |lines|
    ensures forall i :: 0 <= i < |r| ==> r[i] != "" && Trim(r[i]) == r[i]
  {
    if lines == [] then []
    else
      var rest := KeepNonBlank(lines[1..]);
      if IsBlank(lines[0]) then rest
      else
        TrimIdempotent(lines[0]);
        [Trim(lines[0])] + rest
  }

  /** The lines one chunk of log text yields. */
  function ShapeLines(chunk: string): (r: seq<string>)
    ensures forall i :: 0 <= i < |r| ==> r[i] != "" && Trim(r[i]) == r[i] && '\n' !in r[i]
  {
    var pieces := Split(chunk, NewLine);
    var r := KeepNonBlank(pieces);
    KeepNonBlankSingleLine(pieces);
    r
  }

  lemma NoSeparatorNoChar(p: string, c: char)
    requires !Contains(p, [c])
    ensures c !in p
  {
    if c in p {
      var k :| 0 <= k < |p| && p[k] == c;
      assert HasAt(p, [c], k);
    }
  }

  lemma TrimKeepsAbsent(l: string, c: char)
    requires c !in l
    ensures c !in Trim(l)
  {
    TrimIsSlice(l);
  }

  lemma {:induction false} KeepNonBlankSingleLine(lines: seq<string>)
    requires forall i :: 0 <= i < |lines| ==> !Contains(lines[i], NewLine)
    ensures forall i :: 0 <= i < |KeepNonBlank(lines)| ==> '\n' !in KeepNonBlank(lines)[i]
  {
    if lines != [] {
      var l := lines[0];
      NoSeparatorNoChar(l, '\n');
      TrimKeepsAbsent(l, '\n');
      KeepNonBlankSingleLine(lines[1..]);
      if !IsBlank(l) {
        assert KeepNonBlank(lines) == [Trim(l)] + KeepNonBlank(lines[1..]);
      }
    }
  }

  lemma {:induction false} KeepNonBlankAppend(a: seq<string>, b: seq<string>)
    ensures KeepNonBlank(a + b) == KeepNonBlank(a) + KeepNonBlank(b)
  {
    if a != [] {
      assert (a + b)[1..] == a[1..] + b;
      KeepNonBlankAppend(a[1..], b);
    } else {
      assert a + b == b;
    }
  }

  lemma KeepNonBlankOne(l: string)
    ensures KeepNonBlank([l]) == if IsBlank(l) then [] else [Trim(l)]
  {
    assert [l][1..] == [];
  }

  /** Two pieces of text separated by a newline shape independently: the
      lines of the whole are the lines of the first part followed by the
      lines of the second. */
  lemma ShapeLinesAround(a: string, b: string)
    ensures ShapeLines(a + NewLine + b) == ShapeLines(a) + ShapeLines(b)
  {
    SplitAround(a, '\n', b);
    KeepNonBlankAppend(Split(a, NewLine), Split(b, NewLine));
  }

  /** Text without a newline yields its trim, or nothing when it is blank. */
  lemma ShapeOneLine(s: string)
    requires '\n' !in s
    ensures ShapeLines(s) == if IsBlank(s) then [] else [Trim(s)]
  {
    SplitNoChar(s, '\n');
  }

  /** A line as the shaping produces it: non-empty, trimmed, one line. */
  predicate Shaped(l: string) {
    l != "" && Trim(l) == l && '\n' !in l
  }

  /** A shaped line in front of a newline comes back as the first line. */
  lemma ShapeFirstLine(l: string, rest: string)
    requires Shaped(l)
    ensures ShapeLines(l + NewLine + rest) == [l] + ShapeLines(rest)
  {
    assert !IsBlank(l);
    ShapeOneLine(l);
    ShapeLinesAround(l, rest);
  }

  /** Lines that are already shaped come back unchanged when joined with
      newlines and shaped again: the shaping is a left inverse of joining. */
  lemma {:induction false} ShapeJoinedLines(ls: seq<string>)
    requires forall i :: 0 <= i < |ls| ==> Shaped(ls[i])
    ensures ShapeLines(Join(ls, NewLine)) == ls
  {
    if ls == [] {
      ShapeOneLine("");
    } else if |ls| == 1 {
      assert Shaped(ls[0]) && !IsBlank(ls[0]);
      ShapeOneLine(ls[0]);
    } else {
      assert Join(ls, NewLine) == ls[0] + NewLine + Join(ls[1..], NewLine);
      ShapeJoinedLines(ls[1..]);
      ShapeFirstLine(ls[0], Join(ls[1..], NewLine));
      assert ls == [ls[0]] + ls[1..];
    }
  }
}
