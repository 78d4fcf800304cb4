/** String operations with the semantics of the JavaScript built-ins the
    dashboard and the bot rely on: String.prototype.split with a non-empty
    separator, Array.prototype.join, and String.prototype.trim. */
module Text {

  /** The characters String.prototype.trim removes: ECMAScript WhiteSpace
      (tab, vertical tab, form feed, space, no-break space, byte-order mark
      and the Zs space separators) and LineTerminator (LF, CR, U+2028, U+2029). */
  predicate IsSpace(c: char) {
    || c == '\t' || c == '\n' || c == '\U{B}' || c == '\U{C}' || c == '\r' || c == ' '
    || c == '\U{A0}' || c == '\U{1680}' || ('\U{2000}' <= c <= '\U{200A}')
    || c == '\U{2028}' || c == '\U{2029}' || c == '\U{202F}' || c == '\U{205F}'
    || c == '\U{3000}' || c == '\U{FEFF}'
  }

  predicate IsBlank(s: string) {
    forall i :: 0 <= i < |s| ==> IsSpace(s[i])
  }

  /** `s` has `sep` starting at index `k`. */
  predicate HasAt(s: string, sep: string, k: nat) {
    k + |sep| <= |s| && s[k..k + |sep|] == sep
  }

  predicate Contains(s: string, sep: string) {
    exists k: nat | k <= |s| :: HasAt(s, sep, k)
  }

  /** Array.prototype.join: the parts with `sep` between neighbours. */
  function Join(parts: seq<string>, sep: string): (r: string)
    ensures parts != [] ==> parts[0] <= r
  {
    if parts == [] then ""
    else if |parts| == 1 then parts[0]
    else parts[0] + sep + Join(parts[1..], sep)
  }

  /** String.prototype.split with a non-empty string separator: the
      separator is searched left to right and matches do not overlap.
      The pieces join back to `s`, none contains `sep`, and there is
      always at least one piece (the empty string splits into [""]). */
  function Split(s: string, sep: string): (r: seq<string>)
    requires sep != []
    ensures |r| >= 1
    ensures Join(r, sep) == s
    ensures forall i :: 0 <= i < |r| ==> !Contains(r[i], sep)
    decreases |s|
  {
    if |s| < |sep| then
      NoRoomNoMatch(s, sep);
      [s]
    else if s[..|sep|] == sep then
      [""] + Split(s[|sep|..], sep)
    else
      var rest := Split(s[1..], sep);
      var first := [s[0]] + rest[0];
      FirstPieceNoMatch(s, sep, rest[0]);
      [first] + rest[1..]
  }

  lemma NoRoomNoMatch(s: string, sep: string)
    requires sep != [] && |s| < |sep|
    ensures !Contains(s, sep)
  {
  }

  /** The piece that grows by one character at the front still holds no
      separator, because no separator starts at index 0 of `s`. */
  lemma FirstPieceNoMatch(s: string, sep: string, p: string)
    requires sep != [] && |s| >= |sep| && s[..|sep|] != sep
    requires !Contains(p, sep) && |p| < |s| && p == s[1..1 + |p|]
    ensures !Contains([s[0]] + p, sep)
  {
    var q := [s[0]] + p;
    forall k: nat | k <= |q|
      ensures !HasAt(q, sep, k)
    {
      if k > 0 && HasAt(q, sep, k) {
        assert q[k..k + |sep|] == p[k - 1..k - 1 + |sep|];
        assert HasAt(p, sep, k - 1);
      }
    }
  }

  function TrimStart(s: string): (r: string)
    ensures |r| <= |s| && r == s[|s| - |r|..]
    ensures r == [] || !IsSpace(r[0])
    ensures forall i :: 0 <= i < |s| - |r| ==> IsSpace(s[i])
  {
    if s != [] && IsSpace(s[0]) then TrimStart(s[1..]) else s
  }

  function TrimEnd(s: string): (r: string)
    ensures |r| <= |s| && r == s[..|r|]
    ensures r == [] || !IsSpace(r[|r| - 1])
    ensures forall i :: |r| <= i < |s| ==> IsSpace(s[i])
  {
    if s != [] && IsSpace(s[|s| - 1]) then TrimEnd(s[..|s| - 1]) else s
  }

  /** String.prototype.trim: the longest infix of `s` that neither starts
      nor ends with whitespace; empty exactly when `s` is blank. */
  function Trim(s: string): (r: string)
    ensures |r| <= |s|
    ensures r == [] || (!IsSpace(r[0]) && !IsSpace(r[|r| - 1]))
    ensures r == [] <==> IsBlank(s)
  {
    var t := TrimStart(s);
    var r := TrimEnd(t);
    assert r != [] ==> r[0] == t[0];
    r
  }

  /** The trim keeps only characters of `s`, in their order: it is the
      slice of `s` between the leading and the trailing whitespace. */
  lemma TrimIsSlice(s: string)
    ensures var k := |s| - |TrimStart(s)|; k + |Trim(s)| <= |s| && Trim(s) == s[k..k + |Trim(s)|]
  {
  }

  /** A string that neither starts nor ends with whitespace is its own trim. */
  lemma TrimOfTrimmed(s: string)
    requires s == [] || (!IsSpace(s[0]) && !IsSpace(s[|s| - 1]))
    ensures Trim(s) == s
  {
  }

  lemma TrimIdempotent(s: string)
    ensures Trim(Trim(s)) == Trim(s)
  {
    TrimOfTrimmed(Trim(s));
  }

  /** Splitting around one occurrence of a one-character separator splits
      each side separately. */
  lemma {:induction false} SplitAround(a: string, c: char, b: string)
    ensures Split(a + [c] + b, [c]) == Split(a, [c]) + Split(b, [c])
    decreases |a|
  {
    var sep := [c];
    var s := a + sep + b;
    if a == [] {
      assert s[..1] == sep && s[1..] == b;
      assert Split(a, sep) == [""];
    } else if a[..1] == sep {
      assert s[..1] == sep;
      assert s[1..] == a[1..] + sep + b;
      SplitAround(a[1..], c, b);
    } else {
      assert s[..1] != sep;
      assert s[1..] == a[1..] + sep + b;
      SplitAround(a[1..], c, b);
      if |a| == 1 {
        assert Split(a[1..], sep) == [""];
      } else {
        assert a[..1] != sep;
      }
    }
  }

  /** Text without the separator character is one piece. */
  lemma {:induction false} SplitNoChar(s: string, c: char)
    requires c !in s
    ensures Split(s, [c]) == [s]
    decreases |s|
  {
    if |s| >= 1 {
      assert s[..1] != [c] by { assert s[0] != c; }
      SplitNoChar(s[1..], c);
      assert [s[0]] + s[1..] == s;
    }
  }

  /** Splitting is the inverse of joining with a one-character separator,
      for pieces without that character. */
  lemma {:induction false} SplitJoin(parts: seq<string>, c: char)
    requires |parts| >= 1
    requires forall i :: 0 <= i < |parts| ==> c !in parts[i]
    ensures Split(Join(parts, [c]), [c]) == parts
    decreases |parts|
  {
    if |parts| == 1 {
      SplitNoChar(parts[0], c);
    } else {
      SplitJoin(parts[1..], c);
      SplitNoChar(parts[0], c);
      SplitAround(parts[0], c, Join(parts[1..], [c]));
      assert [parts[0]] + parts[1..] == parts;
    }
  }

  /** Two or more pieces joined with `sep` contain it. */
  lemma JoinedContains(parts: seq<string>, sep: string)
    requires |parts| >= 2
    ensures Contains(Join(parts, sep), sep)
  {
    var s := Join(parts, sep);
    assert HasAt(s, sep, |parts[0]|);
  }

  /** Text splits into two or more pieces exactly when it contains the
      separator. */
  lemma SplitsIffContains(s: string, sep: string)
    requires sep != []
    ensures |Split(s, sep)| >= 2 <==> Contains(s, sep)
  {
    var r := Split(s, sep);
    if |r| >= 2 {
      JoinedContains(r, sep);
    } else {
      assert Join(r, sep) == r[0];
    }
  }

  /** When the first occurrence of `sep` in `a + sep + b` is the one after
      `a`, the first piece is `a` and the rest is how `b` splits. */
  lemma {:induction false} SplitAtFirst(a: string, sep: string, b: string)
    requires sep != []
    requires forall k: nat :: k < |a| ==> !HasAt(a + sep + b, sep, k)
    ensures Split(a + sep + b, sep) == [a] + Split(b, sep)
    decreases |a|
  {
    var s := a + sep + b;
    if a == [] {
      assert s[..|sep|] == sep && s[|sep|..] == b;
    } else {
      assert !HasAt(s, sep, 0);
      assert s[1..] == a[1..] + sep + b;
      forall k: nat | k < |a[1..]|
        ensures !HasAt(a[1..] + sep + b, sep, k)
      {
        assert !HasAt(s, sep, k + 1);
        var t := a[1..] + sep + b;
        if k + |sep| <= |t| {
          assert s[k + 1..k + 1 + |sep|] == t[k..k + |sep|];
        }
      }
      SplitAtFirst(a[1..], sep, b);
      assert [s[0]] + a[1..] == a;
    }
  }
}
