/** The string operations the contact store uses: Python's `needle in hay`
    for strings, `sep.join(parts)`, and the splitting of a rendered text into
    its lines. */
module Text {

  import Seqs

  /** `p` is a prefix of `s` (Python's `s.startswith(p)`). */
  predicate IsPrefix(p: string, s: string) {
    |p| <= |s| && s[..|p|] == p
  }

  /** `p` occurs in `s` as a contiguous run (Python's `p in s`); the empty
      string occurs in every string. */
  predicate IsSubstring(p: string, s: string)
    decreases |s|
  {
    IsPrefix(p, s) || (s != [] && IsSubstring(p, s[1..]))
  }

  /** `p` occurs in `s` starting at position `i`. */
  ghost predicate OccursAt(p: string, s: string, i: int) {
    0 <= i && i + |p| <= |s| && s[i..i + |p|] == p
  }

  /** An occurrence at any position makes `p` a substring of `s`. */
  lemma {:induction false} OccursIsSubstring(p: string, s: string, i: int)
    requires OccursAt(p, s, i)
    ensures IsSubstring(p, s)
    decreases i
  {
    if i > 0 {
      assert s[1..][i - 1..i - 1 + |p|] == s[i..i + |p|];
      OccursIsSubstring(p, s[1..], i - 1);
    }
  }

  /** IsSubstring agrees with the positional definition of a substring:
      `p in s` exactly when some window of `s` equals `p`. */
  lemma {:induction false} SubstringIffOccurs(p: string, s: string)
    ensures IsSubstring(p, s) <==> exists i :: OccursAt(p, s, i)
    decreases |s|
  {
    if exists i :: OccursAt(p, s, i) {
      var i :| OccursAt(p, s, i);
      OccursIsSubstring(p, s, i);
    }
    if IsPrefix(p, s) {
      assert OccursAt(p, s, 0);
    } else if s != [] && IsSubstring(p, s[1..]) {
      SubstringIffOccurs(p, s[1..]);
      var i :| OccursAt(p, s[1..], i);
      assert s[1..][i..i + |p|] == s[i + 1..i + 1 + |p|];
      assert OccursAt(p, s, i + 1);
    }
  }

  /** The empty criterion matches every string. */
  lemma EmptyIsSubstring(s: string)
    ensures IsSubstring("", s)
  {
    assert IsPrefix("", s);
  }

  /** Python's `sep.join(parts)`: the parts in order, with `sep` between
      neighbours and nowhere else. */
  function Join(sep: string, parts: seq<string>): (r: string)
    ensures |parts| == 0 ==> r == ""
    ensures |parts| == 1 ==> r == parts[0]
    ensures |parts| >= 1 ==> IsPrefix(parts[0], r)
  {
    if |parts| == 0 then ""
    else if |parts| == 1 then parts[0]
    else parts[0] + sep + Join(sep, parts[1..])
  }

  /** Joining one more part appends the separator and that part: every part
      after the first follows a separator, in order. */
  lemma {:induction false} JoinAppend(sep: string, parts: seq<string>, last: string)
    requires |parts| >= 1
    ensures Join(sep, parts + [last]) == Join(sep, parts) + sep + last
    decreases |parts|
  {
    var all := parts + [last];
    if |parts| == 1 {
      assert all[1..] == [last];
    } else {
      assert all[1..] == parts[1..] + [last];
      JoinAppend(sep, parts[1..], last);
      assert Join(sep, all) == parts[0] + sep + (Join(sep, parts[1..]) + sep + last);
    }
  }

  /** Five parts joined: the separator stands between each neighbouring pair. */
  lemma JoinFive(sep: string, parts: seq<string>)
    requires |parts| == 5
    ensures Join(sep, parts)
         == parts[0] + sep + parts[1] + sep + parts[2] + sep + parts[3] + sep + parts[4]
  {
    var p1, p2, p3 := parts[1..], parts[2..], parts[3..];
    assert p3[1..] == [parts[4]] && p3[0] == parts[3];
    assert p2[1..] == p3 && p2[0] == parts[2];
    assert p1[1..] == p2 && p1[0] == parts[1];
    assert Join(sep, p3) == parts[3] + sep + parts[4];
    assert Join(sep, p2) == parts[2] + sep + (parts[3] + sep + parts[4]);
    assert Join(sep, p1) == parts[1] + sep + (parts[2] + sep + (parts[3] + sep + parts[4]));
  }

  /** Moving a label (`tag`) from its field to the separator before it leaves the text as it is. */
  lemma Regroup(head: string, sep: string, tag: string, field: string)
    ensures head + sep + (tag + field) == head + (sep + tag) + field
  {
  }

  /** A joined text contains a character only if the separator or one of the
      parts does. */
  lemma {:induction false} JoinChars(sep: string, parts: seq<string>, ch: char)
    requires ch !in sep
    requires forall i | 0 <= i < |parts| :: ch !in parts[i]
    ensures ch !in Join(sep, parts)
  {
    if |parts| > 1 {
      JoinChars(sep, parts[1..], ch);
    }
  }

  /** The lines of `s`: the pieces between consecutive newline characters
      (Python's `s.split("\n")`); a text without a newline is one line. */
  function Lines(s: string): (r: seq<string>)
    ensures |r| >= 1
    ensures forall i | 0 <= i < |r| :: '\n' !in r[i]
    decreases |s|
  {
    if '\n' !in s then [s]
    else
      var i := Seqs.IndexOf(s, '\n');
      [s[..i]] + Lines(s[i + 1..])
  }

  /** Splitting undoes a newline placed after a line that holds none. */
  lemma LinesCons(line: string, rest: string)
    requires '\n' !in line
    ensures Lines(line + "\n" + rest) == [line] + Lines(rest)
  {
    var s := line + "\n" + rest;
    assert s[|line|] == '\n';
    var i := Seqs.IndexOf(s, '\n');
    assert s[..|line|] == line;
    assert i == |line|;
    assert s[..i] == line;
    assert s[i + 1..] == rest;
  }

  /** Splitting at line breaks undoes joining single-line texts with line
      breaks. */
  lemma {:induction false} LinesJoin(lines: seq<string>)
    requires |lines| >= 1
    requires forall i | 0 <= i < |lines| :: '\n' !in lines[i]
    ensures Lines(Join("\n", lines)) == lines
  {
    if |lines| > 1 {
      LinesJoin(lines[1..]);
      LinesCons(lines[0], Join("\n", lines[1..]));
      assert lines == [lines[0]] + lines[1..];
    }
  }

  /** `p` does not occur in `s` when its first character does not. */
  lemma NoOccurrenceOfFirst(p: string, s: string)
    requires |p| >= 1 && p[0] !in s
    ensures !IsSubstring(p, s)
  {
    SubstringIffOccurs(p, s);
    forall i | 0 <= i && i + |p| <= |s|
      ensures !OccursAt(p, s, i)
    {
      assert s[i..i + |p|][0] == s[i];
    }
  }

  /** `p` does not occur in `s` when its first two characters never stand
      side by side in `s`. */
  lemma NoOccurrenceOfPair(p: string, s: string)
    requires |p| >= 2
    requires forall i | 0 <= i < |s| - 1 :: !(s[i] == p[0] && s[i + 1] == p[1])
    ensures !IsSubstring(p, s)
  {
    SubstringIffOccurs(p, s);
    forall i | 0 <= i && i + |p| <= |s|
      ensures !OccursAt(p, s, i)
    {
      assert s[i..i + |p|][0] == s[i] && s[i..i + |p|][1] == s[i + 1];
    }
  }

  /** A text occurs in another of its own length only as that whole text. */
  lemma NoOccurrenceOfSameLength(p: string, s: string)
    requires |p| == |s| && p != s
    ensures !IsSubstring(p, s)
  {
    SubstringIffOccurs(p, s);
    assert s[0..|p|] == s;
  }
}
