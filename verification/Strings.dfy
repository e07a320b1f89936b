/** The parts of Go's strings package that the program's parsers use. */
module Strings {
  import opened Collections

  // strings.Cut(s, sep) for a one-character separator.
  function Cut(s: string, sep: char): (r: Option<(string, string)>)
    ensures r.Some? ==> s == r.value.0 + [sep] + r.value.1 && sep !in r.value.0
    ensures r.None? <==> sep !in s
  {
    if s == [] then None
    else if s[0] == sep then Some(([], s[1..]))
    else
      var r := Cut(s[1..], sep);
      if r.None? then None else Some(([s[0]] + r.value.0, r.value.1))
  }

  lemma {:induction false} CutAtFirst(before: string, sep: char, after: string)
    requires sep !in before
    ensures Cut(before + [sep] + after, sep) == Some((before, after))
  {
    var s := before + [sep] + after;
    if before == [] {
      assert s[1..] == after;
    } else {
      assert s[1..] == before[1..] + [sep] + after;
      CutAtFirst(before[1..], sep, after);
      assert [s[0]] + before[1..] == before;
    }
  }

  // strings.Split(s, "\n").
  function Lines(s: string): (r: seq<string>)
    ensures |r| > 0
    decreases |s|
  {
    var c := Cut(s, '\n');
    if c.None? then [s] else [c.value.0] + Lines(c.value.1)
  }

  function JoinLines(lines: seq<string>): string
    requires |lines| > 0
  {
    if |lines| == 1 then lines[0] else lines[0] + ['\n'] + JoinLines(lines[1..])
  }

  lemma {:induction false} LinesOfJoin(lines: seq<string>)
    requires |lines| > 0 && forall l | l in lines :: '\n' !in l
    ensures Lines(JoinLines(lines)) == lines
  {
    if |lines| == 1 {
      assert lines == [lines[0]];
    } else {
      CutAtFirst(lines[0], '\n', JoinLines(lines[1..]));
      LinesOfJoin(lines[1..]);
      assert lines == [lines[0]] + lines[1..];
    }
  }

  // unicode.IsSpace in the Latin-1 range.
  predicate IsSpace(c: char)
  {
    c == ' ' || '\t' <= c <= '\r' || c == 0x85 as char || c == 0xA0 as char
  }

  predicate Blank(s: string)
  {
    forall c | c in s :: IsSpace(c)
  }

  predicate Solid(s: string)
  {
    forall c | c in s :: !IsSpace(c)
  }

  function FirstWord(s: string): (w: string)
    ensures |w| <= |s| && w == s[..|w|] && Solid(w)
    ensures s != [] && !IsSpace(s[0]) ==> w != []
  {
    if s == [] || IsSpace(s[0]) then [] else [s[0]] + FirstWord(s[1..])
  }

  // strings.Fields.
  function Fields(s: string): seq<string>
    decreases |s|
  {
    if s == [] then []
    else if IsSpace(s[0]) then Fields(s[1..])
    else [FirstWord(s)] + Fields(s[|FirstWord(s)|..])
  }

  lemma {:induction false} FieldsSkipBlanks(gap: string, s: string)
    requires Blank(gap)
    ensures Fields(gap + s) == Fields(s)
  {
    if gap == [] {
      assert gap + s == s;
    } else {
      assert (gap + s)[1..] == gap[1..] + s;
      FieldsSkipBlanks(gap[1..], s);
    }
  }

  lemma {:induction false} FirstWordOf(w: string, s: string)
    requires Solid(w)
    ensures FirstWord(w + s) == w + FirstWord(s)
  {
    if w == [] {
      assert w + s == s;
    } else {
      assert (w + s)[1..] == w[1..] + s;
      FirstWordOf(w[1..], s);
      assert [w[0]] + (w[1..] + FirstWord(s)) == w + FirstWord(s);
    }
  }

  lemma FieldsTakeWord(w: string, s: string)
    requires w != [] && Solid(w)
    ensures Fields(w + s) == [w + FirstWord(s)] + Fields(s[|FirstWord(s)|..])
  {
    FirstWordOf(w, s);
    assert (w + s)[|w + FirstWord(s)|..] == s[|FirstWord(s)|..];
  }
}
