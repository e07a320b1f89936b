/** Reading the kernel's export table: agent/storage/nfs/kernel.go. */
module ExportTable {
  import opened Collections
  import opened Strings

  datatype ExportInfo = ExportInfo(path: string, client: string)

  // exportfsClient: exportfs wants IPv6 addresses in brackets.
  function ExportfsClient(client: string): string
  {
    if ':' in client then ['['] + client + [']'] else client
  }

  function UnwrapBrackets(client: string): string
  {
    var c := Cut(client, ']');
    if c.Some? && c.value.0 != [] && c.value.0[0] == '[' then c.value.0[1..] else client
  }

  // The text before the options.
  function ClientOf(field: string): string
  {
    var c := Cut(field, '(');
    UnwrapBrackets(if c.Some? then c.value.0 else field)
  }

  datatype Parser = Parser(exports: seq<ExportInfo>, currentPath: string)

  function ParseLine(p: Parser, line: string): Parser
  {
    var fields := Fields(line);
    if fields == [] then p
    else
      var indented := line[0] == '\t' || line[0] == ' ';
      if !indented && |fields| >= 2 then Parser(p.exports + [ExportInfo(fields[0], ClientOf(fields[1]))], "")
      else if !indented then p.(currentPath := fields[0])
      else if p.currentPath != "" then Parser(p.exports + [ExportInfo(p.currentPath, ClientOf(fields[0]))], "")
      else p
  }

  function ParseLines(p: Parser, lines: seq<string>): Parser
  {
    if lines == [] then p else ParseLine(ParseLines(p, lines[..|lines| - 1]), lines[|lines| - 1])
  }

  method ParseExports(output: string) returns (exports: seq<ExportInfo>)
    ensures exports == ParseLines(Parser([], ""), Lines(output)).exports
  {
    exports := [];
    var currentPath := "";
    var lines := Lines(output);
    for i := 0 to |lines|
      invariant Parser(exports, currentPath) == ParseLines(Parser([], ""), lines[..i])
    {
      var line := lines[i];
      assert lines[..i + 1][..i] == lines[..i];
      var fields := Fields(line);
      if |fields| == 0 {
        continue;
      }
      var indented := ['\t'] <= line || [' '] <= line;
      if !indented && |fields| >= 2 {
        exports := exports + [ExportInfo(fields[0], ClientOf(fields[1]))];
        currentPath := "";
      } else if !indented {
        currentPath := fields[0];
      } else if currentPath != "" {
        exports := exports + [ExportInfo(currentPath, ClientOf(fields[0]))];
        currentPath := "";
      }
    }
    assert lines[..|lines|] == lines;
  }

  // ---------------------------------------------------------------- what exportfs -v prints

  // How one entry is printed: blank lines before it, on one line or wrapped onto two (with blank
  // lines between them), the gap or indentation before the client, and the text after it.
  datatype Layout = Layout(before: seq<string>, wrapped: bool, between: seq<string>, gap: string, options: string)

  predicate BlankLines(lines: seq<string>)
  {
    forall l | l in lines :: Blank(l) && '\n' !in l
  }

  predicate LayoutOk(l: Layout)
  {
    && BlankLines(l.before) && BlankLines(l.between)
    && l.gap != "" && (forall c | c in l.gap :: c == ' ' || c == '\t')
    && '\n' !in l.options
  }

  // An IPv4 or IPv6 address as text.
  predicate AddressText(c: string)
  {
    c != "" && forall x | x in c :: '0' <= x <= '9' || 'a' <= x <= 'f' || 'A' <= x <= 'F' || x == '.' || x == ':'
  }

  predicate EntryOk(e: ExportInfo)
  {
    e.path != "" && Solid(e.path) && AddressText(e.client)
  }

  function ClientText(e: ExportInfo, l: Layout): string
  {
    ExportfsClient(e.client) + ['('] + l.options
  }

  function PrintEntry(e: ExportInfo, l: Layout): seq<string>
  {
    l.before +
    if l.wrapped then [e.path] + l.between + [l.gap + ClientText(e, l)] else [e.path + l.gap + ClientText(e, l)]
  }

  function PrintTable(table: seq<ExportInfo>, layouts: seq<Layout>): seq<string>
    requires |layouts| == |table|
  {
    if table == [] then []
    else
      var n := |table| - 1;
      PrintTable(table[..n], layouts[..n]) + PrintEntry(table[n], layouts[n])
  }

  // ---------------------------------------------------------------- round trip

  lemma {:induction false} ParseConcat(p: Parser, a: seq<string>, b: seq<string>)
    ensures ParseLines(p, a + b) == ParseLines(ParseLines(p, a), b)
  {
    if b == [] {
      assert a + b == a;
    } else {
      assert (a + b)[..|a + b| - 1] == a + b[..|b| - 1];
      ParseConcat(p, a, b[..|b| - 1]);
    }
  }

  lemma {:induction false} BlankLinesAreSkipped(p: Parser, lines: seq<string>)
    requires BlankLines(lines)
    ensures ParseLines(p, lines) == p
  {
    if lines != [] {
      BlankLinesAreSkipped(p, lines[..|lines| - 1]);
      var l := lines[|lines| - 1];
      FieldsSkipBlanks(l, []);
      assert l + [] == l;
    }
  }

  predicate PlainChar(x: char)
  {
    !IsSpace(x) && x != '(' && x != '\n' && x != ']'
  }

  lemma AddressCharIsPlain(x: char)
    requires '0' <= x <= '9' || 'a' <= x <= 'f' || 'A' <= x <= 'F' || x == '.' || x == ':' || x == '['
    ensures PlainChar(x)
  {
  }

  lemma AddressIsPlain(c: string)
    requires AddressText(c)
    ensures forall x | x in ['['] + c :: PlainChar(x)
    ensures Solid(ExportfsClient(c)) && '(' !in ExportfsClient(c) && '\n' !in ExportfsClient(c)
  {
    forall x | x in ['['] + c
      ensures PlainChar(x)
    {
      AddressCharIsPlain(x);
    }
    assert forall x | x in c :: x in ['['] + c;
    assert forall x | x in ExportfsClient(c) :: x in ['['] + c || x == ']';
  }

  lemma {:induction false} BracketsComeOff(c: string)
    requires AddressText(c)
    ensures UnwrapBrackets(ExportfsClient(c)) == c
  {
    AddressIsPlain(c);
    if ':' in c {
      var inner := ['['] + c;
      assert ']' !in inner;
      CutAtFirst(inner, ']', []);
      assert ExportfsClient(c) == inner + [']'] + [];
      assert inner[1..] == c;
    } else {
      assert ']' !in c by { assert forall x | x in c :: x in ['['] + c; }
    }
  }

  // How exportfs reads client and path: only an IPv6 address may stand in brackets, and without them the client
  // ends at the first colon.
  function SplitArgument(arg: string): Option<(string, string)>
  {
    if arg == "" || arg[0] != '[' then Cut(arg, ':')
    else
      var c := Cut(arg[1..], ']');
      if c.Some? && ':' in c.value.0 && c.value.1 != "" && c.value.1[0] == ':' then Some((c.value.0, c.value.1[1..]))
      else None
  }

  /** What the exporter passes to exportfs means this client and this path, whatever the path holds. */
  lemma ArgumentRoundTrip(client: string, path: string)
    requires AddressText(client)
    ensures SplitArgument(ExportfsClient(client) + ":" + path) == Some((client, path))
  {
    var arg := ExportfsClient(client) + ":" + path;
    AddressIsPlain(client);
    assert forall x | x in client :: x in ['['] + client;
    if ':' in client {
      assert arg[1..] == client + [']'] + (":" + path);
      CutAtFirst(client, ']', ":" + path);
    } else {
      assert client[0] in client;
      CutAtFirst(client, ':', path);
      assert arg == client + [':'] + path;
    }
  }

  // The client text read back as a field.
  lemma ClientTextField(e: ExportInfo, l: Layout)
    requires EntryOk(e) && LayoutOk(l)
    ensures |Fields(ClientText(e, l))| > 0 && ClientOf(Fields(ClientText(e, l))[0]) == e.client
  {
    AddressIsPlain(e.client);
    BracketsComeOff(e.client);
    var w := ExportfsClient(e.client) + ['('];
    assert ClientText(e, l) == w + l.options;
    FieldsTakeWord(w, l.options);
    assert w + FirstWord(l.options) == ExportfsClient(e.client) + ['('] + FirstWord(l.options);
    CutAtFirst(ExportfsClient(e.client), '(', FirstWord(l.options));
  }

  lemma GapIsBlank(gap: string)
    requires forall c | c in gap :: c == ' ' || c == '\t'
    ensures Blank(gap)
  {
  }

  lemma OneLineParses(p: Parser, e: ExportInfo, l: Layout)
    requires EntryOk(e) && LayoutOk(l)
    ensures ParseLine(p, e.path + l.gap + ClientText(e, l)) == Parser(p.exports + [e], "")
  {
    var rest := l.gap + ClientText(e, l);
    assert e.path + l.gap + ClientText(e, l) == e.path + rest;
    assert l.gap[0] in l.gap && rest[0] == l.gap[0];
    GapIsBlank(l.gap);
    FieldsTakeWord(e.path, rest);
    FieldsSkipBlanks(l.gap, ClientText(e, l));
    ClientTextField(e, l);
    assert e.path + FirstWord(rest) == e.path;
    assert e.path[0] in e.path;
  }

  lemma TwoLinesParse(p: Parser, e: ExportInfo, l: Layout)
    requires EntryOk(e) && LayoutOk(l)
    ensures ParseLine(p, e.path) == p.(currentPath := e.path)
    ensures p.currentPath == e.path ==> ParseLine(p, l.gap + ClientText(e, l)) == Parser(p.exports + [e], "")
  {
    FieldsTakeWord(e.path, []);
    assert e.path + [] == e.path;
    assert e.path[0] in e.path;
    GapIsBlank(l.gap);
    FieldsSkipBlanks(l.gap, ClientText(e, l));
    ClientTextField(e, l);
    assert l.gap[0] in l.gap;
  }

  lemma EntryParses(p: Parser, e: ExportInfo, l: Layout)
    requires EntryOk(e) && LayoutOk(l)
    ensures ParseLines(p, PrintEntry(e, l)) == Parser(p.exports + [e], "")
  {
    BlankLinesAreSkipped(p, l.before);
    if l.wrapped {
      var client := l.gap + ClientText(e, l);
      ParseConcat(p, l.before, [e.path] + l.between + [client]);
      var q := p.(currentPath := e.path);
      TwoLinesParse(p, e, l);
      TwoLinesParse(q, e, l);
      ParseOne(p, e.path);
      BlankLinesAreSkipped(q, l.between);
      ParseConcat(p, [e.path], l.between);
      ParseConcat(p, [e.path] + l.between, [client]);
      ParseOne(q, client);
    } else {
      var line := e.path + l.gap + ClientText(e, l);
      ParseConcat(p, l.before, [line]);
      OneLineParses(p, e, l);
      ParseOne(p, line);
    }
  }

  lemma ParseOne(p: Parser, line: string)
    ensures ParseLines(p, [line]) == ParseLine(p, line)
  {
    assert [line][..0] == [];
  }

  lemma NextEntryParses(printed: seq<string>, table: seq<ExportInfo>, e: ExportInfo, l: Layout)
    requires EntryOk(e) && LayoutOk(l) && ParseLines(Parser([], ""), printed) == Parser(table, "")
    ensures ParseLines(Parser([], ""), printed + PrintEntry(e, l)) == Parser(table + [e], "")
  {
    ParseConcat(Parser([], ""), printed, PrintEntry(e, l));
    EntryParses(Parser(table, ""), e, l);
  }

  lemma {:induction false} TableParses(table: seq<ExportInfo>, layouts: seq<Layout>)
    requires |layouts| == |table| && (forall e | e in table :: EntryOk(e)) && (forall l | l in layouts :: LayoutOk(l))
    ensures ParseLines(Parser([], ""), PrintTable(table, layouts)) == Parser(table, "")
  {
    if table != [] {
      var n := |table| - 1;
      var init, initLayouts, e, l := table[..n], layouts[..n], table[n], layouts[n];
      assert table == init + [e] && layouts == initLayouts + [l];
      TableParses(init, initLayouts);
      NextEntryParses(PrintTable(init, initLayouts), init, e, l);
    }
  }

  lemma EntryLinesAreLines(e: ExportInfo, l: Layout)
    requires EntryOk(e) && LayoutOk(l)
    ensures forall line | line in PrintEntry(e, l) :: '\n' !in line
  {
    AddressIsPlain(e.client);
    assert '\n' !in e.path;
  }

  lemma {:induction false} PrintedLinesAreLines(table: seq<ExportInfo>, layouts: seq<Layout>)
    requires |layouts| == |table| && (forall e | e in table :: EntryOk(e)) && (forall l | l in layouts :: LayoutOk(l))
    ensures forall line | line in PrintTable(table, layouts) :: '\n' !in line
  {
    if table != [] {
      var n := |table| - 1;
      PrintedLinesAreLines(table[..n], layouts[..n]);
      assert layouts[n] in layouts && table[n] in table;
      EntryLinesAreLines(table[n], layouts[n]);
    }
  }

  /** An indented line behind a complete entry names no path and adds nothing. */
  lemma StrayLineIsSkipped(p: Parser, e: ExportInfo, l: Layout, line: string)
    requires EntryOk(e) && LayoutOk(l) && line != "" && (line[0] == ' ' || line[0] == '\t')
    ensures ParseLines(p, PrintEntry(e, l) + [line]).exports == p.exports + [e]
  {
    EntryParses(p, e, l);
    ParseConcat(p, PrintEntry(e, l), [line]);
    ParseOne(Parser(p.exports + [e], ""), line);
  }

  /**
   Whatever the table, printed in any mixture of one-line and wrapped entries with blank lines
   anywhere, parsing gives back exactly the list, brackets undone.
   */
  lemma ExportTableRoundTrip(table: seq<ExportInfo>, layouts: seq<Layout>, trailing: seq<string>)
    requires |layouts| == |table| && (forall e | e in table :: EntryOk(e)) && (forall l | l in layouts :: LayoutOk(l))
    requires BlankLines(trailing) && |PrintTable(table, layouts) + trailing| > 0
    ensures ParseLines(Parser([], ""), Lines(JoinLines(PrintTable(table, layouts) + trailing))).exports == table
  {
    PrintedLinesAreLines(table, layouts);
    LinesOfJoin(PrintTable(table, layouts) + trailing);
    TableParses(table, layouts);
    ParseConcat(Parser([], ""), PrintTable(table, layouts), trailing);
    BlankLinesAreSkipped(Parser(table, ""), trailing);
  }
}
