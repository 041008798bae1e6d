// The maps.names seed block: printing a VALUES list of SQL string literals, and reading one.
module SeedBlock {
  import opened Wrappers

  // name.replace("'", "''")
  function Quoted(name: string): string {
    if name == "" then ""
    else (if name[0] == '\'' then "''" else [name[0]]) + Quoted(name[1..])
  }

  function Row(name: string): string { "    ('" + Quoted(name) + "')" }

  // ",\n".join(...)
  function Join(names: seq<string>): string
    requires names != []
  {
    if |names| == 1 then Row(names[0]) else Row(names[0]) + ",\n" + Join(names[1..])
  }

  const HEAD := "INSERT INTO maps.names (name)\nVALUES\n"
  const TAIL := "\nON CONFLICT DO NOTHING;\n"

  function RenderSeedBlock(names: seq<string>): string {
    if names == [] then "-- maps.names is empty; nothing to export.\n"
    else HEAD + Join(names) + TAIL
  }

  // ---- A reader of VALUES lists, by the lexical rules of SQL ----

  function SkipSpace(s: string): (rest: string)
    ensures |rest| <= |s|
  {
    if s != "" && (s[0] == ' ' || s[0] == '\n') then SkipSpace(s[1..]) else s
  }

  // The rest of a character string literal after its opening quote: a doubled quote stands for
  // one, a single quote ends it (ISO/IEC 9075-2, section 5.3).
  function ReadLiteral(s: string): (r: Option<(string, string)>)
    ensures r.Some? ==> |r.value.1| < |s|
  {
    if s == "" then None
    else if s[0] != '\'' then
      match ReadLiteral(s[1..])
      case None => None
      case Some((name, rest)) => Some(([s[0]] + name, rest))
    else if |s| > 1 && s[1] == '\'' then
      match ReadLiteral(s[2..])
      case None => None
      case Some((name, rest)) => Some((['\''] + name, rest))
    else Some(("", s[1..]))
  }

  // ( 'literal' )
  function ReadRow(s: string): (r: Option<(string, string)>)
    ensures r.Some? ==> |r.value.1| < |s|
  {
    var open := SkipSpace(s);
    if |open| < 2 || open[0] != '(' || open[1] != '\'' then None
    else
      match ReadLiteral(open[2..])
      case None => None
      case Some((name, after)) =>
        var close := SkipSpace(after);
        if close == "" || close[0] != ')' then None else Some((name, close[1..]))
  }

  // row { , row } up to whatever is not a comma
  function ReadValues(s: string): Option<(seq<string>, string)>
    decreases |s|
  {
    match ReadRow(s)
    case None => None
    case Some((name, after)) =>
      var next := SkipSpace(after);
      if next == "" || next[0] != ',' then Some(([name], next))
      else
        match ReadValues(next[1..])
        case None => None
        case Some((names, rest)) => Some(([name] + names, rest))
  }

  function ReadSeedBlock(s: string): Option<seq<string>> {
    if !(HEAD <= s) then None
    else
      match ReadValues(s[|HEAD|..])
      case None => None
      case Some((names, rest)) => if rest == TAIL[1..] then Some(names) else None
  }

  // ---- Round trip ----

  // Whatever follows the closing quote, as long as it is not another quote.
  lemma {:induction false} LiteralRoundTrip(name: string, rest: string)
    requires rest == "" || rest[0] != '\''
    ensures ReadLiteral(Quoted(name) + "'" + rest) == Some((name, rest))
  {
    var s := Quoted(name) + "'" + rest;
    if name == "" {
      assert s == "'" + rest && s[1..] == rest;
    } else if name[0] == '\'' {
      LiteralRoundTrip(name[1..], rest);
      assert s == "''" + (Quoted(name[1..]) + "'" + rest);
      assert s[2..] == Quoted(name[1..]) + "'" + rest;
      assert name == ['\''] + name[1..];
    } else {
      LiteralRoundTrip(name[1..], rest);
      assert s == [name[0]] + (Quoted(name[1..]) + "'" + rest);
      assert s[1..] == Quoted(name[1..]) + "'" + rest;
      assert name == [name[0]] + name[1..];
    }
  }

  lemma RowRoundTrip(name: string, rest: string, indent: string)
    requires SkipSpace(indent + Row(name) + rest) == "('" + (Quoted(name) + "'" + (")" + rest))
    ensures ReadRow(indent + Row(name) + rest) == Some((name, rest))
  {
    var open := SkipSpace(indent + Row(name) + rest);
    LiteralRoundTrip(name, ")" + rest);
    assert open[2..] == Quoted(name) + "'" + (")" + rest);
    assert (")" + rest)[1..] == rest;
  }

  lemma SkipIndent(indent: string, name: string, rest: string)
    requires indent == "" || indent == "\n"
    ensures SkipSpace(indent + Row(name) + rest) == "('" + (Quoted(name) + "'" + (")" + rest))
  {
    var body := "('" + (Quoted(name) + "'" + (")" + rest));
    var s := indent + Row(name) + rest;
    assert Row(name) + rest == "    " + body;
    SkipFour(body);
    if indent == "\n" {
      assert s == "\n" + ("    " + body) && s[1..] == "    " + body;
    } else {
      assert s == "    " + body;
    }
  }

  lemma SkipFour(body: string)
    requires body != "" && body[0] != ' ' && body[0] != '\n'
    ensures SkipSpace("    " + body) == body
  {
    assert (" " + body)[1..] == body;
    assert SkipSpace(" " + body) == body;
    assert ("  " + body)[1..] == " " + body;
    assert SkipSpace("  " + body) == body;
    assert ("   " + body)[1..] == "  " + body;
    assert SkipSpace("   " + body) == body;
    assert ("    " + body)[1..] == "   " + body;
  }

  lemma LastRow(name: string, indent: string)
    requires indent == "" || indent == "\n"
    ensures ReadValues(indent + Row(name) + TAIL) == Some(([name], TAIL[1..]))
  {
    SkipIndent(indent, name, TAIL);
    RowRoundTrip(name, TAIL, indent);
    assert TAIL[0] == '\n' && TAIL[1] == 'O';
    assert SkipSpace(TAIL) == SkipSpace(TAIL[1..]) == TAIL[1..];
  }

  lemma NextRow(name: string, indent: string, tail: string)
    requires indent == "" || indent == "\n"
    ensures ReadRow(indent + Row(name) + ("," + tail)) == Some((name, "," + tail))
    ensures SkipSpace("," + tail) == "," + tail && ("," + tail)[1..] == tail
  {
    SkipIndent(indent, name, "," + tail);
    RowRoundTrip(name, "," + tail, indent);
  }

  lemma {:induction false} ValuesRoundTrip(names: seq<string>, indent: string)
    requires names != [] && (indent == "" || indent == "\n")
    ensures ReadValues(indent + Join(names) + TAIL) == Some((names, TAIL[1..]))
    decreases |names|
  {
    if |names| == 1 {
      LastRow(names[0], indent);
      assert names == [names[0]];
    } else {
      var tail := "\n" + Join(names[1..]) + TAIL;
      var s := indent + Row(names[0]) + ("," + tail);
      Regroup(indent, Row(names[0]), Join(names[1..]), TAIL);
      assert indent + Join(names) + TAIL == s;
      NextRow(names[0], indent, tail);
      ValuesRoundTrip(names[1..], "\n");
      OneMoreRow(s, names[0], tail, names[1..], TAIL[1..]);
      assert names == [names[0]] + names[1..];
    }
  }

  lemma OneMoreRow(s: string, name: string, tail: string, names: seq<string>, rest: string)
    requires ReadRow(s) == Some((name, "," + tail)) && ReadValues(tail) == Some((names, rest))
    ensures ReadValues(s) == Some(([name] + names, rest))
  {
    assert ("," + tail)[1..] == tail;
  }

  lemma Regroup(i: string, r: string, j: string, t: string)
    ensures i + (r + ",\n" + j) + t == i + r + ("," + ("\n" + j + t))
  {
    assert ",\n" == "," + "\n";
  }

  lemma AfterHead(body: string)
    ensures "" + body + TAIL == body + TAIL
    ensures HEAD <= HEAD + body + TAIL && (HEAD + body + TAIL)[|HEAD|..] == body + TAIL
  {
  }

  // Reading the rendered block gives back the names, whatever characters they contain.
  lemma SeedRoundTrip(names: seq<string>)
    requires names != []
    ensures ReadSeedBlock(RenderSeedBlock(names)) == Some(names)
  {
    ValuesRoundTrip(names, "");
    AfterHead(Join(names));
  }

  // Hence two lists never print alike.
  lemma RenderIsInjective(a: seq<string>, b: seq<string>)
    requires RenderSeedBlock(a) == RenderSeedBlock(b)
    ensures a == b
  {
    assert a == [] ==> RenderSeedBlock(a)[0] == '-';
    assert b == [] ==> RenderSeedBlock(b)[0] == '-';
    if a != [] && b != [] {
      SeedRoundTrip(a);
      SeedRoundTrip(b);
    }
  }

  // The text around the names.
  lemma BlockFrame(names: seq<string>)
    requires names != []
    ensures exists body :: RenderSeedBlock(names) == "INSERT INTO maps.names (name)\nVALUES\n" + body + "\nON CONFLICT DO NOTHING;\n"
    ensures RenderSeedBlock([]) == "-- maps.names is empty; nothing to export.\n"
  {
    assert RenderSeedBlock(names) == "INSERT INTO maps.names (name)\nVALUES\n" + Join(names) + "\nON CONFLICT DO NOTHING;\n";
  }

  // Two lists in a row print as two row lists with a comma and a new line between them.
  lemma {:induction false} RowsJoin(a: seq<string>, b: seq<string>)
    requires a != [] && b != []
    ensures Join(a + b) == Join(a) + [',', '\n'] + Join(b)
  {
    assert (a + b)[1..] == a[1..] + b && (a + b)[0] == a[0];
    if |a| == 1 {
      assert a[1..] + b == b;
    } else {
      RowsJoin(a[1..], b);
      RegroupRows(Row(a[0]), [',', '\n'], Join(a[1..]), Join(b));
    }
  }

  lemma RegroupRows(row: string, comma: string, rest: string, end: string)
    ensures row + comma + (rest + comma + end) == row + comma + rest + comma + end
  {
  }
}
