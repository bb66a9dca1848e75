/**
 Reading the index files of many volumes with one helper container
 (internal/dockercli/dockercli.go:299-379): the script prints a marker line, the file and a
 line break per volume, and the output is cut apart again at the markers.
 */
module BatchedIndex {
  import opened Text

  const PREFIX := "===DFIDX:"
  const SUFFIX := "==="
  /** The largest value of Go's `int` on 64-bit platforms; also a bound on slice lengths. */
  const MAX_INT := 0x7fff_ffff_ffff_ffff

  // ------------------------------------------------------------------ strings

  function Lines(s: string): (r: seq<string>)
    ensures r != []
  {
    Split(s, '\n')
  }

  /** `strings.Join(lines, "\n")`. */
  function Join(lines: seq<string>): string {
    if lines == [] then "" else if |lines| == 1 then lines[0] else lines[0] + "\n" + Join(lines[1..])
  }

  predicate LineEnd(c: char) { c == '\r' || c == '\n' }

  /** `strings.TrimRight(s, "\r\n")`. */
  function TrimEnd(s: string): string {
    if s != "" && LineEnd(s[|s| - 1]) then TrimEnd(s[..|s| - 1]) else s
  }

  /** Only line ends are cut off, at the end, and all of them. */
  lemma {:induction false} TrimEndIs(s: string)
    ensures TrimEnd(s) <= s && (forall i :: |TrimEnd(s)| <= i < |s| ==> s[i] in {'\r', '\n'})
    ensures TrimEnd(s) == "" || TrimEnd(s)[|TrimEnd(s)| - 1] !in {'\r', '\n'}
  {
    if s != "" && LineEnd(s[|s| - 1]) { TrimEndIs(s[..|s| - 1]); }
  }

  predicate HasSuffix(s: string, t: string) { |t| <= |s| && s[|s| - |t|..] == t }

  lemma {:induction false} LinesConcat(a: string, b: string)
    ensures Lines(a + "\n" + b) == Lines(a) + Lines(b)
  {
    SplitConcat(a, b, '\n');
  }

  lemma {:induction false} JoinLines(s: string)
    ensures Join(Lines(s)) == s
  {
    if s != "" {
      JoinLines(s[1..]);
      var rest := Lines(s[1..]);
      if s[0] == '\n' {
        assert Lines(s)[1..] == rest;
      } else {
        assert Lines(s)[1..] == rest[1..];
      }
    }
  }

  lemma {:induction false} JoinSnocEmpty(lines: seq<string>)
    requires lines != []
    ensures Join(lines + [""]) == Join(lines) + "\n"
  {
    assert (lines + [""])[1..] == lines[1..] + [""];
    if |lines| > 1 { JoinSnocEmpty(lines[1..]); }
  }

  lemma {:induction false} TrimEmptyLine(lines: seq<string>)
    ensures TrimEnd(Join(lines + [""])) == TrimEnd(Join(lines))
  {
    if lines != [] {
      JoinSnocEmpty(lines);
      var s := Join(lines) + "\n";
      assert s[..|s| - 1] == Join(lines);
    }
  }

  // ------------------------------------------------------------------ numbers

  predicate Digit(c: char) { '0' <= c <= '9' }

  function Value(s: string): int
    requires forall c :: c in s ==> Digit(c)
  {
    if s == "" then 0 else
      Value(s[..|s| - 1]) * 10 + (s[|s| - 1] as int - '0' as int)
  }

  /** `strconv.Atoi`: an optional sign and digits, within the range of `int`. */
  function Atoi(s: string): Option<int> {
    var body := if s != "" && (s[0] == '+' || s[0] == '-') then s[1..] else s;
    if body == "" || exists c :: c in body && !Digit(c) then None
    else
      var v := if s[0] == '-' then -Value(body) else Value(body);
      if -MAX_INT - 1 <= v <= MAX_INT then Some(v) else None
  }

  lemma {:induction false} ValueOfDecimal(n: nat)
    ensures Value(Decimal(n)) == n
  {
    var s := Decimal(n);
    if n < 10 {
      assert s[..|s| - 1] == "";
    } else {
      ValueOfDecimal(n / 10);
      assert s[..|s| - 1] == Decimal(n / 10);
    }
  }

  lemma {:induction false} AtoiOfDecimal(n: nat)
    requires n <= MAX_INT
    ensures Atoi(Decimal(n)) == Some(n)
  {
    ValueOfDecimal(n);
    assert Decimal(n)[0] in Decimal(n);
  }

  /** A sign is read, and nothing but digits may follow it. */
  lemma {:induction false} AtoiSigned(n: nat)
    requires n <= MAX_INT
    ensures Atoi("+" + Decimal(n)) == Some(n) && Atoi("-" + Decimal(n)).Some? && Atoi("-" + Decimal(n)).value == 0 - n
    ensures Atoi("") == None && Atoi("+") == None && Atoi(Decimal(n) + "x") == None
  {
    var s := Decimal(n);
    ValueOfDecimal(n);
    assert ("+" + s)[1..] == s && ("-" + s)[1..] == s && s[0] in s;
    var t := s + "x";
    assert t[0] == s[0] && 'x' in t && !Digit('x') by { assert t[|t| - 1] == 'x'; }
  }

  // -------------------------------------------------------------------- format

  predicate IsMarker(line: string) { PREFIX <= line && HasSuffix(line, SUFFIX) }

  function Marker(i: nat): string { PREFIX + Decimal(i) + SUFFIX }

  /** The number in a marker line. */
  function MarkerIndex(line: string): Option<int>
    requires IsMarker(line)
  {
    var t := line[|PREFIX|..];
    Atoi(if HasSuffix(t, SUFFIX) then t[..|t| - |SUFFIX|] else t)
  }

  lemma {:induction false} MarkerReads(i: nat)
    requires i <= MAX_INT
    ensures IsMarker(Marker(i)) && MarkerIndex(Marker(i)) == Some(i) && '\n' !in Marker(i)
  {
    var m := Marker(i);
    assert m == PREFIX + (Decimal(i) + SUFFIX);
    var t := m[|PREFIX|..];
    assert t == Decimal(i) + SUFFIX && t[..|t| - |SUFFIX|] == Decimal(i);
    AtoiOfDecimal(i);
  }

  /** A line is taken for a marker exactly if it begins and ends as one. */
  lemma {:induction false} MarkerSays(line: string)
    ensures IsMarker(line) <==> |line| >= 9 && line[..9] == "===DFIDX:" && line[|line| - 3..] == "==="
  {
  }

  /** The marker of a volume, spelled out. */
  lemma {:induction false} MarkerText()
    ensures Marker(12) == "===DFIDX:12==="
  {
    assert Decimal(1) == "1" && Decimal(12) == "12";
  }

  lemma {:induction false} OneLine(s: string)
    requires '\n' !in s
    ensures Lines(s) == [s]
  {
    SplitNone(s, '\n');
  }

  /** What the script prints for the volumes from `i` on. */
  function Output(contents: seq<string>, i: nat): string
    requires i <= |contents|
    decreases |contents| - i
  {
    if i == |contents| then "" else Marker(i) + "\n" + contents[i] + "\n" + Output(contents, i + 1)
  }

  /** What the script prints for two volumes, spelled out. */
  lemma {:induction false} OutputText()
    ensures Output(["x", "y"], 0) == "===DFIDX:0===\nx\n===DFIDX:1===\ny\n"
  {
    assert Decimal(0) == "0" && Decimal(1) == "1";
    assert Output(["x", "y"], 2) == "" && Output(["x", "y"], 1) == Marker(1) + "\n" + "y" + "\n";
    assert Marker(0) == "===DFIDX:0===" && Marker(1) == "===DFIDX:1===";
  }

  // -------------------------------------------------------------------- parser

  datatype Parser = Parser(cur: int, buf: seq<string>, res: map<string, string>)

  function Flush(p: Parser, names: seq<string>): map<string, string> {
    if 0 <= p.cur < |names| then p.res[names[p.cur] := TrimEnd(Join(p.buf))] else p.res
  }

  function Step(p: Parser, line: string, names: seq<string>): Parser {
    if IsMarker(line) then
      var n := MarkerIndex(line);
      Parser(if n.Some? then n.value else -1, [], Flush(p, names))
    else p.(buf := p.buf + [line])
  }

  function Feed(p: Parser, lines: seq<string>, names: seq<string>): Parser
    decreases |lines|
  {
    if lines == [] then p else Feed(Step(p, lines[0], names), lines[1..], names)
  }

  method ParseBatchedIndexOutput(out: string, names: seq<string>) returns (res: map<string, string>)
    ensures res == Flush(Feed(Parser(-1, [], map[]), Lines(out), names), names)
  {
    hide IsMarker, MarkerIndex, TrimEnd, Join;
    var lines := Lines(out);
    var cur := -1;
    var buf: seq<string> := [];
    res := map[];
    for i := 0 to |lines|
      invariant Feed(Parser(cur, buf, res), lines[i..], names) == Feed(Parser(-1, [], map[]), lines, names)
    {
      assert lines[i..][1..] == lines[i + 1..];
      if IsMarker(lines[i]) {
        if 0 <= cur < |names| { res := res[names[cur] := TrimEnd(Join(buf))]; }
        var n := MarkerIndex(lines[i]);
        cur := if n.Some? then n.value else -1;
        buf := [];
      } else {
        buf := buf + [lines[i]];
      }
    }
    if 0 <= cur < |names| { res := res[names[cur] := TrimEnd(Join(buf))]; }
  }

  lemma {:induction false} FeedConcat(p: Parser, a: seq<string>, b: seq<string>, names: seq<string>)
    ensures Feed(p, a + b, names) == Feed(Feed(p, a, names), b, names)
    decreases |a|
  {
    hide Step;
    if a == [] {
      assert a + b == b;
    } else {
      FeedConcat(Step(p, a[0], names), a[1..], b, names);
      assert (a + b)[1..] == a[1..] + b;
    }
  }

  ghost predicate NoMarker(lines: seq<string>) { forall l :: l in lines ==> !IsMarker(l) }

  lemma {:induction false} FeedText(p: Parser, lines: seq<string>, names: seq<string>)
    requires NoMarker(lines)
    ensures Feed(p, lines, names) == p.(buf := p.buf + lines)
    decreases |lines|
  {
    hide IsMarker, Flush, MarkerIndex;
    if lines != [] {
      assert lines[0] in lines;
      FeedText(p.(buf := p.buf + [lines[0]]), lines[1..], names);
      assert p.buf + [lines[0]] + lines[1..] == p.buf + lines;
    } else {
      assert p.buf + lines == p.buf;
    }
  }

  lemma {:induction false} FeedMarker(p: Parser, i: nat, names: seq<string>)
    requires i <= MAX_INT
    ensures Feed(p, [Marker(i)], names) == Parser(i, [], Flush(p, names))
  {
    hide Flush, IsMarker, MarkerIndex, Marker;
    MarkerReads(i);
    assert [Marker(i)][1..] == [];
  }

  lemma {:induction false} EmptyNoMarker()
    ensures NoMarker([""])
  {
  }

  /** The map of all volumes from `i` on, later volumes last. */
  function Expected(contents: seq<string>, names: seq<string>, i: nat, res: map<string, string>): map<string, string>
    requires i <= |contents| == |names|
    decreases |contents| - i
  {
    if i == |contents| then res else Expected(contents, names, i + 1, res[names[i] := TrimEnd(contents[i])])
  }

  lemma {:induction false} BlocksParsed(p: Parser, contents: seq<string>, names: seq<string>, i: nat)
    requires i <= |contents| == |names| <= MAX_INT
    requires forall c :: c in contents ==> NoMarker(Lines(c))
    ensures Flush(Feed(p, Lines(Output(contents, i)), names), names) == Expected(contents, names, i, Flush(p, names))
    decreases |contents| - i
  {
    hide Lines, Join, TrimEnd, IsMarker, MarkerIndex, Marker, NoMarker;
    if i == |contents| {
      OneLine("");
      EmptyNoMarker();
      FeedText(p, [""], names);
      TrimEmptyLine(p.buf);
    } else {
      var c, rest := contents[i], Output(contents, i + 1);
      assert Output(contents, i) == Marker(i) + "\n" + (c + "\n" + rest);
      LinesConcat(Marker(i), c + "\n" + rest);
      LinesConcat(c, rest);
      MarkerReads(i);
      OneLine(Marker(i));
      FeedConcat(p, [Marker(i)], Lines(c) + Lines(rest), names);
      FeedMarker(p, i, names);
      var q := Parser(i, [], Flush(p, names));
      FeedConcat(q, Lines(c), Lines(rest), names);
      FeedText(q, Lines(c), names);
      assert q.buf + Lines(c) == Lines(c);
      JoinLines(c);
      hide Output;
      BlocksParsed(q.(buf := Lines(c)), contents, names, i + 1);
    }
  }

  lemma {:induction false} ExpectedIs(contents: seq<string>, names: seq<string>, i: nat, res: map<string, string>)
    requires i <= |contents| == |names| && NoDup(names)
    ensures var r := Expected(contents, names, i, res);
            && r.Keys == res.Keys + Elements(names[i..])
            && (forall j :: i <= j < |names| ==> r[names[j]] == TrimEnd(contents[j]))
            && (forall k :: k in res && k !in names[i..] ==> r[k] == res[k])
    decreases |contents| - i
  {
    hide TrimEnd;
    if i < |contents| {
      ExpectedIs(contents, names, i + 1, res[names[i] := TrimEnd(contents[i])]);
      assert names[i..] == [names[i]] + names[i + 1..];
      assert names[i] !in names[i + 1..];
    }
  }

  /** What reading one volume alone returns. */
  function ReadOne(content: string): string { TrimEnd(content) }

  /** The batched read gives every volume what reading it alone would. */
  lemma {:induction false} BatchedReadIsSingleRead(contents: seq<string>, names: seq<string>)
    requires |contents| == |names| <= MAX_INT && NoDup(names)
    requires forall c :: c in contents ==> NoMarker(Lines(c))
    ensures var r := Flush(Feed(Parser(-1, [], map[]), Lines(Output(contents, 0)), names), names);
            r.Keys == Elements(names) && forall j :: 0 <= j < |names| ==> r[names[j]] == ReadOne(contents[j])
  {
    hide Lines, Output, NoMarker, TrimEnd, Join;
    var p := Parser(-1, [], map[]);
    BlocksParsed(p, contents, names, 0);
    ExpectedIs(contents, names, 0, map[]);
    assert names[0..] == names;
  }

  /** A missing file, and a file on one line that does not begin with a marker, are safe contents. */
  lemma {:induction false} SingleLineIsSafe(c: string)
    requires '\n' !in c && !(PREFIX <= c)
    ensures NoMarker(Lines(c))
  {
    OneLine(c);
  }

  /** Compact JSON, with or without a final line break, never looks like a marker. */
  lemma {:induction false} CompactJsonIsSafe(body: string)
    requires '\n' !in body && body != "" && body[0] == '{'
    ensures NoMarker(Lines(body)) && NoMarker(Lines(body + "\n"))
  {
    assert PREFIX[0] == '=';
    SingleLineIsSafe(body);
    LinesConcat(body, "");
    assert body + "\n" + "" == body + "\n";
    EmptyNoMarker();
  }

  /** A content line shaped like a marker is taken for one: the rest of the file is lost. */
  lemma {:induction false} MarkerShapedLineBreaks()
    ensures Flush(Feed(Parser(-1, [], map[]), Lines(Output(["===DFIDX:x==="], 0)), ["v"]), ["v"]) == map["v" := ""]
    ensures ReadOne("===DFIDX:x===") == "===DFIDX:x==="
  {
    var c, names := "===DFIDX:x===", ["v"];
    BadMarker();
    hide Lines, IsMarker, MarkerIndex, Atoi, Marker, TrimEnd, Join, Flush, Feed, Step;
    LinesOf(c);
    FeedMarker(Parser(-1, [], map[]), 0, names);
    FeedConcat(Parser(-1, [], map[]), [Marker(0)], [c, ""], names);
    LostBlock(c, names);
  }

  lemma {:induction false} BadMarker()
    ensures var c := "===DFIDX:x==="; IsMarker(c) && MarkerIndex(c) == None && ReadOne(c) == c && '\n' !in c
  {
    var c := "===DFIDX:x===";
    assert c == PREFIX + "x===";
    assert "x==="[..1] == "x" && c[|PREFIX|..] == "x===";
    assert HasSuffix(c, SUFFIX) && HasSuffix("x===", SUFFIX);
    assert Atoi("x") == None by { assert "x"[0] in "x" && !Digit('x'); }
  }

  lemma {:induction false} LinesOf(c: string)
    requires '\n' !in c
    ensures Lines(Output([c], 0)) == [Marker(0)] + [c, ""]
  {
    hide Lines, Marker;
    assert Output([c], 0) == Marker(0) + "\n" + (c + "\n" + "") by { assert Output([c], 1) == ""; }
    LinesConcat(Marker(0), c + "\n" + "");
    LinesConcat(c, "");
    MarkerReads(0);
    OneLine(Marker(0));
    OneLine(c);
    OneLine("");
  }

  lemma {:induction false} LostBlock(c: string, names: seq<string>)
    requires IsMarker(c) && MarkerIndex(c) == None && names == ["v"]
    ensures Flush(Feed(Parser(0, [], Flush(Parser(-1, [], map[]), names)), [c, ""], names), names) == map["v" := ""]
  {
    hide IsMarker, MarkerIndex;
    EmptyNoMarker();
    assert [c, ""][1..] == [""] && [""][1..] == [];
    assert !IsMarker("") by { assert "" in [""]; }
    var none: map<string, string> := map[];
    assert none["v" := ""] == map["v" := ""];
    assert Step(Parser(0, [], map[]), c, names) == Parser(-1, [], map["v" := ""]);
    assert Step(Parser(-1, [], map["v" := ""]), "", names) == Parser(-1, [""], map["v" := ""]);
  }
}
