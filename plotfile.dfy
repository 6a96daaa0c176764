/** Reading one OTIS plot file (`readPlotFile`): the first line names the variables,
    the second line is skipped, and every later line contributes all of its tokens
    to one flat list of numbers, until the first line with fewer tokens than there
    are names (the start of an explicit-trajectory section), where reading stops.
    A file is given as its list of lines; the file system is a map from path to
    lines, and a path it does not hold cannot be opened.  Converting a token with
    `float()` is the parameter `parse`, which answers `None` where `float()` raises. */
module PlotFile {
  import opened Base
  import opened Tokens

  datatype PlotData = PlotData(names: seq<string>, values: seq<real>)

  datatype ReadError = CannotOpen | NotANumber

  datatype ReadResult = Read(data: PlotData) | Failed(error: ReadError)

  type FileSystem = map<string, seq<string>>

  type Parser = string -> Option<real>

  /** The first line, as `readline()` returns it: empty for an empty file. */
  function HeaderLine(lines: seq<string>): string {
    if |lines| > 0 then lines[0] else ""
  }

  /** The lines after the skipped second line. */
  function BodyLines(lines: seq<string>): seq<string> {
    if |lines| > 2 then lines[2..] else []
  }

  /** The tokens of each line, line by line. */
  function TokenRows(lines: seq<string>): (rows: seq<seq<string>>)
    ensures |rows| == |lines|
  {
    if lines == [] then [] else [Tokenize(lines[0])] + TokenRows(lines[1..])
  }

  lemma {:induction false} TokenRowsAt(lines: seq<string>, i: nat)
    requires i < |lines|
    ensures TokenRows(lines)[i] == Tokenize(lines[i])
  {
    if i > 0 {
      TokenRowsAt(lines[1..], i - 1);
    }
  }

  /** How many data lines are read: the lines before the first one with fewer than
      `n` tokens.  A line with more than `n` tokens is kept whole. */
  function KeptCount(rows: seq<seq<string>>, n: nat): (kept: nat)
    ensures kept <= |rows|
    ensures forall i :: 0 <= i < kept ==> |rows[i]| >= n
    ensures kept < |rows| ==> |rows[kept]| < n
  {
    if rows == [] || |rows[0]| < n then 0 else 1 + KeptCount(rows[1..], n)
  }

  /** Every token converted, or `None` when some token is not a number. */
  function ParseAll(tokens: seq<string>, parse: Parser): (values: Option<seq<real>>)
    ensures values.Some? <==> forall i :: 0 <= i < |tokens| ==> parse(tokens[i]).Some?
    ensures values.Some? ==> |values.value| == |tokens|
                             && forall i :: 0 <= i < |tokens| ==> values.value[i] == parse(tokens[i]).value
  {
    if tokens == [] then Some([])
    else match (parse(tokens[0]), ParseAll(tokens[1..], parse))
      case (Some(v), Some(vs)) => Some([v] + vs)
      case (None, _) => None
      case (_, None) =>
        var i :| 0 <= i < |tokens[1..]| && parse(tokens[1..][i]).None?;
        assert parse(tokens[i + 1]).None?;
        None
  }

  /** What reading the lines of a file yields: the header's tokens as names, and
      the tokens of the kept data lines, in order, as numbers. */
  function ReadLines(lines: seq<string>, parse: Parser): ReadResult {
    var names := Tokenize(HeaderLine(lines));
    var rows := TokenRows(BodyLines(lines));
    match ParseAll(Concat(rows[..KeptCount(rows, |names|)]), parse)
    case Some(values) => Read(PlotData(names, values))
    case None => Failed(NotANumber)
  }

  /** What `readPlotFile(path)` yields. */
  function ReadSpec(fs: FileSystem, path: string, parse: Parser): ReadResult {
    if path in fs then ReadLines(fs[path], parse) else Failed(CannotOpen)
  }

  /** `readPlotFile(file)`: the header gives the names; each data line is tokenised,
      the loop stops at the first line shorter than the header, and each token of a
      kept line is converted and appended in order; a token that is not a number
      makes the whole read fail. */
  method ReadPlotFile(fs: FileSystem, path: string, parse: Parser) returns (r: ReadResult)
    ensures r == ReadSpec(fs, path, parse)
  {
    if path !in fs {
      return Failed(CannotOpen);
    }
    var lines := fs[path];
    var inputNames := Tokenize(HeaderLine(lines));
    var inputNumVars := |inputNames|;
    var body := BodyLines(lines);
    ghost var rows := TokenRows(body);
    ghost var kept := KeptCount(rows, inputNumVars);
    var inputValues: seq<real> := [];
    var k := 0;
    while k < |body|
      invariant k <= kept
      invariant ParseAll(Concat(rows[..k]), parse) == Some(inputValues)
    {
      var rawData := Tokenize(body[k]);
      TokenRowsAt(body, k);
      KeptBound(rows, inputNumVars, k);
      if |rawData| < inputNumVars {
        break;
      }
      var lineValues := ConvertLine(rawData, parse);
      if lineValues.None? {
        var t :| 0 <= t < |rawData| && parse(rawData[t]).None?;
        FailureSpreads(rows, inputNumVars, k, t, parse);
        return Failed(NotANumber);
      }
      RowStep(rows, k, parse);
      inputValues := inputValues + lineValues.value;
      k := k + 1;
    }
    KeptLinesRead(lines, k, parse);
    r := Read(PlotData(inputNames, inputValues));
  }

  /** The inner loop of `readPlotFile`: convert the tokens of one data line in
      order, giving up at the first token that is not a number. */
  method ConvertLine(rawData: seq<string>, parse: Parser) returns (values: Option<seq<real>>)
    ensures values == ParseAll(rawData, parse)
  {
    var lineValues: seq<real> := [];
    var t := 0;
    while t < |rawData|
      invariant 0 <= t <= |rawData|
      invariant ParseAll(rawData[..t], parse) == Some(lineValues)
    {
      var v := parse(rawData[t]);
      if v.None? {
        return None;
      }
      ParseAllStep(rawData, t, parse);
      lineValues := lineValues + [v.value];
      t := t + 1;
    }
    WholePrefix(rawData);
    return Some(lineValues);
  }

  /** Once the kept lines are all converted, the read yields their numbers. */
  lemma KeptLinesRead(lines: seq<string>, k: nat, parse: Parser)
    requires var rows := TokenRows(BodyLines(lines));
             k == KeptCount(rows, |Tokenize(HeaderLine(lines))|) && ParseAll(Concat(rows[..k]), parse).Some?
    ensures var rows := TokenRows(BodyLines(lines));
            ReadLines(lines, parse) == Read(PlotData(Tokenize(HeaderLine(lines)), ParseAll(Concat(rows[..k]), parse).value))
  {
  }

  /** Before the kept count, a line is kept exactly when it is long enough. */
  lemma KeptBound(rows: seq<seq<string>>, n: nat, k: nat)
    requires k <= KeptCount(rows, n) && k < |rows|
    ensures |rows[k]| >= n <==> k < KeptCount(rows, n)
  {
  }

  lemma ParseAllStep(tokens: seq<string>, t: nat, parse: Parser)
    requires t < |tokens|
    requires ParseAll(tokens[..t], parse).Some? && parse(tokens[t]).Some?
    ensures ParseAll(tokens[..t + 1], parse)
         == Some(ParseAll(tokens[..t], parse).value + [parse(tokens[t]).value])
  {
    assert tokens[..t + 1] == tokens[..t] + [tokens[t]];
    assert ParseAll([tokens[t]], parse).value == [parse(tokens[t]).value];
    ParseAllAppend(tokens[..t], [tokens[t]], parse);
  }

  lemma WholePrefix<T>(s: seq<T>)
    ensures s[..|s|] == s
  {
  }

  lemma ParseAllAppend(a: seq<string>, b: seq<string>, parse: Parser)
    requires ParseAll(a, parse).Some? && ParseAll(b, parse).Some?
    ensures ParseAll(a + b, parse) == Some(ParseAll(a, parse).value + ParseAll(b, parse).value)
  {
    var all := a + b;
    var expected := ParseAll(a, parse).value + ParseAll(b, parse).value;
    forall i | 0 <= i < |all| ensures parse(all[i]).Some? && expected[i] == parse(all[i]).value {
      if i < |a| { assert all[i] == a[i]; } else { assert all[i] == b[i - |a|]; }
    }
    assert ParseAll(all, parse).value == expected;
  }

  /** Reading one more whole line extends the values by that line's numbers. */
  lemma RowStep(rows: seq<seq<string>>, k: nat, parse: Parser)
    requires k < |rows|
    requires ParseAll(Concat(rows[..k]), parse).Some? && ParseAll(rows[k], parse).Some?
    ensures ParseAll(Concat(rows[..k + 1]), parse)
         == Some(ParseAll(Concat(rows[..k]), parse).value + ParseAll(rows[k], parse).value)
  {
    assert rows[..k + 1] == rows[..k] + [rows[k]];
    ConcatAppend(rows[..k], [rows[k]]);
    assert Concat([rows[k]]) == rows[k] + Concat([]) == rows[k];
    ParseAllAppend(Concat(rows[..k]), rows[k], parse);
  }

  /** A token of a kept line that is not a number fails the whole read. */
  lemma FailureSpreads(rows: seq<seq<string>>, n: nat, k: nat, t: nat, parse: Parser)
    requires k < KeptCount(rows, n) && t < |rows[k]|
    requires parse(rows[k][t]).None?
    ensures ParseAll(Concat(rows[..KeptCount(rows, n)]), parse).None?
  {
    var kept := rows[..KeptCount(rows, n)];
    SplitAround(kept, k);
    var front, back := kept[..k], kept[k + 1..];
    ConcatAppend(front + [kept[k]], back);
    ConcatAppend(front, [kept[k]]);
    assert Concat([kept[k]]) == kept[k] + Concat([]);
    var all := Concat(kept);
    assert all[|Concat(front)| + t] == rows[k][t];
  }

  lemma SplitAround<T>(s: seq<T>, k: nat)
    requires k < |s|
    ensures s == (s[..k] + [s[k]]) + s[k + 1..]
  {
  }

  /** Lines made only of whitespace have no words, so they read as `[""]`. */
  lemma {:induction false} BlankHasNoWords(line: string)
    requires forall i :: 0 <= i < |line| ==> IsSpace(line[i])
    ensures Words(line) == [] && Tokenize(line) == [""]
    decreases |line|
  {
    if line != [] {
      BlankHasNoWords(line[1..]);
    }
  }

  /** With at least two names in the header, a blank data line ends the reading. */
  lemma BlankLineEndsRead(lines: seq<string>, k: nat)
    requires |Tokenize(HeaderLine(lines))| >= 2
    requires k < |BodyLines(lines)|
    requires forall i :: 0 <= i < |BodyLines(lines)[k]| ==> IsSpace(BodyLines(lines)[k][i])
    ensures KeptCount(TokenRows(BodyLines(lines)), |Tokenize(HeaderLine(lines))|) <= k
  {
    BlankHasNoWords(BodyLines(lines)[k]);
    TokenRowsAt(BodyLines(lines), k);
  }

  lemma {:induction false} TokenRowsAppend(a: seq<string>, b: seq<string>)
    ensures TokenRows(a + b) == TokenRows(a) + TokenRows(b)
    decreases |a|
  {
    if a == [] {
      assert a + b == b;
    } else {
      assert (a + b)[1..] == a[1..] + b;
      TokenRowsAppend(a[1..], b);
    }
  }

  lemma {:induction false} KeptCountAppend(rows: seq<seq<string>>, more: seq<seq<string>>, n: nat)
    requires KeptCount(rows, n) < |rows|
    ensures KeptCount(rows + more, n) == KeptCount(rows, n)
    decreases |rows|
  {
    if |rows[0]| >= n {
      assert (rows + more)[1..] == rows[1..] + more;
      KeptCountAppend(rows[1..], more, n);
    }
  }

  /** Everything after the first short data line (the explicit-trajectory section)
      is ignored: appending lines to such a file does not change what is read. */
  lemma TrailingLinesIgnored(lines: seq<string>, more: seq<string>, parse: Parser)
    requires KeptCount(TokenRows(BodyLines(lines)), |Tokenize(HeaderLine(lines))|) < |BodyLines(lines)|
    ensures ReadLines(lines + more, parse) == ReadLines(lines, parse)
  {
    var n := |Tokenize(HeaderLine(lines))|;
    assert HeaderLine(lines + more) == HeaderLine(lines);
    assert BodyLines(lines + more) == BodyLines(lines) + more;
    TokenRowsAppend(BodyLines(lines), more);
    KeptCountAppend(TokenRows(BodyLines(lines)), TokenRows(more), n);
    var rows := TokenRows(BodyLines(lines));
    var k := KeptCount(rows, n);
    assert (rows + TokenRows(more))[..k] == rows[..k];
  }

  lemma {:induction false} ConcatRectangular(rows: seq<seq<string>>, n: nat)
    requires forall i :: 0 <= i < |rows| ==> |rows[i]| == n
    ensures |Concat(rows)| == n * |rows|
    decreases |rows|
  {
    if rows != [] {
      ConcatRectangular(rows[1..], n);
    }
  }

  /** A successful read holds one number per kept token; when every kept line has
      exactly one token per name, that is one full row of values per kept line. */
  lemma ReadValueCount(lines: seq<string>, parse: Parser)
    requires ReadLines(lines, parse).Read?
    ensures var names := Tokenize(HeaderLine(lines));
            var rows := TokenRows(BodyLines(lines));
            var kept := KeptCount(rows, |names|);
            var values := ReadLines(lines, parse).data.values;
            && ReadLines(lines, parse).data.names == names
            && |values| == |Concat(rows[..kept])|
            && ((forall i :: 0 <= i < kept ==> |rows[i]| == |names|) ==> |values| == |names| * kept)
  {
    var names := Tokenize(HeaderLine(lines));
    var rows := TokenRows(BodyLines(lines));
    var kept := KeptCount(rows, |names|);
    if forall i :: 0 <= i < kept ==> |rows[i]| == |names| {
      ConcatRectangular(rows[..kept], |names|);
    }
  }

  /** A header of three names and data lines `0 0 0`, `1 100 50`, `2`: the third
      data line is short, so reading stops there and two rows are kept. */
  lemma ReadExample(parse: Parser)
    ensures var lines := ["TIME ALT VEL", "", "0 0 0", "1 100 50", "2"];
            var rows := TokenRows(BodyLines(lines));
            && Tokenize(HeaderLine(lines)) == ["TIME", "ALT", "VEL"]
            && KeptCount(rows, 3) == 2
            && Concat(rows[..2]) == ["0", "0", "0", "1", "100", "50"]
  {
    var lines := ["TIME ALT VEL", "", "0 0 0", "1 100 50", "2"];
    var first, second, third := ["0", "0", "0"], ["1", "100", "50"], ["2"];
    ExampleTokens();
    var body := BodyLines(lines);
    assert body == ["0 0 0", "1 100 50", "2"];
    TokenRowsAt(body, 0);
    TokenRowsAt(body, 1);
    TokenRowsAt(body, 2);
    var rows := TokenRows(body);
    assert rows == [first, second, third];
    assert rows[1..][1..] == [third];
    assert rows[..2] == [first, second];
    ExampleConcat();
  }

  /** The tokens of the example's lines. */
  lemma ExampleTokens()
    ensures Tokenize("TIME ALT VEL") == ["TIME", "ALT", "VEL"]
    ensures Tokenize("0 0 0") == ["0", "0", "0"]
    ensures Tokenize("1 100 50") == ["1", "100", "50"]
    ensures Tokenize("2") == ["2"]
  {
    ExampleLines();
    TokensOf(["TIME", "ALT", "VEL"]);
    TokensOf(["0", "0", "0"]);
    TokensOf(["1", "100", "50"]);
    TokensOf(["2"]);
  }

  lemma ExampleConcat()
    ensures Concat([["0", "0", "0"], ["1", "100", "50"]]) == ["0", "0", "0", "1", "100", "50"]
  {
    var first, second := ["0", "0", "0"], ["1", "100", "50"];
    assert [first, second][1..] == [second];
    assert Concat([first, second]) == first + Concat([second]);
    assert Concat([second]) == second + Concat([]);
    assert first + second == ["0", "0", "0", "1", "100", "50"];
  }

  /** The lines of the example, spelled as single-space joins of their words. */
  lemma ExampleLines()
    ensures "TIME ALT VEL" == JoinSpace(["TIME", "ALT", "VEL"])
    ensures "0 0 0" == JoinSpace(["0", "0", "0"])
    ensures "1 100 50" == JoinSpace(["1", "100", "50"])
    ensures "2" == JoinSpace(["2"])
  {
    JoinThree("TIME", "ALT", "VEL");
    JoinThree("0", "0", "0");
    JoinThree("1", "100", "50");
  }

  lemma JoinThree(a: string, b: string, c: string)
    ensures JoinSpace([a, b, c]) == a + " " + b + " " + c
  {
    assert [a, b, c][1..] == [b, c] && [b, c][1..] == [c];
    assert JoinSpace([b, c]) == b + " " + JoinSpace([c]) == b + " " + c;
  }

  /** Plain words written with single spaces tokenise back into those words. */
  lemma TokensOf(ws: seq<string>)
    requires ws != []
    requires forall w :: w in ws ==> w != [] && NoSpace(w)
    ensures Tokenize(JoinSpace(ws)) == ws
  {
    WordsOfJoin(ws);
  }
}
