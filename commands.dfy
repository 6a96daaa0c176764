/** The command lines of a scripted session and the cancellation keyword.  A command
    line is split on single spaces (`line.split(" ")`), not on whitespace runs, so a
    doubled space yields an empty token. */
module Commands {
  import opened Tokens

  /** `done(trigger)`: the cancellation test, true when the upper-cased first four
      characters spell `QUIT`. */
  function Done(trigger: string): (quit: bool)
    ensures quit <==> |trigger| >= 4 && trigger[0] in "qQ" && trigger[1] in "uU"
                      && trigger[2] in "iI" && trigger[3] in "tT"
  {
    UpperStartsWithChars(trigger, "QUIT");
    UpperStartsWith(trigger, "QUIT")
  }

  /** `Done` is the source's test `trigger.upper()[:4] == "QUIT"`. */
  lemma DoneIsUpperSlice(trigger: string)
    ensures Done(trigger) <==> Take(Upper(trigger), 4) == "QUIT"
  {
    UpperStartsWithIsSlice(trigger, "QUIT");
  }

  lemma DoneExamples()
    ensures Done("Quit") && Done("QUIT!!") && Done("quitter")
    ensures !Done("qui") && !Done("") && !Done("exit")
  {
  }

  /** What the loading phase makes of the line at the head of the queue. */
  datatype LoadCommand =
    | InputFile(path: string, legend: string)  // `inputfile <path> [<legend>]`
    | OutputFile(path: string)                 // `outputfile <path>`, path not empty
    | OutputFileEmptyPath                      // `outputfile` whose path token is empty
    | PlotHead                                 // a `plot` line: loading is over
    | MissingArgument                          // keyword alone: `localCommands[1]` fails
    | UnknownKeyword(keyword: string)          // anything else: the run is aborted

  /** The three keyword tests of the loading phase: case-insensitive PREFIX tests on
      the first token (`inputfileX` is an `inputfile` line).  Token 1 is the path and
      token 2, when present, the legend; later tokens are ignored. */
  function ParseLoadCommand(line: string): (c: LoadCommand)
    ensures c.InputFile? || c.OutputFile? ==> ' ' !in c.path
    ensures c.InputFile? ==> ' ' !in c.legend
    ensures c.OutputFile? ==> c.path != ""
  {
    var tokens := SplitOnSpace(line);
    SplitPiecesHaveNoSpace(line);
    if LowerStartsWith(tokens[0], "inputfile") then
      if |tokens| < 2 then MissingArgument
      else InputFile(tokens[1], if |tokens| > 2 then tokens[2] else "")
    else if LowerStartsWith(tokens[0], "outputfile") then
      if |tokens| < 2 then MissingArgument
      else if |tokens[1]| > 0 then OutputFile(tokens[1])
      else OutputFileEmptyPath
    else if LowerStartsWith(tokens[0], "plot") then PlotHead
    else UnknownKeyword(tokens[0])
  }

  lemma {:induction false} SplitPiecesHaveNoSpace(line: string)
    ensures forall piece :: piece in SplitOnSpace(line) ==> ' ' !in piece
    decreases |line|
  {
    if line != [] {
      SplitPiecesHaveNoSpace(line[1..]);
    }
  }

  /** A line written as `<keyword> <path> <legend> ...` with a keyword that starts,
      in any case, with `inputfile` loads `path` under `legend`. */
  lemma {:induction false} InputFileLine(keyword: string, path: string, legend: string, more: seq<string>)
    requires Take(Lower(keyword), 9) == "inputfile"
    requires ' ' !in keyword && ' ' !in path && ' ' !in legend
    requires forall w :: w in more ==> ' ' !in w
    ensures ParseLoadCommand(JoinSpace([keyword, path, legend] + more)) == InputFile(path, legend)
  {
    var ws := [keyword, path, legend] + more;
    SplitJoin(ws);
    LowerStartsWithIsSlice(keyword, "inputfile");
  }

  /** Without a legend token the legend is empty. */
  lemma {:induction false} InputFileLineNoLegend(keyword: string, path: string)
    requires Take(Lower(keyword), 9) == "inputfile"
    requires ' ' !in keyword && ' ' !in path
    ensures ParseLoadCommand(JoinSpace([keyword, path])) == InputFile(path, "")
  {
    SplitJoin([keyword, path]);
    LowerStartsWithIsSlice(keyword, "inputfile");
  }

  /** A line written as `<keyword> <path> ...` with a keyword that starts, in any
      case, with `outputfile` sets the output path, or is the line with an empty
      path token when `path` is empty (the keyword followed by a space and nothing
      else, or by two spaces). */
  lemma {:induction false} OutputFileLine(keyword: string, path: string, more: seq<string>)
    requires Take(Lower(keyword), 10) == "outputfile"
    requires ' ' !in keyword && ' ' !in path
    requires forall w :: w in more ==> ' ' !in w
    ensures ParseLoadCommand(JoinSpace([keyword, path] + more))
         == if path == "" then OutputFileEmptyPath else OutputFile(path)
  {
    var ws := [keyword, path] + more;
    SplitJoin(ws);
    LowerStartsWithIsSlice(keyword, "outputfile");
    LowerStartsWithChars(keyword, "outputfile");
    LowerStartsWithChars(keyword, "inputfile");
    assert "outputfile"[0] == 'o' && "inputfile"[0] == 'i';
  }

  /** A line whose first word starts, in any case, with `plot` ends loading. */
  lemma {:induction false} PlotKeywordLine(keyword: string, more: seq<string>)
    requires Take(Lower(keyword), 4) == "plot"
    requires ' ' !in keyword
    requires forall w :: w in more ==> ' ' !in w
    ensures ParseLoadCommand(JoinSpace([keyword] + more)) == PlotHead
  {
    var ws := [keyword] + more;
    SplitJoin(ws);
    LowerStartsWithIsSlice(keyword, "plot");
    LowerStartsWithChars(keyword, "plot");
    LowerStartsWithChars(keyword, "outputfile");
    LowerStartsWithChars(keyword, "inputfile");
    assert "plot"[0] == 'p' && "outputfile"[0] == 'o' && "inputfile"[0] == 'i';
  }

  /** A line whose first word starts with none of the three keywords, in any case,
      names that word as an invalid keyword. */
  lemma {:induction false} UnknownKeywordLine(keyword: string, more: seq<string>)
    requires Take(Lower(keyword), 9) != "inputfile" && Take(Lower(keyword), 10) != "outputfile"
    requires Take(Lower(keyword), 4) != "plot"
    requires ' ' !in keyword
    requires forall w :: w in more ==> ' ' !in w
    ensures ParseLoadCommand(JoinSpace([keyword] + more)) == UnknownKeyword(keyword)
  {
    var ws := [keyword] + more;
    SplitJoin(ws);
    LowerStartsWithIsSlice(keyword, "inputfile");
    LowerStartsWithIsSlice(keyword, "outputfile");
    LowerStartsWithIsSlice(keyword, "plot");
  }

  /** An `inputfile` or `outputfile` keyword alone on its line has no path token. */
  lemma {:induction false} KeywordAloneLine(keyword: string)
    requires Take(Lower(keyword), 9) == "inputfile" || Take(Lower(keyword), 10) == "outputfile"
    requires ' ' !in keyword
    ensures ParseLoadCommand(keyword) == MissingArgument
  {
    SplitJoin([keyword]);
    assert JoinSpace([keyword]) == keyword;
    LowerStartsWithIsSlice(keyword, "inputfile");
    LowerStartsWithIsSlice(keyword, "outputfile");
  }

  /** A `plot` line with fewer than an x and a y asks for no pair to draw. */
  lemma {:induction false} PlotWithoutPairs(keyword: string, more: seq<string>)
    requires Lower(keyword) == "plot" && |more| <= 1
    requires ' ' !in keyword
    requires forall w :: w in more ==> ' ' !in w
    ensures ParsePlotCommand(JoinSpace([keyword] + more)) == NoPairs
  {
    var ws := [keyword] + more;
    SplitJoin(ws);
    LowerEqualsIsLower(keyword, "plot");
  }

  /** An `inputfile` line met by the plotting phase is not a `plot` request. */
  lemma {:induction false} InputFileIsNotPlot(keyword: string, more: seq<string>)
    requires Take(Lower(keyword), 9) == "inputfile"
    requires ' ' !in keyword
    requires forall w :: w in more ==> ' ' !in w
    ensures ParsePlotCommand(JoinSpace([keyword] + more)) == NotPlot
  {
    var ws := [keyword] + more;
    SplitJoin(ws);
    LowerStartsWithIsSlice(keyword, "inputfile");
    LowerStartsWithChars(keyword, "inputfile");
    LowerStartsWithChars(keyword, "plot");
    assert "plot"[0] == 'p' && "inputfile"[0] == 'i';
  }

  /** The plot request of one `plot <x> <y1> [<y2> ...]` line. */
  datatype PlotRequest = PlotRequest(x: string, ys: seq<string>)

  datatype PlotCommand =
    | Plot(request: PlotRequest)
    | NotPlot   // first token is not exactly `plot` (any case): the run is aborted
    | NoPairs   // `plot` with fewer than two names: the run is aborted

  /** The plotting phase's reading of a line: the first token must EQUAL `plot` in
      any case, and at least an x and one y must follow.  Every token after the x is
      a y, so the figure gets one subplot per token after the second. */
  function ParsePlotCommand(line: string): (c: PlotCommand)
    ensures c.Plot? ==> |c.request.ys| >= 1
  {
    var tokens := SplitOnSpace(line);
    if !LowerEquals(tokens[0], "plot") then NotPlot
    else if |tokens| < 3 then NoPairs
    else Plot(PlotRequest(tokens[1], tokens[2..]))
  }

  /** A line is a `plot` request exactly when its first token is `plot` in any case
      and at least two more tokens follow; the request is those tokens, and every
      token after the x is a y. */
  lemma ParsePlotCommandSpec(line: string)
    ensures var c := ParsePlotCommand(line);
            && (c.Plot? <==> LowerEquals(SplitOnSpace(line)[0], "plot") && |SplitOnSpace(line)| >= 3)
            && (c.Plot? ==> |c.request.ys| == |SplitOnSpace(line)| - 2)
            && (c.Plot? ==> line == JoinSpace([SplitOnSpace(line)[0], c.request.x] + c.request.ys))
  {
    var tokens := SplitOnSpace(line);
    JoinSplit(line);
    if ParsePlotCommand(line).Plot? {
      assert tokens == [tokens[0], tokens[1]] + tokens[2..];
    }
  }

  /** A `plot` line spelled out from its names reads back as those names. */
  lemma {:induction false} PlotLineRoundTrip(keyword: string, x: string, ys: seq<string>)
    requires Lower(keyword) == "plot"
    requires ys != []
    requires ' ' !in keyword && ' ' !in x && forall y :: y in ys ==> ' ' !in y
    ensures ParsePlotCommand(JoinSpace([keyword, x] + ys)) == Plot(PlotRequest(x, ys))
  {
    var ws := [keyword, x] + ys;
    SplitJoin(ws);
    assert ws[2..] == ys;
    LowerEqualsIsLower(keyword, "plot");
  }

  /** The loading phase tests `plot` as a prefix, the plotting phase as a whole
      token: a `plotting` line ends loading and then aborts the run. */
  lemma PrefixVersusExactKeyword()
    ensures ParseLoadCommand("plotting A B") == PlotHead
    ensures ParsePlotCommand("plotting A B") == NotPlot
  {
    var words := ["plotting", "A", "B"];
    assert words[1..] == ["A", "B"] && ["A", "B"][1..] == ["B"];
    assert JoinSpace(["A", "B"]) == "A B";
    assert JoinSpace(words) == "plotting A B";
    assert forall w :: w in words ==> ' ' !in w;
    SplitJoin(words);
    LowerStartsWithChars("plotting", "inputfile");
    LowerStartsWithChars("plotting", "outputfile");
    LowerStartsWithChars("plotting", "plot");
    assert LowerChar('p') == 'p' != 'i';
    assert LowerChar('p') == 'p' != 'o';
    assert forall i :: 0 <= i < 4 ==> LowerChar("plotting"[i]) == "plot"[i];
  }
}
