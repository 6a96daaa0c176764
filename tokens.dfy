/** The Python string operations the plotting tool is built from: `str.split()` on
    whitespace runs, `str.split(" ")` on single spaces, `" ".join(...)`, ASCII
    `lower()`/`upper()` and the slice `s[:n]`.  Text is a `string` (`seq<char>`). */
module Tokens {
  import opened Base

  /** Python's `str.isspace()` for one character: the characters that `str.split()`
      with no argument splits on. */
  predicate IsSpace(c: char) {
    || c == ' '
    || ('\t' <= c <= '\r')
    || ('\U{1C}' <= c <= '\U{1F}')
    || c == '\U{85}' || c == '\U{A0}' || c == '\U{1680}'
    || ('\U{2000}' <= c <= '\U{200A}')
    || c == '\U{2028}' || c == '\U{2029}' || c == '\U{202F}' || c == '\U{205F}' || c == '\U{3000}'
  }

  predicate NoSpace(w: string) {
    forall i :: 0 <= i < |w| ==> !IsSpace(w[i])
  }

  /** Length of the run of non-space characters that starts `s`. */
  function WordEnd(s: string): (n: nat)
    ensures n <= |s|
  {
    if s == [] || IsSpace(s[0]) then 0 else WordEnd(s[1..]) + 1
  }

  /** The run measured by `WordEnd` is maximal: no space inside, a space (or the
      end of `s`) right after it. */
  lemma {:induction false} WordEndIsMaximal(s: string)
    ensures NoSpace(s[..WordEnd(s)])
    ensures WordEnd(s) < |s| ==> IsSpace(s[WordEnd(s)])
    ensures s != [] && !IsSpace(s[0]) ==> WordEnd(s) >= 1
    decreases |s|
  {
    if s != [] && !IsSpace(s[0]) {
      var n := WordEnd(s[1..]);
      WordEndIsMaximal(s[1..]);
      assert s[..n + 1] == [s[0]] + s[1..][..n];
    }
  }

  /** `s.split()`: the maximal runs of non-space characters of `s`, in order. */
  function Words(s: string): (ws: seq<string>)
    decreases |s|
  {
    if s == [] then []
    else if IsSpace(s[0]) then Words(s[1..])
    else
      var n := WordEnd(s);
      [s[..n]] + Words(s[n..])
  }

  /** Every word is a nonempty run of non-space characters. */
  lemma {:induction false} WordsAreWords(s: string)
    ensures forall w :: w in Words(s) ==> w != [] && NoSpace(w)
    decreases |s|
  {
    if s != [] {
      if IsSpace(s[0]) {
        WordsAreWords(s[1..]);
      } else {
        WordEndIsMaximal(s);
        WordsAreWords(s[WordEnd(s)..]);
      }
    }
  }

  /** Independent reading of `Words`: the characters of `s` that are not spaces. */
  function NonSpace(s: string): string {
    if s == [] then []
    else (if IsSpace(s[0]) then [] else [s[0]]) + NonSpace(s[1..])
  }

  lemma NoSpaceIsNonSpace(w: string)
    requires NoSpace(w)
    ensures NonSpace(w) == w
  {
    if w != [] {
      NoSpaceIsNonSpace(w[1..]);
    }
  }

  lemma {:induction false} NonSpaceAppend(a: string, b: string)
    ensures NonSpace(a + b) == NonSpace(a) + NonSpace(b)
  {
    if a != [] {
      assert (a + b)[1..] == a[1..] + b;
      NonSpaceAppend(a[1..], b);
    } else {
      assert a + b == b;
    }
  }

  /** Splitting on whitespace loses exactly the whitespace: the words, glued
      together, are the non-space characters of the line in order. */
  lemma {:induction false} WordsKeepNonSpace(s: string)
    ensures Concat(Words(s)) == NonSpace(s)
    decreases |s|
  {
    if s == [] {
    } else if IsSpace(s[0]) {
      WordsKeepNonSpace(s[1..]);
    } else {
      var n := WordEnd(s);
      WordEndIsMaximal(s);
      assert s == s[..n] + s[n..];
      WordsKeepNonSpace(s[n..]);
      NoSpaceIsNonSpace(s[..n]);
      NonSpaceAppend(s[..n], s[n..]);
      assert Words(s) == [s[..n]] + Words(s[n..]);
      assert Concat(Words(s)) == s[..n] + Concat(Words(s[n..]));
    }
  }

  /** `" ".join(ws)`. */
  function JoinSpace(ws: seq<string>): string {
    if ws == [] then ""
    else if |ws| == 1 then ws[0]
    else ws[0] + " " + JoinSpace(ws[1..])
  }

  /** `s.split(" ")`: every single space separates two pieces, so consecutive
      spaces give empty pieces and the empty string gives `[""]`. */
  function SplitOnSpace(s: string): (parts: seq<string>)
    ensures |parts| >= 1
    decreases |s|
  {
    if s == [] then [""]
    else
      var rest := SplitOnSpace(s[1..]);
      if s[0] == ' ' then [""] + rest
      else [[s[0]] + rest[0]] + rest[1..]
  }

  /** Joining the pieces with single spaces gives back the line. */
  lemma {:induction false} JoinSplit(s: string)
    ensures JoinSpace(SplitOnSpace(s)) == s
    decreases |s|
  {
    if s != [] {
      var rest := SplitOnSpace(s[1..]);
      JoinSplit(s[1..]);
      if s[0] == ' ' {
        assert SplitOnSpace(s) == [""] + rest;
        JoinAfterEmpty(rest);
      } else {
        JoinGlued(s[0], rest);
      }
      assert s == [s[0]] + s[1..];
    }
  }

  /** An empty first piece contributes only its separating space. */
  lemma JoinAfterEmpty(rest: seq<string>)
    requires rest != []
    ensures JoinSpace([""] + rest) == " " + JoinSpace(rest)
  {
    assert ([""] + rest)[1..] == rest;
  }

  /** A character glued to the first piece is glued to the front of the join. */
  lemma JoinGlued(c: char, rest: seq<string>)
    requires rest != []
    ensures JoinSpace([[c] + rest[0]] + rest[1..]) == [c] + JoinSpace(rest)
  {
    var parts := [[c] + rest[0]] + rest[1..];
    assert parts[1..] == rest[1..];
    if |rest| > 1 {
      assert JoinSpace(parts) == [c] + rest[0] + " " + JoinSpace(rest[1..]);
    }
  }

  lemma {:induction false} SplitNoSpace(w: string)
    requires ' ' !in w
    ensures SplitOnSpace(w) == [w]
    decreases |w|
  {
    if w != [] {
      assert forall c :: c in w[1..] ==> c in w;
      SplitNoSpace(w[1..]);
      assert [w[0]] + w[1..] == w;
    }
  }

  lemma {:induction false} SplitAfterWord(w: string, rest: string)
    requires ' ' !in w
    ensures SplitOnSpace(w + " " + rest) == [w] + SplitOnSpace(rest)
    decreases |w|
  {
    var s := w + " " + rest;
    if w == [] {
      assert s == " " + rest;
      assert s[1..] == rest;
    } else {
      assert s[1..] == w[1..] + " " + rest;
      assert forall c :: c in w[1..] ==> c in w;
      SplitAfterWord(w[1..], rest);
      assert [w[0]] + w[1..] == w;
    }
  }

  /** The other round trip: splitting a join of space-free pieces gives them back. */
  lemma {:induction false} SplitJoin(ws: seq<string>)
    requires ws != []
    requires forall w :: w in ws ==> ' ' !in w
    ensures SplitOnSpace(JoinSpace(ws)) == ws
    decreases |ws|
  {
    if |ws| == 1 {
      SplitNoSpace(ws[0]);
    } else {
      assert forall w :: w in ws[1..] ==> w in ws;
      SplitJoin(ws[1..]);
      SplitAfterWord(ws[0], JoinSpace(ws[1..]));
      assert ws == [ws[0]] + ws[1..];
    }
  }

  lemma WordsSplitBack(ws: seq<string>)
    requires forall w :: w in ws ==> w != [] && NoSpace(w)
    ensures SplitOnSpace(JoinSpace(ws)) == if ws == [] then [""] else ws
  {
    if ws != [] {
      forall w | w in ws ensures ' ' !in w {
        assert IsSpace(' ');
      }
      SplitJoin(ws);
    }
  }

  /** A run of non-space characters followed by a space (or nothing) is one word. */
  lemma {:induction false} WordEndOfWord(w: string, rest: string)
    requires NoSpace(w)
    requires rest == [] || IsSpace(rest[0])
    ensures WordEnd(w + rest) == |w|
    decreases |w|
  {
    if w == [] {
      assert w + rest == rest;
    } else {
      assert (w + rest)[1..] == w[1..] + rest;
      WordEndOfWord(w[1..], rest);
    }
  }

  /** Words joined with single spaces split back into those words. */
  lemma {:induction false} WordsOfJoin(ws: seq<string>)
    requires forall w :: w in ws ==> w != [] && NoSpace(w)
    ensures Words(JoinSpace(ws)) == ws
    decreases |ws|
  {
    if ws != [] {
      var w := ws[0];
      if |ws| == 1 {
        WordEndOfWord(w, []);
        assert w + [] == w;
        assert w[|w|..] == [];
      } else {
        var rest := JoinSpace(ws[1..]);
        assert forall v :: v in ws[1..] ==> v in ws;
        WordsOfJoin(ws[1..]);
        var s := w + " " + rest;
        WordEndOfWord(w, " " + rest);
        assert s == w + (" " + rest);
        assert s[..|w|] == w && s[|w|..] == " " + rest;
        assert (" " + rest)[1..] == rest;
      }
    }
  }

  /** The tokeniser of the plot-file reader: the whitespace-separated words of the
      line, except that a line with no word gives the single empty token `[""]`,
      never `[]`. */
  function Tokenize(line: string): (tokens: seq<string>)
    ensures |tokens| >= 1
  {
    var ws := Words(line);
    if ws == [] then [""] else ws
  }

  /** `Tokenize` is the reader's expression `(' '.join(line.split())).split(" ")`:
      re-splitting the joined words on single spaces gives the words back. */
  lemma TokenizeIsSplitOfJoin(line: string)
    ensures Tokenize(line) == SplitOnSpace(JoinSpace(Words(line)))
  {
    WordsAreWords(line);
    WordsSplitBack(Words(line));
  }

  function LowerChar(c: char): char {
    if 'A' <= c <= 'Z' then (c as int + 32) as char else c
  }

  function UpperChar(c: char): char {
    if 'a' <= c <= 'z' then (c as int - 32) as char else c
  }

  /** `s.lower()` on ASCII letters. */
  function Lower(s: string): string {
    seq(|s|, i requires 0 <= i < |s| => LowerChar(s[i]))
  }

  /** `s.upper()` on ASCII letters. */
  function Upper(s: string): string {
    seq(|s|, i requires 0 <= i < |s| => UpperChar(s[i]))
  }

  /** The slice `s[:n]`: the whole string when it is shorter than `n`. */
  function Take(s: string, n: nat): string {
    if |s| <= n then s else s[..n]
  }

  /** `word.lower()[0:|key|] == key`, tested character by character. */
  predicate LowerStartsWith(word: string, key: string)
    decreases |key|
  {
    key == [] || (word != [] && LowerChar(word[0]) == key[0] && LowerStartsWith(word[1..], key[1..]))
  }

  /** `word.upper()[0:|key|] == key`, tested character by character. */
  predicate UpperStartsWith(word: string, key: string)
    decreases |key|
  {
    key == [] || (word != [] && UpperChar(word[0]) == key[0] && UpperStartsWith(word[1..], key[1..]))
  }

  /** `word.lower() == key`. */
  predicate LowerEquals(word: string, key: string) {
    |word| == |key| && LowerStartsWith(word, key)
  }

  lemma {:induction false} LowerStartsWithIsSlice(word: string, key: string)
    ensures LowerStartsWith(word, key) <==> Take(Lower(word), |key|) == key
    decreases |key|
  {
    if key != [] && word != [] {
      LowerStartsWithIsSlice(word[1..], key[1..]);
      var lw := Lower(word);
      assert Lower(word[1..]) == lw[1..];
      if |word| <= |key| {
        assert Take(lw, |key|) == lw;
        assert Take(lw[1..], |key| - 1) == lw[1..];
      } else {
        assert Take(lw[1..], |key| - 1) == lw[1..][..|key| - 1] == lw[1..|key|];
      }
      assert Take(lw, |key|) == [lw[0]] + Take(lw[1..], |key| - 1);
    }
  }

  lemma {:induction false} UpperStartsWithIsSlice(word: string, key: string)
    ensures UpperStartsWith(word, key) <==> Take(Upper(word), |key|) == key
    decreases |key|
  {
    if key != [] && word != [] {
      UpperStartsWithIsSlice(word[1..], key[1..]);
      var uw := Upper(word);
      assert Upper(word[1..]) == uw[1..];
      if |word| <= |key| {
        assert Take(uw, |key|) == uw;
        assert Take(uw[1..], |key| - 1) == uw[1..];
      } else {
        assert Take(uw[1..], |key| - 1) == uw[1..][..|key| - 1] == uw[1..|key|];
      }
      assert Take(uw, |key|) == [uw[0]] + Take(uw[1..], |key| - 1);
    }
  }

  lemma LowerEqualsIsLower(word: string, key: string)
    ensures LowerEquals(word, key) <==> Lower(word) == key
  {
    LowerStartsWithIsSlice(word, key);
    if |word| == |key| {
      assert Take(Lower(word), |key|) == Lower(word);
    }
  }

  lemma {:induction false} LowerStartsWithChars(word: string, key: string)
    ensures LowerStartsWith(word, key) <==>
              |word| >= |key| && forall i :: 0 <= i < |key| ==> LowerChar(word[i]) == key[i]
    decreases |key|
  {
    if key != [] && word != [] {
      LowerStartsWithChars(word[1..], key[1..]);
      assert forall i :: 1 <= i < |key| && i < |word| ==> word[1..][i - 1] == word[i] && key[1..][i - 1] == key[i];
    }
  }

  lemma {:induction false} UpperStartsWithChars(word: string, key: string)
    ensures UpperStartsWith(word, key) <==>
              |word| >= |key| && forall i :: 0 <= i < |key| ==> UpperChar(word[i]) == key[i]
    decreases |key|
  {
    if key != [] && word != [] {
      UpperStartsWithChars(word[1..], key[1..]);
      assert forall i :: 1 <= i < |key| && i < |word| ==> word[1..][i - 1] == word[i] && key[1..][i - 1] == key[i];
    }
  }
}
