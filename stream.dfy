/**
 * The streamed-response consumer as a specification: what processing a
 * sequence of newline-delimited JSON lines, and a sequence of decoded chunks,
 * does to the accumulated text, the token count and the "done" flag.
 */
module Stream {
  import opened Wrappers
  import opened Text
  import opened Values

  /** What a line parses to: the `response` field when it is a string, and the truthiness of `done`. */
  datatype Fragment = Fragment(response: Option<string>, done: bool)

  /** `JSON.parse` on one line, as seen by the consumer: None when it throws. */
  type Parser = string -> Option<Fragment>

  /** `if (data.response)`: a present, non-empty text piece. */
  predicate HasText(f: Fragment): (r: bool)
    ensures r <==> f.response.Some? && Truthy(Str(f.response.value))
  {
    f.response.Some? && f.response.value != ""
  }

  /** The line parses and its `done` flag is truthy. */
  predicate IsDone(parse: Parser, line: string) {
    parse(line).Some? && parse(line).value.done
  }

  /** The consumer's state: the accumulated response, the token count and whether a
      `done` fragment has ended the stream. */
  datatype ConsumerState = ConsumerState(accumulated: string, tokenCount: nat, finished: bool)

  /** The body of the inner loop for one line: once finished nothing changes; otherwise
      the line finishes the stream exactly when it is `done`, a line that does not parse
      is skipped, and a token is counted exactly when some text is appended. */
  function Step(parse: Parser, st: ConsumerState, line: string): (r: ConsumerState)
    ensures st.finished || parse(line).None? ==> r == st
    ensures !st.finished ==> r.finished == IsDone(parse, line)
    ensures st.accumulated <= r.accumulated
    ensures r.tokenCount == st.tokenCount || r.tokenCount == st.tokenCount + 1
    ensures r.tokenCount == st.tokenCount <==> r.accumulated == st.accumulated
  {
    if st.finished then st
    else
      match parse(line)
      case None => st
      case Some(f) =>
        var fed := if HasText(f)
                   then st.(accumulated := st.accumulated + f.response.value, tokenCount := st.tokenCount + 1)
                   else st;
        fed.(finished := f.done)
  }

  /** The inner loop over the lines of one chunk: at most one token per line, each
      token adds at least one character, and a finished stream stays finished. */
  function FoldLines(parse: Parser, st: ConsumerState, lines: seq<string>): (r: ConsumerState)
    ensures st.tokenCount <= r.tokenCount <= st.tokenCount + |lines|
    ensures |st.accumulated| + (r.tokenCount - st.tokenCount) <= |r.accumulated|
    ensures st.finished ==> r.finished
    decreases |lines|
  {
    if |lines| == 0 then st else FoldLines(parse, Step(parse, st, lines[0]), lines[1..])
  }

  /** The outer loop over the chunks the reader delivers, each split on its own: the
      count never drops, each token adds at least one character, and a finished
      stream stays finished. */
  function FoldChunks(parse: Parser, st: ConsumerState, chunks: seq<string>): (r: ConsumerState)
    ensures st.tokenCount <= r.tokenCount
    ensures |st.accumulated| + (r.tokenCount - st.tokenCount) <= |r.accumulated|
    ensures st.finished ==> r.finished
    decreases |chunks|
  {
    if |chunks| == 0 then st
    else FoldChunks(parse, FoldLines(parse, st, NonBlankLines(chunks[0])), chunks[1..])
  }

  // ----- An independent description of what the loop computes -----

  /** Some line parses with a truthy `done`. */
  predicate AnyDone(parse: Parser, lines: seq<string>) {
    exists i :: 0 <= i < |lines| && IsDone(parse, lines[i])
  }

  /** The lines the consumer looks at: everything up to and including the first `done` line. */
  function Processed(parse: Parser, lines: seq<string>): (r: seq<string>)
    ensures |r| <= |lines| && r == lines[..|r|]
    ensures forall i :: 0 <= i < |r| - 1 ==> !IsDone(parse, r[i])
    ensures |r| < |lines| ==> |r| > 0 && IsDone(parse, r[|r| - 1])
    ensures AnyDone(parse, lines) <==> |r| > 0 && IsDone(parse, r[|r| - 1])
    decreases |lines|
  {
    if |lines| == 0 then []
    else if IsDone(parse, lines[0]) then [lines[0]]
    else
      var rest := Processed(parse, lines[1..]);
      AnyDoneAfterFirst(parse, lines);
      [lines[0]] + rest
  }

  /** The text pieces of the lines that parse with a non-empty `response`, in order. */
  function Texts(parse: Parser, lines: seq<string>): (r: seq<string>)
    ensures |r| <= |lines|
    ensures forall i :: 0 <= i < |r| ==> r[i] != ""
    decreases |lines|
  {
    if |lines| == 0 then []
    else if parse(lines[0]).Some? && HasText(parse(lines[0]).value)
    then [parse(lines[0]).value.response.value] + Texts(parse, lines[1..])
    else Texts(parse, lines[1..])
  }

  // ----- Lemmas -----

  /** Once finished, nothing changes the state any more. */
  lemma {:induction false} FoldLinesFinished(parse: Parser, st: ConsumerState, lines: seq<string>)
    requires st.finished
    ensures FoldLines(parse, st, lines) == st
    decreases |lines|
  {
    if |lines| > 0 {
      FoldLinesFinished(parse, st, lines[1..]);
    }
  }

  lemma {:induction false} FoldChunksFinished(parse: Parser, st: ConsumerState, chunks: seq<string>)
    requires st.finished
    ensures FoldChunks(parse, st, chunks) == st
    decreases |chunks|
  {
    if |chunks| > 0 {
      FoldLinesFinished(parse, st, NonBlankLines(chunks[0]));
      FoldChunksFinished(parse, st, chunks[1..]);
    }
  }

  /** A first line that is not `done` does not decide whether any line is. */
  lemma AnyDoneAfterFirst(parse: Parser, lines: seq<string>)
    requires |lines| > 0 && !IsDone(parse, lines[0])
    ensures AnyDone(parse, lines) <==> AnyDone(parse, lines[1..])
  {
    if AnyDone(parse, lines) {
      var i :| 0 <= i < |lines| && IsDone(parse, lines[i]);
      assert lines[1..][i - 1] == lines[i];
    }
    if AnyDone(parse, lines[1..]) {
      var i :| 0 <= i < |lines| - 1 && IsDone(parse, lines[1..][i]);
      assert lines[i + 1] == lines[1..][i];
    }
  }

  lemma ConcatCons(piece: string, texts: seq<string>)
    ensures Concat([piece] + texts) == piece + Concat(texts)
  {
    assert ([piece] + texts)[1..] == texts;
  }

  /** The independent description of the line loop's result from `st`. */
  predicate LoopComputes(parse: Parser, st: ConsumerState, lines: seq<string>) {
    var texts := Texts(parse, Processed(parse, lines));
    FoldLines(parse, st, lines)
    == ConsumerState(st.accumulated + Concat(texts), st.tokenCount + |texts|, AnyDone(parse, lines))
  }

  /** What the line loop computes, for a state not yet finished: the text pieces of
      the processed lines are appended in order, each one counted once, and the
      stream is finished exactly when some line is `done`. */
  lemma {:induction false} FoldLinesMeaning(parse: Parser, st: ConsumerState, lines: seq<string>)
    requires !st.finished
    ensures var texts := Texts(parse, Processed(parse, lines));
            FoldLines(parse, st, lines)
            == ConsumerState(st.accumulated + Concat(texts), st.tokenCount + |texts|, AnyDone(parse, lines))
    decreases |lines|
  {
    if |lines| == 0 {
      assert Concat([]) == "";
    } else if IsDone(parse, lines[0]) {
      DoneLineMeaning(parse, st, lines);
    } else {
      FoldLinesMeaning(parse, Step(parse, st, lines[0]), lines[1..]);
      NotDoneLineMeaning(parse, st, lines);
    }
    assert LoopComputes(parse, st, lines);
  }

  /** A first line that is not `done` adds its text, if any, in front of what the rest adds. */
  lemma NotDoneLineMeaning(parse: Parser, st: ConsumerState, lines: seq<string>)
    requires !st.finished && |lines| > 0 && !IsDone(parse, lines[0])
    requires LoopComputes(parse, Step(parse, st, lines[0]), lines[1..])
    ensures LoopComputes(parse, st, lines)
  {
    var line := lines[0];
    var next := Step(parse, st, line);
    var rest := Processed(parse, lines[1..]);
    var texts := Texts(parse, rest);
    assert FoldLines(parse, st, lines) == FoldLines(parse, next, lines[1..]);
    assert Processed(parse, lines) == [line] + rest;
    assert ([line] + rest)[1..] == rest;
    AnyDoneAfterFirst(parse, lines);
    if parse(line).Some? && HasText(parse(line).value) {
      var piece := parse(line).value.response.value;
      assert Texts(parse, [line] + rest) == [piece] + texts;
      ConcatCons(piece, texts);
      assert st.accumulated + piece + Concat(texts) == st.accumulated + (piece + Concat(texts));
    } else {
      assert Texts(parse, [line] + rest) == texts;
    }
  }

  /** A first line that is `done` ends the loop after its own text. */
  lemma DoneLineMeaning(parse: Parser, st: ConsumerState, lines: seq<string>)
    requires !st.finished && |lines| > 0 && IsDone(parse, lines[0])
    ensures LoopComputes(parse, st, lines)
  {
    var line := lines[0];
    var next := Step(parse, st, line);
    FoldLinesFinished(parse, next, lines[1..]);
    assert Processed(parse, lines) == [line];
    assert [line][1..] == [];
    assert Texts(parse, []) == [];
    assert AnyDone(parse, lines) by { assert IsDone(parse, lines[0]); }
    if HasText(parse(line).value) {
      ConcatCons(parse(line).value.response.value, []);
    }
  }

  /** The line loop over two lists is the loop over the first, then over the second. */
  lemma {:induction false} FoldLinesAppend(parse: Parser, st: ConsumerState, xs: seq<string>, ys: seq<string>)
    ensures FoldLines(parse, st, xs + ys) == FoldLines(parse, FoldLines(parse, st, xs), ys)
    decreases |xs|
  {
    if |xs| == 0 {
      assert xs + ys == ys;
    } else {
      assert (xs + ys)[1..] == xs[1..] + ys;
      FoldLinesAppend(parse, Step(parse, st, xs[0]), xs[1..], ys);
    }
  }

  lemma {:induction false} FoldChunksAppend(parse: Parser, st: ConsumerState, xs: seq<string>, ys: seq<string>)
    ensures FoldChunks(parse, st, xs + ys) == FoldChunks(parse, FoldChunks(parse, st, xs), ys)
    decreases |xs|
  {
    if |xs| == 0 {
      assert xs + ys == ys;
    } else {
      assert (xs + ys)[1..] == xs[1..] + ys;
      FoldChunksAppend(parse, FoldLines(parse, st, NonBlankLines(xs[0])), xs[1..], ys);
    }
  }

  /** One more line (one more chunk) is one more step of the loop: the form the loops use. */
  lemma FoldLinesSnoc(parse: Parser, st: ConsumerState, lines: seq<string>, line: string)
    ensures FoldLines(parse, st, lines + [line]) == Step(parse, FoldLines(parse, st, lines), line)
  {
    FoldLinesAppend(parse, st, lines, [line]);
  }

  lemma FoldChunksSnoc(parse: Parser, st: ConsumerState, chunks: seq<string>, chunk: string)
    ensures FoldChunks(parse, st, chunks + [chunk])
            == FoldLines(parse, FoldChunks(parse, st, chunks), NonBlankLines(chunk))
  {
    FoldChunksAppend(parse, st, chunks, [chunk]);
  }

  /** A `done` line ends the stream: once the first i chunks have finished it, the
      later chunks change nothing. */
  lemma DoneIgnoresLaterChunks(parse: Parser, st: ConsumerState, chunks: seq<string>, i: nat, k: nat)
    requires i <= k <= |chunks|
    requires FoldChunks(parse, st, chunks[..i]).finished
    ensures FoldChunks(parse, st, chunks[..k]) == FoldChunks(parse, st, chunks[..i])
  {
    assert chunks[..k] == chunks[..i] + chunks[i..k];
    FoldChunksAppend(parse, st, chunks[..i], chunks[i..k]);
    FoldChunksFinished(parse, FoldChunks(parse, st, chunks[..i]), chunks[i..k]);
  }

  /** The accumulated text only grows and the count never drops: the result of any
      prefix of the chunks (what an abort keeps) is a prefix of the full result. */
  lemma {:induction false} FoldChunksGrows(parse: Parser, st: ConsumerState, chunks: seq<string>)
    ensures st.accumulated <= FoldChunks(parse, st, chunks).accumulated
    ensures st.tokenCount <= FoldChunks(parse, st, chunks).tokenCount
    ensures st.finished ==> FoldChunks(parse, st, chunks).finished
    decreases |chunks|
  {
    if |chunks| > 0 {
      var next := FoldLines(parse, st, NonBlankLines(chunks[0]));
      if st.finished {
        FoldLinesFinished(parse, st, NonBlankLines(chunks[0]));
      } else {
        FoldLinesMeaning(parse, st, NonBlankLines(chunks[0]));
      }
      FoldChunksGrows(parse, next, chunks[1..]);
    }
  }

  lemma PrefixOfChunksIsPrefixOfResult(parse: Parser, st: ConsumerState, chunks: seq<string>, k: nat)
    requires k <= |chunks|
    ensures FoldChunks(parse, st, chunks[..k]).accumulated <= FoldChunks(parse, st, chunks).accumulated
    ensures FoldChunks(parse, st, chunks[..k]).tokenCount <= FoldChunks(parse, st, chunks).tokenCount
  {
    assert chunks == chunks[..k] + chunks[k..];
    FoldChunksAppend(parse, st, chunks[..k], chunks[k..]);
    FoldChunksGrows(parse, FoldChunks(parse, st, chunks[..k]), chunks[k..]);
  }

  /** Chunk boundaries that fall right after a newline do not matter: processing the
      chunks one by one equals processing their concatenation as a single chunk. */
  lemma {:induction false} ChunkwiseEqualsConcatenation(parse: Parser, st: ConsumerState, chunks: seq<string>)
    requires forall i :: 0 <= i < |chunks| - 1 ==> |chunks[i]| > 0 && chunks[i][|chunks[i]| - 1] == '\n'
    ensures FoldChunks(parse, st, chunks) == FoldLines(parse, st, NonBlankLines(Concat(chunks)))
    decreases |chunks|
  {
    if |chunks| == 0 {
      assert NonBlankLines("") == [] by {
        assert Split("", '\n') == [""];
        assert Trim("") == "";
      }
    } else if |chunks| == 1 {
      assert Concat(chunks) == chunks[0] + Concat([]);
      assert chunks[0] + "" == chunks[0];
    } else {
      var first, rest := chunks[0], chunks[1..];
      var next := FoldLines(parse, st, NonBlankLines(first));
      ChunkwiseEqualsConcatenation(parse, next, rest);
      NonBlankLinesAppend(first, Concat(rest));
      FoldLinesAppend(parse, st, NonBlankLines(first), NonBlankLines(Concat(rest)));
    }
  }

  /** The lines the consumer sees across all chunks: each chunk split and filtered on
      its own, the results placed one after another. */
  function AllLines(chunks: seq<string>): seq<string>
    decreases |chunks|
  {
    if |chunks| == 0 then [] else NonBlankLines(chunks[0]) + AllLines(chunks[1..])
  }

  /** The read loop, wherever the chunks break, is the line loop over the lines each
      chunk yields on its own. */
  lemma {:induction false} FoldChunksIsFoldOfAllLines(parse: Parser, st: ConsumerState, chunks: seq<string>)
    ensures FoldChunks(parse, st, chunks) == FoldLines(parse, st, AllLines(chunks))
    decreases |chunks|
  {
    if |chunks| > 0 {
      var first := NonBlankLines(chunks[0]);
      FoldChunksIsFoldOfAllLines(parse, FoldLines(parse, st, first), chunks[1..]);
      FoldLinesAppend(parse, st, first, AllLines(chunks[1..]));
    }
  }

  /** What a whole response gives, from an empty text and a count of `n`: the text is the
      in-order concatenation of the non-empty pieces of the lines up to the first `done`
      line, the count grows by their number, and the stream is finished exactly when
      some line is `done`. */
  lemma StreamMeaning(parse: Parser, n: nat, chunks: seq<string>)
    ensures var texts := Texts(parse, Processed(parse, AllLines(chunks)));
            FoldChunks(parse, ConsumerState("", n, false), chunks)
            == ConsumerState(Concat(texts), n + |texts|, AnyDone(parse, AllLines(chunks)))
  {
    var st := ConsumerState("", n, false);
    FoldChunksIsFoldOfAllLines(parse, st, chunks);
    FoldLinesMeaning(parse, st, AllLines(chunks));
    var texts := Texts(parse, Processed(parse, AllLines(chunks)));
    assert "" + Concat(texts) == Concat(texts);
  }

  /** There is no carry-over between chunks: a line cut in two by a chunk boundary is
      handed to the parser as two separate pieces and never as the whole line. */
  lemma NoCarryOver(parse: Parser, st: ConsumerState, a: string, b: string)
    requires '\n' !in a && '\n' !in b
    requires !IsBlank(a) && !IsBlank(b)
    ensures FoldChunks(parse, st, [a, b]) == FoldLines(parse, st, [a, b])
  {
    SplitWithoutSeparator(a, '\n');
    SplitWithoutSeparator(b, '\n');
    assert NonBlankLines(a) == [a] && NonBlankLines(b) == [b];
    var mid := FoldLines(parse, st, [a]);
    assert FoldChunks(parse, st, [a, b]) == FoldChunks(parse, mid, [b]) by {
      assert [a, b][1..] == [b];
    }
    assert FoldChunks(parse, mid, [b]) == FoldLines(parse, mid, [b]) by {
      assert [b][1..] == [];
    }
    FoldLinesAppend(parse, st, [a], [b]);
    assert [a] + [b] == [a, b];
  }

  /** Two newline-free pieces, the first not blank, join into one line. */
  lemma JoinedPiecesAreOneLine(a: string, b: string)
    requires '\n' !in a && '\n' !in b && !IsBlank(a)
    ensures NonBlankLines(a + b) == [a + b]
  {
    assert '\n' !in a + b by {
      forall i | 0 <= i < |a + b| ensures (a + b)[i] != '\n' {
        if i < |a| { assert (a + b)[i] == a[i]; } else { assert (a + b)[i] == b[i - |a|]; }
      }
    }
    assert !IsBlank(a + b) by {
      var i :| 0 <= i < |a| && !IsWhitespace(a[i]);
      assert (a + b)[i] == a[i];
    }
    SplitWithoutSeparator(a + b, '\n');
  }

  lemma FirstPiece(parse: Parser, line: string, piece: string)
    requires piece != "" && parse(line) == Some(Fragment(Some(piece), false))
    ensures Step(parse, ConsumerState("", 0, false), line) == ConsumerState(piece, 1, false)
  {
    assert "" + piece == piece;
  }

  /** What no carry-over costs: when only the whole line parses (to a non-empty piece),
      delivering it cut in two yields no text, while one chunk yields the piece. */
  lemma SplitLineIsLost(parse: Parser, a: string, b: string, piece: string)
    requires '\n' !in a && '\n' !in b
    requires !IsBlank(a) && !IsBlank(b) && piece != ""
    requires forall line :: parse(line) == if line == a + b then Some(Fragment(Some(piece), false)) else None
    ensures FoldChunks(parse, ConsumerState("", 0, false), [a, b]) == ConsumerState("", 0, false)
    ensures FoldChunks(parse, ConsumerState("", 0, false), [a + b]) == ConsumerState(piece, 1, false)
  {
    var start := ConsumerState("", 0, false);
    assert |a| > 0 && |b| > 0;
    assert parse(a) == None && parse(b) == None by {
      assert |a| < |a + b| && |b| < |a + b|;
    }
    NoCarryOver(parse, start, a, b);
    assert Step(parse, start, a) == start;
    assert Step(parse, start, b) == start;
    assert FoldLines(parse, start, [b]) == start by {
      assert [b][1..] == [];
    }
    assert FoldLines(parse, start, [a, b]) == start by {
      assert [a, b][1..] == [b];
    }
    var whole := ConsumerState(piece, 1, false);
    var line := a + b;
    assert parse(line) == Some(Fragment(Some(piece), false));
    FirstPiece(parse, line, piece);
    JoinedPiecesAreOneLine(a, b);
    SingleLineChunk(parse, start, line);
  }

  /** A chunk that is exactly one non-blank line is one step of the loop. */
  lemma SingleLineChunk(parse: Parser, st: ConsumerState, line: string)
    requires NonBlankLines(line) == [line]
    ensures FoldChunks(parse, st, [line]) == Step(parse, st, line)
  {
    var one := [line];
    assert one[0] == line && one[1..] == [];
    var after := FoldLines(parse, st, one);
    assert after == FoldLines(parse, Step(parse, st, line), []);
    assert FoldChunks(parse, st, one) == FoldChunks(parse, after, []);
  }

  /** The three-fragment scenario: "Hel", "lo", then done gives "Hello" with two tokens. */
  lemma HelloScenario(parse: Parser, l1: string, l2: string, l3: string)
    requires parse(l1) == Some(Fragment(Some("Hel"), false))
    requires parse(l2) == Some(Fragment(Some("lo"), false))
    requires parse(l3) == Some(Fragment(None, true))
    ensures FoldLines(parse, ConsumerState("", 0, false), [l1, l2, l3]) == ConsumerState("Hello", 2, true)
  {
    var st0 := ConsumerState("", 0, false);
    var st1 := Step(parse, st0, l1);
    var st2 := Step(parse, st1, l2);
    var st3 := Step(parse, st2, l3);
    assert st2.accumulated == "Hel" + "lo";
    assert st3 == ConsumerState("Hello", 2, true);
    assert FoldLines(parse, st2, [l3]) == st3 by {
      assert [l3][1..] == [];
    }
    assert FoldLines(parse, st1, [l2, l3]) == st3 by {
      assert [l2, l3][1..] == [l3];
    }
    assert [l1, l2, l3][1..] == [l2, l3];
  }
}
