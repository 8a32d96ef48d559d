/**
 * One prompt submission, end to end: the guards, `startGeneration`, the read
 * loop of `handleStreamResponse` with its inner loop over lines, the abort
 * controller, and `endGeneration` with its final figures.
 */
module Session {
  import opened Wrappers
  import opened Text
  import opened Stream
  import opened Metrics
  import opened Request
  import opened Config
  import opened Values

  /** `currentController`: null, or an AbortController that may have been aborted. */
  datatype Controller = NoController | Live(aborted: bool)

  /** What the server does with the POST: the network call fails, or it answers with
      a status and a body that the reader delivers as these decoded chunks. When
      `failsAt` is `Some(k)`, read number k rejects (the connection breaks) instead of
      delivering a chunk or reporting the end. */
  datatype Reply = NetworkFailure | Response(status: int, chunks: seq<string>, failsAt: Option<nat>)

  /** `response.ok` */
  predicate IsOk(status: int) { 200 <= status <= 299 }

  /** How a started generation ended, as the `catch` of `sendPrompt` tells them apart. */
  datatype Ending = Completed | Aborted | Failed(httpStatus: Option<int>)

  /** What `endGeneration` shows: elapsed milliseconds, tokens, and the rate in
      hundredths of a token per second when there is one. */
  datatype FinalMetrics = FinalMetrics(elapsedMs: int, tokenCount: nat, rateHundredths: Option<nat>)

  datatype Outcome = Rejected(error: RequestError) | Ended(ending: Ending, metrics: FinalMetrics)

  /** The guards and body of `sendPrompt` for this prompt and model, with the temperature
      and token limit read from the configuration. */
  function PromptRequest(rawPrompt: string, model: string, cm: ConfigManager): Result<RequestBody, RequestError>
    reads cm
  {
    BuildRequest(rawPrompt, model, cm.Get("temperature"), cm.Get("maxTokens"))
  }

  /** The state `handleStreamResponse` starts from: no text yet, the count as it stands. */
  function Begin(tokenCount: nat): ConsumerState {
    ConsumerState("", tokenCount, false)
  }

  /** Read number k of the loop takes place: the stream has not ended before it and no
      `done` line has been seen. Read number |chunks| is the one that reports the end. */
  predicate ReadHappens(parse: Parser, st: ConsumerState, chunks: seq<string>, k: nat) {
    k <= |chunks| && !FoldChunks(parse, st, chunks[..k]).finished
  }

  /** A read that rejects, and the ending its rejection leads to. */
  datatype Interruption = Interruption(at: nat, ending: Ending)

  /** The first read that rejects: the one after a stop requested before read `abortAt`,
      or read `failsAt` that fails; when both fall on the same read the stop wins. */
  function FirstInterruption(abortAt: Option<nat>, failsAt: Option<nat>): (r: Option<Interruption>)
    ensures r.None? <==> abortAt.None? && failsAt.None?
    ensures r.Some? ==> (abortAt.Some? ==> r.value.at <= abortAt.value) && (failsAt.Some? ==> r.value.at <= failsAt.value)
    ensures r.Some? ==> (r.value.ending == Aborted && abortAt == Some(r.value.at))
                        || (r.value.ending == Failed(None) && failsAt == Some(r.value.at) && abortAt != Some(r.value.at))
  {
    match (abortAt, failsAt)
    case (None, None) => None
    case (Some(a), None) => Some(Interruption(a, Aborted))
    case (None, Some(f)) => Some(Interruption(f, Failed(None)))
    case (Some(a), Some(f)) => if a <= f then Some(Interruption(a, Aborted)) else Some(Interruption(f, Failed(None)))
  }

  /** The interruption takes effect: its read happens. */
  predicate InterruptionLands(parse: Parser, st: ConsumerState, chunks: seq<string>, x: Option<Interruption>) {
    x.Some? && ReadHappens(parse, st, chunks, x.value.at)
  }

  /** The state after the read loop: everything read before the rejecting read, or the
      whole stream. A stream that saw its `done` line is never cut short. */
  function Streamed(parse: Parser, st: ConsumerState, chunks: seq<string>, x: Option<Interruption>): (r: ConsumerState)
    ensures r.finished ==> r == FoldChunks(parse, st, chunks)
  {
    if InterruptionLands(parse, st, chunks, x) then FoldChunks(parse, st, chunks[..x.value.at])
    else FoldChunks(parse, st, chunks)
  }

  /** How the read loop ends: by the interruption when it lands, normally otherwise. */
  function StreamEnding(parse: Parser, st: ConsumerState, chunks: seq<string>, x: Option<Interruption>): Ending {
    if InterruptionLands(parse, st, chunks, x) then x.value.ending else Completed
  }

  /** Which ending the loop has, in terms of the reads that happen: a stop, when its read
      happens and no failure comes at an earlier read; a failure, when its read happens
      and comes strictly before any stop; otherwise the stream completes. */
  lemma EndingDecided(parse: Parser, st: ConsumerState, chunks: seq<string>, abortAt: Option<nat>, failsAt: Option<nat>)
    ensures var e := StreamEnding(parse, st, chunks, FirstInterruption(abortAt, failsAt));
            && (e == Aborted <==>
                  (abortAt.Some? && ReadHappens(parse, st, chunks, abortAt.value)
                   && (failsAt.None? || abortAt.value <= failsAt.value)))
            && (e == Failed(None) <==>
                  (failsAt.Some? && ReadHappens(parse, st, chunks, failsAt.value)
                   && (abortAt.None? || failsAt.value < abortAt.value)))
            && (e == Aborted || e == Failed(None) || e == Completed)
  {
  }

  /** An interruption keeps a valid partial result: exactly what the chunks read so far
      gave, and a prefix (text and count) of what the whole stream would give. */
  lemma InterruptionKeepsPrefix(parse: Parser, st: ConsumerState, chunks: seq<string>, x: Option<Interruption>)
    ensures Streamed(parse, st, chunks, x).accumulated <= FoldChunks(parse, st, chunks).accumulated
    ensures Streamed(parse, st, chunks, x).tokenCount <= FoldChunks(parse, st, chunks).tokenCount
    ensures InterruptionLands(parse, st, chunks, x) ==> !Streamed(parse, st, chunks, x).finished
  {
    if InterruptionLands(parse, st, chunks, x) {
      PrefixOfChunksIsPrefixOfResult(parse, st, chunks, x.value.at);
    }
  }

  /** A stop or a failure that comes after the `done` line, or after the stream ended,
      changes nothing: the loop completes with the state the `done` chunk left. */
  lemma LateInterruptionIsHarmless(parse: Parser, st: ConsumerState, chunks: seq<string>, k: nat, x: Option<Interruption>)
    requires k <= |chunks| && FoldChunks(parse, st, chunks[..k]).finished
    requires x.Some? ==> k <= x.value.at
    ensures Streamed(parse, st, chunks, x) == FoldChunks(parse, st, chunks) == FoldChunks(parse, st, chunks[..k])
    ensures StreamEnding(parse, st, chunks, x) == Completed
  {
    DoneIgnoresLaterChunks(parse, st, chunks, k, |chunks|);
    assert chunks[..|chunks|] == chunks;
    if x.Some? && x.value.at <= |chunks| {
      DoneIgnoresLaterChunks(parse, st, chunks, k, x.value.at);
    }
  }

  class PromptTester {
    var startTime: Option<int>
    var tokenCount: nat
    /** The `accumulatedResponse` of the running `handleStreamResponse`. */
    var accumulated: string
    /** A `done` fragment has been seen (the loop has returned). */
    var finished: bool
    var controller: Controller

    constructor ()
      ensures startTime == None && tokenCount == 0 && accumulated == "" && !finished
      ensures controller == NoController
    {
      startTime, tokenCount, accumulated, finished := None, 0, "", false;
      controller := NoController;
    }

    function State(): ConsumerState
      reads this
    {
      ConsumerState(accumulated, tokenCount, finished)
    }

    /** `startGeneration`: records the start time and resets the count and the text. */
    method StartGeneration(now: int)
      modifies this`startTime, this`tokenCount, this`accumulated, this`finished
      ensures startTime == Some(now) && State() == Begin(0)
    {
      startTime := Some(now);
      tokenCount := 0;
      accumulated, finished := "", false;
    }

    /** The inner loop of `handleStreamResponse` over the lines of one chunk: each line
      is parsed; a line that does not parse is skipped, a non-empty `response` is
      appended and counted, and a `done` line stops the loop. */
    method ProcessLines(parse: Parser, lines: seq<string>)
      modifies this`accumulated, this`tokenCount, this`finished
      ensures State() == FoldLines(parse, old(State()), lines)
    {
      ghost var st0 := State();
      var i := 0;
      while i < |lines| && !finished
        invariant 0 <= i <= |lines|
        invariant State() == FoldLines(parse, st0, lines[..i])
      {
        var line := lines[i];
        ghost var before := State();
        match parse(line) {
          case None =>
          case Some(f) =>
            if HasText(f) {
              accumulated := accumulated + f.response.value;
              tokenCount := tokenCount + 1;
            }
            if f.done {
              finished := true;
            }
        }
        assert State() == Step(parse, before, line);
        FoldLinesSnoc(parse, st0, lines[..i], line);
        assert lines[..i + 1] == lines[..i] + [line];
        i := i + 1;
      }
      if i < |lines| {
        FoldLinesAppend(parse, st0, lines[..i], lines[i..]);
        FoldLinesFinished(parse, State(), lines[i..]);
        assert lines[..i] + lines[i..] == lines;
      } else {
        assert lines[..i] == lines;
      }
    }

    /** One decoded chunk: split on newlines, blank lines dropped, the rest consumed in order. */
    method ProcessChunk(parse: Parser, chunk: string)
      modifies this`accumulated, this`tokenCount, this`finished
      ensures State() == FoldLines(parse, old(State()), NonBlankLines(chunk))
    {
      ProcessLines(parse, NonBlankLines(chunk));
    }

    /** One pass of the read loop: the chunk of read number `i` is consumed. */
    method ReadChunk(parse: Parser, ghost start: ConsumerState, chunks: seq<string>, i: nat)
      requires i < |chunks| && State() == FoldChunks(parse, start, chunks[..i])
      modifies this`accumulated, this`tokenCount, this`finished
      ensures State() == FoldChunks(parse, start, chunks[..i + 1])
    {
      FoldChunksSnoc(parse, start, chunks[..i], chunks[i]);
      assert chunks[..i + 1] == chunks[..i] + [chunks[i]];
      ProcessChunk(parse, chunks[i]);
    }

    /** `stopGeneration`: aborts the controller only while there is one. */
    method StopGeneration()
      modifies this`controller
      ensures controller == if old(controller).Live? then Live(true) else NoController
    {
      if controller.Live? {
        controller := Live(true);
      }
    }

    /** The read loop of `handleStreamResponse`. Before each read it honours a stop
      requested before read number `abortAt` (the pending read then rejects with an
      `AbortError`); read number `failsAt` rejects with some other error; a read past
      the last chunk reports the end of the stream, which ends the loop normally. */
    method HandleStreamResponse(parse: Parser, chunks: seq<string>, abortAt: Option<nat>, failsAt: Option<nat>)
      returns (ending: Ending)
      requires controller != Live(true)
      modifies this`accumulated, this`tokenCount, this`finished, this`controller
      ensures var x := FirstInterruption(if old(controller).Live? then abortAt else None, failsAt);
              State() == Streamed(parse, Begin(old(tokenCount)), chunks, x)
              && ending == StreamEnding(parse, Begin(old(tokenCount)), chunks, x)
      ensures controller == if ending == Aborted then Live(true) else old(controller)
    {
      ghost var start := Begin(tokenCount);
      ghost var x := FirstInterruption(if controller.Live? then abortAt else None, failsAt);
      accumulated, finished := "", false;
      var i := 0;
      while true
        invariant 0 <= i <= |chunks|
        invariant State() == FoldChunks(parse, start, chunks[..i])
        invariant controller == old(controller)
        invariant x.Some? ==> i <= x.value.at
        decreases |chunks| - i
      {
        if finished {
          // a `done` fragment made the loop return
          LateInterruptionIsHarmless(parse, start, chunks, i, x);
          ending := Completed;
          break;
        }
        if controller.Live? && abortAt == Some(i) {
          // the user stopped the generation; `reader.read()` rejects with an AbortError
          StopGeneration();
          ending := Aborted;
          break;
        }
        if failsAt == Some(i) {
          // `reader.read()` rejects with another error
          ending := Failed(None);
          break;
        }
        if i == |chunks| {
          // `reader.read()` reports `done`
          assert chunks[..i] == chunks;
          ending := Completed;
          break;
        }
        ReadChunk(parse, start, chunks, i);
        i := i + 1;
      }
    }

    /** `updateStats` while streaming: elapsed time and live rate, when there is a start time. */
    method UpdateStats(now: int) returns (elapsedMs: Option<int>, rate: Option<nat>)
      ensures elapsedMs.Some? <==> startTime.Some? && startTime.value != 0
      ensures elapsedMs.Some? ==> startTime.value + elapsedMs.value == now
      ensures rate.Some? <==> elapsedMs.Some? && elapsedMs.value > 0
      ensures rate.Some? ==> rate == LiveRate(tokenCount, elapsedMs.value)
    {
      elapsedMs, rate := None, None;
      if startTime.Some? && startTime.value != 0 {
        var e := now - startTime.value;
        elapsedMs := Some(e);
        if e > 0 {
          rate := LiveRate(tokenCount, e);
        }
      }
    }

    /** `endGeneration`: the controller is always cleared; the final rate is shown only
      with at least one token and some elapsed time. */
    method EndGeneration(now: int) returns (m: FinalMetrics)
      modifies this`controller
      ensures controller == NoController
      ensures m.tokenCount == tokenCount && m.elapsedMs == ElapsedSince(startTime, now)
      ensures m.rateHundredths == FinalRate(tokenCount, m.elapsedMs)
    {
      controller := NoController;
      var e := ElapsedSince(startTime, now);
      m := FinalMetrics(e, tokenCount, FinalRate(tokenCount, e));
    }

    /** `sendPrompt`: the trimmed prompt and the selected model are checked first, and a
      refused request changes nothing and posts nothing. Otherwise the generation is
      started, a fresh controller installed, the body built from the configured
      temperature and token limit is posted (`body`), the reply consumed, and
      `endGeneration` runs whatever happened (the `finally`), reporting the count
      reached so far. */
    method SendPrompt(rawPrompt: string, model: string, cm: ConfigManager, parse: Parser, reply: Reply,
                      abortAt: Option<nat>, startMs: int, endMs: int)
      returns (body: Option<RequestBody>, outcome: Outcome)
      modifies this
      ensures outcome.Rejected? <==> IsBlank(rawPrompt) || model == ""
      ensures outcome.Rejected? ==> outcome.error == if IsBlank(rawPrompt) then EmptyPrompt else NoModelSelected
      ensures outcome.Rejected? ==> body.None? && startTime == old(startTime) && State() == old(State())
                                    && controller == old(controller)
      ensures outcome.Ended? ==> body == Some(PromptRequest(rawPrompt, model, cm).value)
      ensures outcome.Ended? ==> body.value.prompt == Trim(rawPrompt) && body.value.model == model
                                 && body.value.temperature == cm.Get("temperature")
                                 && (body.value.options.Some? <==> "maxTokens" in cm.config && IsPositive(cm.config["maxTokens"]))
      ensures outcome.Ended? ==> startTime == Some(startMs) && controller == NoController
      ensures outcome.Ended? && reply.NetworkFailure? ==> State() == Begin(0) && outcome.ending == Failed(None)
      ensures outcome.Ended? && reply.Response? && !IsOk(reply.status) ==>
                State() == Begin(0) && outcome.ending == Failed(Some(reply.status))
      ensures outcome.Ended? && reply.Response? && IsOk(reply.status) ==>
                var x := FirstInterruption(abortAt, reply.failsAt);
                State() == Streamed(parse, Begin(0), reply.chunks, x)
                && outcome.ending == StreamEnding(parse, Begin(0), reply.chunks, x)
      ensures outcome.Ended? ==>
                outcome.metrics.tokenCount == tokenCount
                && outcome.metrics.elapsedMs == ElapsedSince(Some(startMs), endMs)
                && outcome.metrics.rateHundredths == FinalRate(tokenCount, outcome.metrics.elapsedMs)
    {
      var request := PromptRequest(rawPrompt, model, cm);
      if request.Err? {
        body, outcome := None, Rejected(request.error);
        return;
      }
      StartGeneration(startMs);
      controller := Live(false);
      body := Some(request.value);
      var ending: Ending;
      match reply {
        case NetworkFailure =>
          ending := Failed(None);
        case Response(status, chunks, failsAt) =>
          if !IsOk(status) {
            ending := Failed(Some(status));
          } else {
            ending := HandleStreamResponse(parse, chunks, abortAt, failsAt);
          }
      }
      var m := EndGeneration(endMs);
      outcome := Ended(ending, m);
    }
  }
}
