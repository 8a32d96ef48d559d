# LLM prompt tester: the streamed-response consumer, in Dafny

This project models the core of a browser client for a local Ollama server. The
user types a prompt and picks a model. The client posts the request to
`/api/generate` and reads the streamed reply, a sequence of newline-delimited JSON
fragments. It appends each fragment's `response` text to the output and counts
the fragments that carried text ("tokens"). It stops at the first fragment whose
`done` flag is set and shows the elapsed time and a tokens-per-second figure.
Settings live in a small `ConfigManager` backed by one browser storage slot.

Two clients share the consumer:
- `main.js`: the configurable client.
- `script.js`: an earlier client with no configuration and no `options` in the request body.

The model, module by module:

- `Values`: the JavaScript values found in the configuration table, truthiness,
  and what a `JSON.stringify`/`JSON.parse` round trip does to them (`NaN` becomes `null`).
- `Text`:
  - `trim` over the ECMAScript WhiteSpace and LineTerminator characters
  - `split('\n')`
  - `filter(line => line.trim())`
- `Stream`: a specification of the read loop as pure folds.
  - `Step` handles one line.
  - `FoldLines` folds the lines of one chunk.
  - `FoldChunks` folds a sequence of decoded chunks, each split on its own.
  - An independent description says what the fold computes: `Processed` (the lines
    up to the first `done` line) and `Texts` (their text pieces).
- `Metrics`: the rate `Math.round((tokenCount / elapsed) * 1000 * 100) / 100`. It is
  computed in exact arithmetic and returned as a whole number of hundredths of a
  token per second.
- `Request`: the `sendPrompt` guards, the request body and the prompt-length colour.
- `Config`: the `ConfigManager` class over its storage slot, and the checks of the
  settings dialog.
- `Session`: the `PromptTester` class.
  - Its fields are `startTime`, `tokenCount`, the `accumulated` response, a `finished`
    flag standing for the `return` on `done`, and the abort `controller`.
  - Its methods are proved against the `Stream` folds: the inner line loop
    (`ProcessLines`), one chunk (`ProcessChunk`), the read loop (`HandleStreamResponse`),
    `startGeneration`, `stopGeneration`, `updateStats`, `endGeneration`, and `sendPrompt` end to end,
    from the raw prompt, the selected model and the `ConfigManager` it reads.

Foreign calls are parameters:
- `JSON.parse` on one line is a function `Parser = string -> Option<Fragment>`. `None`
  stands for a line that throws.
- `new URL(...)` is a predicate `string -> bool`.
- `Date.now()` readings are integers passed in.
- The server's reply is a `Reply`: a network failure, or a status, the decoded chunks
  and `failsAt`, the read (if any) at which the connection breaks and `reader.read()` rejects.
- A click on Stop is `abortAt`: the stop is requested before read number `k`. When a
  stop and a broken connection fall on the same read, the stop wins.
- A storage write that throws is a `quotaExceeded` flag.
- The storage slot is a field of `ConfigManager`: empty, a saved table, or unreadable.

The read loop keeps no text from one chunk to the next (main.js:447-448). A decoder
with a carry-over buffer would make the result independent of where chunks break;
the code has none, and this model follows the code.
`Stream.StreamMeaning` states what any sequence of chunks gives: the text and count
that the line loop gives over the lines each chunk yields on its own (`AllLines`).
`Stream.NoCarryOver` and `Stream.SplitLineIsLost` show that a JSON line cut in two by
a chunk boundary reaches the parser as two pieces and its text is lost.
`Stream.ChunkwiseEqualsConcatenation` shows the invariance that does hold: it holds
when every chunk but the last ends in a newline.

## Model

| member | source | states |
|---|---|---|
| Values.Truthy | main.js:43 | Exactly `false`, `0`, `NaN`, `null` and `""` are falsy |
| Values.IsPositive | main.js:363 | `v && v > 0` implies truthiness; for a number it is `v > 0`; `null` and `NaN` are never positive |
| Values.Reread | main.js:28 | A JSON write-and-read never yields `NaN`: `NaN` comes back as `null`, and every other value comes back unchanged |
| Values.RereadTable | main.js:28 | The table read back has the same keys, and each value is the round trip of the saved one |
| Values.RereadTableIdentity | main.js:28 | A table with no `NaN` comes back from a JSON round trip exactly as it was |
| Text.Trim | main.js:335 | The trimmed string is empty exactly when the input is all whitespace; otherwise it starts and ends with a non-whitespace character |
| Text.TrimCutsOnlyWhitespace | main.js:335 | Trimming removes only whitespace: the result is a contiguous slice of the input with a blank part on each side |
| Text.Split | main.js:448 | `split` always yields at least one piece |
| Text.SplitSeparates | main.js:448 | No piece contains the separator, and joining the pieces with it gives the input back |
| Text.SplitJoin | main.js:448 | Splitting undoes joining, for pieces that do not contain the separator |
| Text.SplitAround | main.js:448 | Splitting `a + "\n" + b` yields the pieces of `a` followed by the pieces of `b` |
| Text.KeepNonBlank | main.js:448 | The filter never yields more lines than it is given; `KeepNonBlankSelects` says which it keeps |
| Text.NonBlankLines | main.js:447-448 | The lines of one chunk: `split('\n')` then the trim filter; `NonBlankLinesAreLines` says what they are |
| Text.KeepNonBlankSelects | main.js:448 | The filter keeps exactly the lines that are not blank: each kept line is a non-blank input line, and each non-blank input line is kept |
| Text.KeepNonBlankAppend | main.js:448 | Filtering a concatenation equals concatenating the filtered parts (order is kept) |
| Text.NonBlankLinesAreLines | main.js:447-448 | Every line a chunk yields is non-blank and contains no newline |
| Text.NonBlankLinesAppend | main.js:447-448 | For a chunk ending in a newline, the lines of it followed by more text are its lines followed by the lines of that text |
| Stream.HasText | main.js:454 | `if (data.response)`: the fragment has a `response` string that is truthy |
| Stream.Step | main.js:452-463 | After the `done` line nothing changes, and a line that does not parse changes nothing. Otherwise the line finishes the stream exactly when it is `done`. The text only grows, and a token is counted exactly when some text is appended |
| Stream.FoldLines | main.js:450-468 | The line loop counts at most one token per line, each token adds at least one character, and a finished stream stays finished |
| Stream.FoldChunks | main.js:442-469 | The read loop never lowers the count, each token adds at least one character, and a finished stream stays finished |
| Stream.Processed | main.js:450-463 | The lines the loop looks at are the prefix up to and including the first `done` line; no earlier line is `done`; any line is `done` exactly when the last processed one is |
| Stream.Texts | script.js:213-214 | Only non-empty `response` texts are collected (an empty string is falsy) |
| Stream.FoldLinesMeaning | main.js:450-468 | From an unfinished state, the line loop appends the in-order concatenation of the processed lines' texts and adds their number to the count; it is finished exactly when some line is `done`. A line with both text and `done` is counted before stopping. Unparsable lines are skipped |
| Stream.FoldLinesFinished | script.js:220-222 | Once a `done` line is seen, later lines change nothing |
| Stream.FoldChunksFinished | main.js:442-463 | Once a `done` line is seen, later chunks change nothing |
| Stream.FoldLinesAppend | main.js:450-468 | The line loop over two lists of lines is the loop over the first list, continued over the second |
| Stream.FoldChunksAppend | main.js:442-469 | The read loop over two runs of chunks is the loop over the first run, continued over the second |
| Stream.FoldLinesSnoc | main.js:450-468 | One more line is one more step of the line loop |
| Stream.FoldChunksSnoc | main.js:442-469 | One more chunk is one more pass of the line loop over that chunk's lines |
| Stream.DoneIgnoresLaterChunks | main.js:461-463 | After the chunks that contained the `done` line, any number of further chunks leave the state unchanged |
| Stream.FoldChunksGrows | script.js:198-215 | The accumulated text only grows (the old text is a prefix of the new), the count never drops, and a finished stream stays finished |
| Stream.PrefixOfChunksIsPrefixOfResult | main.js:442-456 | The result after any prefix of the chunks is a prefix, in text and in count, of the result after all of them |
| Stream.ChunkwiseEqualsConcatenation | main.js:447-448 | When every chunk but the last ends in a newline, consuming the chunks one by one equals consuming their concatenation as one chunk |
| Stream.FoldChunksIsFoldOfAllLines | main.js:442-469 | For any chunks, wherever they break, the read loop is the line loop over the lines each chunk yields on its own |
| Stream.StreamMeaning | main.js:436-469 | For any chunks, from empty text and a count `n`: the text is the in-order concatenation of the non-empty texts of the lines up to the first `done` line, the count is `n` plus their number, and the stream is finished exactly when some line is `done` |
| Stream.NoCarryOver | main.js:447-448 | Two newline-free non-blank chunks reach the parser as two separate lines |
| Stream.JoinedPiecesAreOneLine | main.js:447-448 | Two newline-free pieces, the first non-blank, delivered together in one chunk, form a single line |
| Stream.SplitLineIsLost | script.js:206-226 | If only a whole line parses, delivering it cut in two yields no text and no count, while one chunk yields its text and a count of one |
| Stream.SingleLineChunk | main.js:447-463 | A chunk that is exactly one non-blank line is one step of the loop |
| Stream.HelloScenario | main.js:454-463 | Fragments "Hel", "lo" and then `done` give the text "Hello", a count of 2, and a finished stream |
| Metrics.RateHundredths | main.js:428 | The rate `r` in hundredths satisfies `2e*r <= 200000*t + e < 2e*r + 2e`: the nearest whole number with halves rounded up |
| Metrics.RateIsRoundedQuotient | main.js:428 | In exact reals, `r - 1/2 <= t * 100000 / e < r + 1/2`, which is `Math.round` of the tokens-per-second figure times 100 |
| Metrics.RateMonotoneInTokens | script.js:187 | More tokens in the same time never give a lower rate |
| Metrics.RateAntitoneInTime | script.js:256 | The same tokens over a longer time never give a higher rate |
| Metrics.FinalRate | main.js:427-430 | A final rate exists exactly when the count and the elapsed time are both positive, and then it is the rounded rate |
| Metrics.LiveRate | main.js:494-497 | A live rate exists exactly when the elapsed time is positive, and then it is the rounded rate |
| Metrics.ElapsedSince | main.js:423 | With a truthy start time the elapsed time is `now - start`; otherwise it is 0 |
| Request.BuildRequest | main.js:335-365 | A blank prompt is refused first, then an empty model. Otherwise the body carries the trimmed, non-empty prompt, the model and the configured temperature, with streaming on. `options.num_predict` is present exactly when `maxTokens` is positive, and it equals `maxTokens` |
| Request.BuildLegacyRequest | script.js:102-131 | Refused exactly when the prompt is blank or the model is empty; otherwise the body streams, carries the slider temperature, and never has `options` |
| Request.LegacyIsUnlimitedRequest | script.js:126-131 | The earlier client's request is the configurable client's request when `maxTokens` is not positive |
| Request.CharCountLevel | main.js:279-292 | Danger above 10000 characters, warning above 5000 up to 10000, normal otherwise |
| Request.CharCountLevelMonotone | main.js:287-291 | A longer prompt never gets a milder colour |
| Config.LoadConfig | main.js:13-23 | The defaults overridden key by key by the saved table: saved keys take the saved values and the other defaults stay. With nothing saved, or a slot that does not parse, the result is exactly the defaults |
| Config.ReloadRestoresConfig | main.js:13-28 | A table holding every default key and no `NaN`, once saved, loads back as exactly that table |
| Config.PartialSaveForgetsKeys | main.js:25-31 | As written: after `saveConfig(newConfig)` a key missing from `newConfig` loads back as its default, although the live table holds another value |
| Config.AutoSaveOn | main.js:43 | `this.config.autoSave` is present and truthy |
| Config.ConfigManager.constructor | main.js:3-11 | The live table is what `loadConfig` gives for the slot, so every default key is present |
| Config.ConfigManager.Get | main.js:37-39 | The value stored under the key, or none (`undefined`) for an absent key |
| Config.ConfigManager.Set | main.js:41-46 | Only that key changes. The whole table is persisted exactly when `autoSave`, read after the update, is truthy and the write does not throw |
| Config.ConfigManager.SaveConfig | main.js:25-35 | As written: stores `newConfig`, or the live table when there is none, then merges `newConfig` over the live table. A failed write changes nothing |
| Config.ConfigManager.SaveConfigMerged | main.js:25-35 | Corrected: merges `newConfig` over the live table, then stores the merged table, so the stored table is the live one |
| Config.ConfigManager.Reset | main.js:48-51 | The live table is the defaults and the storage slot is empty |
| Config.AsValue | main.js:242 | `parseInt` yields a finite number or `NaN` |
| Config.SettingsTable | main.js:240-244 | The dialog's table holds exactly `serverUrl`, `maxTokens` and `autoSave`, with the trimmed URL, the parsed limit and the checkbox; it has no temperature |
| Config.ValidateSettings | main.js:239-258 | As written: an unparsable URL is refused; then an integer outside 100..131072 is refused; otherwise the dialog's table is accepted. `NaN` is never refused by the range check |
| Config.NaNPassesRangeCheck | main.js:242-255 | As written: a token limit that does not parse passes the range check and is stored as `null` |
| Config.ValidateSettingsStrict | main.js:246-258 | Corrected: only an integer from 100 to 131072 is accepted, so an accepted table holds no `NaN` |
| Config.SaveSettings | main.js:239-260 | As written: the result is `ValidateSettings`, so `NaN` passes. A refused dialog or a failed write changes nothing. An accepted one merges its table into the live table but stores only the dialog's table, so the temperature reloads as its default |
| Config.SaveSettingsCorrected | main.js:239-260 | Corrected: the result is `ValidateSettingsStrict`. A refused dialog or a failed write changes nothing. An accepted one merges its table into the live table and stores the merged table, which loads back unchanged |
| Session.ReadHappens | main.js:442-463 | Read number `k` takes place: the stream has not ended before it and no earlier chunk held a `done` line |
| Session.FirstInterruption | main.js:443 | The first read that rejects is the earlier of the read after a stop and the read that fails; a stop wins a tie and ends as `Aborted`, a failure ends as `Failed` |
| Session.InterruptionLands | main.js:442-445 | The interruption takes effect exactly when its read happens |
| Session.Streamed | main.js:436-473 | The state after the read loop; a stream that saw its `done` line is never cut short by an interruption |
| Session.StreamEnding | main.js:384-389 | The loop ends as its interruption says when that lands, and normally otherwise |
| Session.EndingDecided | main.js:384-389 | The loop ends in an abort exactly when the stop's read happens and no failure comes earlier. It ends in a failure exactly when the failing read happens strictly before any stop. Otherwise it completes |
| Session.InterruptionKeepsPrefix | main.js:442-456 | A stop or failure that lands keeps exactly what the chunks read so far produced. That is a prefix, in text and in count, of the full stream's result, and it is not finished |
| Session.LateInterruptionIsHarmless | main.js:461-463 | A stop or failure after the chunk that ended the stream with `done` changes nothing, and the loop completes |
| Session.PromptTester.constructor | main.js:56-60 | No controller, no start time, a count of 0 |
| Session.PromptTester.StartGeneration | main.js:395-397 | Records the start time, resets the count to 0, and starts from empty text |
| Session.PromptTester.ProcessLines | main.js:450-468 | The inner loop leaves exactly the state `FoldLines` specifies |
| Session.PromptTester.ProcessChunk | main.js:447-468 | One chunk is split, filtered and consumed, as `FoldLines` over `NonBlankLines(chunk)` specifies |
| Session.PromptTester.ReadChunk | script.js:202-207 | One pass of the read loop extends the state by one chunk of `FoldChunks` |
| Session.PromptTester.StopGeneration | main.js:501-505 | Aborts the controller when there is one; with none, nothing happens |
| Session.PromptTester.HandleStreamResponse | main.js:436-473 | The state is `Streamed` and the ending `StreamEnding` for the first interruption (a stop counts only while a controller exists). So it is `FoldChunks` over the chunks read before a stop or failure that lands, and over the whole stream otherwise. End of stream ends the loop normally without a `done` line. The controller changes only by being aborted |
| Session.PromptTester.UpdateStats | main.js:487-499 | Elapsed time exists exactly with a truthy start time; the live rate exists exactly when it is positive |
| Session.PromptTester.EndGeneration | main.js:411-434 | The controller is always cleared; the figures are the count, the elapsed time and the final rate |
| Session.PromptTester.SendPrompt | main.js:334-393 | Refused, with nothing posted and nothing changed, exactly when the trimmed prompt is empty (checked first) or no model is selected. Otherwise the posted body is `BuildRequest` of the prompt, the model and the configuration's temperature and token limit (`num_predict` exactly when that limit is positive). The generation starts and the outcome is a network failure, an HTTP error with its status, or the ending of the read loop: an abort, a failed read, or a completion. The streamed state is `Streamed`, and `endGeneration` always runs, clears the controller and reports the count reached so far |

## Left out

- DOM rendering, event wiring, toasts, the streaming cursor, scrolling and clipboard copy: these are user interface. The status text `endGeneration` sets (always "complete", even after an error or a stop) is not modelled.
- `fetch`, `reader.read()`, `reader.releaseLock()` and `TextDecoder` with `stream: true`: network I/O and a library. Chunks are modelled as already-decoded strings, and the reply as a `Reply` value.
- `JSON.parse` and `new URL(...)`: foreign calls, taken as the parameters `Parser` and `urlParses`. A `response` field that is present but not a string is not modelled.
- `localStorage`: a field `storage` of `ConfigManager`. A write that throws is the parameter `quotaExceeded`.
- `Date.now()`: readings are passed in as integers.
- The asynchronous side of `AbortController`: a stop is modelled as landing before a given read, at which point the pending read rejects. A stop during the `fetch` itself (before any read) is not modelled.
- `formatSize`, `loadModels`, example prompts and the model list: outside the consumer, and `formatSize` relies on floating-point `Math.log`.
- Metrics.RateHundredths: computed in exact arithmetic. The floating-point rounding of `(tokenCount / elapsed) * 1000 * 100` before `Math.round` is not modelled.
- Session.PromptTester.SendPrompt: one call runs to its end before another starts. Ctrl+Enter (main.js:159-163) calls `sendPrompt` while a generation is running, since the disabled button blocks only clicks; the second call then resets `tokenCount` and replaces `currentController` (main.js:352, 396-397) while the first read loop still increments the same counter. That interleaving needs concurrency and is not modelled.
- Session.PromptTester.ProcessLines: the per-line `updateStreamingDisplay` and `updateStats` calls are not made from the loop. `UpdateStats` is modelled on its own; it only computes display figures and changes no state.
- Request.BuildRequest: `maxTokens > 0` is modelled for null, booleans, numbers and `NaN`. A string-valued `maxTokens` (JavaScript would compare it after numeric conversion) counts as not positive.
- Text.Trim: characters are Dafny `char`s. JavaScript's UTF-16 code units and `String.length` on surrogate pairs are not modelled, and neither is `text.length` in the character counter.
- Config.ConfigManager.Get: JavaScript object keys inherited from the prototype are not modelled; a missing key is simply absent.

## Findings

| source | as written | input that shows it | evidently intended | confidence | as-written member | corrected member |
|---|---|---|---|---|---|---|
| main.js:242-255 | `parseInt` of the token field can be `NaN`. `NaN < 100` and `NaN > 131072` are both false, so the range check lets it through. It is then saved, and JSON writes it as `null` | An empty token-limit field with a valid URL | Only an integer from 100 to 131072 is accepted | not executed | Config.NaNPassesRangeCheck | Config.ValidateSettingsStrict |
| main.js:25-31 | `saveConfig(newConfig)` writes only `newConfig` to storage, although the live table becomes the merge | With `autoSave` on, `set("temperature", 1.2)`, then save the settings dialog (which has no temperature) and reload: the temperature is back to 0.7 | Store the merged table, so reloading gives back the live configuration | not executed | Config.PartialSaveForgetsKeys | Config.ConfigManager.SaveConfigMerged |
