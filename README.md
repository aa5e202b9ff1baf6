# IncompleteJson, modelled and proved in Dafny

This project models the `IncompleteJson` session of gjp-4-gpt. The
session parses a JSON text (RFC 8259) that arrives in chunks, in one pass,
one character at a time. After any chunk, `readValue` gives the most
complete value the text so far supports. Both versions of the session are
modelled:

- the one of `dist/index.js`, which keeps an augmented buffer with
  envelopes around every container;
- the offset-only variant of `rand/index.no-alloc.ts`, modelled as
  written, quirks included.

Layout:

- `wrappers.dfy` (Wrappers): `Option` and `Result`.
- `json.dfy` (Json): `JSON.parse` as a characterwise pushdown decoder.
  `Run` folds `Step` over a text, and `Decode` gives the value, or `None`
  where `JSON.parse` throws a `SyntaxError`. `IsJsonText(s)` means
  `Decode(s)` has a value. `IsJsonPrefix(s)` means the decoder has not
  rejected `s` yet.
- `dist_model.dfy` (DistModel): the session of `dist/index.js` as functions
  on a `Machine` value: one loop iteration (`Iter`), the loop (`Feed`),
  `AddChunk`, the reviver (`Revive`), `CachedParse`, `Done`, `ReadValue` and
  `Parse`.
- `dist.dfy` (Dist): the class `IncompleteJson`, whose fields are updated in
  place. Each method is proved to leave the object in the state its
  `DistModel` function computes, so the lemmas about `DistModel` hold of
  the class.
- `dist_runs.dfy`, `dist_safety.dfy` and `dist_invariant.dfy` hold the safety
  proof. Two decoders run side by side: one over the raw text, one over the
  augmented buffer. `Agree` ties them to the session's bookkeeping.
  `Inv(opts, m, raw)` is the session invariant. It says:
  - `m` has accepted all of `raw` except a cut-off escape;
  - the buffer decodes in step with the raw text;
  - the checkpoint's text `consumed[..index] + append` is a JSON text.
- `dist_props.dfy` (DistProps): chunk boundaries do not matter, escapes are
  atomic, and `done` is final.
- `dist_forward.dfy` (DistForward): the buffer only grows and the
  checkpoint only moves forward.
- `dist_read.dfy` (DistRead): reading, caching, envelopes and top-level
  numbers.
- `dist_converge.dfy` (DistConverge): convergence. `Aug(v)` is the
  document `v` with every object and array wrapped in a closed envelope,
  and `Lift` maps a state of the raw decoder to the matching state of the
  buffer's decoder. The loop keeps the buffer's decoder the `Lift` of the
  raw one, so the buffer of a whole JSON text decodes to `Aug` of the
  document. The reviver turns that back into the document with every
  container flagged as finished (`Marked`).
- `na_model.dfy` (NoAllocModel), `na.dfy` (NoAlloc) and `na_props.dfy`
  (NoAllocProps) do the same for `rand/index.no-alloc.ts`.

Some names used below:

- `JSON.parse` failures are `Failure(SyntaxError)`.
- The reviver's failure on an envelope whose `value` is missing, `null`
  or not an object or array is `Failure(TypeError)`: the code then sets a
  property on `undefined` or on a primitive, in strict-mode class code.
- `addChunk` after `done` is `Failure(AlreadyDone)`.
- The random sentinel field name is the constant `Sentinel`
  (`"__sentinel"`). It is assumed not to occur as a key in the document.

## Model

| member | source | states |
|---|---|---|
| Dist.IncompleteJson.constructor | dist/index.js:45-62 | a new session: empty buffer, nothing withheld, no flags, no closers, empty context, no checkpoint, cache `("", undefined)` |
| Dist.IncompleteJson.MarkTruncateSpot | dist/index.js:72-75 | the checkpoint becomes `consumed.length + delta` with a snapshot of the closers and no result; nothing else changes |
| Dist.IncompleteJson.ConsumeEscape | dist/index.js:82-110 | a backslash in a string: the object and the next loop index are those of `EscapeAt` |
| Dist.IncompleteJson.TrackNumberInPlace | dist/index.js:111-122 | number mode is entered on any `!isNaN(+c)` character outside a string (digits and whitespace) and left on any other character except `- e + E .` |
| Dist.IncompleteJson.InjectInPlace | dist/index.js:123-151 | a container character outside a string appends its envelope text, adjusts the closers and marks after a closer; any other character is appended as it is |
| Dist.IncompleteJson.PopQuoteInPlace | dist/index.js:162-169 | a quote that matches the innermost closer pops it and marks, unless a key is being read |
| Dist.IncompleteJson.NumberSymbolInPlace | dist/index.js:170-176 | `e`, `.` or `E` in number mode marks one character back, unless partial numbers are prohibited |
| Dist.IncompleteJson.QuoteInPlace | dist/index.js:177-188 | a quote toggles string mode; an opening quote owes `"` and marks in a value context, when partial strings are allowed |
| Dist.IncompleteJson.SeparatorInPlace | dist/index.js:189-202 | a comma marks one character back and flips `val` to `key`; a colon flips `key` to `val` |
| Dist.IncompleteJson.NestInPlace | dist/index.js:203-218 | `[` pushes `arr` and `]`, `{` pushes `key` and `}`, and each marks; `}` and `]` pop the context |
| Dist.IncompleteJson.ConsumeChar | dist/index.js:111-218 | one character that does not start an escape: the object is `CharStep` of its old state |
| Dist.IncompleteJson.Iterate | dist/index.js:79-219 | one loop iteration: the object and the next index are those of `Iter` |
| Dist.IncompleteJson.Consume | dist/index.js:76-219 | the loop over `toConsume` leaves the object in the state `Feed` computes |
| Dist.IncompleteJson.AddChunk | dist/index.js:68-220 | fails with `AlreadyDone`, changing nothing, exactly when the session is done; otherwise the new state is that of `DistModel.AddChunk` |
| Dist.IncompleteJson.CachedJsonParse | dist/index.js:283-301 | the result and the new cache are those of `CachedParse`; nothing else changes |
| Dist.IncompleteJson.Done | dist/index.js:240-258 | the new state is `DistModel.Done` of the old one |
| Dist.IncompleteJson.ReadValue | dist/index.js:267-282 | the outcome and the new state are `DistModel.ReadValue` of the old state |
| Dist.IncompleteJson.Parse | dist/index.js:7-16 | the outcome is `DistModel.Parse` of the text and options |
| DistSafety.StringCharStep | dist/index.js:152-161 | in a string, a character other than a quote is appended; it marks after itself in a value string when partial strings are allowed; context and closers stay |
| DistSafety.StringEndStep | dist/index.js:162-188 | the closing quote is appended and leaves string mode; when partial strings are allowed it pops the owed quote and marks after itself unless a key was read |
| DistSafety.OpenStep | dist/index.js:135-142 | `{` or `[` outside a string appends the envelope head, pushes `}}` or `]}` and `key` or `arr`, and marks at the new end |
| DistSafety.CloseStep | dist/index.js:130-147 | `}` or `]` outside a string appends the closer and the envelope tail, drops two closers, pops one context, and marks at the new end |
| DistSafety.QuoteStep | dist/index.js:177-188 | an opening quote enters string mode; with partial strings allowed it owes `"` and, in a value context, marks after itself |
| DistSafety.CommaStep | dist/index.js:189-196 | a comma is appended, marks just before itself, and flips `val` to `key` (never `arr`) |
| DistSafety.ColonStep | dist/index.js:198-202 | a colon after a key is appended and flips `key` to `val`; no checkpoint |
| DistSafety.OtherStep | dist/index.js:111-122 | any other character outside a string is appended and sets number mode as `!isNaN(+c)` says, so whitespace enters number mode too; `e . E` in number mode marks one character back |
| DistInvariant.FreshInv | dist/index.js:45-54 | a new session holds the invariant for the empty text |
| DistInvariant.AddChunkSafe | dist/index.js:68-220 | on an unfinished session whose raw text plus the chunk is still a prefix of a JSON text, `addChunk` succeeds and keeps the invariant |
| DistInvariant.FeedAllSafe | dist/index.js:68-220 | however a prefix of a JSON text is split into chunks, every `addChunk` succeeds and the invariant holds for the whole text |
| DistInvariant.StreamSafe | dist/index.js:267-282 | for any split of a prefix of a JSON text, `readValue` never meets a syntax error, before or after `done` |
| DistInvariant.ParseSafe | dist/index.js:7-16 | the static `parse` of a prefix of a JSON text never fails with a syntax error |
| DistInvariant.ReadValueSafe | dist/index.js:267-282 | reading a session whose checkpoint stands for a JSON text never meets a syntax error and keeps that property |
| DistInvariant.ReadValueInv | dist/index.js:267-282 | `readValue` keeps the session invariant |
| DistInvariant.DoneReadable | dist/index.js:240-258 | after `done`, the checkpoint still stands for a JSON text or holds its value |
| DistInvariant.ClosersLength | dist/index.js:130-147 | the context is as deep as the raw text's nesting; the closers are two per open container, plus the owed quote while inside any string, key or value, when partial strings are allowed |
| DistInvariant.CompleteText | dist/index.js:240-246 | once the raw text is a whole JSON text, nothing is withheld, nothing is owed, and the buffer is a JSON text |
| DistInvariant.DoneComplete | dist/index.js:240-251 | `done` after a whole JSON text checkpoints the end of the buffer, with no closers and a result, unless the reviver throws (that it does not throw, and what the result is, is `DistConverge.DoneWhole`) |
| DistProps.FeedSplit | dist/index.js:77-219 | running the loop over `s` and then over `t`, with what was withheld in front, is running it over `s + t` |
| DistProps.ChunkSplit | dist/index.js:68-220 | `addChunk(a)` then `addChunk(b)` leaves the session as `addChunk(a + b)` does, even when the split falls inside an escape |
| DistProps.IterWithholds | dist/index.js:82-110 | an iteration withholds nothing, or all of what is left when it is a cut-off escape |
| DistProps.IterEscape | dist/index.js:82-110 | a backslash and the rest of its escape (six characters for `\u`, two otherwise) are appended together when all are present; otherwise the rest of `toConsume` is withheld and nothing is appended |
| DistProps.CharStepKeeps | dist/index.js:111-218 | one character never changes what is withheld, the done flag or the cache |
| DistProps.FeedKeeps | dist/index.js:79-219 | the loop never sets the done flag |
| DistProps.DoneFinal | dist/index.js:69-70 | `done` sets the flag; a second `done` changes nothing; `addChunk` then fails with `AlreadyDone`; `addChunk` fails exactly on a finished session |
| DistForward.CharStepGrows | dist/index.js:72-75 | one character only grows the buffer; a new checkpoint lies at or after the old one and within the buffer |
| DistForward.FeedGrows | dist/index.js:79-219 | the loop only grows the buffer and never moves the checkpoint back |
| DistForward.AddChunkGrows | dist/index.js:68-220 | `addChunk` only grows the buffer and never moves the checkpoint back |
| DistForward.DoneGrows | dist/index.js:240-251 | `done` never moves the checkpoint back; a new checkpoint is at `consumed.length` |
| DistForward.ReadValueGrows | dist/index.js:267-282 | `readValue` keeps the buffer and the checkpoint's index |
| DistRead.CachedParseSound | dist/index.js:283-301 | on any text but the empty one, `cachedJSONParse` gives what `JSON.parse` with the reviver gives, and the cache stays sound |
| DistRead.ReadValueOnce | dist/index.js:267-282 | `undefined` on an empty buffer or with no checkpoint; otherwise the checkpoint's text is decoded once, and a second read gives the same value and changes nothing |
| DistRead.DoneOutcome | dist/index.js:240-258 | `done` decodes the buffer with its closers: on success the checkpoint moves to the buffer's end with the value; on failure the old one stays |
| DistRead.ReviveOpenEnvelope | dist/index.js:288-297 | an envelope whose container is still open becomes the wrapped container with the flag `false` |
| DistRead.ReviveClosedEnvelope | dist/index.js:130-147 | once the closer is consumed, the envelope's second sentinel member sets the flag to `true` |
| DistRead.UnitsUtf16 | dist/index.js:288-297 | the code units the reviver compares an envelope key by are the key's UTF-16 encoding, for a key without characters above U+FFFF |
| DistRead.TopLevelNumber | dist/index.js:225-251 | digits alone, without a leading zero or `0` itself, give `undefined` before `done` and the number after it |
| DistRead.ParseNumber | dist/index.js:7-16 | `parse` of digits gives the number, or `undefined` when partial numbers are prohibited, since `done` is then skipped |
| Json.SurrogatePair | dist/index.js:286-297 | `JSON.parse` works on UTF-16: a character above U+FFFF and its escaped surrogate pair decode to the same two code units |
| DistConverge.ReviveAug | dist/index.js:283-301 | the reviver turns a document whose containers all sit in closed envelopes back into the document, every object and array flagged as finished, provided no key is the sentinel |
| DistConverge.DeliverLift | dist/index.js:130-151 | a value completed in the raw text, with its envelopes, lands in the buffer decoder where the raw value lands in the raw decoder |
| DistConverge.StepLift | dist/index.js:123-161 | in a string, and for any character but a bracket outside one, the buffer decoder's step on the character is the lifted raw step, failures included |
| DistConverge.HeadExact | dist/index.js:135-142 | the envelope head read where a value may start opens an envelope whose first sentinel member is `false` and expects the wrapped value |
| DistConverge.TailExact | dist/index.js:130-147 | the envelope tail read after the wrapped container adds the sentinel member `true` and closes the envelope |
| DistConverge.OpenLift | dist/index.js:135-142 | `{` or `[` outside a string: the envelope head plus the bracket take the buffer decoder to the lifted raw step |
| DistConverge.CloseLift | dist/index.js:130-147 | `}` or `]` outside a string: the bracket plus the envelope tail take the buffer decoder to the lifted raw step |
| DistConverge.FeedLift | dist/index.js:76-219 | the loop keeps the buffer's decoder the lift of the raw decoder whenever the raw text is outside a string, and never touches the cache |
| DistConverge.FeedWhole | dist/index.js:68-219 | fed a whole JSON text, the buffer is a JSON text: the document with every container in a closed envelope |
| DistConverge.DoneWhole | dist/index.js:240-282 | after a whole JSON text, `done` succeeds and `readValue` gives the document with every container flagged as finished |
| DistConverge.ParseComplete | dist/index.js:7-16 | the static `parse` of a whole JSON text gives the document with every container flagged as finished, unless partial numbers are prohibited and the text ends in a digit or dot (the final assertion of `testParseAllPrefixes`, test/spec.test.ts:97-100) |
| DistConverge.FeedAllFlat | dist/index.js:68-220 | feeding chunks one `addChunk` at a time succeeds and is feeding their concatenation at once |
| DistConverge.StreamComplete | dist/index.js:68-282 | however a whole JSON text is split into chunks, every `addChunk` succeeds, and `done` then `readValue` give the document with every container flagged as finished (the final assertion of `testParseAllReadables`, test/stream.test.ts:94-95) |
| NoAlloc.IncompleteJson.constructor | rand/index.no-alloc.ts:120-133 | a new session: empty buffer, nothing withheld, no closers, empty context, no checkpoint, cache `("", undefined)` |
| NoAlloc.IncompleteJson.MarkTruncateSpot | rand/index.no-alloc.ts:144-148 | the checkpoint becomes `consumedNoAlloc.length + delta + 1` with the joined closers; nothing else changes |
| NoAlloc.IncompleteJson.ConsumeEscape | rand/index.no-alloc.ts:158-187 | a backslash in a string: the object and the next index are those of `NaEscapeAt` |
| NoAlloc.IncompleteJson.PopInPlace | rand/index.no-alloc.ts:215-223 | any character equal to the innermost closer pops it and marks at `i`, unless the context is `key` |
| NoAlloc.IncompleteJson.SymbolAndQuoteInPlace | rand/index.no-alloc.ts:225-242 | `e . E` outside a string marks at `i - 1`; a quote owes `"` when it opens a string and toggles string mode |
| NoAlloc.IncompleteJson.SeparatorInPlace | rand/index.no-alloc.ts:244-259 | a comma marks at `i - 1` and flips `val` to `key`; a colon flips `key` to `val` |
| NoAlloc.IncompleteJson.NestInPlace | rand/index.no-alloc.ts:261-278 | `[` and `{` push their context and closer and mark at `i`; `}` and `]` pop the context |
| NoAlloc.IncompleteJson.ConsumeChar | rand/index.no-alloc.ts:197-278 | one character at index `i`: the object is `NaCharStep` of its old state |
| NoAlloc.IncompleteJson.Iterate | rand/index.no-alloc.ts:155-279 | one loop iteration: the object and the next index are those of `NaIter` |
| NoAlloc.IncompleteJson.Consume | rand/index.no-alloc.ts:155-279 | the loop leaves the object in the state `NaFeed` computes |
| NoAlloc.IncompleteJson.AddChunk | rand/index.no-alloc.ts:140-285 | fails with `AlreadyDone`, changing nothing, exactly when done; otherwise the state is that of `NaAddChunk` |
| NoAlloc.IncompleteJson.CachedJsonParse | rand/index.no-alloc.ts:347-356 | the result and the cache are those of `NaCachedParse`; nothing else changes |
| NoAlloc.IncompleteJson.Done | rand/index.no-alloc.ts:306-322 | the new state is `NaDone` of the old one |
| NoAlloc.IncompleteJson.ReadValue | rand/index.no-alloc.ts:332-345 | the outcome and the new state are `NaReadValue` of the old state |
| NoAlloc.IncompleteJson.Parse | rand/index.no-alloc.ts:67-81 | the outcome is `NaParse` of the text and options |
| NoAllocProps.NaCharStepKeeps | rand/index.no-alloc.ts:197-278 | one character keeps the buffer, what is withheld, the flag and the cache, and marks only at `i` or `i + 1` past the buffer's end |
| NoAllocProps.NaIterKeeps | rand/index.no-alloc.ts:155-187 | one iteration keeps the buffer; what it withholds is a cut-off escape at the end of `toConsume`, after which the loop is over |
| NoAllocProps.NaIterEscape | rand/index.no-alloc.ts:159-187 | a backslash in a string is withheld with the rest of `toConsume` exactly when its escape is cut off, and changes nothing otherwise; the loop goes on seven characters later after `\u`, two otherwise |
| NoAllocProps.NaFeedKeeps | rand/index.no-alloc.ts:155-279 | the loop keeps the buffer, the flag and the cache, withholds at most a cut-off escape, and marks from `i` up to `toConsume.length` past the buffer's end |
| NoAllocProps.NaAddChunkBuffer | rand/index.no-alloc.ts:140-285 | on an unfinished session the buffer grows by `chunk.slice(0, chunk.length - unconsumed.length)`, and new checkpoints lie from the old end up to `unconsumed.length + chunk.length` past it |
| NoAllocProps.NaDoneFinal | rand/index.no-alloc.ts:306-308 | `done` sets the flag; a second one changes nothing; `addChunk` fails exactly on a finished session |
| NoAllocProps.NaCachedParseSound | rand/index.no-alloc.ts:347-356 | on any text but the empty one, `cachedJSONParse` gives what `JSON.parse` gives, and the cache stays sound |
| NoAllocProps.NaDoneOutcome | rand/index.no-alloc.ts:306-322 | `done` decodes the buffer with its closers: on success the checkpoint is at the buffer's end with the value; on failure the old one stays |
| NoAllocProps.NaReadValueOnce | rand/index.no-alloc.ts:332-345 | `undefined` on an empty buffer or with no checkpoint; otherwise the checkpoint's text is decoded once, an error reaches the caller, and a second read after a success gives the same value |
| NoAllocProps.LostEscape | rand/index.no-alloc.ts:177-184 | the chunks `"a\` and `n"` leave the buffer `"an"` and read as `an`, while the text is `a` and a line feed; the checkpoint is at 5 in a 4-character buffer |
| NoAllocProps.TrueCutOff | rand/index.no-alloc.ts:225-231 | after the chunk `[true`, the checkpoint is at 4 with `]`, so `readValue` decodes `[tru]` and fails with a syntax error; the static `parse` gives `[true]` |
| NoAllocProps.UnicodeSkip | rand/index.no-alloc.ts:164-176 | after a complete `\u` escape the loop skips one character, so `parse` of the JSON text `"A"` gives `undefined` |
| NoAllocProps.NegativeSlice | rand/index.no-alloc.ts:281-284 | the chunks `"\`, `u0`, `041"` leave the buffer `"u041"`, still inside a string: a negative slice end appends a withheld `u` |

## Left out

- `fromReadable`, `ReadableFromOpenAIResponse`, `PollyfillTextDecoderStream`
  and `AsAsyncIterable` are left out. They are stream, async and
  text-decoding plumbing around the session.
- `JSON.parse` is not called. The decoder of `json.dfy` stands for it. A
  number keeps its lexeme (`VNum(text)`); the conversion to a double is
  floating point and is not modelled.
- `Math.random` is not modelled (dist/index.js:57-61). The sentinel field
  name is the constant `"__sentinel"`, assumed absent from the document as
  a key.
- `console.error` is not modelled (dist/index.js:277). The error that
  follows it is returned as a `Failure`.
- Exceptions are not modelled as such. A thrown error is a `Failure` value,
  and the state a method leaves is as it is at the throw.
- Object property order is not modelled as JavaScript enumerates it.
  JavaScript lists integer-like keys (`"0"`, `"1"`, ...) first, in
  ascending order. The model keeps an object's members in order of first
  occurrence in the text, so for `{"b":1,"1":2}` its member order differs
  from the object's.
- `ItemDoneStreaming` is a symbol-keyed property on the decoded object. It
  is modelled as the field `doneStreaming` of `VArr` and `VObj`.
- DistInvariant.StreamSafe: states there is no `SyntaxError`, not that
  there is no error at all. The reviver throws a `TypeError` when an
  object has the sentinel key and its `value` is missing, `null` or not
  an object or array (`Unwrap`). For a prefix read before the end, only an
  envelope built by the session and holding a container is proved not to
  do so (`ReviveOpenEnvelope`, `ReviveClosedEnvelope`). For a whole JSON
  text the read is proved to succeed (`DistConverge.StreamComplete`). The
  same holds for ReadValueSafe and ParseSafe.
- DistInvariant.DoneComplete: leaves the reviver's `TypeError` as a
  possible outcome. `DistConverge.DoneWhole` and `StreamComplete` prove
  that it does not occur and give the value, for a document without the
  sentinel key.
- DistRead.ReviveClosedEnvelope: is shown on one envelope, not across a
  partial read. That every closed container of a checkpoint before the
  end is flagged `true`, and every open one `false`, is not proved. For a
  whole text, `DistConverge.ReviveAug` and `ParseComplete` prove that
  every container is flagged `true`.
- DistConverge.ParseComplete, DistConverge.StreamComplete: require that
  no key of the document is the sentinel name. The model fixes that name,
  where the code draws it at random.
- DistRead.CachedParseSound and NoAllocProps.NaCachedParseSound require a
  non-empty text. The initial cache entry has key `""` and value
  `undefined`, so `cachedJSONParse("")` gives `undefined` without calling
  `JSON.parse`. This is what the code does (dist/index.js:283-285,
  rand/index.no-alloc.ts:347-349).
- The no-alloc session has no safety theorem. As written it is not safe:
  `TrueCutOff` shows a prefix of a JSON text on which `readValue` throws.
- JavaScript strings are modelled as `seq<char>`. Buffer and chunk
  indices count characters, not UTF-16 code units, so a character above
  U+FFFF counts as one where JavaScript counts two. Decoded string values
  are UTF-16 code units, with such a character split into its surrogate
  pair (`Json.SurrogatePair`). The envelope keys the reviver looks up are
  compared as code units; for a key without characters above U+FFFF
  these are its UTF-16 encoding (`DistRead.UnitsUtf16`).

The model keeps these behaviours of the code, which a reader might not
expect:

- The closers are not one per open container. They are two per container
  (the closer and the envelope's `}`), plus the owed quote inside any
  string, key or value (`ClosersLength`).
- A top-level number made only of digits, such as `42`, records no
  checkpoint and is emitted only through `done` (`TopLevelNumber`). When
  partial strings are allowed, a top-level string records one at its
  closing quote; with them prohibited, none is recorded before `done`.
  Unless partial numbers are prohibited, a `.` or `e` of a top-level
  number records one just before itself.
- Only `e`, `E` and `.` cut a number short, not `+` or `-`.
- A decoder failure in `readValue` is rethrown as the decoder's
  `SyntaxError`. It is not a distinct error kind.
- Number mode is entered on whitespace as well as digits, because `+" "` is
  0 (`OtherStep`).
