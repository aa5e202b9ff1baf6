/** The offset-only session of rand/index.no-alloc.ts, as written, as
    functions on its state. It keeps no augmented buffer: `consumedNoAlloc`
    grows by each chunk after the loop, checkpoints are offsets counted
    from the loop's index in `toConsume`, there are no envelopes and no
    number mode, and its decoder has an identity reviver. The class in
    na.dfy runs the same steps in place and is proved equal to these
    functions. */
module NoAllocModel {
  import opened Wrappers
  import opened Json
  import opened DistModel

  /** The session's state. `closers` is the array `charsNeededToClose`
      of one-character strings, innermost first, so its `join("")` is the
      sequence itself. */
  datatype NaMachine = NaMachine(
    consumed: string,
    unconsumed: string,
    inString: bool,
    closers: seq<char>,
    context: seq<Ctx>,
    isDone: bool,
    trunc: Option<Checkpoint>,
    cache: Cache)

  /** A new session (rand/index.no-alloc.ts:121-133, 347). */
  const NaFresh: NaMachine := NaMachine("", "", false, [], [], false, None, Cache("", Undefined))

  /** `markTruncateSpot(delta)` (rand/index.no-alloc.ts:144-148): the
      offset is the buffer's length before the chunk plus `delta + 1`, with
      `delta` an index into `toConsume`. */
  function NaMark(m: NaMachine, delta: int): (r: NaMachine)
    ensures r == m.(trunc := r.trunc)
    ensures r.trunc == Some(Checkpoint(|m.consumed| + delta + 1, m.closers, None))
  {
    m.(trunc := Some(Checkpoint(|m.consumed| + delta + 1, m.closers, None)))
  }

  /** A backslash inside a string at `s[i]` (rand/index.no-alloc.ts:159-187):
      nothing is appended or marked; a cut-off escape becomes `unconsumed`.
      After `\u` the index moves on by seven: past the escape and the
      character after it. */
  function NaEscapeAt(m: NaMachine, s: string, i: nat): (r: (NaMachine, nat))
    requires i < |s| && s[i] == '\\'
    ensures r.1 > i + 1
  {
    if i + 1 < |s| && s[i + 1] == 'u' then
      if i + 5 < |s| then (m, i + 7) else (m.(unconsumed := s[i..]), i + 7)
    else if i + 1 < |s| then (m, i + 2)
    else (m.(unconsumed := [s[i]]), i + 2)
  }

  /** Inside a string (rand/index.no-alloc.ts:201-213). */
  function NaStringChar(opts: Options, m: NaMachine, i: nat): NaMachine
  {
    if !TopIs(m.context, KeyCtx) && !opts.prohibitPartialStrings then NaMark(m, i) else m
  }

  /** Any character equal to the innermost closer pops it
      (rand/index.no-alloc.ts:216-223). */
  function NaPop(m: NaMachine, i: nat, c: char): NaMachine
  {
    if |m.closers| > 0 && c == m.closers[0] then
      var t := m.(closers := m.closers[1..]);
      if !TopIs(t.context, KeyCtx) then NaMark(t, i) else t
    else m
  }

  /** `e`, `.` or `E` outside a string, in or out of a number
      (rand/index.no-alloc.ts:225-231). */
  function NaNumberSymbol(opts: Options, m: NaMachine, i: nat, c: char): NaMachine
  {
    if !m.inString && !opts.prohibitPartialNumbers && (c == 'e' || c == '.' || c == 'E') then NaMark(m, i - 1)
    else m
  }

  /** A quote (rand/index.no-alloc.ts:233-242). */
  function NaQuote(opts: Options, m: NaMachine, c: char): NaMachine
  {
    if c == '"' then
      var t := if !opts.prohibitPartialStrings && !m.inString then m.(closers := ['"'] + m.closers) else m;
      t.(inString := !t.inString)
    else m
  }

  /** Comma and colon (rand/index.no-alloc.ts:244-259). */
  function NaSeparator(m: NaMachine, i: nat, c: char): NaMachine
  {
    if c == ',' then
      var t := NaMark(m, i - 1);
      if TopIs(t.context, ValCtx) then t.(context := [KeyCtx] + t.context[1..]) else t
    else if c == ':' && TopIs(m.context, KeyCtx) then
      m.(context := [ValCtx] + m.context[1..])
    else m
  }

  /** Opening and closing a container (rand/index.no-alloc.ts:262-278). */
  function NaNest(m: NaMachine, i: nat, c: char): NaMachine
  {
    var m1 := if c == '[' then NaMark(m.(context := [ArrCtx] + m.context, closers := [']'] + m.closers), i) else m;
    var m2 := if c == '{' then NaMark(m1.(context := [KeyCtx] + m1.context, closers := ['}'] + m1.closers), i) else m1;
    if c == '}' || c == ']' then m2.(context := Shift(m2.context)) else m2
  }

  /** One character at index `i` that does not start an escape
      (rand/index.no-alloc.ts:197-278). */
  function NaCharStep(opts: Options, m: NaMachine, i: nat, c: char): NaMachine
  {
    if m.inString && c != '"' then NaStringChar(opts, m, i)
    else NaNest(NaSeparator(NaQuote(opts, NaNumberSymbol(opts, NaPop(m, i, c), i, c), c), i, c), i, c)
  }

  /** One iteration of the loop at index `i` of `toConsume`; returns the
      new state and the index of the next iteration. */
  function NaIter(opts: Options, m: NaMachine, s: string, i: nat): (r: (NaMachine, nat))
    requires i < |s|
    ensures r.1 > i
  {
    if m.inString && s[i] == '\\' then NaEscapeAt(m, s, i)
    else (NaCharStep(opts, m, i, s[i]), i + 1)
  }

  /** The loop from index `i` on (rand/index.no-alloc.ts:155-279). */
  function NaFeed(opts: Options, m: NaMachine, s: string, i: nat): NaMachine
    decreases |s| - i
  {
    if i >= |s| then m
    else
      var r := NaIter(opts, m, s, i);
      NaFeed(opts, r.0, s, r.1)
  }

  /** `addChunk(chunk)` (rand/index.no-alloc.ts:140-285): the loop over
      what was withheld and the chunk, then the buffer grows by
      `chunk.slice(0, chunk.length - unconsumed.length)`, whose end counts
      from the back of the chunk when it is negative. */
  function NaAddChunk(opts: Options, m: NaMachine, chunk: string): Result<NaMachine, Error>
  {
    if m.isDone then Failure(AlreadyDone)
    else
      var fed := NaFeed(opts, m.(unconsumed := ""), m.unconsumed + chunk, 0);
      Success(fed.(consumed := fed.consumed + SliceTo(chunk, |chunk| - |fed.unconsumed|)))
  }

  /** What `JSON.parse` builds from a decoded text: objects get one
      property per key, at its first place, with its last value. */
  function Plain(v: Json): Value
    decreases v
  {
    match v
    case Null => VNull
    case Bool(b) => VBool(b)
    case Num(t) => VNum(t)
    case Str(u) => VStr(u)
    case Arr(items) => VArr(seq(|items|, i requires 0 <= i < |items| => Plain(items[i])), None)
    case Obj(ms) => VObj(Dedupe(seq(|ms|, i requires 0 <= i < |ms| => (ms[i].key, Plain(ms[i].value)))), None)
  }

  /** `cachedJSONParse(str)` (rand/index.no-alloc.ts:348-356), whose
      reviver returns every value as it is. */
  function NaCachedParse(c: Cache, s: string): (Result<Read, Error>, Cache)
  {
    if s == c.key then (Success(c.value), c)
    else
      match Decode(s)
      case Some(j) => (Success(Defined(Plain(j))), Cache(s, Defined(Plain(j))))
      case None => (Failure(SyntaxError), c)
  }

  /** `done()` (rand/index.no-alloc.ts:306-322). */
  function NaDone(m: NaMachine): NaMachine
  {
    if m.isDone then m
    else
      var r := NaCachedParse(m.cache, m.consumed + m.closers);
      match r.0
      case Success(v) =>
        m.(isDone := true, trunc := Some(Checkpoint(|m.consumed|, m.closers, Some(v))), cache := r.1)
      case Failure(_) => m.(isDone := true, cache := r.1)
  }

  /** The text a checkpoint stands for (rand/index.no-alloc.ts:339-340). */
  function NaCutText(m: NaMachine, t: Checkpoint): string
  {
    SliceTo(m.consumed, t.index) + t.append
  }

  /** `readValue()` (rand/index.no-alloc.ts:332-345): the outcome and the
      new state; a decoder error is not caught. */
  function NaReadValue(m: NaMachine): (Result<Read, Error>, NaMachine)
  {
    if m.consumed == [] || m.trunc.None? then (Success(Undefined), m)
    else
      var t := m.trunc.value;
      match t.result
      case Some(v) => (Success(v), m)
      case None =>
        var r := NaCachedParse(m.cache, NaCutText(m, t));
        match r.0
        case Success(v) => (Success(v), m.(trunc := Some(t.(result := Some(v))), cache := r.1))
        case Failure(e) => (Failure(e), m.(cache := r.1))
  }

  /** The static `parse(string, options)` (rand/index.no-alloc.ts:67-81). */
  function NaParse(text: string, opts: Options): Result<Read, Error>
  {
    if text == [] then Success(Undefined)
    else
      var fed := NaAddChunk(opts, NaFresh, text).value;
      var finished := if !opts.prohibitPartialNumbers || !EndsInDigitOrDot(text) then NaDone(fed) else fed;
      NaReadValue(finished).0
  }
}
