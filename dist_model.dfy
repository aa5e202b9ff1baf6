/** The session of dist/index.js (class `IncompleteJson`) as functions on
    its state: one iteration of the `addChunk` loop (`Iter`), the whole loop
    (`Feed`), `done`, `readValue`, `cachedJSONParse` with its reviver, and the
    static `parse`. The class in dist.dfy runs the same steps in place and is
    proved equal to these functions. */
module DistModel {
  import opened Wrappers
  import opened Json

  /** Stands for the per-session random key of the envelopes; it is assumed
      never to occur in the document. */
  const Sentinel: string := "__sentinel"

  /** The key under which an envelope holds the container it wraps. */
  const RawLiteral: string := "value"

  /** What `{`, `[`, `}` and `]` outside a string become in the buffer: an
      envelope object whose sentinel member says whether the container it
      wraps under "value" has been closed. */
  const EnvelopeHead: string := "{\"" + Sentinel + "\": false, \"" + RawLiteral + "\": "
  const EnvelopeTail: string := ", \"" + Sentinel + "\": true}"
  const OpenObject: string := EnvelopeHead + "{"
  const OpenArray: string := EnvelopeHead + "["
  const CloseObject: string := "}" + EnvelopeTail
  const CloseArray: string := "]" + EnvelopeTail

  /** Lexical context of an open container: an object before or after the
      colon of its current member, or an array. */
  datatype Ctx = KeyCtx | ValCtx | ArrCtx

  datatype Options = Options(prohibitPartialStrings: bool, prohibitPartialNumbers: bool)

  /** A value as `readValue` hands it out: a decoded value whose objects and
      arrays may carry the `ItemDoneStreaming` marker. Object members are
      the object's properties, one per key, in order of first occurrence
      in the text. */
  datatype Value =
    | VNull
    | VBool(b: bool)
    | VNum(text: string)
    | VStr(units: seq<int>)
    | VArr(items: seq<Value>, doneStreaming: Option<Value>)
    | VObj(members: seq<(seq<int>, Value)>, doneStreaming: Option<Value>)

  /** What `readValue` and `parse` return: `undefined` or a value. */
  datatype Read = Undefined | Defined(value: Value)

  /** The exceptions: adding to a finished session, and the two errors
      `JSON.parse` with the reviver can throw. */
  datatype Error = AlreadyDone | SyntaxError | TypeError

  /** `truncationInfo`: `consumed[0:index] + append` is the text to decode;
      `result` is its decoded value once computed. */
  datatype Checkpoint = Checkpoint(index: int, append: string, result: Option<Read>)

  /** `rawParseCache`: the last text decoded and its value. */
  datatype Cache = Cache(key: string, value: Read)

  datatype Machine = Machine(
    consumed: string,
    unconsumed: string,
    inString: bool,
    inNumber: bool,
    closers: string,
    context: seq<Ctx>,
    isDone: bool,
    trunc: Option<Checkpoint>,
    cache: Cache)

  /** A new session (dist/index.js:45-54, 283). */
  const Fresh: Machine := Machine("", "", false, false, "", [], false, None, Cache("", Undefined))

  /** JavaScript's WhiteSpace and LineTerminator characters: those that
      `+c` converts to 0. */
  predicate JsWhitespace(c: char)
  {
    c == '\t' || c == '\n' || c == '\U{000B}' || c == '\U{000C}' || c == '\r' || c == ' '
    || c == '\U{00A0}' || c == '\U{1680}' || ('\U{2000}' <= c <= '\U{200A}')
    || c == '\U{2028}' || c == '\U{2029}' || c == '\U{202F}' || c == '\U{205F}'
    || c == '\U{3000}' || c == '\U{FEFF}'
  }

  /** `!isNaN(+c)` for a one-character string `c`. */
  predicate NumberLike(c: char) { IsDigit(c) || JsWhitespace(c) }

  /** `context[0] === k`. */
  predicate TopIs(ctx: seq<Ctx>, k: Ctx) { |ctx| > 0 && ctx[0] == k }

  /** `s.slice(n)`. */
  function Drop(s: string, n: nat): (r: string)
    ensures |s| >= n ==> r == s[n..]
    ensures |s| < n ==> r == []
  {
    if |s| <= n then [] else s[n..]
  }

  /** `context.shift()`. */
  function Shift(ctx: seq<Ctx>): (r: seq<Ctx>)
    ensures ctx != [] ==> r == ctx[1..]
    ensures ctx == [] ==> r == []
  {
    if ctx == [] then [] else ctx[1..]
  }

  /** `markTruncateSpot(delta)`: a checkpoint at the end of the buffer
      (or `delta` from it), closed by a snapshot of the closers. */
  function Mark(m: Machine, delta: int): (r: Machine)
    ensures r == m.(trunc := r.trunc)
    ensures r.trunc == Some(Checkpoint(|m.consumed| + delta, m.closers, None))
  {
    m.(trunc := Some(Checkpoint(|m.consumed| + delta, m.closers, None)))
  }

  /** A backslash inside a string at `s[i]`: the escape is taken whole or
      withheld for the next chunk. Returns the state and the next index. */
  function EscapeAt(m: Machine, s: string, i: nat): (r: (Machine, nat))
    requires i < |s| && s[i] == '\\'
    ensures r.1 > i + 1
  {
    if i + 1 < |s| then
      if s[i + 1] == 'u' then
        if i + 5 < |s| then (m.(consumed := m.consumed + s[i..i + 6]), i + 6)
        else (m.(unconsumed := s[i..]), i + 6)
      else (m.(consumed := m.consumed + s[i..i + 2]), i + 2)
    else (m.(unconsumed := s[i..]), i + 2)
  }

  /** Number mode (dist/index.js:111-122). */
  function TrackNumber(m: Machine, c: char): Machine
  {
    var entered := if !m.inString && NumberLike(c) then true else m.inNumber;
    var left := entered && !NumberLike(c) && c != '-' && c != 'e' && c != '+' && c != 'E' && c != '.';
    m.(inNumber := if left then false else entered)
  }

  /** The characters appended to the buffer for `c`, with the envelopes
      (dist/index.js:130-151). */
  function Inject(m: Machine, c: char): Machine
  {
    if !m.inString && c == '}' then
      Mark(m.(consumed := m.consumed + CloseObject, closers := Drop(m.closers, 2)), 0)
    else if !m.inString && c == '{' then
      m.(consumed := m.consumed + OpenObject, closers := "}" + m.closers)
    else if !m.inString && c == '[' then
      m.(consumed := m.consumed + OpenArray, closers := "}" + m.closers)
    else if !m.inString && c == ']' then
      Mark(m.(consumed := m.consumed + CloseArray, closers := Drop(m.closers, 2)), 0)
    else
      m.(consumed := m.consumed + [c])
  }

  /** A closing quote owed by the closers (dist/index.js:163-169). */
  function PopQuote(m: Machine, c: char): Machine
  {
    if |m.closers| > 0 && c == m.closers[0] && c == '"' then
      var t := m.(closers := m.closers[1..]);
      if !TopIs(t.context, KeyCtx) then Mark(t, 0) else t
    else m
  }

  /** `e`, `.` or `E` in number mode: cut just before it (dist/index.js:170-176). */
  function NumberSymbol(opts: Options, m: Machine, c: char): Machine
  {
    if m.inNumber && !opts.prohibitPartialNumbers && (c == 'e' || c == '.' || c == 'E') then Mark(m, -1)
    else m
  }

  /** A quote toggles string mode; an opening one owes a closing quote
      (dist/index.js:177-188). */
  function Quote(opts: Options, m: Machine, c: char): Machine
  {
    if c == '"' then
      var t := m.(inString := !m.inString);
      if !opts.prohibitPartialStrings && t.inString then
        var u := t.(closers := "\"" + t.closers);
        if !TopIs(u.context, KeyCtx) then Mark(u, 0) else u
      else t
    else m
  }

  /** Comma and colon (dist/index.js:189-202). */
  function Separator(m: Machine, c: char): Machine
  {
    if c == ',' then
      var t := Mark(m, -1);
      if TopIs(t.context, ValCtx) then t.(context := [KeyCtx] + t.context[1..]) else t
    else if c == ':' && TopIs(m.context, KeyCtx) then
      m.(context := [ValCtx] + m.context[1..])
    else m
  }

  /** Opening and closing a container (dist/index.js:204-218). */
  function Nest(m: Machine, c: char): Machine
  {
    var m1 := if c == '[' then Mark(m.(context := [ArrCtx] + m.context, closers := "]" + m.closers), 0) else m;
    var m2 := if c == '{' then Mark(m1.(context := [KeyCtx] + m1.context, closers := "}" + m1.closers), 0) else m1;
    if c == '}' || c == ']' then m2.(context := Shift(m2.context)) else m2
  }

  /** One character that does not start an escape (dist/index.js:111-218). */
  function CharStep(opts: Options, m: Machine, c: char): Machine
  {
    var m1 := Inject(TrackNumber(m, c), c);
    if m.inString && c != '"' then
      if !TopIs(m1.context, KeyCtx) && !opts.prohibitPartialStrings then Mark(m1, 0) else m1
    else
      Nest(Separator(Quote(opts, NumberSymbol(opts, PopQuote(m1, c), c), c), c), c)
  }

  /** One iteration of the loop of `addChunk` at index `i` of `toConsume`;
      returns the new state and the index of the next iteration. */
  function Iter(opts: Options, m: Machine, s: string, i: nat): (r: (Machine, nat))
    requires i < |s|
    ensures r.1 > i
  {
    if m.inString && s[i] == '\\' then EscapeAt(m, s, i)
    else (CharStep(opts, m, s[i]), i + 1)
  }

  /** The loop of `addChunk` over `s`, the part of `toConsume` it has not
      reached yet: each iteration starts at the head of `s`. */
  function Feed(opts: Options, m: Machine, s: string): Machine
    decreases |s|
  {
    if s == [] then m
    else
      var r := Iter(opts, m, s, 0);
      Feed(opts, r.0, Drop(s, r.1))
  }

  /** `addChunk(chunk)` (dist/index.js:68-220). */
  function AddChunk(opts: Options, m: Machine, chunk: string): Result<Machine, Error>
  {
    if m.isDone then Failure(AlreadyDone)
    else Success(Feed(opts, m.(unconsumed := ""), m.unconsumed + chunk))
  }

  // ---------------------------------------------------------------------
  // Decoding with the reviver of dist/index.js:288-297

  /** The UTF-16 code units of a string without characters above U+FFFF
      (the fixed keys of the envelopes): one unit per character. */
  function Units(s: string): (u: seq<int>)
    requires forall i :: 0 <= i < |s| ==> s[i] as int < 0x10000
    ensures |u| == |s| && forall i :: 0 <= i < |s| ==> u[i] == s[i] as int
  {
    seq(|s|, i requires 0 <= i < |s| => s[i] as int)
  }

  function IndexOfKey<V>(ms: seq<(seq<int>, V)>, k: seq<int>): (r: Option<nat>)
    ensures r.Some? ==> r.value < |ms| && ms[r.value].0 == k
    ensures r.Some? ==> forall i :: 0 <= i < r.value ==> ms[i].0 != k
    ensures r.None? ==> forall i :: 0 <= i < |ms| ==> ms[i].0 != k
  {
    if ms == [] then None
    else if ms[0].0 == k then Some(0)
    else
      match IndexOfKey(ms[1..], k)
      case None => None
      case Some(j) => Some(j + 1)
  }

  /** The properties `JSON.parse` makes of an object's members: one per
      key, at the place of its first occurrence, with its last value. */
  function Dedupe<V>(ms: seq<(seq<int>, V)>): seq<(seq<int>, V)>
    decreases |ms|
  {
    if ms == [] then []
    else
      var acc := Dedupe(ms[..|ms| - 1]);
      var last := ms[|ms| - 1];
      match IndexOfKey(acc, last.0)
      case Some(j) => acc[j := last]
      case None => acc + [last]
  }

  /** The reviver's work on an object whose properties are already
      revived: an envelope (it has the sentinel key) gives back the
      container under "value" with the flag attached as `ItemDoneStreaming`. */
  function Unwrap(props: seq<(seq<int>, Value)>): Result<Value, Error>
  {
    match IndexOfKey(props, Units(Sentinel))
    case None => Success(VObj(props, None))
    case Some(f) =>
      match IndexOfKey(props, Units(RawLiteral))
      case None => Failure(TypeError)
      case Some(j) =>
        var raw := props[j].1;
        if raw.VArr? || raw.VObj? then Success(raw.(doneStreaming := Some(props[f].1)))
        else Failure(TypeError)
  }

  /** `JSON.parse`'s walk with the reviver, innermost values first. */
  function Revive(v: Json): Result<Value, Error>
    decreases v
  {
    match v
    case Null => Success(VNull)
    case Bool(b) => Success(VBool(b))
    case Num(t) => Success(VNum(t))
    case Str(u) => Success(VStr(u))
    case Arr(items) =>
      var rs := seq(|items|, i requires 0 <= i < |items| => Revive(items[i]));
      if forall i :: 0 <= i < |rs| ==> rs[i].Success? then
        Success(VArr(seq(|rs|, i requires 0 <= i < |rs| && rs[i].Success? => rs[i].value), None))
      else Failure(TypeError)
    case Obj(ms) =>
      var rs := seq(|ms|, i requires 0 <= i < |ms| => (ms[i].key, Revive(ms[i].value)));
      var props := Dedupe(rs);
      if forall i :: 0 <= i < |props| ==> props[i].1.Success? then
        Unwrap(seq(|props|, i requires 0 <= i < |props| && props[i].1.Success? => (props[i].0, props[i].1.value)))
      else Failure(TypeError)
  }

  /** `JSON.parse(str, reviver)`. */
  function ParseRevive(s: string): Result<Value, Error>
  {
    match Decode(s)
    case None => Failure(SyntaxError)
    case Some(j) => Revive(j)
  }

  /** `cachedJSONParse(str)` (dist/index.js:284-301): the result and the new cache. */
  function CachedParse(c: Cache, s: string): (Result<Read, Error>, Cache)
  {
    if s == c.key then (Success(c.value), c)
    else
      match ParseRevive(s)
      case Success(v) => (Success(Defined(v)), Cache(s, Defined(v)))
      case Failure(e) => (Failure(e), c)
  }

  /** `done()` (dist/index.js:240-258). */
  function Done(m: Machine): Machine
  {
    if m.isDone then m
    else
      var r := CachedParse(m.cache, m.consumed + m.closers);
      match r.0
      case Success(v) =>
        m.(isDone := true, trunc := Some(Checkpoint(|m.consumed|, m.closers, Some(v))), cache := r.1)
      case Failure(_) => m.(isDone := true, cache := r.1)
  }

  /** `consumed.slice(0, index)`. */
  function SliceTo(s: string, index: int): string
  {
    if index < 0 then s[..if |s| + index < 0 then 0 else |s| + index]
    else s[..if index > |s| then |s| else index]
  }

  /** The text a checkpoint stands for. */
  function CutText(m: Machine, t: Checkpoint): string
  {
    SliceTo(m.consumed, t.index) + t.append
  }

  /** `readValue()` (dist/index.js:267-282): the outcome and the new state. */
  function ReadValue(m: Machine): (Result<Read, Error>, Machine)
  {
    if m.consumed == [] || m.trunc.None? then (Success(Undefined), m)
    else
      var t := m.trunc.value;
      match t.result
      case Some(v) => (Success(v), m)
      case None =>
        var r := CachedParse(m.cache, CutText(m, t));
        match r.0
        case Success(v) => (Success(v), m.(trunc := Some(t.(result := Some(v))), cache := r.1))
        case Failure(e) => (Failure(e), m.(cache := r.1))
  }

  /** `/(\d|\.)$/` */
  predicate EndsInDigitOrDot(s: string)
  {
    |s| > 0 && (IsDigit(s[|s| - 1]) || s[|s| - 1] == '.')
  }

  /** The static `parse(string, options)` (dist/index.js:7-16). */
  function Parse(text: string, opts: Options): Result<Read, Error>
  {
    if text == [] then Success(Undefined)
    else
      var fed := Feed(opts, Fresh, text);
      var finished := if !opts.prohibitPartialNumbers || !EndsInDigitOrDot(text) then Done(fed) else fed;
      ReadValue(finished).0
  }
}
