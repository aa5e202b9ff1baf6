/** Properties of the offset-only session of rand/index.no-alloc.ts, as
    written: the loop keeps the buffer and counts checkpoints from its own
    index, the buffer grows by the chunk less what was withheld, `done` is
    final, `readValue` decodes a checkpoint once. The last part exhibits,
    on concrete inputs, what this variant does differently from the
    session of dist/index.js. */
module NoAllocProps {
  import opened Wrappers
  import opened Json
  import opened DistModel
  import opened NoAllocModel

  /** The parts of the state the loop of `addChunk` never writes. */
  predicate NaKeeps(m: NaMachine, m2: NaMachine)
  {
    m2.consumed == m.consumed && m2.isDone == m.isDone && m2.cache == m.cache
  }

  /** The checkpoint stayed, or a new one without a value lies at an
      offset from `lo` to `hi`. */
  predicate MarksIn(lo: int, hi: int, m: NaMachine, m2: NaMachine)
  {
    m2.trunc == m.trunc || (m2.trunc.Some? && m2.trunc.value.result.None? && lo <= m2.trunc.value.index <= hi)
  }

  /** A cut-off escape at the end of `s`: a backslash and at most four
      more characters. */
  predicate CutEscape(s: string, u: string)
  {
    0 < |u| <= 5 && |u| <= |s| && u[0] == '\\' && u == s[|s| - |u|..]
  }

  /** What is withheld is unchanged, or a cut-off escape at the end of `s`. */
  predicate WithheldFrom(s: string, m: NaMachine, m2: NaMachine)
  {
    m2.unconsumed == m.unconsumed || CutEscape(s, m2.unconsumed)
  }

  lemma {:induction false} MarksWiden(lo: int, hi: int, hi2: int, m: NaMachine, m1: NaMachine, m2: NaMachine)
    requires hi <= hi2 && MarksIn(lo, hi, m, m1) && MarksIn(lo, hi2, m1, m2)
    ensures MarksIn(lo, hi2, m, m2)
  {
  }

  /** A part of one character's step: the buffer, the flag, the cache and
      what is withheld stay, and a new checkpoint lies from `lo` to `hi`. */
  predicate Stage(lo: int, hi: int, m: NaMachine, m2: NaMachine)
  {
    NaKeeps(m, m2) && m2.unconsumed == m.unconsumed && MarksIn(lo, hi, m, m2)
  }

  lemma {:induction false} StageTrans(lo: int, hi: int, m: NaMachine, m1: NaMachine, m2: NaMachine)
    requires Stage(lo, hi, m, m1) && Stage(lo, hi, m1, m2)
    ensures Stage(lo, hi, m, m2)
  {
  }

  lemma {:induction false} MarkStage(m: NaMachine, delta: int)
    ensures Stage(|m.consumed| + delta + 1, |m.consumed| + delta + 1, m, NaMark(m, delta))
  {
  }

  lemma {:induction false} PopStage(m: NaMachine, i: nat, c: char)
    ensures Stage(|m.consumed| + i, |m.consumed| + i + 1, m, NaPop(m, i, c))
  {
    if |m.closers| > 0 && c == m.closers[0] {
      var t := m.(closers := m.closers[1..]);
      if !TopIs(t.context, KeyCtx) {
        MarkStage(t, i);
      }
    }
  }

  lemma {:induction false} SymbolStage(opts: Options, m: NaMachine, i: nat, c: char)
    ensures Stage(|m.consumed| + i, |m.consumed| + i + 1, m, NaNumberSymbol(opts, m, i, c))
  {
    if !m.inString && !opts.prohibitPartialNumbers && (c == 'e' || c == '.' || c == 'E') {
      MarkStage(m, i - 1);
    }
  }

  lemma {:induction false} QuoteStage(opts: Options, m: NaMachine, i: nat, c: char)
    ensures Stage(|m.consumed| + i, |m.consumed| + i + 1, m, NaQuote(opts, m, c))
  {
  }

  lemma {:induction false} SeparatorStage(m: NaMachine, i: nat, c: char)
    ensures Stage(|m.consumed| + i, |m.consumed| + i + 1, m, NaSeparator(m, i, c))
  {
    if c == ',' {
      MarkStage(m, i - 1);
    }
  }

  lemma {:induction false} NestStage(m: NaMachine, i: nat, c: char)
    ensures Stage(|m.consumed| + i, |m.consumed| + i + 1, m, NaNest(m, i, c))
  {
    var lo, hi := |m.consumed| + i, |m.consumed| + i + 1;
    var m1 := if c == '[' then NaMark(m.(context := [ArrCtx] + m.context, closers := [']'] + m.closers), i) else m;
    assert Stage(lo, hi, m, m1);
    var m2 := if c == '{' then NaMark(m1.(context := [KeyCtx] + m1.context, closers := ['}'] + m1.closers), i) else m1;
    assert Stage(lo, hi, m1, m2);
    StageTrans(lo, hi, m, m1, m2);
  }

  /** One character that does not start an escape changes neither the
      buffer nor what is withheld, and marks `i` or `i + 1` past the
      buffer's end. */
  lemma {:induction false} NaCharStepKeeps(opts: Options, m: NaMachine, i: nat, c: char)
    ensures Stage(|m.consumed| + i, |m.consumed| + i + 1, m, NaCharStep(opts, m, i, c))
  {
    var lo, hi := |m.consumed| + i, |m.consumed| + i + 1;
    if m.inString && c != '"' {
      if !TopIs(m.context, KeyCtx) && !opts.prohibitPartialStrings {
        MarkStage(m, i);
      }
    } else {
      var a := NaPop(m, i, c);
      PopStage(m, i, c);
      var b := NaNumberSymbol(opts, a, i, c);
      SymbolStage(opts, a, i, c);
      StageTrans(lo, hi, m, a, b);
      var d := NaQuote(opts, b, c);
      QuoteStage(opts, b, i, c);
      StageTrans(lo, hi, m, b, d);
      var e := NaSeparator(d, i, c);
      SeparatorStage(d, i, c);
      StageTrans(lo, hi, m, d, e);
      NestStage(e, i, c);
      StageTrans(lo, hi, m, e, NaNest(e, i, c));
    }
  }

  /** One iteration: after a withheld escape the loop is over. */
  lemma {:induction false} NaIterKeeps(opts: Options, m: NaMachine, s: string, i: nat)
    requires i < |s|
    ensures var r := NaIter(opts, m, s, i);
      && NaKeeps(m, r.0) && MarksIn(|m.consumed| + i, |m.consumed| + i + 1, m, r.0)
      && (r.0.unconsumed == m.unconsumed || (r.1 >= |s| && CutEscape(s, r.0.unconsumed)))
  {
    if !(m.inString && s[i] == '\\') {
      NaCharStepKeeps(opts, m, i, s[i]);
    } else if i + 1 < |s| && s[i + 1] == 'u' {
      if i + 5 >= |s| {
        assert s[i..] == s[|s| - |s[i..]|..];
      }
    } else if i + 1 >= |s| {
      assert [s[i]] == s[|s| - 1..];
    }
  }

  /** A backslash inside a string appends nothing and records no
      checkpoint. The escape is withheld exactly when it is cut off: a `\u`
      with fewer than four characters after it, or a backslash that ends
      `toConsume`. The loop goes on seven characters later after `\u`, two
      otherwise. */
  lemma {:induction false} NaIterEscape(opts: Options, m: NaMachine, s: string, i: nat)
    requires i < |s| && m.inString && s[i] == '\\'
    ensures var r := NaIter(opts, m, s, i);
      var unicode := i + 1 < |s| && s[i + 1] == 'u';
      var cut := (unicode && i + 5 >= |s|) || i + 1 >= |s|;
      && r.1 == (if unicode then i + 7 else i + 2)
      && (cut ==> r.0 == m.(unconsumed := s[i..]))
      && (!cut ==> r.0 == m)
  {
    if i + 1 >= |s| {
      assert [s[i]] == s[i..];
    }
  }

  /** The loop from index `i` on keeps the buffer, the flag and the cache,
      withholds at most a cut-off escape at the end of `toConsume`, and
      every checkpoint it sets is at least `i` and at most `|toConsume|`
      past the buffer's end. */
  lemma {:induction false} NaFeedKeeps(opts: Options, m: NaMachine, s: string, i: nat)
    ensures var r := NaFeed(opts, m, s, i);
      NaKeeps(m, r) && MarksIn(|m.consumed| + i, |m.consumed| + |s|, m, r) && WithheldFrom(s, m, r)
    decreases |s| - i
  {
    if i < |s| {
      var r := NaIter(opts, m, s, i);
      NaIterKeeps(opts, m, s, i);
      NaFeedKeeps(opts, r.0, s, r.1);
      MarksWiden(|m.consumed| + i, |m.consumed| + i + 1, |m.consumed| + |s|, m, r.0, NaFeed(opts, r.0, s, r.1));
      if r.1 >= |s| {
        assert NaFeed(opts, r.0, s, r.1) == r.0;
      }
    }
  }

  /** `addChunk` on an unfinished session: the buffer grows by the chunk
      cut `|unconsumed|` characters short (from the back, or counted from
      the back again when that is negative), the flag and the cache stay,
      and every new checkpoint lies from the old buffer's end up to
      `|unconsumed| + |chunk|` past it. */
  lemma {:induction false} NaAddChunkBuffer(opts: Options, m: NaMachine, chunk: string)
    requires !m.isDone
    ensures NaAddChunk(opts, m, chunk).Success?
    ensures var r := NaAddChunk(opts, m, chunk).value;
      && r.consumed == m.consumed + SliceTo(chunk, |chunk| - |r.unconsumed|)
      && !r.isDone && r.cache == m.cache
      && MarksIn(|m.consumed|, |m.consumed| + |m.unconsumed| + |chunk|, m, r)
      && (r.unconsumed == [] || CutEscape(m.unconsumed + chunk, r.unconsumed))
  {
    var s := m.unconsumed + chunk;
    NaFeedKeeps(opts, m.(unconsumed := ""), s, 0);
  }

  /** `done` is final: a second call changes nothing, a finished session
      refuses chunks, and `addChunk` fails exactly on a finished session. */
  lemma {:induction false} NaDoneFinal(opts: Options, m: NaMachine, chunk: string)
    ensures NaDone(m).isDone && NaDone(NaDone(m)) == NaDone(m)
    ensures NaAddChunk(opts, NaDone(m), chunk) == Failure(AlreadyDone)
    ensures NaAddChunk(opts, m, chunk).Failure? <==> m.isDone
  {
  }

  // ---------------------------------------------------------------------
  // Decoding

  /** `JSON.parse` with the identity reviver. */
  function NaDecoded(s: string): Result<Read, Error>
  {
    match Decode(s)
    case Some(j) => Success(Defined(Plain(j)))
    case None => Failure(SyntaxError)
  }

  /** The cache holds its initial entry or a text with its decoded value. */
  predicate NaCacheOk(c: Cache)
  {
    c == Cache("", Undefined) || NaDecoded(c.key) == Success(c.value)
  }

  /** On any text but the empty one, `cachedJSONParse` gives what the
      decoder gives, and the cache stays sound. */
  lemma {:induction false} NaCachedParseSound(c: Cache, s: string)
    requires NaCacheOk(c) && s != ""
    ensures NaCachedParse(c, s).0 == NaDecoded(s)
    ensures NaCacheOk(NaCachedParse(c, s).1)
  {
  }

  /** `done` on an unfinished session: on a decodable buffer with its
      closers the checkpoint moves to the buffer's end with the value;
      otherwise the old checkpoint stays. */
  lemma {:induction false} NaDoneOutcome(m: NaMachine)
    requires NaCacheOk(m.cache) && !m.isDone && m.consumed + m.closers != ""
    ensures NaDone(m).isDone && NaCacheOk(NaDone(m).cache)
    ensures NaDone(m).consumed == m.consumed && NaDone(m).closers == m.closers && NaDone(m).context == m.context
    ensures match NaDecoded(m.consumed + m.closers)
      case Success(v) => NaDone(m).trunc == Some(Checkpoint(|m.consumed|, m.closers, Some(v)))
      case Failure(_) => NaDone(m).trunc == m.trunc
  {
    NaCachedParseSound(m.cache, m.consumed + m.closers);
  }

  /** `readValue` gives `undefined`, changing nothing, on an empty buffer
      or without a checkpoint; otherwise it decodes the checkpoint's text
      unless its value is stored, and stores it; an error reaches the
      caller. A second call after a successful one gives the same value and
      changes nothing. */
  lemma {:induction false} NaReadValueOnce(m: NaMachine)
    requires NaCacheOk(m.cache)
    ensures m.consumed == [] || m.trunc.None? ==> NaReadValue(m) == (Success(Undefined), m)
    ensures (m.consumed != [] && m.trunc.Some? && m.trunc.value.result.None? && NaCutText(m, m.trunc.value) != "")
      ==> NaReadValue(m).0 == NaDecoded(NaCutText(m, m.trunc.value))
    ensures NaReadValue(m).0.Success? ==> NaReadValue(NaReadValue(m).1) == NaReadValue(m)
    ensures NaCacheOk(NaReadValue(m).1.cache)
  {
    if m.consumed != [] && m.trunc.Some? && m.trunc.value.result.None? {
      var t := m.trunc.value;
      var text := NaCutText(m, t);
      if text != "" {
        NaCachedParseSound(m.cache, text);
      }
      var r := NaCachedParse(m.cache, text);
      assert NaCacheOk(r.1);
      if r.0.Success? {
        var m2 := m.(trunc := Some(t.(result := Some(r.0.value))), cache := r.1);
        assert NaReadValue(m) == (r.0, m2);
        assert NaReadValue(m2) == (r.0, m2);
      }
    }
  }

  lemma {:induction false} NaFreshCacheOk()
    ensures NaCacheOk(NaFresh.cache)
  {
  }

  // ---------------------------------------------------------------------
  // As written, on concrete inputs

  /** Reading `s` is taking one step and reading the rest. */
  lemma {:induction false} RunStep(st: State, s: string, next: State)
    requires s != [] && Step(st, s[0]) == Some(next)
    ensures Run(st, s) == Run(next, s[1..])
  {
  }

  /** In a string, the escape `\n` stands for a line feed. */
  lemma {:induction false} DecodeNewline()
    ensures Decode("\"a\\n\"") == Some(Str(['a' as int, 0x0A]))
  {
    var done := State(After, [], Str(['a' as int, 0x0A]));
    var st := Start.(mode := InString(false, [], NoEscape));
    var q1 := st.(mode := InString(false, ['a' as int], NoEscape));
    var q2 := st.(mode := InString(false, ['a' as int], Backslash));
    var q3 := st.(mode := InString(false, ['a' as int] + [0x0A], NoEscape));
    assert ['a' as int] + [0x0A] == ['a' as int, 0x0A];
    RunStep(q3, "\"", done);
    assert "\""[1..] == "";
    RunStep(q2, "n\"", q3);
    assert "n\""[1..] == "\"";
    RunStep(q1, "\\n\"", q2);
    assert "\\n\""[1..] == "n\"";
    assert [] + ['a' as int] == ['a' as int];
    RunStep(st, "a\\n\"", q1);
    assert "a\\n\""[1..] == "\\n\"";
    RunStep(Start, "\"a\\n\"", st);
    assert "\"a\\n\""[1..] == "a\\n\"";
  }

  lemma {:induction false} DecodeAn()
    ensures Decode("\"an\"") == Some(Str(['a' as int, 'n' as int]))
  {
    var done := State(After, [], Str(['a' as int, 'n' as int]));
    var st := Start.(mode := InString(false, [], NoEscape));
    var q1 := st.(mode := InString(false, ['a' as int], NoEscape));
    var q2 := st.(mode := InString(false, ['a' as int] + ['n' as int], NoEscape));
    assert ['a' as int] + ['n' as int] == ['a' as int, 'n' as int];
    RunStep(q2, "\"", done);
    assert "\""[1..] == "";
    RunStep(q1, "n\"", q2);
    assert "n\""[1..] == "\"";
    assert [] + ['a' as int] == ['a' as int];
    RunStep(st, "an\"", q1);
    assert "an\""[1..] == "n\"";
    RunStep(Start, "\"an\"", st);
    assert "\"an\""[1..] == "an\"";
  }

  /** The session after the chunk `"a\`: the backslash is withheld. */
  const AfterBackslash := NaMachine("\"a", "\\", true, "\"", [], false, Some(Checkpoint(2, "\"", None)), Cache("", Undefined))

  /** The quote and the letter of `"a\`. */
  lemma {:induction false} QuoteLetter(opts: Options)
    requires !opts.prohibitPartialStrings
    ensures NaFeed(opts, NaFresh, "\"a\\", 0) == NaFeed(opts, AfterBackslash.(consumed := "", unconsumed := ""), "\"a\\", 2)
  {
    var s1 := "\"a\\";
    var f0 := NaFresh;
    var a := f0.(closers := ['"'], inString := true);
    assert NaCharStep(opts, f0, 0, '"') == a;
    assert NaIter(opts, f0, s1, 0) == (a, 1);
    var b := NaMark(a, 1);
    assert NaIter(opts, a, s1, 1) == (b, 2);
    assert b == AfterBackslash.(consumed := "", unconsumed := "");
  }

  lemma {:induction false} LostEscapeFirst(opts: Options)
    requires !opts.prohibitPartialStrings
    ensures NaAddChunk(opts, NaFresh, "\"a\\") == Success(AfterBackslash)
  {
    var s1 := "\"a\\";
    var f0 := NaFresh;
    QuoteLetter(opts);
    var b := AfterBackslash.(consumed := "", unconsumed := "");
    var c := b.(unconsumed := "\\");
    assert NaIter(opts, b, s1, 2) == (c, 4);
    assert NaFeed(opts, b, s1, 2) == c;
    assert "" + s1 == s1 && f0.(unconsumed := "") == f0;
    assert SliceTo(s1, |s1| - |c.unconsumed|) == "\"a";
    assert c.(consumed := c.consumed + "\"a") == AfterBackslash;
  }

  lemma {:induction false} LostEscapeSecond(opts: Options)
    ensures NaAddChunk(opts, AfterBackslash, "n\"")
      == Success(NaMachine("\"an\"", "", false, "", [], false, Some(Checkpoint(5, "", None)), Cache("", Undefined)))
  {
    var s2 := "\\n\"";
    assert AfterBackslash.unconsumed + "n\"" == s2;
    var g0 := AfterBackslash.(unconsumed := "");
    assert NaIter(opts, g0, s2, 0) == (g0, 2);
    var d := NaMark(g0.(closers := []), 2);
    assert d.trunc == Some(Checkpoint(5, "", None));
    assert NaPop(g0, 2, '"') == d;
    var e := d.(inString := false);
    assert NaCharStep(opts, g0, 2, '"') == e;
    assert NaIter(opts, g0, s2, 2) == (e, 3);
    assert NaFeed(opts, g0, s2, 2) == e;
    assert NaFeed(opts, g0, s2, 0) == e;
    assert SliceTo("n\"", 2) == "n\"";
    assert "\"a" + "n\"" == "\"an\"";
  }

  /** A backslash that ends a chunk is withheld, then dropped: it is not
      appended with its own chunk, and the next chunk appends only its own
      characters. So the chunks `"a\` and `n"` leave the buffer `"an"`, and
      `readValue` gives the string `an`, where the text they make up is the
      string `a` followed by a line feed. */
  lemma {:induction false} LostEscape(opts: Options)
    requires !opts.prohibitPartialStrings
    ensures NaAddChunk(opts, NaFresh, "\"a\\").Success?
    ensures var m1 := NaAddChunk(opts, NaFresh, "\"a\\").value;
      && m1.consumed == "\"a" && m1.unconsumed == "\\"
      && NaAddChunk(opts, m1, "n\"").Success?
      && var m2 := NaAddChunk(opts, m1, "n\"").value;
      && m2.consumed == "\"an\""
      && m2.trunc == Some(Checkpoint(5, "", None))
      && NaReadValue(m2).0 == Success(Defined(VStr(['a' as int, 'n' as int])))
    ensures Decode("\"a\\n\"") == Some(Str(['a' as int, 0x0A]))
  {
    LostEscapeFirst(opts);
    LostEscapeSecond(opts);
    var m2 := NaMachine("\"an\"", "", false, "", [], false, Some(Checkpoint(5, "", None)), Cache("", Undefined));
    assert NaCutText(m2, m2.trunc.value) == "\"an\"";
    DecodeAn();
    DecodeNewline();
  }

  // `e` outside a string

  /** The session after the chunk `[true`: the `e` set a checkpoint one
      character back, inside the literal. */
  const AfterTrue := NaMachine("[true", "", false, "]", [ArrCtx], false, Some(Checkpoint(4, "]", None)), Cache("", Undefined))

  /** After `[`: inside an array, closed by `]`, a checkpoint after it. */
  const AfterOpen := NaMachine("", "", false, "]", [ArrCtx], false, Some(Checkpoint(1, "]", None)), Cache("", Undefined))

  lemma {:induction false} TrueLetters(opts: Options)
    requires !opts.prohibitPartialNumbers
    ensures NaFeed(opts, AfterOpen, "[true", 1) == AfterOpen.(trunc := Some(Checkpoint(4, "]", None)))
  {
    var s := "[true";
    var a := AfterOpen;
    assert NaCharStep(opts, a, 1, 't') == a;
    assert NaCharStep(opts, a, 2, 'r') == a;
    assert NaCharStep(opts, a, 3, 'u') == a;
    var b := NaMark(a, 3);
    assert NaCharStep(opts, a, 4, 'e') == b;
    assert NaFeed(opts, a, s, 4) == b;
    assert NaFeed(opts, a, s, 3) == b;
    assert NaFeed(opts, a, s, 2) == b;
  }

  lemma {:induction false} TrueOpen(opts: Options)
    ensures NaIter(opts, NaFresh, "[true", 0) == (AfterOpen, 1)
  {
    var f0 := NaFresh;
    assert [ArrCtx] + f0.context == [ArrCtx] && [']'] + f0.closers == "]";
    assert NaNest(f0, 0, '[') == AfterOpen;
    assert NaCharStep(opts, f0, 0, '[') == AfterOpen;
  }

  lemma {:induction false} TrueChunk(opts: Options)
    requires !opts.prohibitPartialNumbers
    ensures NaAddChunk(opts, NaFresh, "[true") == Success(AfterTrue)
  {
    var s := "[true";
    var f0 := NaFresh;
    TrueOpen(opts);
    TrueLetters(opts);
    var b := AfterOpen.(trunc := Some(Checkpoint(4, "]", None)));
    assert NaFeed(opts, f0, s, 0) == b;
    assert "" + s == s && f0.(unconsumed := "") == f0;
    assert SliceTo(s, |s| - |b.unconsumed|) == s;
    assert b.(consumed := b.consumed + s) == AfterTrue;
  }

  /** `[tru]` is not JSON: the literal is cut off. */
  lemma {:induction false} DecodeTru()
    ensures Decode("[tru]") == None
  {
    var arr := State(ArrFirst, [InArr([])], Null);
    var q1 := arr.(mode := InLiteral("rue", Bool(true)));
    var q2 := arr.(mode := InLiteral("ue", Bool(true)));
    var q3 := arr.(mode := InLiteral("e", Bool(true)));
    assert Run(q3, "]") == None;
    RunStep(q2, "u]", q3);
    assert "u]"[1..] == "]";
    RunStep(q1, "ru]", q2);
    assert "ru]"[1..] == "u]";
    RunStep(arr, "tru]", q1);
    assert "tru]"[1..] == "ru]";
    assert [InArr([])] + Start.stack == [InArr([])];
    RunStep(Start, "[tru]", arr);
    assert "[tru]"[1..] == "tru]";
  }

  /** The end of `[true]`: the literal completes and the array closes. */
  lemma {:induction false} TrueArrayEnd()
    ensures Run(State(InLiteral("e", Bool(true)), [InArr([])], Null), "e]") == Some(State(After, [], Arr([Bool(true)])))
  {
    var q3 := State(InLiteral("e", Bool(true)), [InArr([])], Null);
    var q4 := State(After, [InArr([] + [Bool(true)])], Null);
    assert [] + [Bool(true)] == [Bool(true)];
    assert [InArr([] + [Bool(true)])] + q3.stack[1..] == q4.stack;
    var done := State(After, [], Arr([Bool(true)]));
    RunStep(q4, "]", done);
    assert "]"[1..] == "";
    RunStep(q3, "e]", q4);
    assert "e]"[1..] == "]";
  }

  /** `[true]` is the array holding `true`. */
  lemma {:induction false} DecodeTrueArray()
    ensures Decode("[true]") == Some(Arr([Bool(true)]))
  {
    var arr := State(ArrFirst, [InArr([])], Null);
    var q1 := arr.(mode := InLiteral("rue", Bool(true)));
    var q2 := arr.(mode := InLiteral("ue", Bool(true)));
    var q3 := arr.(mode := InLiteral("e", Bool(true)));
    TrueArrayEnd();
    RunStep(q2, "ue]", q3);
    assert "ue]"[1..] == "e]";
    RunStep(q1, "rue]", q2);
    assert "rue]"[1..] == "ue]";
    RunStep(arr, "true]", q1);
    assert "true]"[1..] == "rue]";
    assert [InArr([])] + Start.stack == [InArr([])];
    RunStep(Start, "[true]", arr);
    assert "[true]"[1..] == "true]";
  }

  /** An `e`, `.` or `E` outside a string sets a checkpoint just before
      it even inside `true` or `false`: after the chunk `[true`,
      `readValue` decodes `[tru]` and throws, where the static `parse` of
      the same text gives the array holding `true`. */
  lemma {:induction false} TrueCutOff(opts: Options)
    requires !opts.prohibitPartialNumbers
    ensures NaAddChunk(opts, NaFresh, "[true").Success?
    ensures var m := NaAddChunk(opts, NaFresh, "[true").value;
      && m.trunc == Some(Checkpoint(4, "]", None))
      && NaReadValue(m).0 == Failure(SyntaxError)
    ensures NaParse("[true", opts) == Success(Defined(VArr([VBool(true)], None)))
  {
    TrueChunk(opts);
    assert NaCutText(AfterTrue, AfterTrue.trunc.value) == "[tru]";
    DecodeTru();
    assert "[true" + "]" == "[true]";
    DecodeTrueArray();
    var items := [Bool(true)];
    assert seq(|items|, i requires 0 <= i < |items| => Plain(items[i])) == [VBool(true)];
    assert !EndsInDigitOrDot("[true");
  }

  // A complete `\u` escape

  /** The four hex digits of `\u0041` stand for the code unit 0x41. */
  lemma {:induction false} RunHex()
    ensures Run(Start.(mode := InString(false, [], Backslash)), "u0041\"") == Some(State(After, [], Str([0x41])))
  {
    var st := Start.(mode := InString(false, [], Backslash));
    var h0 := st.(mode := InString(false, [], Hex(0, 0)));
    var h1 := st.(mode := InString(false, [], Hex(1, 0)));
    var h2 := st.(mode := InString(false, [], Hex(2, 0)));
    var h3 := st.(mode := InString(false, [], Hex(3, 4)));
    var e := st.(mode := InString(false, [] + [0x41], NoEscape));
    assert [] + [0x41] == [0x41];
    RunStep(e, "\"", State(After, [], Str([0x41])));
    assert "\""[1..] == "";
    RunStep(h3, "1\"", e);
    assert "1\""[1..] == "\"";
    RunStep(h2, "41\"", h3);
    assert "41\""[1..] == "1\"";
    RunStep(h1, "041\"", h2);
    assert "041\""[1..] == "41\"";
    RunStep(h0, "0041\"", h1);
    assert "0041\""[1..] == "041\"";
    RunStep(st, "u0041\"", h0);
    assert "u0041\""[1..] == "0041\"";
  }

  /** `"\u0041"` is the string `A`. */
  lemma {:induction false} RunUnicode()
    ensures Run(Start, "\"\\u0041\"") == Some(State(After, [], Str([0x41])))
  {
    var st := Start.(mode := InString(false, [], NoEscape));
    var b := Start.(mode := InString(false, [], Backslash));
    RunHex();
    RunStep(st, "\\u0041\"", b);
    assert "\\u0041\""[1..] == "u0041\"";
    RunStep(Start, "\"\\u0041\"", st);
    assert "\"\\u0041\""[1..] == "\\u0041\"";
  }

  /** ... and a quote after it is not JSON. */
  lemma {:induction false} DecodeUnicode()
    ensures Decode("\"\\u0041\"") == Some(Str([0x41]))
    ensures Decode("\"\\u0041\"" + "\"") == None
  {
    RunUnicode();
    RunAppend(Start, "\"\\u0041\"", "\"");
    RunOne(State(After, [], Str([0x41])), '"');
  }

  /** The session after the chunk `"\u0041"`: still inside the string. */
  const AfterUnicode := NaMachine("\"\\u0041\"", "", true, "\"", [], false, None, Cache("", Undefined))

  lemma {:induction false} UnicodeChunk(opts: Options)
    requires !opts.prohibitPartialStrings
    ensures NaAddChunk(opts, NaFresh, "\"\\u0041\"") == Success(AfterUnicode)
  {
    var s := "\"\\u0041\"";
    var f0 := NaFresh;
    var a := f0.(closers := ['"'], inString := true);
    assert NaCharStep(opts, f0, 0, '"') == a;
    assert NaIter(opts, f0, s, 0) == (a, 1);
    assert NaIter(opts, a, s, 1) == (a, 8);
    assert NaFeed(opts, a, s, 8) == a;
    assert NaFeed(opts, f0, s, 0) == a;
    assert "" + s == s && f0.(unconsumed := "") == f0;
    assert SliceTo(s, |s| - |a.unconsumed|) == s;
    assert a.(consumed := a.consumed + s) == AfterUnicode;
  }

  /** After a complete `\u` escape the loop moves on seven characters, so
      the closing quote of `"\u0041"` is never looked at: the session
      stays inside the string and owes a second quote, `done` finds the
      buffer with it undecodable, and the static `parse` of this JSON text
      gives `undefined` where the text is the string `A`. */
  lemma {:induction false} UnicodeSkip(opts: Options)
    requires !opts.prohibitPartialStrings
    ensures NaAddChunk(opts, NaFresh, "\"\\u0041\"").Success?
    ensures var m := NaAddChunk(opts, NaFresh, "\"\\u0041\"").value;
      m.inString && m.closers == "\"" && m.trunc == None
    ensures NaParse("\"\\u0041\"", opts) == Success(Undefined)
    ensures Decode("\"\\u0041\"") == Some(Str([0x41]))
  {
    UnicodeChunk(opts);
    DecodeUnicode();
    assert !EndsInDigitOrDot("\"\\u0041\"");
    assert AfterUnicode.consumed + AfterUnicode.closers == "\"\\u0041\"" + "\"";
  }

  // A slice end counted from the back

  /** The chunks `"\`, `u0` and `041"` make up the text `"\u0041"`. The
      first withholds `\`; the second withholds `\u0` but, as the end of
      `chunk.slice(0, 2 - 3)` counts from the back, still appends `u`; the
      third appends all of itself. The buffer is `"u041"` and the session
      is still inside the string. */
  lemma {:induction false} NegativeSlice(opts: Options)
    requires !opts.prohibitPartialStrings
    ensures NaAddChunk(opts, NaFresh, "\"\\").Success?
    ensures var m1 := NaAddChunk(opts, NaFresh, "\"\\").value;
      && m1.consumed == "\"" && m1.unconsumed == "\\"
      && NaAddChunk(opts, m1, "u0").Success?
      && var m2 := NaAddChunk(opts, m1, "u0").value;
      && m2.consumed == "\"u" && m2.unconsumed == "\\u0"
      && NaAddChunk(opts, m2, "041\"").Success?
      && var m3 := NaAddChunk(opts, m2, "041\"").value;
      && m3.consumed == "\"u041\"" && m3.unconsumed == "" && m3.inString
  {
    SliceFirst(opts);
    SliceSecond(opts);
    SliceThird(opts);
  }

  const InQuote := NaMachine("", "", true, "\"", [], false, None, Cache("", Undefined))

  lemma {:induction false} SliceFirst(opts: Options)
    requires !opts.prohibitPartialStrings
    ensures NaAddChunk(opts, NaFresh, "\"\\") == Success(InQuote.(consumed := "\"", unconsumed := "\\"))
  {
    var s := "\"\\";
    var f0 := NaFresh;
    assert NaCharStep(opts, f0, 0, '"') == InQuote;
    assert NaIter(opts, f0, s, 0) == (InQuote, 1);
    var c := InQuote.(unconsumed := "\\");
    assert NaIter(opts, InQuote, s, 1) == (c, 3);
    assert NaFeed(opts, c, s, 3) == c;
    assert NaFeed(opts, f0, s, 0) == c;
    assert "" + s == s && f0.(unconsumed := "") == f0;
    assert SliceTo(s, |s| - |c.unconsumed|) == "\"";
    assert c.(consumed := c.consumed + "\"") == InQuote.(consumed := "\"", unconsumed := "\\");
  }

  lemma {:induction false} SliceSecond(opts: Options)
    ensures NaAddChunk(opts, InQuote.(consumed := "\"", unconsumed := "\\"), "u0")
      == Success(InQuote.(consumed := "\"u", unconsumed := "\\u0"))
  {
    var m := InQuote.(consumed := "\"", unconsumed := "\\");
    var s := "\\u0";
    assert m.unconsumed + "u0" == s;
    var g := m.(unconsumed := "");
    var c := g.(unconsumed := s);
    assert s[0..] == s;
    assert NaIter(opts, g, s, 0) == (c, 7);
    assert NaFeed(opts, c, s, 7) == c;
    assert NaFeed(opts, g, s, 0) == c;
    assert SliceTo("u0", 2 - 3) == "u";
    assert c.(consumed := c.consumed + "u") == InQuote.(consumed := "\"u", unconsumed := "\\u0");
  }

  lemma {:induction false} SliceThird(opts: Options)
    ensures NaAddChunk(opts, InQuote.(consumed := "\"u", unconsumed := "\\u0"), "041\"")
      == Success(InQuote.(consumed := "\"u041\""))
  {
    var m := InQuote.(consumed := "\"u", unconsumed := "\\u0");
    var s := "\\u0041\"";
    assert m.unconsumed + "041\"" == s;
    var g := m.(unconsumed := "");
    assert NaIter(opts, g, s, 0) == (g, 7);
    assert NaFeed(opts, g, s, 7) == g;
    assert NaFeed(opts, g, s, 0) == g;
    assert SliceTo("041\"", 4) == "041\"";
    assert g.(consumed := g.consumed + "041\"") == InQuote.(consumed := "\"u041\"");
  }
}
