/** Safety of the session of dist/index.js: for every prefix of a JSON
    text fed to it, its checkpoint stands for a JSON text.

    The proof is a simulation. Two decoders run side by side: `q` reads the
    raw text accepted so far, `a` reads the session's buffer `consumed`.
    `Agree` says how they and the session's own bookkeeping (context stack,
    closers, string and number flags) correspond; every iteration of the
    loop of `addChunk` keeps it, and every checkpoint it records is taken in
    a mode from which the recorded closers finish the text. */
module DistSafety {
  import opened Wrappers
  import opened Json
  import opened DistModel
  import opened DistRuns

  /** The closers the session owes: a quote inside a value string (when
      partial strings are allowed) and two closers per open container. */
  function Owed(opts: Options, m: Machine): string
  {
    if m.inString && !opts.prohibitPartialStrings then "\"" + LevelClosers(m.context) else LevelClosers(m.context)
  }

  /** The context stack mirrors the raw decoder's stack: the same kinds, and
      `key` only on top, exactly when a key is expected or being read. */
  predicate CtxMatches(ctx: seq<Ctx>, q: State)
  {
    && CtxKinds(ctx) == Kinds(q.stack)
    && (forall k :: 1 <= k < |ctx| ==> ctx[k] != KeyCtx)
    && (|ctx| > 0 ==> (ctx[0] == KeyCtx <==> KeyMode(q.mode)))
  }

  predicate Agree(opts: Options, m: Machine, q: State, a: State)
  {
    && Twins(q, a)
    && Reachable(q)
    && CtxMatches(m.context, q)
    && m.closers == Owed(opts, m)
    && (m.inString <==> q.mode.InString?)
    && (q.mode.InString? ==> q.mode.esc == NoEscape)
    && (m.inNumber ==> !q.mode.InString? && !q.mode.InLiteral?)
  }

  /** The session `m` has accepted the raw text `raw`. */
  ghost predicate Sim(opts: Options, m: Machine, raw: string)
  {
    && Run(Start, raw).Some?
    && Run(Start, m.consumed).Some?
    && Agree(opts, m, Run(Start, raw).value, Run(Start, m.consumed).value)
  }

  /** The checkpoint lies inside the buffer and stands for a JSON text. */
  predicate Checkpointed(m: Machine)
  {
    m.trunc.Some? ==> 0 <= m.trunc.value.index <= |m.consumed| && IsJsonText(CutText(m, m.trunc.value))
  }

  /** Any checkpoint recorded while going from `m` (whose buffer the
      decoder `a` has read) to `m2` (whose buffer is `m.consumed + y`) is
      finished by its own closers: it was taken after `y`, or just before
      its last character. */
  ghost predicate MarkOk(m: Machine, a: State, m2: Machine, y: string)
  {
    || m2.trunc == m.trunc
    || (&& m2.trunc.Some? && m2.trunc.value.result.None?
        && ((m2.trunc.value.index == |m.consumed| + |y| && Run(a, y).Some? && ClosesFrom(Run(a, y).value, m2.trunc.value.append))
            || (m2.trunc.value.index == |m.consumed| && ClosesFrom(a, m2.trunc.value.append))))
  }

  /** `m2` has appended `y` to the buffer of `m`, agrees with the raw
      decoder in state `q2`, and any checkpoint it recorded is sound. */
  ghost predicate Advanced(opts: Options, m: Machine, a: State, m2: Machine, q2: State, y: string)
  {
    && m2.consumed == m.consumed + y
    && Run(a, y).Some?
    && Agree(opts, m2, q2, Run(a, y).value)
    && MarkOk(m, a, m2, y)
    && Keeps(m, m2)
  }

  lemma {:induction false} TopKey(opts: Options, m: Machine, q: State, a: State)
    requires Agree(opts, m, q, a)
    ensures TopIs(m.context, KeyCtx) <==> KeyMode(q.mode)
    ensures |m.context| == |q.stack|
  {
    assert |CtxKinds(m.context)| == |Kinds(q.stack)|;
  }

  lemma {:induction false} CtxKindsCons(x: Ctx, ctx: seq<Ctx>)
    ensures CtxKinds([x] + ctx) == [CtxKind(x)] + CtxKinds(ctx)
  {
    assert forall j :: 0 <= j < |ctx| + 1 ==> CtxKinds([x] + ctx)[j] == ([CtxKind(x)] + CtxKinds(ctx))[j];
  }

  // ---------------------------------------------------------------------
  // What one character does to the session, case by case

  /** The parts of the session the loop of `addChunk` does not touch. */
  predicate Keeps(m: Machine, m2: Machine)
  {
    m2.unconsumed == m.unconsumed && m2.isDone == m.isDone && m2.cache == m.cache
  }

  /** Inside a string: the character is appended, and a checkpoint after
      it is recorded inside a value string when partial strings are
      allowed. */
  lemma {:induction false} StringCharStep(opts: Options, m: Machine, c: char)
    requires m.inString && !m.inNumber && c != '"'
    ensures var m2 := CharStep(opts, m, c);
      && m2.consumed == m.consumed + [c] && m2.inString && !m2.inNumber
      && m2.context == m.context && m2.closers == m.closers && Keeps(m, m2)
      && m2.trunc == if !TopIs(m.context, KeyCtx) && !opts.prohibitPartialStrings
                     then Some(Checkpoint(|m.consumed| + 1, m.closers, None)) else m.trunc
  {
    assert TrackNumber(m, c) == m;
  }

  /** The quote closing a string pops the owed quote. */
  lemma {:induction false} StringEndStep(opts: Options, m: Machine)
    requires m.inString && !m.inNumber
    requires m.closers == if !opts.prohibitPartialStrings then "\"" + LevelClosers(m.context) else LevelClosers(m.context)
    ensures var m2 := CharStep(opts, m, '"');
      && m2.consumed == m.consumed + "\"" && !m2.inString && !m2.inNumber
      && m2.context == m.context && m2.closers == LevelClosers(m.context) && Keeps(m, m2)
      && m2.trunc == if !TopIs(m.context, KeyCtx) && !opts.prohibitPartialStrings
                     then Some(Checkpoint(|m.consumed| + 1, LevelClosers(m.context), None)) else m.trunc
  {
    var c := '"';
    assert TrackNumber(m, c) == m;
    var m1 := m.(consumed := m.consumed + [c]);
    assert Inject(m, c) == m1;
    var popped := m1.(closers := LevelClosers(m.context));
    if !opts.prohibitPartialStrings {
      assert m1.closers[1..] == LevelClosers(m.context);
      assert PopQuote(m1, c) == (if !TopIs(m.context, KeyCtx) then Mark(popped, 0) else popped);
    } else {
      assert PopQuote(m1, c) == popped;
    }
  }

  /** An opening bracket outside a string writes the envelope's head and
      the bracket, pushes a level and records a checkpoint after it. */
  lemma {:induction false} OpenStep(opts: Options, m: Machine, c: char)
    requires !m.inString && (c == '{' || c == '[')
    ensures var m2 := CharStep(opts, m, c);
      var closers := (if c == '{' then "}" else "]") + ("}" + m.closers);
      && m2.consumed == m.consumed + (if c == '{' then OpenObject else OpenArray)
      && !m2.inString && !m2.inNumber && Keeps(m, m2)
      && m2.context == [if c == '{' then KeyCtx else ArrCtx] + m.context
      && m2.closers == closers
      && m2.trunc == Some(Checkpoint(|m2.consumed|, closers, None))
  {
    var m0 := m.(inNumber := false);
    assert TrackNumber(m, c) == m0;
  }

  /** A closing bracket outside a string writes the bracket and the
      envelope's tail, pops a level and records a checkpoint after it. */
  lemma {:induction false} CloseStep(opts: Options, m: Machine, c: char)
    requires !m.inString && (c == '}' || c == ']')
    ensures var m2 := CharStep(opts, m, c);
      && m2.consumed == m.consumed + (if c == '}' then CloseObject else CloseArray)
      && !m2.inString && !m2.inNumber && Keeps(m, m2)
      && m2.context == Shift(m.context) && m2.closers == Drop(m.closers, 2)
      && m2.trunc == Some(Checkpoint(|m2.consumed|, Drop(m.closers, 2), None))
  {
    var m0 := m.(inNumber := false);
    assert TrackNumber(m, c) == m0;
  }

  /** A quote outside a string opens one; a value string owes its closing
      quote and records a checkpoint when partial strings are allowed. */
  lemma {:induction false} QuoteStep(opts: Options, m: Machine)
    requires !m.inString && (|m.closers| > 0 ==> m.closers[0] != '"')
    ensures var m2 := CharStep(opts, m, '"');
      && m2.consumed == m.consumed + "\"" && m2.inString && !m2.inNumber
      && m2.context == m.context && Keeps(m, m2)
      && m2.closers == (if !opts.prohibitPartialStrings then "\"" + m.closers else m.closers)
      && m2.trunc == if !opts.prohibitPartialStrings && !TopIs(m.context, KeyCtx)
                     then Some(Checkpoint(|m.consumed| + 1, "\"" + m.closers, None)) else m.trunc
  {
    var c := '"';
    var m0 := m.(inNumber := false);
    assert TrackNumber(m, c) == m0;
    var m1 := m0.(consumed := m.consumed + [c]);
    assert Inject(m0, c) == m1;
    assert PopQuote(m1, c) == m1;
  }

  /** A comma outside a string records a checkpoint just before it and
      turns a value context into a key context. */
  lemma {:induction false} CommaStep(opts: Options, m: Machine)
    requires !m.inString
    ensures var m2 := CharStep(opts, m, ',');
      && m2.consumed == m.consumed + "," && !m2.inString && !m2.inNumber && Keeps(m, m2)
      && m2.context == (if TopIs(m.context, ValCtx) then [KeyCtx] + m.context[1..] else m.context)
      && m2.closers == m.closers
      && m2.trunc == Some(Checkpoint(|m.consumed|, m.closers, None))
  {
    var m0 := m.(inNumber := false);
    assert TrackNumber(m, ',') == m0;
  }

  /** A colon after a key turns the key context into a value context. */
  lemma {:induction false} ColonStep(opts: Options, m: Machine)
    requires !m.inString && TopIs(m.context, KeyCtx)
    ensures var m2 := CharStep(opts, m, ':');
      && m2.consumed == m.consumed + ":" && !m2.inString && !m2.inNumber && Keeps(m, m2)
      && m2.context == [ValCtx] + m.context[1..] && m2.closers == m.closers && m2.trunc == m.trunc
  {
    var m0 := m.(inNumber := false);
    assert TrackNumber(m, ':') == m0;
  }

  /** Any other character outside a string: the buffer grows by it, the
      number flag follows it, and `e`, `E` or `.` inside a number records
      a checkpoint just before it. */
  lemma {:induction false} OtherStep(opts: Options, m: Machine, c: char)
    requires !m.inString
    requires c != '"' && c != ',' && c != ':' && c != '{' && c != '[' && c != '}' && c != ']'
    ensures var m2 := CharStep(opts, m, c);
      && m2.consumed == m.consumed + [c] && m2.inString == m.inString
      && m2.context == m.context && m2.closers == m.closers && Keeps(m, m2)
      && m2.inNumber == ((NumberLike(c) || m.inNumber) && (NumberLike(c) || c in "-e+E."))
      && m2.trunc == if m.inNumber && !opts.prohibitPartialNumbers && (c == 'e' || c == '.' || c == 'E')
                     then Some(Checkpoint(|m.consumed|, m.closers, None)) else m.trunc
  {
    if c == 'e' || c == '.' || c == 'E' {
      assert !NumberLike(c);
      assert TrackNumber(m, c) == m;
    }
  }

  // ---------------------------------------------------------------------
  // One character read by the session and both decoders, case by case.
  // Each case has three parts: what the decoders do (`...Decoders`), why
  // the session still agrees with them (`...Core`), and the two put
  // together (`...Safe`).

  /** A character inside a string other than a quote or a backslash. */
  lemma {:induction false} StringCharDecoders(q: State, a: State, c: char)
    requires Twins(q, a) && Reachable(q) && q.mode.InString? && q.mode.esc == NoEscape
    requires c != '"' && c != '\\' && Step(q, c).Some?
    ensures Step(a, c).Some?
    ensures Step(q, c).value == q.(mode := Step(q, c).value.mode)
    ensures Step(a, c).value == a.(mode := Step(q, c).value.mode)
    ensures Step(q, c).value.mode.InString? && Step(q, c).value.mode.isKey == q.mode.isKey
    ensures Step(q, c).value.mode.esc == NoEscape
    ensures Reachable(Step(q, c).value)
  {
    StringStepTwins(q, a, c);
    assert Step(q, c) == StringStep(q, q.mode.isKey, q.mode.acc, NoEscape, c);
    ReachableStep(q, c);
  }

  lemma {:induction false} StringCharCore(opts: Options, m: Machine, q: State, a: State, m2: Machine, q2: State, a2: State)
    requires Agree(opts, m, q, a) && m.inString
    requires m2.inString && !m2.inNumber && m2.context == m.context && m2.closers == m.closers
    requires m2.trunc == m.trunc || (!TopIs(m.context, KeyCtx) && !opts.prohibitPartialStrings)
    requires q2 == q.(mode := q2.mode) && a2 == a.(mode := q2.mode) && Reachable(q2)
    requires q2.mode.InString? && q2.mode.isKey == q.mode.isKey && q2.mode.esc == NoEscape
    ensures Agree(opts, m2, q2, a2)
    ensures m2.trunc == m.trunc || ClosesFrom(a2, m.closers)
  {
    TopKey(opts, m, q, a);
    if m2.trunc != m.trunc {
      CloseString(a2, m.context);
    }
  }

  lemma {:induction false} StringCharSafe(opts: Options, m: Machine, q: State, a: State, c: char)
    requires Agree(opts, m, q, a) && m.inString && c != '"' && c != '\\' && Step(q, c).Some?
    ensures Advanced(opts, m, a, CharStep(opts, m, c), Step(q, c).value, [c])
  {
    StringCharStep(opts, m, c);
    StringCharDecoders(q, a, c);
    RunOne(a, c);
    StringCharCore(opts, m, q, a, CharStep(opts, m, c), Step(q, c).value, Step(a, c).value);
  }

  /** The quote closing a string. */
  lemma {:induction false} StringEndDecoders(q: State, a: State)
    requires Twins(q, a) && Reachable(q) && q.mode.InString? && q.mode.esc == NoEscape && Step(q, '"').Some?
    ensures Step(a, '"').Some?
    ensures Step(q, '"').value.mode == (if q.mode.isKey then ColonNext else After)
    ensures Kinds(Step(q, '"').value.stack) == Kinds(q.stack)
    ensures Twins(Step(q, '"').value, Step(a, '"').value) && Reachable(Step(q, '"').value)
  {
    StringTwins(q, a, '"');
    ReachableStep(q, '"');
    assert Step(q, '"') == StringStep(q, q.mode.isKey, q.mode.acc, NoEscape, '"');
  }

  lemma {:induction false} StringEndCore(opts: Options, m: Machine, q: State, a: State, m2: Machine, q2: State, a2: State)
    requires Agree(opts, m, q, a) && m.inString
    requires !m2.inString && !m2.inNumber && m2.context == m.context && m2.closers == LevelClosers(m.context)
    requires m2.trunc == m.trunc || (!TopIs(m.context, KeyCtx) && !opts.prohibitPartialStrings)
    requires q2.mode == (if q.mode.isKey then ColonNext else After) && Kinds(q2.stack) == Kinds(q.stack)
    requires Twins(q2, a2) && Reachable(q2)
    ensures Agree(opts, m2, q2, a2)
    ensures m2.trunc == m.trunc || ClosesFrom(a2, LevelClosers(m.context))
  {
    TopKey(opts, m, q, a);
    if m2.trunc != m.trunc {
      CloseLevels(a2, m.context);
    }
  }

  lemma {:induction false} StringEndSafe(opts: Options, m: Machine, q: State, a: State)
    requires Agree(opts, m, q, a) && m.inString && Step(q, '"').Some?
    ensures Advanced(opts, m, a, CharStep(opts, m, '"'), Step(q, '"').value, "\"")
  {
    StringEndStep(opts, m);
    StringEndDecoders(q, a);
    RunOne(a, '"');
    StringEndCore(opts, m, q, a, CharStep(opts, m, '"'), Step(q, '"').value, Step(a, '"').value);
  }

  /** An opening bracket, and the envelope's head before it. */
  lemma {:induction false} OpenDecoders(q: State, a: State, c: char)
    requires Twins(q, a) && Reachable(q) && !q.mode.InString? && (c == '{' || c == '[') && Step(q, c).Some?
    ensures !KeyMode(q.mode)
    ensures Step(q, c).value.mode == (if c == '{' then ObjFirst else ArrFirst)
    ensures Kinds(Step(q, c).value.stack) == [if c == '{' then ObjKind else ArrKind] + Kinds(q.stack)
    ensures Reachable(Step(q, c).value)
    ensures Run(a, if c == '{' then OpenObject else OpenArray).Some?
    ensures Twins(Step(q, c).value, Run(a, if c == '{' then OpenObject else OpenArray).value)
  {
    StepOpen(q, c);
    ReachableStep(q, c);
    if c == '{' { OpenObjectRun(a); } else { OpenArrayRun(a); }
    ExpandCons(if c == '{' then ObjKind else ArrKind, Kinds(q.stack));
  }

  /** An opening bracket pushes a level of its own kind; only an object
      expects a key. */
  lemma {:induction false} OpenContext(ctx: seq<Ctx>, q: State, c: char, q2: State)
    requires CtxMatches(ctx, q) && !KeyMode(q.mode) && (c == '{' || c == '[')
    requires q2.mode == (if c == '{' then ObjFirst else ArrFirst)
    requires Kinds(q2.stack) == [if c == '{' then ObjKind else ArrKind] + Kinds(q.stack)
    ensures var ctx2 := [if c == '{' then KeyCtx else ArrCtx] + ctx;
      CtxMatches(ctx2, q2) && LevelClosers(ctx2) == (if c == '{' then "}" else "]") + ("}" + LevelClosers(ctx))
  {
    var x := if c == '{' then KeyCtx else ArrCtx;
    var ctx2 := [x] + ctx;
    CtxKindsCons(x, ctx);
    assert ctx2[1..] == ctx;
    assert |ctx| > 0 ==> ctx[0] != KeyCtx;
    forall k | 1 <= k < |ctx2|
      ensures ctx2[k] != KeyCtx
    {
      assert ctx2[k] == ctx[k - 1];
    }
  }

  lemma {:induction false} OpenCore(opts: Options, m: Machine, q: State, c: char, m2: Machine, q2: State, a2: State)
    requires CtxMatches(m.context, q) && !KeyMode(q.mode) && m.closers == LevelClosers(m.context)
    requires c == '{' || c == '['
    requires !m2.inString && !m2.inNumber && m2.context == [if c == '{' then KeyCtx else ArrCtx] + m.context
    requires m2.closers == (if c == '{' then "}" else "]") + ("}" + m.closers)
    requires q2.mode == (if c == '{' then ObjFirst else ArrFirst)
    requires Kinds(q2.stack) == [if c == '{' then ObjKind else ArrKind] + Kinds(q.stack)
    requires Reachable(q2) && Twins(q2, a2)
    ensures Agree(opts, m2, q2, a2)
    ensures ClosesFrom(a2, m2.closers)
  {
    OpenContext(m.context, q, c, q2);
    CloseLevels(a2, m2.context);
  }

  lemma {:induction false} OpenSafe(opts: Options, m: Machine, q: State, a: State, c: char)
    requires Agree(opts, m, q, a) && !m.inString && (c == '{' || c == '[') && Step(q, c).Some?
    ensures Advanced(opts, m, a, CharStep(opts, m, c), Step(q, c).value, if c == '{' then OpenObject else OpenArray)
  {
    OpenStep(opts, m, c);
    OpenDecoders(q, a, c);
    var env := if c == '{' then OpenObject else OpenArray;
    assert m.closers == LevelClosers(m.context);
    OpenCore(opts, m, q, c, CharStep(opts, m, c), Step(q, c).value, Run(a, env).value);
  }

  /** A closing bracket, and the envelope's tail after it. */
  lemma {:induction false} CloseDecoders(q: State, a: State, c: char)
    requires Twins(q, a) && Reachable(q) && !q.mode.InString? && (c == '}' || c == ']') && Step(q, c).Some?
    ensures |q.stack| > 0
    ensures Step(q, c).value.mode == After && Kinds(Step(q, c).value.stack) == Kinds(q.stack)[1..]
    ensures Reachable(Step(q, c).value)
    ensures Run(a, if c == '}' then CloseObject else CloseArray).Some?
    ensures Twins(Step(q, c).value, Run(a, if c == '}' then CloseObject else CloseArray).value)
  {
    var env := if c == '}' then CloseObject else CloseArray;
    StepCloseTwins(q, a, c);
    ReachableStep(q, c);
    var a1 := Step(a, c).value;
    ExpandTail(Kinds(q.stack));
    KindsTail(q.stack);
    assert Top(a1) == Some(ObjKind) by { assert Kinds(a1.stack)[0] == ObjKind; }
    TailRun(a1);
    assert env == [c] + EnvelopeTail;
    RunOne(a, c);
    RunAppend(a, [c], EnvelopeTail);
  }

  lemma {:induction false} CloseCore(opts: Options, m: Machine, q: State, m2: Machine, q2: State, a2: State)
    requires CtxMatches(m.context, q) && |q.stack| > 0 && m.closers == LevelClosers(m.context)
    requires q2.mode == After && Kinds(q2.stack) == Kinds(q.stack)[1..] && Reachable(q2) && Twins(q2, a2)
    requires m2.context == Shift(m.context) && m2.closers == Drop(m.closers, 2) && !m2.inString && !m2.inNumber
    ensures Agree(opts, m2, q2, a2)
    ensures ClosesFrom(a2, m2.closers)
  {
    assert |CtxKinds(m.context)| == |Kinds(q.stack)|;
    assert CtxKinds(m2.context) == CtxKinds(m.context)[1..];
    assert m2.closers == LevelClosers(m2.context);
    CloseLevels(a2, m2.context);
  }

  lemma {:induction false} CloseSafe(opts: Options, m: Machine, q: State, a: State, c: char)
    requires Agree(opts, m, q, a) && !m.inString && (c == '}' || c == ']') && Step(q, c).Some?
    ensures Advanced(opts, m, a, CharStep(opts, m, c), Step(q, c).value, if c == '}' then CloseObject else CloseArray)
  {
    CloseStep(opts, m, c);
    CloseDecoders(q, a, c);
    var env := if c == '}' then CloseObject else CloseArray;
    assert m.closers == LevelClosers(m.context);
    CloseCore(opts, m, q, CharStep(opts, m, c), Step(q, c).value, Run(a, env).value);
  }

  /** A quote outside a string. */
  lemma {:induction false} QuoteDecoders(q: State, a: State)
    requires Twins(q, a) && Reachable(q) && !q.mode.InString? && Step(q, '"').Some?
    ensures Step(a, '"').Some?
    ensures Step(q, '"').value == q.(mode := InString(KeyMode(q.mode), [], NoEscape))
    ensures Twins(Step(q, '"').value, Step(a, '"').value) && Reachable(Step(q, '"').value)
  {
    StepQuote(q);
    StepTwins(q, a, '"');
    ReachableStep(q, '"');
  }

  lemma {:induction false} QuoteCore(opts: Options, m: Machine, q: State, a: State, m2: Machine, q2: State, a2: State)
    requires Agree(opts, m, q, a) && !m.inString
    requires m2.inString && !m2.inNumber && m2.context == m.context
    requires m2.closers == (if !opts.prohibitPartialStrings then "\"" + m.closers else m.closers)
    requires m2.trunc == m.trunc || (!opts.prohibitPartialStrings && !TopIs(m.context, KeyCtx))
    requires q2 == q.(mode := InString(KeyMode(q.mode), [], NoEscape)) && Twins(q2, a2) && Reachable(q2)
    ensures Agree(opts, m2, q2, a2)
    ensures m2.trunc == m.trunc || ClosesFrom(a2, "\"" + m.closers)
  {
    TopKey(opts, m, q, a);
    assert m.closers == LevelClosers(m.context);
    if m2.trunc != m.trunc {
      CloseString(a2, m.context);
    }
  }

  lemma {:induction false} QuoteSafe(opts: Options, m: Machine, q: State, a: State)
    requires Agree(opts, m, q, a) && !m.inString && Step(q, '"').Some?
    ensures Advanced(opts, m, a, CharStep(opts, m, '"'), Step(q, '"').value, "\"")
  {
    assert m.closers == LevelClosers(m.context);
    QuoteStep(opts, m);
    QuoteDecoders(q, a);
    RunOne(a, '"');
    QuoteCore(opts, m, q, a, CharStep(opts, m, '"'), Step(q, '"').value, Step(a, '"').value);
  }

  /** A comma outside a string. */
  lemma {:induction false} CommaDecoders(q: State, a: State)
    requires Twins(q, a) && Reachable(q) && !q.mode.InString? && Step(q, ',').Some?
    ensures Closable(q.mode, []) && |q.stack| > 0
    ensures Step(a, ',').Some?
    ensures Step(q, ',').value.mode == (if q.stack[0].InArr? then ValueNext else KeyNext)
    ensures Kinds(Step(q, ',').value.stack) == Kinds(q.stack)
    ensures Twins(Step(q, ',').value, Step(a, ',').value) && Reachable(Step(q, ',').value)
  {
    StepComma(q);
    StepTwins(q, a, ',');
    ReachableStep(q, ',');
  }

  /** After a comma the context keeps its kinds and closers, and expects a
      key exactly when the raw decoder does. */
  lemma {:induction false} CommaContext(ctx: seq<Ctx>, q: State, ctx2: seq<Ctx>, q2: State)
    requires CtxMatches(ctx, q) && Closable(q.mode, []) && |q.stack| > 0
    requires q2.mode == (if q.stack[0].InArr? then ValueNext else KeyNext) && Kinds(q2.stack) == Kinds(q.stack)
    requires ctx2 == (if TopIs(ctx, ValCtx) then [KeyCtx] + ctx[1..] else ctx)
    ensures CtxMatches(ctx2, q2) && LevelClosers(ctx2) == LevelClosers(ctx)
  {
    assert |CtxKinds(ctx)| == |Kinds(q.stack)|;
    assert (q.stack[0].InArr?) <==> ctx[0] == ArrCtx by { assert Kinds(q.stack)[0] == CtxKind(ctx[0]); }
    if TopIs(ctx, ValCtx) {
      CtxKindsCons(KeyCtx, ctx[1..]);
      CtxKindsCons(ValCtx, ctx[1..]);
      assert ctx == [ValCtx] + ctx[1..];
    }
  }

  lemma {:induction false} CommaCore(opts: Options, m: Machine, q: State, a: State, m2: Machine, q2: State, a2: State)
    requires Agree(opts, m, q, a) && !m.inString
    requires !m2.inString && !m2.inNumber && m2.closers == m.closers
    requires m2.context == (if TopIs(m.context, ValCtx) then [KeyCtx] + m.context[1..] else m.context)
    requires Closable(q.mode, []) && |q.stack| > 0
    requires q2.mode == (if q.stack[0].InArr? then ValueNext else KeyNext) && Kinds(q2.stack) == Kinds(q.stack)
    requires Twins(q2, a2) && Reachable(q2)
    ensures Agree(opts, m2, q2, a2)
    ensures ClosesFrom(a, m.closers)
  {
    CommaContext(m.context, q, m2.context, q2);
    assert m.closers == LevelClosers(m.context);
    CloseLevels(a, m.context);
  }

  lemma {:induction false} CommaSafe(opts: Options, m: Machine, q: State, a: State)
    requires Agree(opts, m, q, a) && !m.inString && Step(q, ',').Some?
    ensures Advanced(opts, m, a, CharStep(opts, m, ','), Step(q, ',').value, ",")
  {
    CommaStep(opts, m);
    CommaDecoders(q, a);
    RunOne(a, ',');
    CommaCore(opts, m, q, a, CharStep(opts, m, ','), Step(q, ',').value, Step(a, ',').value);
  }

  /** A colon outside a string. */
  lemma {:induction false} ColonDecoders(q: State, a: State)
    requires Twins(q, a) && Reachable(q) && !q.mode.InString? && Step(q, ':').Some?
    ensures q.mode == ColonNext && Step(a, ':').Some?
    ensures Step(q, ':').value.mode == ValueNext && Kinds(Step(q, ':').value.stack) == Kinds(q.stack)
    ensures Twins(Step(q, ':').value, Step(a, ':').value) && Reachable(Step(q, ':').value)
  {
    StepColon(q);
    StepTwins(q, a, ':');
    ReachableStep(q, ':');
  }

  lemma {:induction false} ColonCore(opts: Options, m: Machine, q: State, a: State, m2: Machine, q2: State, a2: State)
    requires Agree(opts, m, q, a) && !m.inString && q.mode == ColonNext
    requires !m2.inString && !m2.inNumber && m2.closers == m.closers && m2.context == [ValCtx] + m.context[1..]
    requires q2.mode == ValueNext && Kinds(q2.stack) == Kinds(q.stack) && Twins(q2, a2) && Reachable(q2)
    ensures Agree(opts, m2, q2, a2)
  {
    TopKey(opts, m, q, a);
    CtxKindsCons(KeyCtx, m.context[1..]);
    CtxKindsCons(ValCtx, m.context[1..]);
    assert m.context == [KeyCtx] + m.context[1..];
    assert LevelClosers(m2.context) == LevelClosers(m.context);
  }

  lemma {:induction false} ColonSafe(opts: Options, m: Machine, q: State, a: State)
    requires Agree(opts, m, q, a) && !m.inString && Step(q, ':').Some?
    ensures Advanced(opts, m, a, CharStep(opts, m, ':'), Step(q, ':').value, ":")
  {
    ColonDecoders(q, a);
    TopKey(opts, m, q, a);
    ColonStep(opts, m);
    RunOne(a, ':');
    ColonCore(opts, m, q, a, CharStep(opts, m, ':'), Step(q, ':').value, Step(a, ':').value);
  }

  /** The session keeps its strings, context and closers, and the raw
      decoder keeps its stack and key mode: they still agree. */
  lemma {:induction false} AgreeKeep(opts: Options, m: Machine, q: State, a: State, m2: Machine, q2: State, a2: State)
    requires Agree(opts, m, q, a)
    requires m2.inString == m.inString && m2.context == m.context && m2.closers == m.closers
    requires Twins(q2, a2) && Reachable(q2) && Kinds(q2.stack) == Kinds(q.stack)
    requires KeyMode(q2.mode) == KeyMode(q.mode) && q2.mode.InString? == q.mode.InString?
    requires q2.mode.InString? ==> q2.mode.esc == NoEscape
    requires m2.inNumber ==> !q2.mode.InString? && !q2.mode.InLiteral?
    ensures Agree(opts, m2, q2, a2)
  {
  }

  /** Any other character outside a string. */
  lemma {:induction false} OtherDecoders(q: State, a: State, c: char)
    requires Twins(q, a) && Reachable(q) && !q.mode.InString? && Step(q, c).Some?
    requires c != '"' && c != ',' && c != ':' && c != '{' && c != '[' && c != '}' && c != ']'
    ensures Step(a, c).Some?
    ensures Twins(Step(q, c).value, Step(a, c).value) && Reachable(Step(q, c).value)
    ensures Kinds(Step(q, c).value.stack) == Kinds(q.stack)
    ensures !Step(q, c).value.mode.InString?
    ensures KeyMode(Step(q, c).value.mode) <==> KeyMode(q.mode)
    ensures Step(q, c).value.mode.InLiteral? ==> 'a' <= c <= 'z' && c != 'e'
    ensures (c == 'e' || c == 'E' || c == '.') && !q.mode.InLiteral? ==> q.mode.InNumber? && Terminal(q.mode.part)
  {
    StepPlain(q, c);
    StepTwins(q, a, c);
    ReachableStep(q, c);
  }

  lemma {:induction false} OtherCore(opts: Options, m: Machine, q: State, a: State, c: char, m2: Machine, q2: State, a2: State)
    requires Agree(opts, m, q, a) && !m.inString
    requires m2.inString == m.inString && m2.context == m.context && m2.closers == m.closers
    requires m2.inNumber == ((NumberLike(c) || m.inNumber) && (NumberLike(c) || c in "-e+E."))
    requires m2.trunc == m.trunc || (m.inNumber && (c == 'e' || c == '.' || c == 'E'))
    requires Twins(q2, a2) && Reachable(q2) && Kinds(q2.stack) == Kinds(q.stack)
    requires !q2.mode.InString? && (KeyMode(q2.mode) <==> KeyMode(q.mode))
    requires q2.mode.InLiteral? ==> 'a' <= c <= 'z' && c != 'e'
    requires (c == 'e' || c == 'E' || c == '.') && !q.mode.InLiteral? ==> q.mode.InNumber? && Terminal(q.mode.part)
    ensures Agree(opts, m2, q2, a2)
    ensures m2.trunc == m.trunc || ClosesFrom(a, m.closers)
  {
    assert q2.mode.InLiteral? ==> !NumberLike(c);
    AgreeKeep(opts, m, q, a, m2, q2, a2);
    if m2.trunc != m.trunc {
      assert m.closers == LevelClosers(m.context);
      CloseLevels(a, m.context);
    }
  }

  lemma {:induction false} OtherSafe(opts: Options, m: Machine, q: State, a: State, c: char)
    requires Agree(opts, m, q, a) && !m.inString && Step(q, c).Some?
    requires c != '"' && c != ',' && c != ':' && c != '{' && c != '[' && c != '}' && c != ']'
    ensures Advanced(opts, m, a, CharStep(opts, m, c), Step(q, c).value, [c])
  {
    OtherStep(opts, m, c);
    OtherDecoders(q, a, c);
    RunOne(a, c);
    OtherCore(opts, m, q, a, c, CharStep(opts, m, c), Step(q, c).value, Step(a, c).value);
  }

  /** One character that does not start an escape. */
  lemma {:induction false} CharSafe(opts: Options, m: Machine, q: State, a: State, c: char) returns (y: string)
    requires Agree(opts, m, q, a) && Step(q, c).Some? && !(m.inString && c == '\\')
    ensures Advanced(opts, m, a, CharStep(opts, m, c), Step(q, c).value, y)
  {
    if m.inString {
      y := [c];
      if c == '"' { StringEndSafe(opts, m, q, a); } else { StringCharSafe(opts, m, q, a, c); }
    } else if c == '{' || c == '[' {
      y := if c == '{' then OpenObject else OpenArray;
      OpenSafe(opts, m, q, a, c);
    } else if c == '}' || c == ']' {
      y := if c == '}' then CloseObject else CloseArray;
      CloseSafe(opts, m, q, a, c);
    } else if c == '"' {
      y := [c];
      QuoteSafe(opts, m, q, a);
    } else if c == ',' {
      y := [c];
      CommaSafe(opts, m, q, a);
    } else if c == ':' {
      y := [c];
      ColonSafe(opts, m, q, a);
    } else {
      y := [c];
      OtherSafe(opts, m, q, a, c);
    }
  }

  /** A whole escape inside a string. */
  lemma {:induction false} EscapeSafe(opts: Options, m: Machine, q: State, a: State, y: string)
    requires Agree(opts, m, q, a) && m.inString && WholeEscape(y) && Run(q, y).Some?
    ensures Advanced(opts, m, a, m.(consumed := m.consumed + y), Run(q, y).value, y)
  {
    TopKey(opts, m, q, a);
    EscapeInside(q, y);
    InsideRun(q, a, y);
    var q2 := Run(q, y).value;
    SameTop(q, q2);
    assert Agree(opts, m.(consumed := m.consumed + y), q2, Run(a, y).value);
  }
}
