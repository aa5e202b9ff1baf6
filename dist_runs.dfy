/** How the decoder reads the pieces the session writes into its buffer:
    envelope heads and tails, the closers, and string escapes. Each lemma
    speaks of the decoder's mode and of the kinds of its open containers. */
module DistRuns {
  import opened Wrappers
  import opened Json
  import opened DistModel

  /** A run that reaches mode `md` with the kinds `ks` on the stack. */
  predicate Reaches(r: Option<State>, md: Mode, ks: seq<Kind>)
  {
    r.Some? && r.value.mode == md && Kinds(r.value.stack) == ks
  }

  /** A run of `t` from `a` ends where the text may end. */
  predicate ClosesFrom(a: State, t: string)
  {
    Run(a, t).Some? && Final(Run(a, t).value).Some?
  }

  /** Characters that go into a string unchanged. */
  predicate Plain(name: string)
  {
    forall j :: 0 <= j < |name| ==> name[j] != '"' && name[j] != '\\' && name[j] as int >= 0x20
  }

  lemma {:induction false} RunCons(st: State, s: string)
    requires s != [] && Step(st, s[0]).Some?
    ensures Run(st, s) == Run(Step(st, s[0]).value, s[1..])
  {
  }

  lemma {:induction false} PlainRun(st: State, name: string)
    requires st.mode.InString? && st.mode.esc == NoEscape && Plain(name)
    ensures Run(st, name).Some?
    ensures Run(st, name).value.stack == st.stack
    ensures Run(st, name).value.mode.InString? && Run(st, name).value.mode.isKey == st.mode.isKey
    ensures Run(st, name).value.mode.esc == NoEscape
    decreases |name|
  {
    if name != [] {
      var next := st.(mode := InString(st.mode.isKey, st.mode.acc + Utf16(name[0]), NoEscape));
      assert Step(st, name[0]) == Some(next);
      assert Plain(name[1..]) by {
        forall j | 0 <= j < |name[1..]| ensures name[1..][j] == name[j + 1] { }
      }
      PlainRun(next, name[1..]);
    }
  }

  /** A quoted member name where a key is expected. */
  lemma {:induction false} KeyRun(st: State, name: string)
    requires st.mode == ObjFirst || st.mode == KeyNext
    requires |st.stack| > 0 && st.stack[0].InObj? && Plain(name)
    ensures Reaches(Run(st, "\"" + name + "\""), ColonNext, Kinds(st.stack))
    ensures Run(st, "\"" + name + "\"").value.stack[0].InObj?
  {
    var s1 := st.(mode := InString(true, [], NoEscape));
    assert Step(st, '"') == Some(s1);
    RunAppend(st, "\"", name + "\"");
    assert "\"" + name + "\"" == "\"" + (name + "\"");
    RunOne(st, '"');
    PlainRun(s1, name);
    var s2 := Run(s1, name).value;
    RunAppend(s1, name, "\"");
    RunOne(s2, '"');
    var s3 := Step(s2, '"').value;
    assert s3.stack == [s2.stack[0].(key := s2.mode.acc)] + s2.stack[1..];
    assert Kinds(s3.stack) == Kinds(st.stack) by {
      assert forall j :: 0 <= j < |s3.stack| ==> s3.stack[j].Kind() == st.stack[j].Kind();
    }
  }

  lemma {:induction false} SentinelPlain()
    ensures Plain(Sentinel) && Plain(RawLiteral)
  {
  }

  /** The rest of a literal completes it. */
  lemma {:induction false} LiteralTail(st: State, rest: string, lit: Json)
    requires st.mode == InLiteral(rest, lit) && rest != []
    ensures Run(st, rest) == Some(Deliver(st, lit))
    decreases |rest|
  {
    RunCons(st, rest);
    if |rest| == 1 {
      assert rest[1..] == [];
    } else {
      var s2 := st.(mode := InLiteral(rest[1..], lit));
      LiteralTail(s2, rest[1..], lit);
      assert Deliver(s2, lit) == Deliver(st, lit);
    }
  }

  lemma {:induction false} LiteralWord(st: State, c: char, rest: string, lit: Json)
    requires rest != [] && Step(st, c) == Some(st.(mode := InLiteral(rest, lit)))
    ensures Run(st, [c] + rest) == Some(Deliver(st, lit))
  {
    var s1 := st.(mode := InLiteral(rest, lit));
    RunCons(st, [c] + rest);
    assert ([c] + rest)[1..] == rest;
    LiteralTail(s1, rest, lit);
    assert Deliver(s1, lit) == Deliver(st, lit);
  }

  /** The literal `false` where a value may start. */
  lemma {:induction false} FalseRun(st: State)
    requires st.mode == ValueNext
    ensures Run(st, "false") == Some(Deliver(st, Bool(false)))
  {
    var s1 := st.(mode := InLiteral("alse", Bool(false)));
    assert Step(st, 'f') == Some(s1);
    LiteralWord(st, 'f', "alse", Bool(false));
    assert ['f'] + "alse" == "false";
  }

  /** The literal `true` where a value may start. */
  lemma {:induction false} TrueRun(st: State)
    requires st.mode == ValueNext
    ensures Run(st, "true") == Some(Deliver(st, Bool(true)))
  {
    var s1 := st.(mode := InLiteral("rue", Bool(true)));
    assert Step(st, 't') == Some(s1);
    LiteralWord(st, 't', "rue", Bool(true));
    assert ['t'] + "rue" == "true";
  }

  /** `: false, ` after the sentinel key of an envelope head. */
  lemma {:induction false} ColonFalseRun(st: State)
    requires st.mode == ColonNext && |st.stack| > 0 && st.stack[0].InObj?
    ensures Reaches(Run(st, ": false, "), KeyNext, Kinds(st.stack))
    ensures Run(st, ": false, ").value.stack[0].InObj?
  {
    var s1 := st.(mode := ValueNext);
    assert ": false, " == ": " + ("false" + ", ");
    ColonSpaceRun(st);
    RunAppend(st, ": ", "false" + ", ");
    FalseRun(s1);
    RunAppend(s1, "false", ", ");
    var s2 := Deliver(s1, Bool(false));
    assert s2.stack[0].InObj? by { assert Kinds(s2.stack)[0] == ObjKind; }
    CommaSpaceRun(s2);
  }

  /** `: true}` ending an envelope: the envelope closes. */
  lemma {:induction false} ColonTrueRun(st: State)
    requires st.mode == ColonNext && |st.stack| > 0 && st.stack[0].InObj?
    ensures Reaches(Run(st, ": true}"), After, Kinds(st.stack)[1..])
  {
    var s1 := st.(mode := ValueNext);
    assert ": true}" == ": " + ("true" + "}");
    ColonSpaceRun(st);
    RunAppend(st, ": ", "true" + "}");
    TrueRun(s1);
    RunAppend(s1, "true", "}");
    var s2 := Deliver(s1, Bool(true));
    assert Kinds(s2.stack)[0] == ObjKind;
    RunOne(s2, '}');
  }

  /** `: ` before the wrapped container. */
  lemma {:induction false} ColonSpaceRun(st: State)
    requires st.mode == ColonNext
    ensures Run(st, ": ") == Some(st.(mode := ValueNext))
  {
    assert Run(st, ": ") == Run(st.(mode := ValueNext), " ");
    assert Run(st.(mode := ValueNext), " ") == Run(st.(mode := ValueNext), "");
  }

  /** `, ` after a value inside an object. */
  lemma {:induction false} CommaSpaceRun(st: State)
    requires st.mode == After && |st.stack| > 0 && st.stack[0].InObj?
    ensures Run(st, ", ") == Some(st.(mode := KeyNext))
  {
    assert Run(st, ", ") == Run(st.(mode := KeyNext), " ");
    assert Run(st.(mode := KeyNext), " ") == Run(st.(mode := KeyNext), "");
  }

  /** The opening brace of an envelope and its sentinel key. */
  lemma {:induction false} HeadKeyRun(a: State)
    requires a.mode == ValueNext || a.mode == ArrFirst
    ensures Reaches(Run(a, "{\"" + Sentinel + "\""), ColonNext, [ObjKind] + Kinds(a.stack))
    ensures Run(a, "{\"" + Sentinel + "\"").value.stack[0].InObj?
  {
    SentinelPlain();
    var s1 := State(ObjFirst, [InObj([], [])] + a.stack, a.root);
    assert Step(a, '{') == Some(s1);
    KindsCons(InObj([], []), a.stack);
    var k1 := "\"" + Sentinel + "\"";
    assert "{\"" + Sentinel + "\"" == "{" + k1;
    RunOne(a, '{');
    RunAppend(a, "{", k1);
    KeyRun(s1, Sentinel);
  }

  /** The head of an envelope, read where a value may start, leaves the
      decoder expecting the wrapped value inside one more object. */
  lemma {:induction false} HeadRun(a: State)
    requires a.mode == ValueNext || a.mode == ArrFirst
    ensures Reaches(Run(a, EnvelopeHead), ValueNext, [ObjKind] + Kinds(a.stack))
  {
    SentinelPlain();
    var h1 := "{\"" + Sentinel + "\"";
    var k2 := "\"" + RawLiteral + "\"";
    assert EnvelopeHead == h1 + (": false, " + (k2 + ": "));
    HeadKeyRun(a);
    RunAppend(a, h1, ": false, " + (k2 + ": "));
    var s2 := Run(a, h1).value;
    ColonFalseRun(s2);
    var s3 := Run(s2, ": false, ").value;
    RunAppend(s2, ": false, ", k2 + ": ");
    KeyRun(s3, RawLiteral);
    var s4 := Run(s3, k2).value;
    RunAppend(s3, k2, ": ");
    ColonSpaceRun(s4);
  }

  /** An envelope opening an object. */
  lemma {:induction false} OpenObjectRun(a: State)
    requires a.mode == ValueNext || a.mode == ArrFirst
    ensures Reaches(Run(a, OpenObject), ObjFirst, [ObjKind] + ([ObjKind] + Kinds(a.stack)))
  {
    HeadRun(a);
    var h := Run(a, EnvelopeHead).value;
    var r := State(ObjFirst, [InObj([], [])] + h.stack, h.root);
    assert Step(h, '{') == Some(r);
    KindsCons(InObj([], []), h.stack);
    RunOne(h, '{');
    RunAppend(a, EnvelopeHead, "{");
  }

  /** An envelope opening an array. */
  lemma {:induction false} OpenArrayRun(a: State)
    requires a.mode == ValueNext || a.mode == ArrFirst
    ensures Reaches(Run(a, OpenArray), ArrFirst, [ArrKind] + ([ObjKind] + Kinds(a.stack)))
  {
    HeadRun(a);
    var h := Run(a, EnvelopeHead).value;
    var r := State(ArrFirst, [InArr([])] + h.stack, h.root);
    assert Step(h, '[') == Some(r);
    KindsCons(InArr([]), h.stack);
    RunOne(h, '[');
    RunAppend(a, EnvelopeHead, "[");
  }

  /** The tail of an envelope, read after its wrapped container was
      closed, closes the envelope. */
  lemma {:induction false} TailRun(st: State)
    requires st.mode == After && |st.stack| > 0 && st.stack[0].InObj?
    ensures Reaches(Run(st, EnvelopeTail), After, Kinds(st.stack)[1..])
  {
    SentinelPlain();
    var k1 := "\"" + Sentinel + "\"";
    assert EnvelopeTail == ", " + (k1 + ": true}");
    CommaSpaceRun(st);
    var s1 := st.(mode := KeyNext);
    RunAppend(st, ", ", k1 + ": true}");
    KeyRun(s1, Sentinel);
    var s2 := Run(s1, k1).value;
    RunAppend(s1, k1, ": true}");
    ColonTrueRun(s2);
  }

  // ---------------------------------------------------------------------
  // The closers

  /** The kinds on the buffer's decoder stack when the raw text has kinds
      `ks`: every container sits inside its envelope. */
  function Expand(ks: seq<Kind>): (r: seq<Kind>)
    ensures |r| == 2 * |ks|
    ensures |ks| > 0 ==> r[0] == ks[0] && r[1] == ObjKind
  {
    if ks == [] then [] else [ks[0]] + ([ObjKind] + Expand(ks[1..]))
  }

  lemma {:induction false} ExpandCons(k: Kind, ks: seq<Kind>)
    ensures Expand([k] + ks) == [k] + ([ObjKind] + Expand(ks))
  {
    assert ([k] + ks)[1..] == ks;
  }

  lemma {:induction false} ExpandTail(ks: seq<Kind>)
    requires |ks| > 0
    ensures Expand(ks)[1..] == [ObjKind] + Expand(ks[1..])
    ensures Expand(ks)[2..] == Expand(ks[1..])
  {
    var e := [ObjKind] + Expand(ks[1..]);
    assert Expand(ks) == [ks[0]] + e;
    assert ([ks[0]] + e)[1..] == e;
    assert e[1..] == Expand(ks[1..]);
  }

  function CtxKind(x: Ctx): Kind { if x == ArrCtx then ArrKind else ObjKind }

  function CtxKinds(ctx: seq<Ctx>): (ks: seq<Kind>)
    ensures |ks| == |ctx| && forall j :: 0 <= j < |ctx| ==> ks[j] == CtxKind(ctx[j])
  {
    seq(|ctx|, j requires 0 <= j < |ctx| => CtxKind(ctx[j]))
  }

  /** The closers owed for the open containers: the container's own closer
      and its envelope's, innermost first. */
  function LevelClosers(ctx: seq<Ctx>): (r: string)
    ensures |r| == 2 * |ctx|
    ensures |ctx| > 0 ==> r[0] != '"'
  {
    if ctx == [] then [] else (if ctx[0] == ArrCtx then "]" else "}") + ("}" + LevelClosers(ctx[1..]))
  }

  lemma {:induction false} LevelClosersTail(ctx: seq<Ctx>)
    requires |ctx| > 0
    ensures Drop(LevelClosers(ctx), 2) == LevelClosers(ctx[1..])
  {
    var r := LevelClosers(ctx[1..]);
    var c := if ctx[0] == ArrCtx then "]" else "}";
    assert (c + ("}" + r))[2..] == r;
  }

  /** Modes in which the open containers can be closed at once. */
  predicate Closable(md: Mode, ctx: seq<Ctx>)
  {
    || md == After
    || (md.InNumber? && Terminal(md.part))
    || (md == ArrFirst && TopIs(ctx, ArrCtx))
    || (md == ObjFirst && |ctx| > 0 && ctx[0] != ArrCtx)
  }

  /** The kind of the innermost open container, if any. */
  function Top(st: State): Option<Kind>
  {
    if |st.stack| > 0 then Some(st.stack[0].Kind()) else None
  }

  /** A closer of the innermost container's kind, read where it may come. */
  lemma {:induction false} CloseOne(a: State, c: char)
    requires c == '}' || c == ']'
    requires Top(a) == Some(if c == '}' then ObjKind else ArrKind)
    requires a.mode == After || (a.mode.InNumber? && Terminal(a.mode.part))
          || (a.mode == ArrFirst && c == ']') || (a.mode == ObjFirst && c == '}')
    ensures Reaches(Step(a, c), After, Kinds(a.stack)[1..])
  {
    var k := if c == '}' then ObjKind else ArrKind;
    if a.mode == After {
      assert Step(a, c) == Close(a, k);
    } else if a.mode.InNumber? {
      var d := Deliver(a, Num(a.mode.text));
      assert Step(a, c) == NumberStep(a, a.mode.text, a.mode.part, c);
      assert NumberStep(a, a.mode.text, a.mode.part, c) == AfterValue(d, c);
      assert AfterValue(d, c) == Close(d, k);
    } else if a.mode == ArrFirst {
      assert Step(a, c) == Close(a, ArrKind);
    } else {
      assert Step(a, c) == Close(a, ObjKind);
    }
  }

  /** The two closers of the innermost level: its container's and its
      envelope's. */
  lemma {:induction false} CloseLevel(a: State, x: Ctx, t: string) returns (b: State)
    requires |a.stack| >= 2 && Kinds(a.stack)[0] == CtxKind(x) && Kinds(a.stack)[1] == ObjKind
    requires Closable(a.mode, [x])
    ensures b.mode == After && Kinds(b.stack) == Kinds(a.stack)[1..][1..]
    ensures Run(a, (if x == ArrCtx then "]" else "}") + ("}" + t)) == Run(b, t)
  {
    var c0: char := if x == ArrCtx then ']' else '}';
    CloseOne(a, c0);
    var b1 := Step(a, c0).value;
    assert Kinds(b1.stack)[0] == ObjKind;
    CloseOne(b1, '}');
    b := Step(b1, '}').value;
    RunOne(a, c0);
    RunAppend(a, [c0], "}" + t);
    RunOne(b1, '}');
    RunAppend(b1, "}", t);
  }

  lemma {:induction false} CloseLevels(a: State, ctx: seq<Ctx>)
    requires Kinds(a.stack) == Expand(CtxKinds(ctx))
    requires Closable(a.mode, ctx)
    ensures ClosesFrom(a, LevelClosers(ctx))
    decreases |ctx|
  {
    if ctx != [] {
      var rest := ctx[1..];
      assert CtxKinds(rest) == CtxKinds(ctx)[1..];
      ExpandTail(CtxKinds(ctx));
      var b := CloseLevel(a, ctx[0], LevelClosers(rest));
      CloseLevels(b, rest);
    }
  }

  /** Inside a value string the closers start with the closing quote. */
  lemma {:induction false} CloseString(a: State, ctx: seq<Ctx>)
    requires Kinds(a.stack) == Expand(CtxKinds(ctx))
    requires a.mode.InString? && !a.mode.isKey && a.mode.esc == NoEscape
    ensures ClosesFrom(a, "\"" + LevelClosers(ctx))
  {
    var b := Deliver(a, Str(a.mode.acc));
    assert Step(a, '"') == Some(b);
    RunOne(a, '"');
    RunAppend(a, "\"", LevelClosers(ctx));
    CloseLevels(b, ctx);
  }

  // ---------------------------------------------------------------------
  // One character read by both decoders

  /** A key is expected, being read, or has just been read. */
  predicate KeyMode(md: Mode)
  {
    md == ObjFirst || md == KeyNext || md == ColonNext || (md.InString? && md.isKey)
  }

  /** What every state the decoder reaches from `Start` satisfies. */
  predicate Reachable(q: State)
  {
    && (KeyMode(q.mode) ==> Top(q) == Some(ObjKind))
    && (q.mode == ArrFirst ==> Top(q) == Some(ArrKind))
    && (q.mode.InLiteral? ==> LiteralRest(q.mode.rest))
  }

  /** What may remain of `true`, `false` or `null` after its first letter. */
  predicate LiteralRest(r: string)
  {
    r in {"rue", "ue", "e", "alse", "lse", "se", "ull", "ll", "l"}
  }

  /** The raw decoder `q` and the buffer's decoder `a` are in the same mode
      and `a` has an envelope around each of `q`'s containers. */
  predicate Twins(q: State, a: State)
  {
    q.mode == a.mode && Kinds(a.stack) == Expand(Kinds(q.stack))
  }

  lemma {:induction false} TwinsTop(q: State, a: State)
    requires Twins(q, a)
    ensures Top(q) == Top(a)
  {
    if |q.stack| > 0 {
      assert Kinds(a.stack)[0] == Kinds(q.stack)[0];
    }
  }

  /** The next state keeps the stack, or delivers a value into it. */
  predicate SameKinds(st: State, r: Option<State>)
  {
    r.Some? && Kinds(r.value.stack) == Kinds(st.stack)
  }

  lemma {:induction false} AfterTwins(q: State, a: State, c: char)
    requires Top(q) == Top(a) && q.mode == After && a.mode == After && c != '}' && c != ']'
    requires AfterValue(q, c).Some?
    ensures AfterValue(a, c).Some? && AfterValue(a, c).value.mode == AfterValue(q, c).value.mode
    ensures AfterValue(q, c) == Some(q.(mode := AfterValue(q, c).value.mode))
    ensures AfterValue(a, c) == Some(a.(mode := AfterValue(q, c).value.mode))
    ensures AfterValue(q, c).value.mode == KeyNext ==> Top(q) == Some(ObjKind)
  {
  }

  lemma {:induction false} NumberTwins(q: State, a: State, c: char)
    requires Top(q) == Top(a) && q.mode == a.mode && q.mode.InNumber? && c != '}' && c != ']'
    requires Step(q, c).Some?
    ensures SameKinds(q, Step(q, c)) && SameKinds(a, Step(a, c))
    ensures Step(a, c).value.mode == Step(q, c).value.mode
    ensures Step(q, c).value.mode == KeyNext ==> Top(q) == Some(ObjKind)
    ensures !KeyMode(Step(q, c).value.mode) || Step(q, c).value.mode == KeyNext
  {
    var t, p := q.mode.text, q.mode.part;
    assert Step(q, c) == NumberStep(q, t, p, c);
    assert Step(a, c) == NumberStep(a, t, p, c);
    if !(IsDigit(c) || (c == '.' && (p == Zero || p == Digits))
         || ((c == 'e' || c == 'E') && (p == Zero || p == Digits || p == Fraction))
         || ((c == '+' || c == '-') && p == ExpMark)) {
      var dq := Deliver(q, Num(t));
      var da := Deliver(a, Num(t));
      assert NumberStep(q, t, p, c) == AfterValue(dq, c);
      assert NumberStep(a, t, p, c) == AfterValue(da, c);
      AfterTwins(dq, da, c);
    }
  }

  lemma {:induction false} LiteralTwins(q: State, a: State, c: char)
    requires q.mode == a.mode && q.mode.InLiteral?
    requires Step(q, c).Some?
    ensures SameKinds(q, Step(q, c)) && SameKinds(a, Step(a, c))
    ensures Step(a, c).value.mode == Step(q, c).value.mode
    ensures Step(q, c).value.mode == After || Step(q, c).value.mode.InLiteral?
  {
    var rest, lit := q.mode.rest, q.mode.lit;
    assert Step(q, c) == LiteralStep(q, rest, lit, c);
    assert Step(a, c) == LiteralStep(a, rest, lit, c);
  }

  lemma {:induction false} StringTwins(q: State, a: State, c: char)
    requires Twins(q, a) && q.mode.InString? && Step(q, c).Some?
    ensures Step(a, c).Some? && Step(a, c).value.mode == Step(q, c).value.mode
    ensures SameKinds(q, Step(q, c)) && SameKinds(a, Step(a, c))
  {
    TwinsTop(q, a);
    var isKey, acc, esc := q.mode.isKey, q.mode.acc, q.mode.esc;
    assert Step(q, c) == StringStep(q, isKey, acc, esc, c);
    assert Step(a, c) == StringStep(a, isKey, acc, esc, c);
    if esc == NoEscape && c == '"' {
      if isKey {
        KeyCloseKinds(q, acc);
        KeyCloseKinds(a, acc);
      } else {
        assert Step(q, c) == Some(Deliver(q, Str(acc)));
        assert Step(a, c) == Some(Deliver(a, Str(acc)));
      }
    } else {
      StringStepTwins(q, a, c);
    }
  }

  lemma {:induction false} SameTop(st: State, r: State)
    requires Kinds(r.stack) == Kinds(st.stack)
    ensures Top(r) == Top(st)
  {
    if |st.stack| > 0 {
      assert Kinds(r.stack)[0] == Kinds(st.stack)[0];
    }
  }

  /** The closing quote of a key records the key in the innermost object. */
  lemma {:induction false} KeyCloseKinds(st: State, acc: seq<int>)
    requires st.mode == InString(true, acc, NoEscape) && Step(st, '"').Some?
    ensures Step(st, '"') == Some(State(ColonNext, [st.stack[0].(key := acc)] + st.stack[1..], st.root))
    ensures SameKinds(st, Step(st, '"')) && Top(Step(st, '"').value) == Some(ObjKind)
  {
    var r := Step(st, '"').value;
    assert Kinds(r.stack) == Kinds(st.stack) by {
      assert forall j :: 0 <= j < |r.stack| ==> r.stack[j].Kind() == st.stack[j].Kind();
    }
  }

  /** Any character other than a container bracket outside a string is
      read the same way by twin decoders, and keeps their stacks' kinds. */
  lemma {:induction false} StepTwins(q: State, a: State, c: char)
    requires Twins(q, a)
    requires q.mode.InString? || (c != '{' && c != '[' && c != '}' && c != ']')
    requires Step(q, c).Some?
    ensures Step(a, c).Some? && Step(a, c).value.mode == Step(q, c).value.mode
    ensures SameKinds(q, Step(q, c)) && SameKinds(a, Step(a, c))
  {
    TwinsTop(q, a);
    if q.mode.InString? {
      StringTwins(q, a, c);
    } else if q.mode.InNumber? {
      NumberTwins(q, a, c);
    } else if q.mode.InLiteral? {
      LiteralTwins(q, a, c);
    } else if q.mode == After {
      AfterTwins(q, a, c);
    } else if q.mode == ValueNext || q.mode == ArrFirst {
      BeginTwins(q, a, c);
    } else {
      KeyTwins(q, a, c);
    }
  }

  lemma {:induction false} BeginTwins(q: State, a: State, c: char)
    requires q.mode == a.mode && (q.mode == ValueNext || q.mode == ArrFirst)
    requires c != '{' && c != '[' && c != ']' && Step(q, c).Some?
    ensures Step(q, c) == Some(q.(mode := Step(q, c).value.mode))
    ensures Step(a, c) == Some(a.(mode := Step(q, c).value.mode))
  {
    assert Step(q, c) == BeginValue(q, c);
    assert Step(a, c) == BeginValue(a, c);
  }

  lemma {:induction false} KeyTwins(q: State, a: State, c: char)
    requires q.mode == a.mode && (q.mode == ObjFirst || q.mode == KeyNext || q.mode == ColonNext)
    requires c != '}' && Step(q, c).Some?
    ensures Step(q, c) == Some(q.(mode := Step(q, c).value.mode))
    ensures Step(a, c) == Some(a.(mode := Step(q, c).value.mode))
  {
  }

  /** The facts `Reachable` collects hold of every state the decoder
      reaches: they are kept by every step. */
  lemma {:induction false} ReachableStep(q: State, c: char)
    requires Reachable(q) && Step(q, c).Some?
    ensures Reachable(Step(q, c).value)
  {
    match q.mode
    case InString(isKey, acc, esc) => ReachableString(q, isKey, acc, esc, c);
    case InNumber(t, p) => ReachableNumber(q, t, p, c);
    case InLiteral(rest, lit) => ReachableLiteral(q, rest, lit, c);
    case After => ReachableAfter(q, c);
    case ValueNext => ReachableBegin(q, c);
    case ArrFirst => if c == ']' { ReachableClose(q, ArrKind); } else { ReachableBegin(q, c); }
    case ObjFirst => if c == '}' { ReachableClose(q, ObjKind); }
    case KeyNext =>
    case ColonNext =>
  }

  lemma {:induction false} ReachableString(q: State, isKey: bool, acc: seq<int>, esc: Escape, c: char)
    requires Reachable(q) && q.mode == InString(isKey, acc, esc) && StringStep(q, isKey, acc, esc, c).Some?
    ensures Reachable(StringStep(q, isKey, acc, esc, c).value)
  {
    var q2 := StringStep(q, isKey, acc, esc, c).value;
    if esc == NoEscape && c == '"' {
      if isKey {
        KeyCloseKinds(q, acc);
      }
    } else {
      assert Step(q, c) == StringStep(q, isKey, acc, esc, c);
      StringStepTwins(q, q, c);
      SameTop(q, q2);
    }
  }

  lemma {:induction false} ReachableNumber(q: State, t: string, p: NumPart, c: char)
    requires Reachable(q) && q.mode == InNumber(t, p) && NumberStep(q, t, p, c).Some?
    ensures Reachable(NumberStep(q, t, p, c).value)
  {
    if !NumberStep(q, t, p, c).value.mode.InNumber? {
      var d := Deliver(q, Num(t));
      assert NumberStep(q, t, p, c) == AfterValue(d, c);
      ReachableAfter(d, c);
    }
  }

  lemma {:induction false} ReachableLiteral(q: State, rest: string, lit: Json, c: char)
    requires Reachable(q) && q.mode == InLiteral(rest, lit) && LiteralStep(q, rest, lit, c).Some?
    ensures Reachable(LiteralStep(q, rest, lit, c).value)
  {
  }

  lemma {:induction false} ReachableAfter(q: State, c: char)
    requires Reachable(q) && q.mode == After && AfterValue(q, c).Some?
    ensures Reachable(AfterValue(q, c).value)
  {
  }

  lemma {:induction false} ReachableBegin(q: State, c: char)
    requires Reachable(q) && BeginValue(q, c).Some?
    ensures Reachable(BeginValue(q, c).value)
  {
    if c == '{' {
      KindsCons(InObj([], []), q.stack);
    } else if c == '[' {
      KindsCons(InArr([]), q.stack);
    }
  }

  lemma {:induction false} ReachableClose(q: State, k: Kind)
    requires Close(q, k).Some?
    ensures Reachable(Close(q, k).value)
  {
  }

  /** A closing bracket outside a string closes the innermost container
      in both decoders. */
  lemma {:induction false} StepCloseTwins(q: State, a: State, c: char)
    requires Twins(q, a) && Reachable(q) && !q.mode.InString?
    requires c == '}' || c == ']'
    requires Step(q, c).Some?
    ensures Top(q) == Some(if c == '}' then ObjKind else ArrKind)
    ensures Reaches(Step(q, c), After, Kinds(q.stack)[1..])
    ensures Reaches(Step(a, c), After, Kinds(a.stack)[1..])
  {
    TwinsTop(q, a);
    CloseMode(q, c);
    CloseOne(q, c);
    CloseOne(a, c);
  }

  /** Where a closing bracket may come, and what it needs on the stack. */
  lemma {:induction false} CloseMode(q: State, c: char)
    requires Reachable(q) && !q.mode.InString? && (c == '}' || c == ']') && Step(q, c).Some?
    ensures Top(q) == Some(if c == '}' then ObjKind else ArrKind)
    ensures q.mode == After || (q.mode.InNumber? && Terminal(q.mode.part))
         || (q.mode == ArrFirst && c == ']') || (q.mode == ObjFirst && c == '}')
  {
    var k := if c == '}' then ObjKind else ArrKind;
    if q.mode.InNumber? {
      var t, p := q.mode.text, q.mode.part;
      var d := Deliver(q, Num(t));
      assert Step(q, c) == NumberStep(q, t, p, c);
      assert NumberStep(q, t, p, c) == AfterValue(d, c);
      assert AfterValue(d, c) == Close(d, k);
      SameTop(q, d);
    } else if q.mode == After {
      assert Step(q, c) == Close(q, k);
    }
  }

  /** An opening bracket outside a string is read only where a value may
      start, and pushes a container. */
  lemma {:induction false} StepOpen(q: State, c: char)
    requires Reachable(q) && !q.mode.InString? && (c == '{' || c == '[')
    requires Step(q, c).Some?
    ensures q.mode == ValueNext || q.mode == ArrFirst
    ensures Step(q, c).value.mode == (if c == '{' then ObjFirst else ArrFirst)
    ensures Kinds(Step(q, c).value.stack) == [if c == '{' then ObjKind else ArrKind] + Kinds(q.stack)
  {
    NumberPunct(q, c);
    assert Step(q, c) == BeginValue(q, c);
    KindsCons(if c == '{' then InObj([], []) else InArr([]), q.stack);
  }

  /** A number cannot be followed at once by a colon, a quote or an
      opening bracket. */
  lemma {:induction false} NumberPunct(q: State, c: char)
    requires c == ':' || c == '"' || c == '{' || c == '['
    ensures q.mode.InNumber? ==> Step(q, c).None?
  {
    if q.mode.InNumber? {
      assert Step(q, c) == NumberStep(q, q.mode.text, q.mode.part, c);
    }
  }

  /** A comma outside a string ends a value inside a container. */
  lemma {:induction false} StepComma(q: State)
    requires Reachable(q) && !q.mode.InString? && Step(q, ',').Some?
    ensures Closable(q.mode, []) && |q.stack| > 0
    ensures Step(q, ',').value.mode == (if q.stack[0].InArr? then ValueNext else KeyNext)
  {
    if q.mode.InNumber? {
      var t, p := q.mode.text, q.mode.part;
      assert Step(q, ',') == NumberStep(q, t, p, ',');
      assert NumberStep(q, t, p, ',') == AfterValue(Deliver(q, Num(t)), ',');
      assert Kinds(Deliver(q, Num(t)).stack)[0] == Kinds(q.stack)[0];
    }
  }

  /** A colon outside a string follows a key. */
  lemma {:induction false} StepColon(q: State)
    requires Reachable(q) && !q.mode.InString? && Step(q, ':').Some?
    ensures q.mode == ColonNext && Step(q, ':').value.mode == ValueNext
  {
    NumberPunct(q, ':');
  }

  /** A quote outside a string opens a key or a value string. */
  lemma {:induction false} StepQuote(q: State)
    requires Reachable(q) && !q.mode.InString? && Step(q, '"').Some?
    ensures Step(q, '"') == Some(q.(mode := InString(KeyMode(q.mode), [], NoEscape)))
  {
    NumberPunct(q, '"');
  }

  /** Any other character outside a string stays outside strings and
      keys; a literal is entered only by a letter other than `e`; and `e`,
      `E` or `.` outside a literal extends a number that could end there. */
  lemma {:induction false} StepPlain(q: State, c: char)
    requires Reachable(q) && !q.mode.InString? && Step(q, c).Some?
    requires c != '"' && c != ',' && c != ':' && c != '{' && c != '[' && c != '}' && c != ']'
    ensures !Step(q, c).value.mode.InString?
    ensures KeyMode(Step(q, c).value.mode) <==> KeyMode(q.mode)
    ensures Step(q, c).value.mode.InLiteral? ==> 'a' <= c <= 'z' && c != 'e'
    ensures (c == 'e' || c == 'E' || c == '.') && !q.mode.InLiteral? ==> q.mode.InNumber? && Terminal(q.mode.part)
  {
    if q.mode.InNumber? {
      var t, p := q.mode.text, q.mode.part;
      assert Step(q, c) == NumberStep(q, t, p, c);
    } else if q.mode.InLiteral? {
      assert Step(q, c) == LiteralStep(q, q.mode.rest, q.mode.lit, c);
    }
  }

  // ---------------------------------------------------------------------
  // Inside strings

  /** Reading `y` from `st` never leaves string mode and never closes the
      string. */
  ghost predicate InsideString(st: State, y: string)
    decreases |y|
  {
    y == [] ||
    (st.mode.InString? && !(st.mode.esc == NoEscape && y[0] == '"')
     && Step(st, y[0]).Some? && InsideString(Step(st, y[0]).value, y[1..]))
  }

  lemma {:induction false} StringStepTwins(s1: State, s2: State, c: char)
    requires s1.mode == s2.mode && s1.mode.InString? && !(s1.mode.esc == NoEscape && c == '"')
    ensures Step(s1, c).Some? == Step(s2, c).Some?
    ensures Step(s1, c).Some? ==> Step(s1, c).value == s1.(mode := Step(s1, c).value.mode)
    ensures Step(s1, c).Some? ==> Step(s2, c).value == s2.(mode := Step(s1, c).value.mode)
    ensures Step(s1, c).Some? ==> Step(s1, c).value.mode.InString? && Step(s1, c).value.mode.isKey == s1.mode.isKey
  {
  }

  /** Two decoders in the same string mode read such a `y` alike, and
      neither changes its stack. */
  lemma {:induction false} InsideRun(s1: State, s2: State, y: string)
    requires s1.mode == s2.mode && InsideString(s1, y)
    ensures Run(s1, y).Some? && Run(s2, y).Some?
    ensures Run(s1, y).value == s1.(mode := Run(s1, y).value.mode)
    ensures Run(s2, y).value == s2.(mode := Run(s1, y).value.mode)
    ensures y != [] ==> Run(s1, y).value.mode.InString? && Run(s1, y).value.mode.isKey == s1.mode.isKey
    decreases |y|
  {
    if y != [] {
      StringStepTwins(s1, s2, y[0]);
      var n1 := Step(s1, y[0]).value;
      var n2 := Step(s2, y[0]).value;
      InsideRun(n1, n2, y[1..]);
    }
  }

  /** A whole escape: a backslash and one character, or `\u` and four. */
  predicate WholeEscape(y: string)
  {
    (|y| == 2 && y[0] == '\\' && y[1] != 'u') || (|y| == 6 && y[0] == '\\' && y[1] == 'u')
  }

  /** The start of a `\u` escape or a lone backslash. */
  predicate PendingEscape(y: string)
  {
    1 <= |y| <= 5 && y[0] == '\\' && (|y| >= 2 ==> y[1] == 'u')
  }

  lemma {:induction false} EscapeInside(st: State, y: string)
    requires st.mode.InString? && st.mode.esc == NoEscape
    requires WholeEscape(y) && Run(st, y).Some?
    ensures InsideString(st, y)
    ensures Run(st, y).value.mode.InString? && Run(st, y).value.mode.esc == NoEscape
  {
    var k := st.mode.isKey;
    var s1 := Step(st, y[0]).value;
    assert s1.mode == InString(k, st.mode.acc, Backslash);
    if |y| == 2 {
      RunCons(st, y);
      assert Step(s1, y[1]).Some?;
      var s2 := Step(s1, y[1]).value;
      assert y[1..][1..] == [];
      assert InsideString(s2, y[1..][1..]);
      assert InsideString(s1, y[1..]);
    } else {
      RunCons(st, y);
      var s2 := Step(s1, 'u').value;
      assert s2.mode == InString(k, st.mode.acc, Hex(0, 0));
      RunCons(s1, y[1..]);
      assert Step(s2, y[2]).Some?;
      var s3 := Step(s2, y[2]).value;
      RunCons(s2, y[2..]);
      assert s3.mode.InString? && s3.mode.esc.Hex? && s3.mode.esc.count == 1;
      assert Step(s3, y[3]).Some?;
      var s4 := Step(s3, y[3]).value;
      RunCons(s3, y[3..]);
      assert s4.mode.InString? && s4.mode.esc.Hex? && s4.mode.esc.count == 2;
      assert Step(s4, y[4]).Some?;
      var s5 := Step(s4, y[4]).value;
      RunCons(s4, y[4..]);
      assert s5.mode.InString? && s5.mode.esc.Hex? && s5.mode.esc.count == 3;
      assert Step(s5, y[5]).Some?;
      var s6 := Step(s5, y[5]).value;
      RunCons(s5, y[5..]);
      assert s6.mode.InString? && s6.mode.esc == NoEscape;
      assert y[5..][1..] == [];
      assert InsideString(s6, y[5..][1..]);
      assert InsideString(s5, y[5..]);
      assert InsideString(s4, y[4..]);
      assert InsideString(s3, y[3..]);
      assert InsideString(s2, y[2..]);
      assert InsideString(s1, y[1..]);
    }
  }

  /** A pending escape read by the decoder leaves it inside the string. */
  lemma {:induction false} PendingInside(st: State, y: string)
    requires st.mode.InString? && st.mode.esc == NoEscape
    requires PendingEscape(y) && Run(st, y).Some?
    ensures Run(st, y).value.mode.InString?
  {
    var k := st.mode.isKey;
    var s1 := Step(st, y[0]).value;
    RunCons(st, y);
    if |y| == 1 {
      assert y[1..] == [];
    } else {
      var s2 := Step(s1, 'u').value;
      RunCons(s1, y[1..]);
      assert s2.mode.InString? && s2.mode.esc.Hex? && s2.mode.esc.count == 0;
      if |y| == 2 {
        assert y[2..] == [];
      } else {
        var s3 := Step(s2, y[2]).value;
        RunCons(s2, y[2..]);
        assert s3.mode.InString? && s3.mode.esc.Hex? && s3.mode.esc.count == 1;
        if |y| == 3 {
          assert y[3..] == [];
        } else {
          var s4 := Step(s3, y[3]).value;
          RunCons(s3, y[3..]);
          assert s4.mode.InString? && s4.mode.esc.Hex? && s4.mode.esc.count == 2;
          if |y| == 4 {
            assert y[4..] == [];
          } else {
            var s5 := Step(s4, y[4]).value;
            RunCons(s4, y[4..]);
            assert s5.mode.InString? && s5.mode.esc.Hex? && s5.mode.esc.count == 3;
            assert y[5..] == [];
          }
        }
      }
    }
  }
}
