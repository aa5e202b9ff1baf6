/** Convergence of the session of dist/index.js: fed a whole JSON text,
    `done` and `readValue` give what `JSON.parse` gives for the text, with
    every object and array flagged as finished.

    The proof follows the decoder through the augmented buffer. `Aug` is
    the value the buffer holds for a raw value (every container inside a
    closed envelope) and `Lift` the state the buffer's decoder is in when
    the raw decoder is in a given state; every character the loop of
    `addChunk` handles takes the one to the other. */
module DistConverge {
  import opened Wrappers
  import opened Json
  import opened DistModel
  import opened DistRuns
  import opened DistSafety
  import opened DistInvariant
  import opened DistProps
  import opened DistRead

  /** The envelope keys as decoded. */
  const SKey: seq<int> := Units(Sentinel)
  const VKey: seq<int> := Units(RawLiteral)

  /** A closed envelope around `x`. */
  function Envelope(x: Json): Json
  {
    Obj([Member(SKey, Bool(false)), Member(VKey, x), Member(SKey, Bool(true))])
  }

  /** The value the buffer holds for the raw value `v`. */
  function Aug(v: Json): Json
    decreases v, 1
  {
    match v
    case Arr(items) => Envelope(Arr(AugItems(items)))
    case Obj(ms) => Envelope(Obj(AugMembers(ms)))
    case _ => v
  }

  function AugItems(items: seq<Json>): (r: seq<Json>)
    ensures |r| == |items| && forall i :: 0 <= i < |items| ==> r[i] == Aug(items[i])
    decreases items, 0
  {
    seq(|items|, i requires 0 <= i < |items| => Aug(items[i]))
  }

  function AugMembers(ms: seq<Member>): (r: seq<Member>)
    ensures |r| == |ms| && forall i :: 0 <= i < |ms| ==> r[i] == Member(ms[i].key, Aug(ms[i].value))
    decreases ms, 0
  {
    seq(|ms|, i requires 0 <= i < |ms| => Member(ms[i].key, Aug(ms[i].value)))
  }

  /** The value `readValue` hands out for a finished document `v`: the
      decoded value with every container flagged as done streaming. */
  function Marked(v: Json): Value
    decreases v
  {
    match v
    case Null => VNull
    case Bool(b) => VBool(b)
    case Num(t) => VNum(t)
    case Str(u) => VStr(u)
    case Arr(items) => VArr(seq(|items|, i requires 0 <= i < |items| => Marked(items[i])), Some(VBool(true)))
    case Obj(ms) => VObj(Dedupe(seq(|ms|, i requires 0 <= i < |ms| => (ms[i].key, Marked(ms[i].value)))), Some(VBool(true)))
  }

  /** No object of the document has the sentinel as a key. */
  predicate NoSentinel(v: Json)
    decreases v
  {
    match v
    case Arr(items) => forall i :: 0 <= i < |items| ==> NoSentinel(items[i])
    case Obj(ms) => forall i :: 0 <= i < |ms| ==> ms[i].key != SKey && NoSentinel(ms[i].value)
    case _ => true
  }

  // ---------------------------------------------------------------------
  // The reviver on an augmented value

  function Succeeded(ps: seq<(seq<int>, Value)>): (r: seq<(seq<int>, Result<Value, Error>)>)
    ensures |r| == |ps| && forall i :: 0 <= i < |ps| ==> r[i] == (ps[i].0, Success(ps[i].1))
  {
    seq(|ps|, i requires 0 <= i < |ps| => (ps[i].0, Success(ps[i].1)))
  }

  lemma {:induction false} IndexOfKeySucceeded(ps: seq<(seq<int>, Value)>, k: seq<int>)
    ensures IndexOfKey(Succeeded(ps), k) == IndexOfKey(ps, k)
    decreases |ps|
  {
    if ps != [] {
      assert Succeeded(ps)[1..] == Succeeded(ps[1..]);
      IndexOfKeySucceeded(ps[1..], k);
    }
  }

  /** Merging repeated keys does not look at the values. */
  lemma {:induction false} DedupeSucceeded(ps: seq<(seq<int>, Value)>)
    ensures Dedupe(Succeeded(ps)) == Succeeded(Dedupe(ps))
    decreases |ps|
  {
    if ps != [] {
      var n := |ps|;
      var last := ps[n - 1];
      assert Succeeded(ps)[..n - 1] == Succeeded(ps[..n - 1]);
      assert Succeeded(ps)[n - 1] == (last.0, Success(last.1));
      DedupeSucceeded(ps[..n - 1]);
      var acc := Dedupe(ps[..n - 1]);
      IndexOfKeySucceeded(acc, last.0);
      match IndexOfKey(acc, last.0)
      case Some(j) =>
        assert Succeeded(acc)[j := (last.0, Success(last.1))] == Succeeded(acc[j := last]);
      case None =>
        assert Succeeded(acc) + [(last.0, Success(last.1))] == Succeeded(acc + [last]);
    }
  }

  /** Merging repeated keys brings in no new key. */
  lemma {:induction false} DedupeWithout(ps: seq<(seq<int>, Value)>, k: seq<int>)
    requires forall i :: 0 <= i < |ps| ==> ps[i].0 != k
    ensures IndexOfKey(Dedupe(ps), k) == None
    decreases |ps|
  {
    if ps != [] {
      var n := |ps|;
      DedupeWithout(ps[..n - 1], k);
      var acc := Dedupe(ps[..n - 1]);
      match IndexOfKey(acc, ps[n - 1].0)
      case Some(j) =>
        var upd: seq<(seq<int>, Value)> := acc[j := ps[n - 1]];
        assert forall i :: 0 <= i < |upd| ==> upd[i].0 != k;
      case None =>
        var ext: seq<(seq<int>, Value)> := acc + [ps[n - 1]];
        assert forall i :: 0 <= i < |ext| ==> ext[i].0 != k;
    }
  }

  lemma {:induction false} ReviveItems(items: seq<Json>)
    requires forall i :: 0 <= i < |items| ==> NoSentinel(items[i])
    ensures Revive(Arr(AugItems(items))) == Success(VArr(seq(|items|, i requires 0 <= i < |items| => Marked(items[i])), None))
    decreases items, 0
  {
    forall i | 0 <= i < |items|
      ensures Revive(Aug(items[i])) == Success(Marked(items[i]))
    {
      ReviveAug(items[i]);
    }
    var ais := AugItems(items);
    var rs := seq(|ais|, i requires 0 <= i < |ais| => Revive(ais[i]));
    assert forall i :: 0 <= i < |rs| ==> rs[i] == Success(Marked(items[i]));
    assert seq(|rs|, i requires 0 <= i < |rs| && rs[i].Success? => rs[i].value)
        == seq(|items|, i requires 0 <= i < |items| => Marked(items[i]));
  }

  /** An object whose members revive without failure and without the
      sentinel key is no envelope: the reviver keeps it as an object. */
  lemma {:induction false} ReviveObject(ms: seq<Member>, ps: seq<(seq<int>, Value)>)
    requires seq(|ms|, i requires 0 <= i < |ms| => (ms[i].key, Revive(ms[i].value))) == Succeeded(ps)
    requires forall i :: 0 <= i < |ps| ==> ps[i].0 != SKey
    ensures Revive(Obj(ms)) == Success(VObj(Dedupe(ps), None))
  {
    DedupeSucceeded(ps);
    var props := Succeeded(Dedupe(ps));
    assert seq(|props|, i requires 0 <= i < |props| && props[i].1.Success? => (props[i].0, props[i].1.value)) == Dedupe(ps);
    DedupeWithout(ps, SKey);
  }

  lemma {:induction false} ReviveMembers(ms: seq<Member>)
    requires forall i :: 0 <= i < |ms| ==> ms[i].key != SKey && NoSentinel(ms[i].value)
    ensures Revive(Obj(AugMembers(ms))) == Success(VObj(Dedupe(seq(|ms|, i requires 0 <= i < |ms| => (ms[i].key, Marked(ms[i].value)))), None))
    decreases ms, 0
  {
    var ams := AugMembers(ms);
    var ps := seq(|ms|, i requires 0 <= i < |ms| => (ms[i].key, Marked(ms[i].value)));
    forall i | 0 <= i < |ms|
      ensures Revive(Aug(ms[i].value)) == Success(Marked(ms[i].value))
    {
      ReviveAug(ms[i].value);
    }
    assert seq(|ams|, i requires 0 <= i < |ams| => (ams[i].key, Revive(ams[i].value))) == Succeeded(ps);
    ReviveObject(ams, ps);
  }

  /** The reviver turns the buffer's value back into the document, every
      container flagged as finished. */
  lemma {:induction false} ReviveAug(v: Json)
    requires NoSentinel(v)
    ensures Revive(Aug(v)) == Success(Marked(v))
    decreases v, 1
  {
    match v
    case Arr(items) =>
      var x := Arr(AugItems(items));
      ReviveItems(items);
      ReviveClosedEnvelope(x);
    case Obj(ms) =>
      var x := Obj(AugMembers(ms));
      ReviveMembers(ms);
      ReviveClosedEnvelope(x);
    case _ =>
  }

  // ---------------------------------------------------------------------
  // The buffer's decoder state for a raw decoder state

  /** The envelope of an open container, as the decoder holds it once the
      head is read: the flag `false` given, the wrapped value due. */
  const EnvFrame: Frame := InObj([Member(SKey, Bool(false))], VKey)

  function AugFrame(f: Frame): (r: Frame)
    ensures r.Kind() == f.Kind()
  {
    match f
    case InArr(items) => InArr(AugItems(items))
    case InObj(ms, k) => InObj(AugMembers(ms), k)
  }

  /** Every open container sits inside its open envelope. */
  function AugStack(fs: seq<Frame>): (r: seq<Frame>)
    ensures |r| == 2 * |fs|
  {
    if fs == [] then [] else [AugFrame(fs[0]), EnvFrame] + AugStack(fs[1..])
  }

  function LiftMode(md: Mode): Mode
  {
    if md.InLiteral? then InLiteral(md.rest, Aug(md.lit)) else md
  }

  /** The state of the decoder reading the buffer while the raw decoder is
      in state `q`. */
  function Lift(q: State): State
  {
    State(LiftMode(q.mode), AugStack(q.stack), Aug(q.root))
  }

  function LiftO(r: Option<State>): Option<State>
  {
    match r
    case None => None
    case Some(q) => Some(Lift(q))
  }

  lemma {:induction false} AugStackCons(f: Frame, fs: seq<Frame>)
    ensures AugStack([f] + fs) == [AugFrame(f)] + ([EnvFrame] + AugStack(fs))
  {
    assert ([f] + fs)[1..] == fs;
    assert [AugFrame(f), EnvFrame] + AugStack(fs) == [AugFrame(f)] + ([EnvFrame] + AugStack(fs));
  }

  lemma {:induction false} AugItemsAppend(items: seq<Json>, v: Json)
    ensures AugItems(items + [v]) == AugItems(items) + [Aug(v)]
  {
    assert forall i :: 0 <= i < |items| + 1 ==> AugItems(items + [v])[i] == (AugItems(items) + [Aug(v)])[i];
  }

  lemma {:induction false} AugMembersAppend(ms: seq<Member>, k: seq<int>, v: Json)
    ensures AugMembers(ms + [Member(k, v)]) == AugMembers(ms) + [Member(k, Aug(v))]
  {
    var l := ms + [Member(k, v)];
    assert forall i :: 0 <= i < |l| ==> AugMembers(l)[i] == (AugMembers(ms) + [Member(k, Aug(v))])[i];
  }

  /** The innermost container with `v` added. */
  function Into(f: Frame, v: Json): Frame
  {
    match f
    case InArr(items) => InArr(items + [v])
    case InObj(ms, k) => InObj(ms + [Member(k, v)], k)
  }

  lemma {:induction false} DeliverCons(st: State, v: Json)
    requires st.stack != []
    ensures Deliver(st, v) == State(After, [Into(st.stack[0], v)] + st.stack[1..], st.root)
  {
  }

  lemma {:induction false} IntoAug(f: Frame, v: Json)
    ensures Into(AugFrame(f), Aug(v)) == AugFrame(Into(f, v))
  {
    match f
    case InArr(items) => AugItemsAppend(items, v);
    case InObj(ms, k) => AugMembersAppend(ms, k, v);
  }

  /** A complete value goes where its raw counterpart goes. */
  lemma {:induction false} DeliverLift(q: State, v: Json)
    ensures Deliver(Lift(q), Aug(v)) == Lift(Deliver(q, v))
  {
    if q.stack != [] {
      var f := q.stack[0];
      var rest := q.stack[1..];
      assert q.stack == [f] + rest;
      AugStackCons(f, rest);
      var l := Lift(q);
      var below := [EnvFrame] + AugStack(rest);
      assert l.stack == [AugFrame(f)] + below;
      assert l.stack[0] == AugFrame(f) && l.stack[1..] == below;
      DeliverCons(l, Aug(v));
      DeliverCons(q, v);
      IntoAug(f, v);
      AugStackCons(Into(f, v), rest);
      assert Deliver(q, v).stack == [Into(f, v)] + rest;
    }
  }

  /** A closed raw container is a closed envelope in the buffer. */
  lemma {:induction false} AugClosed(f: Frame)
    ensures Aug(f.Closed()) == Envelope(AugFrame(f).Closed())
  {
  }

  // ---------------------------------------------------------------------
  // The envelope texts, read exactly

  /** Characters below U+10000: one UTF-16 unit each. */
  predicate Bmp(name: string)
  {
    forall j :: 0 <= j < |name| ==> name[j] as int < 0x10000
  }

  lemma {:induction false} PlainTail(name: string)
    requires name != [] && Plain(name) && Bmp(name)
    ensures Plain(name[1..]) && Bmp(name[1..])
    ensures name[0] != '"' && name[0] != '\\' && name[0] as int >= 0x20 && name[0] as int < 0x10000
  {
    assert forall j :: 0 <= j < |name[1..]| ==> name[1..][j] == name[j + 1];
  }

  lemma {:induction false} PlainStep(st: State, c: char)
    requires st.mode.InString? && st.mode.esc == NoEscape
    requires c != '"' && c != '\\' && c as int >= 0x20 && c as int < 0x10000
    ensures Step(st, c) == Some(st.(mode := InString(st.mode.isKey, st.mode.acc + [c as int], NoEscape)))
  {
    assert Utf16(c) == [c as int];
  }

  /** `Units` in cons form, one number per character, so that the exact
      runs below can go by induction on the name; `CodesUnits` ties the
      two together. */
  function Codes(name: string): seq<int>
  {
    if name == [] then [] else [name[0] as int] + Codes(name[1..])
  }

  lemma {:induction false} CodesUnits(name: string)
    requires Bmp(name)
    ensures Codes(name) == Units(name)
    decreases |name|
  {
    if name != [] {
      assert Bmp(name[1..]) by {
        assert forall j :: 0 <= j < |name[1..]| ==> name[1..][j] == name[j + 1];
      }
      CodesUnits(name[1..]);
      assert forall j :: 0 <= j < |name| ==> Codes(name)[j] == Units(name)[j] by {
        assert forall j :: 1 <= j < |name| ==> Units(name[1..])[j - 1] == name[j] as int;
      }
    }
  }

  /** Plain characters below U+10000 go into the string one unit each. */
  lemma {:induction false} PlainExact(st: State, name: string)
    requires st.mode.InString? && st.mode.esc == NoEscape && Plain(name) && Bmp(name)
    ensures Run(st, name) == Some(st.(mode := InString(st.mode.isKey, st.mode.acc + Codes(name), NoEscape)))
    decreases |name|
  {
    if name == [] {
      assert st.mode.acc + Codes(name) == st.mode.acc;
    } else {
      var c := name[0];
      var acc := st.mode.acc;
      var next := st.(mode := InString(st.mode.isKey, acc + [c as int], NoEscape));
      PlainTail(name);
      PlainStep(st, c);
      RunCons(st, name);
      PlainExact(next, name[1..]);
      assert (acc + [c as int]) + Codes(name[1..]) == acc + Codes(name);
    }
  }

  /** A quoted member name where a key is expected names the member. */
  lemma {:induction false} KeyExact(st: State, name: string)
    requires st.mode == ObjFirst || st.mode == KeyNext
    requires |st.stack| > 0 && st.stack[0].InObj? && Plain(name) && Bmp(name)
    ensures Run(st, "\"" + name + "\"") == Some(State(ColonNext, [st.stack[0].(key := Units(name))] + st.stack[1..], st.root))
  {
    var s1 := st.(mode := InString(true, [], NoEscape));
    assert Step(st, '"') == Some(s1);
    assert "\"" + name + "\"" == "\"" + (name + "\"");
    RunAppend(st, "\"", name + "\"");
    RunOne(st, '"');
    PlainExact(s1, name);
    CodesUnits(name);
    assert [] + Units(name) == Units(name);
    var s2 := s1.(mode := InString(true, Units(name), NoEscape));
    RunAppend(s1, name, "\"");
    RunOne(s2, '"');
  }

  /** A member name and its colon: the decoder expects the member's value. */
  lemma {:induction false} KeyColonExact(st: State, name: string)
    requires st.mode == ObjFirst || st.mode == KeyNext
    requires |st.stack| > 0 && st.stack[0].InObj? && Plain(name) && Bmp(name)
    ensures Run(st, "\"" + name + "\"" + ": ") == Some(State(ValueNext, [st.stack[0].(key := Units(name))] + st.stack[1..], st.root))
  {
    KeyExact(st, name);
    RunAppend(st, "\"" + name + "\"", ": ");
    ColonSpaceRun(State(ColonNext, [st.stack[0].(key := Units(name))] + st.stack[1..], st.root));
  }

  /** A literal value of the innermost object followed by `, `. */
  lemma {:induction false} FalseCommaExact(st: State)
    requires st.mode == ValueNext && |st.stack| > 0 && st.stack[0].InObj?
    ensures Run(st, "false, ") == Some(State(KeyNext, [Into(st.stack[0], Bool(false))] + st.stack[1..], st.root))
  {
    FalseRun(st);
    RunAppend(st, "false", ", ");
    DeliverCons(st, Bool(false));
    CommaSpaceRun(Deliver(st, Bool(false)));
  }

  /** `true}` ends an envelope. */
  lemma {:induction false} TrueCloseExact(st: State)
    requires st.mode == ValueNext && |st.stack| > 0 && st.stack[0].InObj?
    ensures Run(st, "true}") == Some(Deliver(st.(stack := st.stack[1..]), Into(st.stack[0], Bool(true)).Closed()))
  {
    TrueRun(st);
    RunAppend(st, "true", "}");
    DeliverCons(st, Bool(true));
    var s1 := Deliver(st, Bool(true));
    RunOne(s1, '}');
    assert s1.stack[1..] == st.stack[1..];
  }

  /** The sentinel member with the flag `false`, as an envelope head
      writes it. */
  lemma {:induction false} SentinelFalseExact(st: State)
    requires st.mode == ObjFirst && |st.stack| > 0 && st.stack[0] == InObj([], [])
    ensures Run(st, "\"" + Sentinel + "\"" + ": " + "false, ")
         == Some(State(KeyNext, [InObj([Member(SKey, Bool(false))], SKey)] + st.stack[1..], st.root))
  {
    SentinelPlain();
    var k1 := "\"" + Sentinel + "\"" + ": ";
    KeyColonExact(st, Sentinel);
    var s2 := State(ValueNext, [InObj([], SKey)] + st.stack[1..], st.root);
    RunAppend(st, k1, "false, ");
    FalseCommaExact(s2);
    assert [] + [Member(SKey, Bool(false))] == [Member(SKey, Bool(false))];
    assert ([InObj([], SKey)] + st.stack[1..])[1..] == st.stack[1..];
  }

  /** The two members of an envelope head after its brace. */
  lemma {:induction false} HeadMembers(st: State)
    requires st.mode == ObjFirst && |st.stack| > 0 && st.stack[0] == InObj([], [])
    ensures Run(st, "\"" + Sentinel + "\"" + ": " + "false, " + ("\"" + RawLiteral + "\"" + ": "))
         == Some(State(ValueNext, [EnvFrame] + st.stack[1..], st.root))
  {
    SentinelPlain();
    var k1 := "\"" + Sentinel + "\"" + ": " + "false, ";
    var k2 := "\"" + RawLiteral + "\"" + ": ";
    SentinelFalseExact(st);
    var s3 := State(KeyNext, [InObj([Member(SKey, Bool(false))], SKey)] + st.stack[1..], st.root);
    RunAppend(st, k1, k2);
    KeyColonExact(s3, RawLiteral);
    assert ([InObj([Member(SKey, Bool(false))], SKey)] + st.stack[1..])[1..] == st.stack[1..];
  }

  /** The head of an envelope, read where a value may start, opens the
      envelope and leaves the decoder expecting the wrapped value. */
  lemma {:induction false} HeadExact(a: State)
    requires a.mode == ValueNext || a.mode == ArrFirst
    ensures Run(a, EnvelopeHead) == Some(State(ValueNext, [EnvFrame] + a.stack, a.root))
  {
    var rest := "\"" + Sentinel + "\"" + ": " + "false, " + ("\"" + RawLiteral + "\"" + ": ");
    assert EnvelopeHead == "{" + rest;
    var s1 := State(ObjFirst, [InObj([], [])] + a.stack, a.root);
    assert Step(a, '{') == Some(s1);
    RunOne(a, '{');
    RunAppend(a, "{", rest);
    HeadMembers(s1);
    assert ([InObj([], [])] + a.stack)[1..] == a.stack;
  }

  /** The tail of an envelope, read after the wrapped container was
      closed, gives the envelope its flag `true` and closes it. */
  lemma {:induction false} TailExact(st: State)
    requires st.mode == After && |st.stack| > 0 && st.stack[0].InObj?
    ensures Run(st, EnvelopeTail)
         == Some(Deliver(st.(stack := st.stack[1..]), Obj(st.stack[0].members + [Member(SKey, Bool(true))])))
  {
    SentinelPlain();
    var ms := st.stack[0].members;
    var rest := st.stack[1..];
    var k1 := "\"" + Sentinel + "\"" + ": ";
    assert EnvelopeTail == ", " + (k1 + "true}");
    CommaSpaceRun(st);
    var s1 := st.(mode := KeyNext);
    RunAppend(st, ", ", k1 + "true}");
    KeyColonExact(s1, Sentinel);
    var s2 := State(ValueNext, [InObj(ms, SKey)] + rest, st.root);
    RunAppend(s1, k1, "true}");
    TrueCloseExact(s2);
    assert ([InObj(ms, SKey)] + rest)[1..] == rest;
  }

  // ---------------------------------------------------------------------
  // One raw character against what the buffer gets for it

  predicate Bracket(c: char) { c == '[' || c == ']' || c == '{' || c == '}' }

  lemma {:induction false} LiftStackCons(q: State)
    requires q.stack != []
    ensures Lift(q).stack == [AugFrame(q.stack[0])] + ([EnvFrame] + AugStack(q.stack[1..]))
    ensures Lift(q).stack[0] == AugFrame(q.stack[0])
    ensures Lift(q).stack[1..] == [EnvFrame] + AugStack(q.stack[1..])
  {
    assert q.stack == [q.stack[0]] + q.stack[1..];
    AugStackCons(q.stack[0], q.stack[1..]);
  }

  lemma {:induction false} DeliverMode(st: State, md: Mode, v: Json)
    ensures Deliver(st.(mode := md), v) == Deliver(st, v)
  {
  }

  lemma {:induction false} BeginLift(q: State, c: char)
    requires c != '[' && c != '{'
    ensures BeginValue(Lift(q), c) == LiftO(BeginValue(q, c))
  {
  }

  lemma {:induction false} AfterLift(q: State, c: char)
    requires c != ']' && c != '}'
    ensures AfterValue(Lift(q), c) == LiftO(AfterValue(q, c))
  {
    if q.stack != [] {
      LiftStackCons(q);
    }
  }

  lemma {:induction false} StringLift(q: State, c: char)
    requires q.mode.InString?
    ensures Step(Lift(q), c) == LiftO(Step(q, c))
  {
    var k, acc, esc := q.mode.isKey, q.mode.acc, q.mode.esc;
    if esc == NoEscape && c == '"' {
      if !k {
        DeliverLift(q, Str(acc));
      } else if |q.stack| > 0 && q.stack[0].InObj? {
        LiftStackCons(q);
        var f := q.stack[0].(key := acc);
        AugStackCons(f, q.stack[1..]);
      }
    }
  }

  lemma {:induction false} NumberLift(q: State, c: char)
    requires q.mode.InNumber? && !Bracket(c)
    ensures Step(Lift(q), c) == LiftO(Step(q, c))
  {
    var t := q.mode.text;
    DeliverLift(q, Num(t));
    AfterLift(Deliver(q, Num(t)), c);
  }

  lemma {:induction false} LiteralLift(q: State, c: char)
    requires q.mode.InLiteral?
    ensures Step(Lift(q), c) == LiftO(Step(q, c))
  {
    DeliverLift(q, q.mode.lit);
  }

  /** Inside a string, and for any character but a bracket outside one,
      the buffer gets the character itself and its decoder keeps lifted. */
  lemma {:induction false} StepLift(q: State, c: char)
    requires q.mode.InString? || !Bracket(c)
    ensures Step(Lift(q), c) == LiftO(Step(q, c))
  {
    match q.mode
    case ValueNext => BeginLift(q, c);
    case ArrFirst => BeginLift(q, c);
    case ObjFirst =>
    case KeyNext =>
    case ColonNext =>
    case After => AfterLift(q, c);
    case InString(_, _, _) => StringLift(q, c);
    case InNumber(_, _) => NumberLift(q, c);
    case InLiteral(_, _) => LiteralLift(q, c);
  }

  /** An opening bracket outside a string: the buffer gets an envelope
      head and the bracket. */
  lemma {:induction false} OpenLift(q: State, c: char)
    requires Reachable(q) && !q.mode.InString? && (c == '[' || c == '{') && Step(q, c).Some?
    ensures Run(Lift(q), EnvelopeHead + [c]) == Some(Lift(Step(q, c).value))
  {
    assert q.mode == ValueNext || q.mode == ArrFirst;
    var l := Lift(q);
    HeadExact(l);
    RunAppend(l, EnvelopeHead, [c]);
    var h := State(ValueNext, [EnvFrame] + l.stack, l.root);
    RunOne(h, c);
    var f: Frame := if c == '[' then InArr([]) else InObj([], []);
    assert Step(q, c).value == State(if c == '[' then ArrFirst else ObjFirst, [f] + q.stack, q.root);
    AugStackCons(f, q.stack);
    assert AugFrame(f) == f;
  }

  /** A closed container inside its open envelope: the tail closes the
      envelope where the raw decoder closed the container. */
  lemma {:induction false} CloseEnvelope(p: State, k: Kind)
    requires Close(p, k).Some?
    ensures Close(Lift(p), k).Some?
    ensures Run(Close(Lift(p), k).value, EnvelopeTail) == Some(Lift(Close(p, k).value))
  {
    var f := p.stack[0];
    var rest := p.stack[1..];
    var l := Lift(p);
    LiftStackCons(p);
    var x := AugFrame(f).Closed();
    var below := l.(stack := [EnvFrame] + AugStack(rest));
    assert Close(l, k) == Some(Deliver(below, x));
    DeliverCons(below, x);
    var open := State(After, [Into(EnvFrame, x)] + AugStack(rest), l.root);
    assert Deliver(below, x) == open;
    TailExact(open);
    assert ([Into(EnvFrame, x)] + AugStack(rest))[1..] == AugStack(rest);
    assert Into(EnvFrame, x).members + [Member(SKey, Bool(true))] == Envelope(x).members;
    AugClosed(f);
    var raw := p.(stack := rest);
    DeliverMode(Lift(raw), After, Aug(f.Closed()));
    assert Lift(raw).(mode := After) == open.(stack := AugStack(rest));
    DeliverLift(raw, f.Closed());
  }

  /** The kind a closing bracket closes. */
  function CloserKind(c: char): Kind { if c == ']' then ArrKind else ObjKind }

  lemma {:induction false} CloseAfterValue(st: State, c: char)
    requires c == ']' || c == '}'
    ensures AfterValue(st, c) == Close(st, CloserKind(c))
  {
  }

  lemma {:induction false} CloseNumber(q: State, c: char)
    requires q.mode.InNumber? && (c == ']' || c == '}') && Step(q, c).Some?
    ensures Step(q, c) == Close(Deliver(q, Num(q.mode.text)), CloserKind(c))
    ensures Step(Lift(q), c) == Close(Lift(Deliver(q, Num(q.mode.text))), CloserKind(c))
  {
    var t := q.mode.text;
    DeliverLift(q, Num(t));
    CloseAfterValue(Deliver(q, Num(t)), c);
    CloseAfterValue(Deliver(Lift(q), Num(t)), c);
  }

  lemma {:induction false} CloseRaw(q: State, c: char)
    requires (q.mode == ArrFirst || q.mode == ObjFirst || q.mode == After) && (c == ']' || c == '}') && Step(q, c).Some?
    ensures Step(q, c) == Close(q, CloserKind(c))
    ensures Step(Lift(q), c) == Close(Lift(q), CloserKind(c))
  {
    if q.mode == After {
      CloseAfterValue(q, c);
      CloseAfterValue(Lift(q), c);
    }
  }

  /** A closing bracket closes the innermost container, after ending a
      number; the buffer's decoder does the same on the lifted state. */
  lemma {:induction false} CloseBracket(q: State, c: char) returns (p: State)
    requires Reachable(q) && !q.mode.InString? && (c == ']' || c == '}') && Step(q, c).Some?
    ensures Step(q, c) == Close(p, CloserKind(c))
    ensures Step(Lift(q), c) == Close(Lift(p), CloserKind(c))
  {
    if q.mode.InNumber? {
      CloseNumber(q, c);
      p := Deliver(q, Num(q.mode.text));
    } else {
      assert q.mode == ArrFirst || q.mode == ObjFirst || q.mode == After;
      CloseRaw(q, c);
      p := q;
    }
  }

  /** A closing bracket outside a string: the buffer gets the bracket and
      an envelope tail. */
  lemma {:induction false} CloseLift(q: State, c: char)
    requires Reachable(q) && !q.mode.InString? && (c == ']' || c == '}') && Step(q, c).Some?
    ensures Run(Lift(q), [c] + EnvelopeTail) == Some(Lift(Step(q, c).value))
  {
    var p := CloseBracket(q, c);
    CloseEnvelope(p, CloserKind(c));
    RunCons(Lift(q), [c] + EnvelopeTail);
    assert ([c] + EnvelopeTail)[1..] == EnvelopeTail;
  }

  // ---------------------------------------------------------------------
  // Escapes and the text appended for one character

  lemma {:induction false} ReachableRun(q: State, y: string)
    requires Reachable(q) && Run(q, y).Some?
    ensures Reachable(Run(q, y).value)
    decreases |y|
  {
    if y != [] {
      ReachableStep(q, y[0]);
      ReachableRun(Step(q, y[0]).value, y[1..]);
    }
  }

  /** A whole escape inside a string is copied into the buffer, and both
      decoders read it alike. */
  lemma {:induction false} EscapeLift(q: State, y: string)
    requires q.mode.InString? && q.mode.esc == NoEscape
    requires WholeEscape(y) && Run(q, y).Some?
    ensures Run(Lift(q), y) == Some(Lift(Run(q, y).value))
    ensures Run(q, y).value.mode.InString? && Run(q, y).value.mode.esc == NoEscape
  {
    EscapeInside(q, y);
    InsideRun(q, Lift(q), y);
  }

  /** What the buffer gets for a character that does not start an escape. */
  function Injected(inString: bool, c: char): string
  {
    if inString then [c]
    else if c == '{' then OpenObject
    else if c == '[' then OpenArray
    else if c == '}' then CloseObject
    else if c == ']' then CloseArray
    else [c]
  }

  /** The stages of `CharStep` after `Inject` keep the buffer; only
      `Quote` touches the string flag. */
  lemma {:induction false} TailStages(opts: Options, m: Machine, c: char)
    ensures var r := Nest(Separator(Quote(opts, NumberSymbol(opts, PopQuote(m, c), c), c), c), c);
      && r.consumed == m.consumed
      && r.inString == (if c == '"' then !m.inString else m.inString)
  {
    var m1 := PopQuote(m, c);
    assert m1.consumed == m.consumed && m1.inString == m.inString;
    var m2 := NumberSymbol(opts, m1, c);
    assert m2.consumed == m.consumed && m2.inString == m.inString;
    var m3 := Quote(opts, m2, c);
    assert m3.consumed == m.consumed && m3.inString == (if c == '"' then !m.inString else m.inString);
    var m4 := Separator(m3, c);
    assert m4.consumed == m.consumed && m4.inString == m3.inString;
  }

  lemma {:induction false} CharStepText(opts: Options, m: Machine, c: char)
    ensures CharStep(opts, m, c).consumed == m.consumed + Injected(m.inString, c)
    ensures CharStep(opts, m, c).inString == (if c == '"' then !m.inString else m.inString)
    ensures CharStep(opts, m, c).cache == m.cache
  {
    CharStepKeeps(opts, m, c);
    var t := TrackNumber(m, c);
    assert t.consumed == m.consumed && t.inString == m.inString;
    var m1 := Inject(t, c);
    assert m1.consumed == m.consumed + Injected(m.inString, c) && m1.inString == m.inString;
    if !(m.inString && c != '"') {
      TailStages(opts, m1, c);
    }
  }

  /** A quote outside an escape toggles string mode; nothing else does. */
  lemma {:induction false} StringFlag(q: State, c: char)
    requires Reachable(q) && Step(q, c).Some?
    requires q.mode.InString? ==> q.mode.esc == NoEscape && c != '\\'
    ensures Step(q, c).value.mode.InString? == (if c == '"' then !q.mode.InString? else q.mode.InString?)
    ensures Step(q, c).value.mode.InString? ==> Step(q, c).value.mode.esc == NoEscape
  {
    match q.mode {
      case InNumber(t, _) =>
        if !IsDigit(c) && c != '.' && c != 'e' && c != 'E' && c != '+' && c != '-' {
          assert Step(q, c) == AfterValue(Deliver(q, Num(t)), c);
        }
      case _ =>
    }
  }

  // ---------------------------------------------------------------------
  // The loop of `addChunk`

  /** The session's buffer holds, with its envelopes, what the raw decoder
      `q` has read, and the string flag follows the raw decoder. */
  ghost predicate Lifted(m: Machine, q: State)
  {
    && Reachable(q)
    && Run(Start, m.consumed) == Some(Lift(q))
    && (m.inString <==> q.mode.InString?)
    && (q.mode.InString? ==> q.mode.esc == NoEscape)
  }

  lemma {:induction false} CharLift(opts: Options, m: Machine, q: State, c: char)
    requires Lifted(m, q) && !(m.inString && c == '\\') && Step(q, c).Some?
    ensures Lifted(CharStep(opts, m, c), Step(q, c).value)
    ensures CharStep(opts, m, c).cache == m.cache
  {
    var y := Injected(m.inString, c);
    CharStepText(opts, m, c);
    RunAppend(Start, m.consumed, y);
    if !m.inString && (c == '[' || c == '{') {
      assert y == EnvelopeHead + [c];
      OpenLift(q, c);
    } else if !m.inString && (c == ']' || c == '}') {
      assert y == [c] + EnvelopeTail;
      CloseLift(q, c);
    } else {
      assert y == [c];
      RunOne(Lift(q), c);
      StepLift(q, c);
    }
    StringFlag(q, c);
    ReachableStep(q, c);
  }

  /** A backslash inside a string: a whole escape is copied, a cut one is
      withheld and leaves the raw decoder inside the string. */
  lemma {:induction false} EscapeAtLift(m: Machine, q: State, s: string)
    requires Lifted(m, q) && m.inString && s != [] && s[0] == '\\' && Run(q, s).Some?
    ensures var r := EscapeAt(m, s, 0);
      && r.0.cache == m.cache
      && (r.1 <= |s| ==> Run(q, s[..r.1]).Some? && Lifted(r.0, Run(q, s[..r.1]).value))
      && (r.1 > |s| ==> Run(q, s).value.mode.InString?)
  {
    var r := EscapeAt(m, s, 0);
    if r.1 <= |s| {
      var y := s[..r.1];
      assert y == s[0..r.1];
      assert s == y + s[r.1..];
      RunAppend(q, y, s[r.1..]);
      EscapeLift(q, y);
      RunAppend(Start, m.consumed, y);
      ReachableRun(q, y);
    } else {
      PendingInside(q, s);
    }
  }

  /** The loop over `s`: unless the raw text ends inside a string, the
      buffer ends up holding, with its envelopes, what the raw decoder has
      read. */
  lemma {:induction false} FeedLift(opts: Options, m: Machine, q: State, s: string)
    requires Lifted(m, q) && Run(q, s).Some?
    ensures Feed(opts, m, s).cache == m.cache
    ensures !Run(q, s).value.mode.InString? ==> Lifted(Feed(opts, m, s), Run(q, s).value)
    decreases |s|
  {
    if s != [] {
      var r := Iter(opts, m, s, 0);
      if m.inString && s[0] == '\\' {
        EscapeAtLift(m, q, s);
      } else {
        RunCons(q, s);
        CharLift(opts, m, q, s[0]);
        assert s[..1] == [s[0]];
        RunOne(q, s[0]);
      }
      assert Feed(opts, m, s) == Feed(opts, r.0, Drop(s, r.1));
      if r.1 <= |s| {
        var q2 := Run(q, s[..r.1]).value;
        assert s == s[..r.1] + s[r.1..];
        RunAppend(q, s[..r.1], s[r.1..]);
        FeedLift(opts, r.0, q2, s[r.1..]);
      }
    }
  }

  lemma {:induction false} FinalLift(q: State)
    ensures Final(Lift(q)) == (match Final(q) case None => None case Some(v) => Some(Aug(v)))
  {
  }

  /** The buffer of a session fed a whole JSON text is a JSON text: the
      document with every container inside a closed envelope. */
  lemma {:induction false} FeedWhole(opts: Options, text: string)
    requires IsJsonText(text)
    ensures Decode(Feed(opts, Fresh, text).consumed) == Some(Aug(Decode(text).value))
    ensures Feed(opts, Fresh, text).cache == Fresh.cache
  {
    assert Run(Start, []) == Some(Start);
    assert Lift(Start) == Start;
    assert Reachable(Start);
    FeedLift(opts, Fresh, Start, text);
    FinalLift(Run(Start, text).value);
  }

  // ---------------------------------------------------------------------
  // Convergence

  /** Fed a prefix of a JSON text in one piece, the session holds the
      invariant for it. */
  lemma {:induction false} WholeFedInv(opts: Options, text: string)
    requires IsJsonPrefix(text)
    ensures Inv(opts, Feed(opts, Fresh, text), text) && !Feed(opts, Fresh, text).isDone
  {
    FreshInv(opts);
    assert [] + text == text;
    AddChunkSafe(opts, Fresh, [], text);
    AddChunkFresh(opts, text);
  }

  /** Fed a whole JSON text, the session is not finished and owes no
      closers. */
  lemma {:induction false} FedComplete(opts: Options, text: string)
    requires IsJsonText(text)
    ensures !Feed(opts, Fresh, text).isDone && Feed(opts, Fresh, text).closers == []
  {
    WholeFedInv(opts, text);
    CompleteText(opts, Feed(opts, Fresh, text), text);
  }

  /** `done` on a session whose buffer decodes and revives to `x`, with no
      closers owed and nothing cached, hands out `x` from then on. */
  lemma {:induction false} DoneDecoded(m: Machine, x: Value)
    requires !m.isDone && m.closers == [] && m.consumed != [] && m.cache == Fresh.cache
    requires ParseRevive(m.consumed) == Success(x)
    ensures Done(m).isDone
    ensures ReadValue(Done(m)).0 == Success(Defined(x))
  {
    assert m.consumed + m.closers == m.consumed;
  }

  /** `done` after a whole JSON text, fed in one piece: the checkpoint it
      records holds the document, every container flagged as finished. */
  lemma {:induction false} DoneWhole(opts: Options, text: string)
    requires IsJsonText(text) && NoSentinel(Decode(text).value)
    ensures Done(Feed(opts, Fresh, text)).isDone
    ensures ReadValue(Done(Feed(opts, Fresh, text))).0 == Success(Defined(Marked(Decode(text).value)))
  {
    var fed := Feed(opts, Fresh, text);
    FeedWhole(opts, text);
    FedComplete(opts, text);
    assert fed.consumed != [] by {
      assert Decode([]) == None;
    }
    ReviveAug(Decode(text).value);
    DoneDecoded(fed, Marked(Decode(text).value));
  }

  /** The static `parse` of a whole JSON text gives the document with every
      object and array flagged as finished, unless it ends in a digit or a
      dot while partial numbers are prohibited (then `done` is not called). */
  lemma {:induction false} ParseComplete(text: string, opts: Options)
    requires IsJsonText(text) && NoSentinel(Decode(text).value)
    requires !opts.prohibitPartialNumbers || !EndsInDigitOrDot(text)
    ensures Parse(text, opts) == Success(Defined(Marked(Decode(text).value)))
  {
    assert text != [] by {
      assert Decode([]) == None;
    }
    DoneWhole(opts, text);
  }

  lemma {:induction false} AddChunkFresh(opts: Options, t: string)
    ensures AddChunk(opts, Fresh, t) == Success(Feed(opts, Fresh, t))
  {
    assert Fresh.(unconsumed := []) == Fresh;
    assert [] + t == t;
  }

  /** Feeding chunks one `addChunk` at a time is feeding their
      concatenation at once. */
  lemma {:induction false} FeedAllFlat(opts: Options, chunks: seq<string>)
    ensures FeedAll(opts, chunks) == Success(Feed(opts, Fresh, Concat(chunks)))
  {
    if chunks != [] {
      var init := chunks[..|chunks| - 1];
      var last := chunks[|chunks| - 1];
      FeedAllFlat(opts, init);
      AddChunkFresh(opts, Concat(init));
      ChunkSplit(opts, Fresh, Concat(init), last);
      AddChunkFresh(opts, Concat(init) + last);
    } else {
      assert Feed(opts, Fresh, []) == Fresh;
    }
  }

  /** However a whole JSON text is split into chunks, `done` and then
      `readValue` give the document with every container flagged as
      finished. */
  lemma {:induction false} StreamComplete(opts: Options, chunks: seq<string>)
    requires IsJsonText(Concat(chunks)) && NoSentinel(Decode(Concat(chunks)).value)
    ensures FeedAll(opts, chunks).Success?
    ensures ReadValue(Done(FeedAll(opts, chunks).value)).0 == Success(Defined(Marked(Decode(Concat(chunks)).value)))
  {
    FeedAllFlat(opts, chunks);
    DoneWhole(opts, Concat(chunks));
  }
}
