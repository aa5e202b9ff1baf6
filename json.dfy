/** The JSON text format of RFC 8259 and the decoder the session hands its
    buffer to (JavaScript's `JSON.parse`, without its reviver).

    The decoder reads one character at a time and keeps a stack of the
    containers still open, so every prefix of a text it accepts is summed
    up by the state it reaches: `Run` folds `Step` over a text, and `Decode`
    asks whether the text ends in a state that holds a complete value.
    Numbers keep their lexeme (the conversion to a double is not modelled);
    string values are sequences of UTF-16 code units, as JavaScript strings
    are: a character above U+FFFF becomes a surrogate pair. */
module Json {
  import opened Wrappers

  datatype Json =
    | Null
    | Bool(b: bool)
    | Num(text: string)
    | Str(units: seq<int>)
    | Arr(items: seq<Json>)
    | Obj(members: seq<Member>)

  datatype Member = Member(key: seq<int>, value: Json)

  datatype Kind = ArrKind | ObjKind

  /** An open container: what has been read of it so far and, for an
      object, the key of the member whose value comes next. */
  datatype Frame = InArr(items: seq<Json>) | InObj(members: seq<Member>, key: seq<int>)
  {
    function Kind(): Kind { if InArr? then ArrKind else ObjKind }

    function Closed(): Json { if InArr? then Arr(items) else Obj(members) }
  }

  /** Where the decoder is inside a string escape (section 7 of RFC 8259). */
  datatype Escape = NoEscape | Backslash | Hex(count: nat, code: int)

  /** Where the decoder is inside a number (section 6 of RFC 8259). */
  datatype NumPart = Minus | Zero | Digits | Dot | Fraction | ExpMark | ExpSign | Exponent

  datatype Mode =
    | ValueNext   // a value must come next
    | ArrFirst    // just after `[`: a value or `]`
    | ObjFirst    // just after `{`: a key or `}`
    | KeyNext     // after `,` inside an object: a key
    | ColonNext   // after a key: `:`
    | After       // after a complete value: `,`, a closer, or the end of the text
    | InString(isKey: bool, acc: seq<int>, esc: Escape)
    | InNumber(text: string, part: NumPart)
    | InLiteral(rest: string, lit: Json)

  /** `stack[0]` is the innermost open container; `root` is the top-level
      value once it is complete. */
  datatype State = State(mode: Mode, stack: seq<Frame>, root: Json)

  const Start := State(ValueNext, [], Null)

  /** Insignificant whitespace, section 2 of RFC 8259. */
  predicate IsWs(c: char) { c == ' ' || c == '\t' || c == '\n' || c == '\r' }

  predicate IsDigit(c: char) { '0' <= c <= '9' }

  function HexValue(c: char): Option<int>
  {
    if '0' <= c <= '9' then Some(c as int - '0' as int)
    else if 'a' <= c <= 'f' then Some(c as int - 'a' as int + 10)
    else if 'A' <= c <= 'F' then Some(c as int - 'A' as int + 10)
    else None
  }

  /** The code unit a two-character escape stands for. */
  function EscapedUnit(c: char): Option<int>
  {
    match c
    case '"' => Some(0x22)
    case '\\' => Some(0x5C)
    case '/' => Some(0x2F)
    case 'b' => Some(0x08)
    case 'f' => Some(0x0C)
    case 'n' => Some(0x0A)
    case 'r' => Some(0x0D)
    case 't' => Some(0x09)
    case _ => None
  }

  /** The UTF-16 code units of a character: itself below U+10000, a
      surrogate pair above, from which the character can be recovered. */
  function Utf16(c: char): (u: seq<int>)
    ensures c as int < 0x10000 ==> u == [c as int]
    ensures c as int >= 0x10000 ==>
      && |u| == 2 && 0xD800 <= u[0] < 0xDC00 && 0xDC00 <= u[1] < 0xE000
      && c as int == 0x10000 + (u[0] - 0xD800) * 0x400 + (u[1] - 0xDC00)
  {
    if c as int < 0x10000 then [c as int]
    else
      var x := c as int - 0x10000;
      [0xD800 + x / 0x400, 0xDC00 + x % 0x400]
  }

  /** A number that may end here. */
  predicate Terminal(p: NumPart) { p == Zero || p == Digits || p == Fraction || p == Exponent }

  /** The kinds of the open containers, innermost first. */
  function Kinds(stack: seq<Frame>): (ks: seq<Kind>)
    ensures |ks| == |stack|
    ensures forall i :: 0 <= i < |stack| ==> ks[i] == stack[i].Kind()
  {
    seq(|stack|, i requires 0 <= i < |stack| => stack[i].Kind())
  }

  lemma {:induction false} KindsTail(stack: seq<Frame>)
    requires |stack| > 0
    ensures Kinds(stack[1..]) == Kinds(stack)[1..]
  {
  }

  lemma {:induction false} KindsCons(f: Frame, stack: seq<Frame>)
    ensures Kinds([f] + stack) == [f.Kind()] + Kinds(stack)
  {
    assert forall j :: 0 <= j < |stack| + 1 ==> Kinds([f] + stack)[j] == ([f.Kind()] + Kinds(stack))[j];
  }

  /** A complete value `v` goes into the innermost open container, or
      becomes the top-level value. */
  function Deliver(st: State, v: Json): (r: State)
    ensures r.mode == After
    ensures Kinds(r.stack) == Kinds(st.stack)
    ensures st.stack == [] ==> r.stack == [] && r.root == v
  {
    if st.stack == [] then State(After, [], v)
    else
      var f := match st.stack[0]
        case InArr(items) => InArr(items + [v])
        case InObj(ms, k) => InObj(ms + [Member(k, v)], k);
      var r := State(After, [f] + st.stack[1..], st.root);
      assert Kinds(r.stack) == Kinds(st.stack) by {
        assert forall i :: 0 <= i < |r.stack| ==> r.stack[i].Kind() == st.stack[i].Kind();
      }
      r
  }

  /** A closer of kind `k`: pops the innermost container if it has kind `k`. */
  function Close(st: State, k: Kind): (r: Option<State>)
    ensures r.Some? <==> |st.stack| > 0 && st.stack[0].Kind() == k
    ensures r.Some? ==> r.value.mode == After && Kinds(r.value.stack) == Kinds(st.stack)[1..]
  {
    if |st.stack| > 0 && st.stack[0].Kind() == k then
      KindsTail(st.stack);
      Some(Deliver(st.(stack := st.stack[1..]), st.stack[0].Closed()))
    else None
  }

  /** The first character of a value (or whitespace before it). */
  function BeginValue(st: State, c: char): Option<State>
  {
    if IsWs(c) then Some(st)
    else if c == '{' then Some(State(ObjFirst, [InObj([], [])] + st.stack, st.root))
    else if c == '[' then Some(State(ArrFirst, [InArr([])] + st.stack, st.root))
    else if c == '"' then Some(st.(mode := InString(false, [], NoEscape)))
    else if c == '-' then Some(st.(mode := InNumber("-", Minus)))
    else if c == '0' then Some(st.(mode := InNumber("0", Zero)))
    else if IsDigit(c) then Some(st.(mode := InNumber([c], Digits)))
    else if c == 't' then Some(st.(mode := InLiteral("rue", Bool(true))))
    else if c == 'f' then Some(st.(mode := InLiteral("alse", Bool(false))))
    else if c == 'n' then Some(st.(mode := InLiteral("ull", Null)))
    else None
  }

  /** A character after a complete value. */
  function AfterValue(st: State, c: char): Option<State>
  {
    if IsWs(c) then Some(st)
    else if c == ',' then
      if st.stack == [] then None
      else if st.stack[0].InArr? then Some(st.(mode := ValueNext))
      else Some(st.(mode := KeyNext))
    else if c == ']' then Close(st, ArrKind)
    else if c == '}' then Close(st, ObjKind)
    else None
  }

  function StringStep(st: State, isKey: bool, acc: seq<int>, esc: Escape, c: char): Option<State>
  {
    match esc
    case NoEscape =>
      if c == '"' then
        if !isKey then Some(Deliver(st, Str(acc)))
        else if |st.stack| > 0 && st.stack[0].InObj? then
          Some(State(ColonNext, [st.stack[0].(key := acc)] + st.stack[1..], st.root))
        else None
      else if c == '\\' then Some(st.(mode := InString(isKey, acc, Backslash)))
      else if (c as int) < 0x20 then None
      else Some(st.(mode := InString(isKey, acc + Utf16(c), NoEscape)))
    case Backslash =>
      if c == 'u' then Some(st.(mode := InString(isKey, acc, Hex(0, 0))))
      else (
        match EscapedUnit(c)
        case Some(u) => Some(st.(mode := InString(isKey, acc + [u], NoEscape)))
        case None => None)
    case Hex(n, code) =>
      match HexValue(c)
      case None => None
      case Some(h) =>
        if n >= 3 then Some(st.(mode := InString(isKey, acc + [code * 16 + h], NoEscape)))
        else Some(st.(mode := InString(isKey, acc, Hex(n + 1, code * 16 + h))))
  }

  function NumberStep(st: State, text: string, part: NumPart, c: char): Option<State>
  {
    if IsDigit(c) then
      match part
      case Minus => Some(st.(mode := InNumber(text + [c], if c == '0' then Zero else Digits)))
      case Zero => None
      case Digits => Some(st.(mode := InNumber(text + [c], Digits)))
      case Dot => Some(st.(mode := InNumber(text + [c], Fraction)))
      case Fraction => Some(st.(mode := InNumber(text + [c], Fraction)))
      case ExpMark => Some(st.(mode := InNumber(text + [c], Exponent)))
      case ExpSign => Some(st.(mode := InNumber(text + [c], Exponent)))
      case Exponent => Some(st.(mode := InNumber(text + [c], Exponent)))
    else if c == '.' && (part == Zero || part == Digits) then
      Some(st.(mode := InNumber(text + [c], Dot)))
    else if (c == 'e' || c == 'E') && (part == Zero || part == Digits || part == Fraction) then
      Some(st.(mode := InNumber(text + [c], ExpMark)))
    else if (c == '+' || c == '-') && part == ExpMark then
      Some(st.(mode := InNumber(text + [c], ExpSign)))
    else if Terminal(part) then
      // the number ended just before `c`
      AfterValue(Deliver(st, Num(text)), c)
    else None
  }

  function LiteralStep(st: State, rest: string, lit: Json, c: char): Option<State>
  {
    if |rest| > 0 && c == rest[0] then
      if |rest| == 1 then Some(Deliver(st, lit))
      else Some(st.(mode := InLiteral(rest[1..], lit)))
    else None
  }

  /** One character of input; `None` once the text cannot be JSON. */
  function Step(st: State, c: char): Option<State>
  {
    match st.mode
    case ValueNext => BeginValue(st, c)
    case ArrFirst => if c == ']' then Close(st, ArrKind) else BeginValue(st, c)
    case ObjFirst =>
      if IsWs(c) then Some(st)
      else if c == '"' then Some(st.(mode := InString(true, [], NoEscape)))
      else if c == '}' then Close(st, ObjKind)
      else None
    case KeyNext =>
      if IsWs(c) then Some(st)
      else if c == '"' then Some(st.(mode := InString(true, [], NoEscape)))
      else None
    case ColonNext =>
      if IsWs(c) then Some(st)
      else if c == ':' then Some(st.(mode := ValueNext))
      else None
    case After => AfterValue(st, c)
    case InString(isKey, acc, esc) => StringStep(st, isKey, acc, esc, c)
    case InNumber(text, part) => NumberStep(st, text, part, c)
    case InLiteral(rest, lit) => LiteralStep(st, rest, lit, c)
  }

  function Run(st: State, s: string): Option<State>
    decreases |s|
  {
    if s == [] then Some(st)
    else
      match Step(st, s[0])
      case None => None
      case Some(next) => Run(next, s[1..])
  }

  /** The value a state holds if the text may end there. */
  function Final(st: State): Option<Json>
  {
    if st.stack != [] then None
    else
      match st.mode
      case After => Some(st.root)
      case InNumber(text, part) => if Terminal(part) then Some(Num(text)) else None
      case _ => None
  }

  /** `JSON.parse` on a whole text: `None` where it throws a SyntaxError. */
  function Decode(s: string): Option<Json>
  {
    match Run(Start, s)
    case None => None
    case Some(st) => Final(st)
  }

  /** A JSON text in the sense of section 2 of RFC 8259. */
  predicate IsJsonText(s: string) { Decode(s).Some? }

  /** A text the decoder has not rejected yet. */
  predicate IsJsonPrefix(s: string) { Run(Start, s).Some? }

  /** Reading `a + b` is reading `a` and then `b`. */
  lemma {:induction false} RunAppend(st: State, a: string, b: string)
    ensures Run(st, a + b) == (match Run(st, a) case None => None case Some(t) => Run(t, b))
    decreases |a|
  {
    if a == [] {
      assert a + b == b;
    } else {
      assert (a + b)[0] == a[0];
      assert (a + b)[1..] == a[1..] + b;
      match Step(st, a[0])
      case None =>
      case Some(next) => RunAppend(next, a[1..], b);
    }
  }

  lemma {:induction false} RunOne(st: State, c: char)
    ensures Run(st, [c]) == Step(st, c)
  {
    assert [c][1..] == [];
  }

  /** Every prefix of a JSON text is a prefix the decoder accepts. */
  lemma {:induction false} PrefixOfText(p: string, t: string)
    requires IsJsonText(p + t)
    ensures IsJsonPrefix(p)
  {
    RunAppend(Start, p, t);
  }

  /** A character above U+FFFF and its escaped surrogate pair decode to
      the same two code units. */
  lemma {:induction false} SurrogatePair()
    ensures Decode("\"\U{1F937}\"") == Decode("\"" + "\\uD83E\\uDD37" + "\"") == Some(Str([0xD83E, 0xDD37]))
  {
    DirectPair();
    EscapedPair();
  }

  lemma {:induction false} DirectPair()
    ensures Decode("\"\U{1F937}\"") == Some(Str([0xD83E, 0xDD37]))
  {
    var s0 := Start.(mode := InString(false, [], NoEscape));
    assert Utf16('\U{1F937}') == [0xD83E, 0xDD37];
    assert [] + [0xD83E, 0xDD37] == [0xD83E, 0xDD37];
    RunOne(s0, '\U{1F937}');
    QuotedRun("\U{1F937}", [0xD83E, 0xDD37]);
    assert "\"\U{1F937}\"" == "\"" + "\U{1F937}" + "\"";
  }

  lemma {:induction false} EscapedPair()
    ensures Decode("\"" + "\\uD83E\\uDD37" + "\"") == Some(Str([0xD83E, 0xDD37]))
  {
    EscapedUnits();
    QuotedRun("\\uD83E\\uDD37", [0xD83E, 0xDD37]);
  }

  /** A top-level string whose body reads as the code units `acc`. */
  lemma {:induction false} QuotedRun(body: string, acc: seq<int>)
    requires Run(Start.(mode := InString(false, [], NoEscape)), body)
          == Some(Start.(mode := InString(false, acc, NoEscape)))
    ensures Decode("\"" + body + "\"") == Some(Str(acc))
  {
    var s0 := Start.(mode := InString(false, [], NoEscape));
    var s1 := Start.(mode := InString(false, acc, NoEscape));
    RunOne(Start, '"');
    assert Step(s1, '"') == Some(State(After, [], Str(acc)));
    RunOne(s1, '"');
    RunAppend(s0, body, "\"");
    RunAppend(Start, "\"", body + "\"");
    assert "\"" + body + "\"" == "\"" + (body + "\"");
  }

  lemma {:induction false} EscapedUnits()
    ensures Run(Start.(mode := InString(false, [], NoEscape)), "\\uD83E\\uDD37")
         == Some(Start.(mode := InString(false, [0xD83E, 0xDD37], NoEscape)))
  {
    var s0 := Start.(mode := InString(false, [], NoEscape));
    var h := Start.(mode := InString(false, [0xD83E], NoEscape));
    HexEscape(s0, [], 'D', '8', '3', 'E', 0xD83E);
    HexEscape(h, [0xD83E], 'D', 'D', '3', '7', 0xDD37);
    assert [] + [0xD83E] == [0xD83E] && [0xD83E] + [0xDD37] == [0xD83E, 0xDD37];
    assert "\\uD83E\\uDD37" == "\\uD83E" + "\\uDD37";
    RunAppend(s0, "\\uD83E", "\\uDD37");
  }

  /** Reading the escape `\uXXXX` in a value string appends one code unit. */
  lemma {:induction false} HexEscape(st: State, acc: seq<int>, a: char, b: char, c: char, d: char, u: int)
    requires st.mode == InString(false, acc, NoEscape)
    requires HexValue(a).Some? && HexValue(b).Some? && HexValue(c).Some? && HexValue(d).Some?
    requires u == ((HexValue(a).value * 16 + HexValue(b).value) * 16 + HexValue(c).value) * 16 + HexValue(d).value
    ensures Run(st, ['\\', 'u', a, b, c, d]) == Some(st.(mode := InString(false, acc + [u], NoEscape)))
  {
    var s := ['\\', 'u', a, b, c, d];
    var ha, hb := HexValue(a).value, HexValue(b).value;
    var hc := HexValue(c).value;
    var x0 := st.(mode := InString(false, acc, Backslash));
    var x1 := st.(mode := InString(false, acc, Hex(0, 0)));
    var x2 := st.(mode := InString(false, acc, Hex(1, ha)));
    var x3 := st.(mode := InString(false, acc, Hex(2, ha * 16 + hb)));
    var x4 := st.(mode := InString(false, acc, Hex(3, (ha * 16 + hb) * 16 + hc)));
    var x5 := st.(mode := InString(false, acc + [u], NoEscape));
    assert Step(x4, d) == Some(x5);
    RunOne(x4, d);
    assert s[5..] == [d];
    assert Step(x3, c) == Some(x4);
    assert Run(x3, s[4..]) == Some(x5);
    assert Step(x2, b) == Some(x3);
    assert Run(x2, s[3..]) == Some(x5);
    assert Step(x1, a) == Some(x2);
    assert Run(x1, s[2..]) == Some(x5);
    assert Step(x0, 'u') == Some(x1);
    assert Run(x0, s[1..]) == Some(x5);
    assert Step(st, '\\') == Some(x0);
  }
}
