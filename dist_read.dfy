/** Reading the session of dist/index.js: `readValue` decodes once per
    checkpoint, `cachedJSONParse` is transparent, the reviver turns an
    envelope into the container it wraps with its flag, and a top-level
    number is only emitted after `done`. */
module DistRead {
  import opened Wrappers
  import opened Json
  import opened DistModel

  /** `JSON.parse` with the reviver as `cachedJSONParse` hands it out. */
  function Decoded(s: string): Result<Read, Error>
  {
    match ParseRevive(s)
    case Success(v) => Success(Defined(v))
    case Failure(e) => Failure(e)
  }

  /** The cache holds its initial entry or a text with its decoded value. */
  predicate CacheOk(c: Cache)
  {
    c == Cache("", Undefined) || Decoded(c.key) == Success(c.value)
  }

  /** The cache is transparent: on any text but the empty one,
      `cachedJSONParse` gives what the decoder gives, and the cache stays
      sound. */
  lemma {:induction false} CachedParseSound(c: Cache, s: string)
    requires CacheOk(c) && s != ""
    ensures CachedParse(c, s).0 == Decoded(s)
    ensures CacheOk(CachedParse(c, s).1)
  {
  }

  /** A new session's cache is sound. */
  lemma {:induction false} FreshCacheOk()
    ensures CacheOk(Fresh.cache)
  {
  }

  /** `readValue` gives `undefined`, changing nothing, on an empty buffer
      or without a checkpoint; otherwise it decodes the checkpoint's text
      unless its value is stored, and stores it. A second call after a
      successful one gives the same value and changes nothing. */
  lemma {:induction false} ReadValueOnce(m: Machine)
    requires CacheOk(m.cache)
    ensures m.consumed == [] || m.trunc.None? ==> ReadValue(m) == (Success(Undefined), m)
    ensures m.consumed != [] && m.trunc.Some? && m.trunc.value.result.None? && CutText(m, m.trunc.value) != "" ==>
      ReadValue(m).0 == Decoded(CutText(m, m.trunc.value))
    ensures ReadValue(m).0.Success? ==> ReadValue(ReadValue(m).1) == (ReadValue(m).0, ReadValue(m).1)
    ensures CacheOk(ReadValue(m).1.cache)
  {
    if m.consumed != [] && m.trunc.Some? && m.trunc.value.result.None? {
      var t := m.trunc.value;
      if CutText(m, t) != "" {
        CachedParseSound(m.cache, CutText(m, t));
      } else {
        assert CacheOk(CachedParse(m.cache, CutText(m, t)).1);
      }
    }
  }

  /** `done` on an unfinished session decodes the buffer with its
      closers: on success the checkpoint moves to the end of the buffer
      with the decoded value, and on failure the old checkpoint stays. */
  lemma {:induction false} DoneOutcome(m: Machine)
    requires CacheOk(m.cache) && !m.isDone && m.consumed + m.closers != ""
    ensures Done(m).isDone && CacheOk(Done(m).cache)
    ensures Done(m).consumed == m.consumed && Done(m).closers == m.closers && Done(m).context == m.context
    ensures match Decoded(m.consumed + m.closers)
      case Success(v) => Done(m).trunc == Some(Checkpoint(|m.consumed|, m.closers, Some(v)))
      case Failure(_) => Done(m).trunc == m.trunc
  {
    CachedParseSound(m.cache, m.consumed + m.closers);
  }

  // ---------------------------------------------------------------------
  // The reviver

  lemma {:induction false} KeysDiffer()
    ensures Units(Sentinel) != Units(RawLiteral)
  {
    assert Units(Sentinel)[0] == '_' as int && Units(RawLiteral)[0] == 'v' as int;
  }

  /** The units of a string without characters above U+FFFF are its
      UTF-16 encoding. */
  lemma {:induction false} UnitsUtf16(s: string)
    requires forall i :: 0 <= i < |s| ==> s[i] as int < 0x10000
    ensures forall i :: 0 <= i < |s| ==> [Units(s)[i]] == Utf16(s[i])
  {
  }

  /** A revived container. */
  predicate RevivedContainer(x: Json)
  {
    Revive(x).Success? && (Revive(x).value.VArr? || Revive(x).value.VObj?)
  }

  /** An envelope still open when decoded, closed by the owed `}`: the
      wrapped container with the flag `false`. */
  lemma {:induction false} ReviveOpenEnvelope(x: Json)
    requires RevivedContainer(x)
    ensures Revive(Obj([Member(Units(Sentinel), Bool(false)), Member(Units(RawLiteral), x)]))
         == Success(Revive(x).value.(doneStreaming := Some(VBool(false))))
  {
    var s := Units(Sentinel);
    var k := Units(RawLiteral);
    KeysDiffer();
    var ms := [Member(s, Bool(false)), Member(k, x)];
    var rs := [(s, Success(VBool(false))), (k, Revive(x))];
    assert seq(|ms|, i requires 0 <= i < |ms| => (ms[i].key, Revive(ms[i].value))) == rs;
    DedupeTwo(rs);
    var props := [(s, VBool(false)), (k, Revive(x).value)];
    assert seq(|rs|, i requires 0 <= i < |rs| && rs[i].1.Success? => (rs[i].0, rs[i].1.value)) == props;
    assert IndexOfKey(props, s) == Some(0);
    assert IndexOfKey(props, k) == Some(1);
  }

  /** An envelope whose closer was consumed: its second sentinel member
      replaces the first one's value, so the flag is `true`. */
  lemma {:induction false} ReviveClosedEnvelope(x: Json)
    requires RevivedContainer(x)
    ensures Revive(Obj([Member(Units(Sentinel), Bool(false)), Member(Units(RawLiteral), x), Member(Units(Sentinel), Bool(true))]))
         == Success(Revive(x).value.(doneStreaming := Some(VBool(true))))
  {
    var s := Units(Sentinel);
    var k := Units(RawLiteral);
    KeysDiffer();
    var ms := [Member(s, Bool(false)), Member(k, x), Member(s, Bool(true))];
    var rs := [(s, Success(VBool(false))), (k, Revive(x)), (s, Success(VBool(true)))];
    assert seq(|ms|, i requires 0 <= i < |ms| => (ms[i].key, Revive(ms[i].value))) == rs;
    DedupeThree(rs);
    var deduped := [(s, Success(VBool(true))), (k, Revive(x))];
    var props := [(s, VBool(true)), (k, Revive(x).value)];
    assert seq(|deduped|, i requires 0 <= i < |deduped| && deduped[i].1.Success? => (deduped[i].0, deduped[i].1.value)) == props;
    assert IndexOfKey(props, s) == Some(0);
    assert IndexOfKey(props, k) == Some(1);
  }

  lemma {:induction false} DedupeTwo<V>(rs: seq<(seq<int>, V)>)
    requires |rs| == 2 && rs[0].0 != rs[1].0
    ensures Dedupe(rs) == rs
  {
    assert rs[..1][..0] == [];
    assert Dedupe(rs[..1]) == [rs[0]];
    assert rs[..1] == [rs[0]];
    assert IndexOfKey([rs[0]], rs[1].0) == None;
  }

  lemma {:induction false} DedupeThree<V>(rs: seq<(seq<int>, V)>)
    requires |rs| == 3 && rs[0].0 != rs[1].0 && rs[2].0 == rs[0].0
    ensures Dedupe(rs) == [rs[2], rs[1]]
  {
    assert rs[..2] == [rs[0], rs[1]];
    DedupeTwo(rs[..2]);
    assert IndexOfKey([rs[0], rs[1]], rs[2].0) == Some(0);
  }

  // ---------------------------------------------------------------------
  // A top-level number

  predicate AllDigits(s: string)
  {
    forall i :: 0 <= i < |s| ==> IsDigit(s[i])
  }

  /** A digit outside a string is appended and sets number mode, nothing
      else. */
  lemma {:induction false} DigitStep(opts: Options, m: Machine, c: char)
    requires !m.inString && IsDigit(c)
    ensures CharStep(opts, m, c) == m.(consumed := m.consumed + [c], inNumber := true)
  {
    var m0 := m.(inNumber := true);
    assert TrackNumber(m, c) == m0;
    var m1 := m0.(consumed := m.consumed + [c]);
    assert Inject(m0, c) == m1;
    assert PopQuote(m1, c) == m1;
    assert NumberSymbol(opts, m1, c) == m1;
    assert Quote(opts, m1, c) == m1;
    assert Separator(m1, c) == m1;
    assert Nest(m1, c) == m1;
  }

  /** Digits outside a string only grow the buffer: no checkpoint. */
  lemma {:induction false} FeedDigits(opts: Options, m: Machine, s: string)
    requires !m.inString && AllDigits(s) && s != []
    ensures Feed(opts, m, s) == m.(consumed := m.consumed + s, inNumber := true)
    decreases |s|
  {
    DigitStep(opts, m, s[0]);
    var m1 := m.(consumed := m.consumed + [s[0]], inNumber := true);
    assert Iter(opts, m, s, 0) == (m1, 1);
    assert Feed(opts, m, s) == Feed(opts, m1, s[1..]);
    if |s| == 1 {
      assert s == [s[0]];
    } else {
      FeedDigits(opts, m1, s[1..]);
      ConsHead(m.consumed, s);
    }
  }

  lemma {:induction false} ConsHead(a: string, s: string)
    requires s != []
    ensures a + [s[0]] + s[1..] == a + s
  {
    assert [s[0]] + s[1..] == s;
    assert a + [s[0]] + s[1..] == a + ([s[0]] + s[1..]);
  }

  /** The decoder reads digits after a non-zero first digit as one number. */
  lemma {:induction false} RunDigits(st: State, text: string, s: string)
    requires AllDigits(s)
    ensures Run(st.(mode := InNumber(text, Digits)), s) == Some(st.(mode := InNumber(text + s, Digits)))
    decreases |s|
  {
    if s == [] {
      assert text + s == text;
    } else {
      var next := st.(mode := InNumber(text + [s[0]], Digits));
      assert Step(st.(mode := InNumber(text, Digits)), s[0]) == Some(next);
      RunDigits(st, text + [s[0]], s[1..]);
      assert text + [s[0]] + s[1..] == text + s;
    }
  }

  /** A number without leading zero, or `0` itself, is a JSON text
      holding that number. */
  lemma {:induction false} DecodeDigits(s: string)
    requires s != [] && AllDigits(s) && (s[0] != '0' || |s| == 1)
    ensures Decode(s) == Some(Num(s))
  {
    if s[0] == '0' {
      assert s == "0";
      RunOne(Start, '0');
    } else {
      assert Step(Start, s[0]) == Some(Start.(mode := InNumber([s[0]], Digits)));
      RunDigits(Start, [s[0]], s[1..]);
      assert [s[0]] + s[1..] == s;
    }
  }

  /** Digits alone are never emitted before `done`: `readValue` gives
      `undefined`. After `done` it gives the number. */
  lemma {:induction false} TopLevelNumber(opts: Options, s: string)
    requires s != [] && AllDigits(s) && (s[0] != '0' || |s| == 1)
    ensures ReadValue(Feed(opts, Fresh, s)).0 == Success(Undefined)
    ensures ReadValue(Done(Feed(opts, Fresh, s))).0 == Success(Defined(VNum(s)))
  {
    FeedDigits(opts, Fresh, s);
    var m := Feed(opts, Fresh, s);
    assert m.consumed == s && m.closers == "" && m.trunc == None;
    assert m.consumed + m.closers == s;
    DecodeDigits(s);
    assert ParseRevive(s) == Success(VNum(s));
  }

  /** So the static `parse` of such digits gives the number, unless
      partial numbers are prohibited: then it skips `done` and gives
      `undefined`. */
  lemma {:induction false} ParseNumber(opts: Options, s: string)
    requires s != [] && AllDigits(s) && (s[0] != '0' || |s| == 1)
    ensures Parse(s, opts) == if opts.prohibitPartialNumbers then Success(Undefined) else Success(Defined(VNum(s)))
  {
    TopLevelNumber(opts, s);
    assert EndsInDigitOrDot(s);
  }
}
