/** The class `IncompleteJson` of dist/index.js, with its fields updated in
    place. Every method is proved to leave the object in the state the
    functions of `DistModel` compute, so what `DistInvariant` and
    `DistProps` prove of those functions holds of the object. */
module Dist {
  import opened Wrappers
  import opened DistModel

  class IncompleteJson {
    const options: Options
    var consumed: string
    var unconsumed: string
    var inString: bool
    var inNumber: bool
    var charsNeededToClose: string
    var context: seq<Ctx>
    var isDone: bool
    var truncationInfo: Option<Checkpoint>
    var rawParseCache: Cache

    /** The state of the object as a value. */
    function Abs(): Machine
      reads this
    {
      Machine(consumed, unconsumed, inString, inNumber, charsNeededToClose, context, isDone, truncationInfo, rawParseCache)
    }

    /** `new IncompleteJson(options)` (dist/index.js:45-62, 283). */
    constructor (options: Options)
      ensures this.options == options && Abs() == Fresh
    {
      this.options := options;
      consumed := "";
      unconsumed := "";
      inString := false;
      inNumber := false;
      charsNeededToClose := "";
      context := [];
      isDone := false;
      truncationInfo := None;
      rawParseCache := Cache("", Undefined);
    }

    /** `markTruncateSpot(delta)` (dist/index.js:72-75). */
    method MarkTruncateSpot(delta: int)
      modifies this
      ensures Abs() == Mark(old(Abs()), delta)
    {
      truncationInfo := Some(Checkpoint(|consumed| + delta, charsNeededToClose, None));
    }

    /** An escape at `toConsume[i]` inside a string, taken whole or kept
        in `unconsumed` (dist/index.js:82-110); returns the index the loop
        goes on from. */
    method ConsumeEscape(toConsume: string, i: nat) returns (next: nat)
      requires i < |toConsume| && toConsume[i] == '\\'
      modifies this
      ensures (Abs(), next) == EscapeAt(old(Abs()), toConsume, i)
    {
      var j := i + 1;
      if j < |toConsume| && toConsume[j] == 'u' {
        if j + 4 < |toConsume| {
          consumed := consumed + toConsume[i..j + 5];
        } else {
          unconsumed := toConsume[i..];
        }
        next := j + 5;
      } else if j < |toConsume| {
        consumed := consumed + toConsume[i..j + 1];
        next := j + 1;
      } else {
        unconsumed := toConsume[i..];
        next := j + 1;
      }
    }

    /** dist/index.js:111-122. */
    method TrackNumberInPlace(c: char)
      modifies this
      ensures Abs() == TrackNumber(old(Abs()), c)
    {
      if !inString && NumberLike(c) {
        inNumber := true;
      }
      if inNumber && !NumberLike(c) && c != '-' && c != 'e' && c != '+' && c != 'E' && c != '.' {
        inNumber := false;
      }
    }

    /** dist/index.js:130-151. */
    method InjectInPlace(c: char)
      modifies this
      ensures Abs() == Inject(old(Abs()), c)
    {
      if !inString && c == '}' {
        consumed := consumed + CloseObject;
        charsNeededToClose := Drop(charsNeededToClose, 2);
        MarkTruncateSpot(0);
      } else if !inString && c == '{' {
        consumed := consumed + OpenObject;
        charsNeededToClose := "}" + charsNeededToClose;
      } else if !inString && c == '[' {
        consumed := consumed + OpenArray;
        charsNeededToClose := "}" + charsNeededToClose;
      } else if !inString && c == ']' {
        consumed := consumed + CloseArray;
        charsNeededToClose := Drop(charsNeededToClose, 2);
        MarkTruncateSpot(0);
      } else {
        consumed := consumed + [c];
      }
    }

    /** dist/index.js:163-169. */
    method PopQuoteInPlace(c: char)
      modifies this
      ensures Abs() == PopQuote(old(Abs()), c)
    {
      if |charsNeededToClose| > 0 && c == charsNeededToClose[0] && c == '"' {
        charsNeededToClose := charsNeededToClose[1..];
        if !TopIs(context, KeyCtx) {
          MarkTruncateSpot(0);
        }
      }
    }

    /** dist/index.js:170-176. */
    method NumberSymbolInPlace(c: char)
      modifies this
      ensures Abs() == NumberSymbol(options, old(Abs()), c)
    {
      if inNumber && !options.prohibitPartialNumbers {
        if c == 'e' || c == '.' || c == 'E' {
          MarkTruncateSpot(-1);
        }
      }
    }

    /** dist/index.js:177-188. */
    method QuoteInPlace(c: char)
      modifies this
      ensures Abs() == Quote(options, old(Abs()), c)
    {
      if c == '"' {
        inString := !inString;
        if !options.prohibitPartialStrings && inString {
          charsNeededToClose := "\"" + charsNeededToClose;
          if !TopIs(context, KeyCtx) {
            MarkTruncateSpot(0);
          }
        }
      }
    }

    /** dist/index.js:189-202. */
    method SeparatorInPlace(c: char)
      modifies this
      ensures Abs() == Separator(old(Abs()), c)
    {
      if c == ',' {
        MarkTruncateSpot(-1);
        if TopIs(context, ValCtx) {
          assert context[0 := KeyCtx] == [KeyCtx] + context[1..];
          context := context[0 := KeyCtx];
        }
      }
      if c == ':' {
        if TopIs(context, KeyCtx) {
          assert context[0 := ValCtx] == [ValCtx] + context[1..];
          context := context[0 := ValCtx];
        }
      }
    }

    /** dist/index.js:204-218. */
    method NestInPlace(c: char)
      modifies this
      ensures Abs() == Nest(old(Abs()), c)
    {
      if c == '[' {
        context := [ArrCtx] + context;
        charsNeededToClose := "]" + charsNeededToClose;
        MarkTruncateSpot(0);
      }
      if c == '{' {
        context := [KeyCtx] + context;
        charsNeededToClose := "}" + charsNeededToClose;
        MarkTruncateSpot(0);
      }
      if c == '}' || c == ']' {
        context := Shift(context);
      }
    }

    /** One character that does not start an escape (dist/index.js:111-218). */
    method ConsumeChar(c: char)
      modifies this
      ensures Abs() == CharStep(options, old(Abs()), c)
    {
      var wasInString := inString;
      TrackNumberInPlace(c);
      InjectInPlace(c);
      if wasInString && c != '"' {
        if !TopIs(context, KeyCtx) && !options.prohibitPartialStrings {
          MarkTruncateSpot(0);
        }
      } else {
        PopQuoteInPlace(c);
        NumberSymbolInPlace(c);
        QuoteInPlace(c);
        SeparatorInPlace(c);
        NestInPlace(c);
      }
    }

    /** One iteration of the loop of `addChunk` at index `i` of
        `toConsume` (dist/index.js:79-219); returns the next index. */
    method Iterate(toConsume: string, i: nat) returns (next: nat)
      requires i < |toConsume|
      modifies this
      ensures (Abs(), next) == Iter(options, old(Abs()), toConsume, i)
    {
      if inString && toConsume[i] == '\\' {
        next := ConsumeEscape(toConsume, i);
      } else {
        ConsumeChar(toConsume[i]);
        next := i + 1;
      }
    }

    /** The loop of `addChunk` over all of `toConsume` (dist/index.js:79-219). */
    method Consume(toConsume: string)
      modifies this
      ensures Abs() == Feed(options, old(Abs()), toConsume)
    {
      ghost var target := Feed(options, Abs(), toConsume);
      assert Drop(toConsume, 0) == toConsume;
      var i: nat := 0;
      while i < |toConsume|
        invariant Feed(options, Abs(), Drop(toConsume, i)) == target
        decreases |toConsume| - i
      {
        FeedAt(options, Abs(), toConsume, i);
        i := Iterate(toConsume, i);
      }
    }

    /** `addChunk(chunk)` (dist/index.js:68-220): throws on a finished
        session, and otherwise runs the loop over what was withheld and
        the chunk. */
    method AddChunk(chunk: string) returns (r: Result<(), Error>)
      modifies this
      ensures var expected := DistModel.AddChunk(options, old(Abs()), chunk);
        && (r.Failure? <==> expected.Failure?)
        && (r.Failure? ==> r.error == expected.error && Abs() == old(Abs()))
        && (r.Success? ==> Abs() == expected.value)
    {
      if isDone {
        return Failure(AlreadyDone);
      }
      var toConsume := unconsumed + chunk;
      unconsumed := "";
      Consume(toConsume);
      return Success(());
    }

    /** `cachedJSONParse(str)` (dist/index.js:284-301): decodes `str` with
        the reviver unless it is the text decoded last time; a throw leaves
        the cache as it was. */
    method CachedJsonParse(str: string) returns (r: Result<Read, Error>)
      modifies this
      ensures (r, rawParseCache) == CachedParse(old(rawParseCache), str)
      ensures Abs() == old(Abs()).(cache := rawParseCache)
    {
      if str != rawParseCache.key {
        var v := ParseRevive(str);
        if v.Failure? {
          return Failure(v.error);
        }
        rawParseCache := Cache(str, Defined(v.value));
      }
      return Success(rawParseCache.value);
    }

    /** `done()` (dist/index.js:240-258). */
    method Done()
      modifies this
      ensures Abs() == DistModel.Done(old(Abs()))
    {
      if isDone {
        return;
      }
      isDone := true;
      var rawData := consumed + charsNeededToClose;
      var result := CachedJsonParse(rawData);
      if result.Success? {
        truncationInfo := Some(Checkpoint(|consumed|, charsNeededToClose, Some(result.value)));
      }
    }

    /** `readValue()` (dist/index.js:267-282); an exception of the decoder
        is passed on. */
    method ReadValue() returns (r: Result<Read, Error>)
      modifies this
      ensures (r, Abs()) == DistModel.ReadValue(old(Abs()))
    {
      if consumed == [] || truncationInfo.None? {
        return Success(Undefined);
      }
      var t := truncationInfo.value;
      if t.result.None? {
        var v := CachedJsonParse(SliceTo(consumed, t.index) + t.append);
        if v.Failure? {
          return v;
        }
        truncationInfo := Some(t.(result := Some(v.value)));
      }
      return Success(truncationInfo.value.result.value);
    }

    /** The static `parse(string, options)` (dist/index.js:7-16). */
    static method Parse(text: string, options: Options) returns (r: Result<Read, Error>)
      ensures r == DistModel.Parse(text, options)
    {
      if text == [] {
        return Success(Undefined);
      }
      var parser := new IncompleteJson(options);
      assert Fresh.(unconsumed := "") == Fresh && "" + text == text;
      var _ := parser.AddChunk(text);
      if !options.prohibitPartialNumbers || !EndsInDigitOrDot(text) {
        parser.Done();
      }
      r := parser.ReadValue();
    }
  }

  /** The loop of `addChunk` at index `i` is `Feed` over the rest of
      `toConsume`: one iteration moves it to the next index. */
  lemma {:induction false} FeedAt(opts: Options, m: Machine, s: string, i: nat)
    requires i < |s|
    ensures var r := Iter(opts, m, s, i);
      Feed(opts, m, Drop(s, i)) == Feed(opts, r.0, Drop(s, r.1))
  {
    var u := s[i..];
    var r := Iter(opts, m, s, i);
    IterDrop(opts, m, s, i);
    var n := r.1 - i;
    assert Iter(opts, m, u, 0) == (r.0, n);
    FeedHead(opts, m, u, r.0, n);
    DropDrop(s, i, n);
    assert Drop(s, i) == u && Drop(u, n) == Drop(s, r.1);
  }

  /** `Feed` runs one iteration at the head of `u` and goes on with the rest. */
  lemma {:induction false} FeedHead(opts: Options, m: Machine, u: string, m1: Machine, n: nat)
    requires 0 < |u| && Iter(opts, m, u, 0) == (m1, n)
    ensures Feed(opts, m, u) == Feed(opts, m1, Drop(u, n))
  {
  }

  lemma {:induction false} DropDrop(s: string, i: nat, n: nat)
    requires i < |s|
    ensures Drop(s[i..], n) == Drop(s, i + n)
  {
    if i + n <= |s| {
      assert s[i..][n..] == s[i + n..];
    }
  }

  /** An iteration at index `i` of `s` is an iteration at the head of
      `s[i..]`. */
  lemma {:induction false} IterDrop(opts: Options, m: Machine, s: string, i: nat)
    requires i < |s|
    ensures Iter(opts, m, s, i) == (Iter(opts, m, s[i..], 0).0, Iter(opts, m, s[i..], 0).1 + i)
  {
    var u := s[i..];
    assert u[0] == s[i];
    if m.inString && s[i] == '\\' {
      if i + 1 < |s| {
        assert u[1] == s[i + 1];
        if i + 5 < |s| {
          assert u[0..6] == s[i..i + 6];
        }
        assert u[0..2] == s[i..i + 2];
      }
      assert u[0..] == s[i..];
    }
  }
}
