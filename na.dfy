/** The class `IncompleteJson` of rand/index.no-alloc.ts, with its fields
    updated in place. Every method is proved to leave the object in the
    state the functions of `NoAllocModel` compute. */
module NoAlloc {
  import opened Wrappers
  import opened Json
  import opened DistModel
  import opened NoAllocModel

  class IncompleteJson {
    const options: Options
    var consumedNoAlloc: string
    var unconsumed: string
    var inString: bool
    var charsNeededToClose: seq<char>
    var context: seq<Ctx>
    var isDone: bool
    var truncationInfo: Option<Checkpoint>
    var rawParseCache: Cache

    /** The state of the object as a value. */
    function Abs(): NaMachine
      reads this
    {
      NaMachine(consumedNoAlloc, unconsumed, inString, charsNeededToClose, context, isDone, truncationInfo, rawParseCache)
    }

    /** `new IncompleteJson(options)` (rand/index.no-alloc.ts:121-133, 347). */
    constructor (options: Options)
      ensures this.options == options && Abs() == NaFresh
    {
      this.options := options;
      consumedNoAlloc := "";
      unconsumed := "";
      inString := false;
      charsNeededToClose := [];
      context := [];
      isDone := false;
      truncationInfo := None;
      rawParseCache := Cache("", Undefined);
    }

    /** `markTruncateSpot(delta)` (rand/index.no-alloc.ts:144-148). */
    method MarkTruncateSpot(delta: int)
      modifies this
      ensures Abs() == NaMark(old(Abs()), delta)
    {
      truncationInfo := Some(Checkpoint(|consumedNoAlloc| + delta + 1, charsNeededToClose, None));
    }

    /** A backslash inside a string (rand/index.no-alloc.ts:159-187);
        returns the index the loop goes on from. */
    method ConsumeEscape(toConsume: string, i: nat) returns (next: nat)
      requires i < |toConsume| && toConsume[i] == '\\'
      modifies this
      ensures (Abs(), next) == NaEscapeAt(old(Abs()), toConsume, i)
    {
      var j := i + 1;
      if j < |toConsume| && toConsume[j] == 'u' {
        j := j + 1;
        if j + 3 >= |toConsume| {
          unconsumed := toConsume[i..];
        }
        j := j + 4;
      } else if j >= |toConsume| {
        unconsumed := [toConsume[i]];
      }
      next := j + 1;
    }

    /** rand/index.no-alloc.ts:216-223. */
    method PopInPlace(i: nat, c: char)
      modifies this
      ensures Abs() == NaPop(old(Abs()), i, c)
    {
      if |charsNeededToClose| > 0 && c == charsNeededToClose[0] {
        charsNeededToClose := charsNeededToClose[1..];
        if !TopIs(context, KeyCtx) {
          MarkTruncateSpot(i);
        }
      }
    }

    /** rand/index.no-alloc.ts:225-242. */
    method SymbolAndQuoteInPlace(i: nat, c: char)
      modifies this
      ensures Abs() == NaQuote(options, NaNumberSymbol(options, old(Abs()), i, c), c)
    {
      if !inString && !options.prohibitPartialNumbers {
        if c == 'e' || c == '.' || c == 'E' {
          MarkTruncateSpot(i - 1);
        }
      }
      if c == '"' {
        if !options.prohibitPartialStrings && !inString {
          charsNeededToClose := ['"'] + charsNeededToClose;
        }
        inString := !inString;
      }
    }

    /** rand/index.no-alloc.ts:244-259. */
    method SeparatorInPlace(i: nat, c: char)
      modifies this
      ensures Abs() == NaSeparator(old(Abs()), i, c)
    {
      if c == ',' {
        MarkTruncateSpot(i - 1);
        if TopIs(context, ValCtx) {
          assert context[0 := KeyCtx] == [KeyCtx] + context[1..];
          context := context[0 := KeyCtx];
        }
      }
      if c == ':' {
        if TopIs(context, KeyCtx) {
          assert context[0 := ValCtx] == [ValCtx] + context[1..];
          context := context[0 := ValCtx];
        }
      }
    }

    /** rand/index.no-alloc.ts:262-278. */
    method NestInPlace(i: nat, c: char)
      modifies this
      ensures Abs() == NaNest(old(Abs()), i, c)
    {
      if c == '[' {
        context := [ArrCtx] + context;
        charsNeededToClose := [']'] + charsNeededToClose;
        MarkTruncateSpot(i);
      }
      if c == '{' {
        context := [KeyCtx] + context;
        charsNeededToClose := ['}'] + charsNeededToClose;
        MarkTruncateSpot(i);
      }
      if c == '}' || c == ']' {
        context := Shift(context);
      }
    }

    /** One character at index `i` that does not start an escape
        (rand/index.no-alloc.ts:197-278). */
    method ConsumeChar(i: nat, c: char)
      modifies this
      ensures Abs() == NaCharStep(options, old(Abs()), i, c)
    {
      if inString && c != '"' {
        if !TopIs(context, KeyCtx) && !options.prohibitPartialStrings {
          MarkTruncateSpot(i);
        }
      } else {
        PopInPlace(i, c);
        SymbolAndQuoteInPlace(i, c);
        SeparatorInPlace(i, c);
        NestInPlace(i, c);
      }
    }

    /** One iteration of the loop (rand/index.no-alloc.ts:155-279). */
    method Iterate(toConsume: string, i: nat) returns (next: nat)
      requires i < |toConsume|
      modifies this
      ensures (Abs(), next) == NaIter(options, old(Abs()), toConsume, i)
    {
      if inString && toConsume[i] == '\\' {
        next := ConsumeEscape(toConsume, i);
      } else {
        ConsumeChar(i, toConsume[i]);
        next := i + 1;
      }
    }

    /** The loop over `toConsume` (rand/index.no-alloc.ts:155-279). */
    method Consume(toConsume: string)
      modifies this
      ensures Abs() == NaFeed(options, old(Abs()), toConsume, 0)
    {
      ghost var target := NaFeed(options, Abs(), toConsume, 0);
      var i: nat := 0;
      while i < |toConsume|
        invariant NaFeed(options, Abs(), toConsume, i) == target
        decreases |toConsume| - i
      {
        NaFeedAt(options, Abs(), toConsume, i);
        i := Iterate(toConsume, i);
      }
    }

    /** `addChunk(chunk)` (rand/index.no-alloc.ts:140-285). */
    method AddChunk(chunk: string) returns (r: Result<(), Error>)
      modifies this
      ensures var expected := NaAddChunk(options, old(Abs()), chunk);
        && (r.Failure? <==> expected.Failure?)
        && (r.Failure? ==> r.error == expected.error && Abs() == old(Abs()))
        && (r.Success? ==> Abs() == expected.value)
    {
      if isDone {
        return Failure(AlreadyDone);
      }
      var toConsume := unconsumed + chunk;
      unconsumed := "";
      Consume(toConsume);
      consumedNoAlloc := consumedNoAlloc + SliceTo(chunk, |chunk| - |unconsumed|);
      return Success(());
    }

    /** `cachedJSONParse(str)` (rand/index.no-alloc.ts:348-356). */
    method CachedJsonParse(str: string) returns (r: Result<Read, Error>)
      modifies this
      ensures (r, rawParseCache) == NaCachedParse(old(rawParseCache), str)
      ensures Abs() == old(Abs()).(cache := rawParseCache)
    {
      if str != rawParseCache.key {
        var j := Decode(str);
        if j.None? {
          return Failure(SyntaxError);
        }
        rawParseCache := Cache(str, Defined(Plain(j.value)));
      }
      return Success(rawParseCache.value);
    }

    /** `done()` (rand/index.no-alloc.ts:306-322). */
    method Done()
      modifies this
      ensures Abs() == NaDone(old(Abs()))
    {
      if isDone {
        return;
      }
      isDone := true;
      var rawData := consumedNoAlloc + charsNeededToClose;
      var result := CachedJsonParse(rawData);
      if result.Success? {
        truncationInfo := Some(Checkpoint(|consumedNoAlloc|, charsNeededToClose, Some(result.value)));
      }
    }

    /** `readValue()` (rand/index.no-alloc.ts:332-345). */
    method ReadValue() returns (r: Result<Read, Error>)
      modifies this
      ensures (r, Abs()) == NaReadValue(old(Abs()))
    {
      if consumedNoAlloc == [] || truncationInfo.None? {
        return Success(Undefined);
      }
      var t := truncationInfo.value;
      if t.result.None? {
        var v := CachedJsonParse(SliceTo(consumedNoAlloc, t.index) + t.append);
        if v.Failure? {
          return v;
        }
        truncationInfo := Some(t.(result := Some(v.value)));
      }
      return Success(truncationInfo.value.result.value);
    }

    /** The static `parse(string, options)` (rand/index.no-alloc.ts:67-81). */
    static method Parse(text: string, options: Options) returns (r: Result<Read, Error>)
      ensures r == NaParse(text, options)
    {
      if text == [] {
        return Success(Undefined);
      }
      var parser := new IncompleteJson(options);
      assert NaFresh.(unconsumed := "") == NaFresh && "" + text == text;
      var _ := parser.AddChunk(text);
      if !options.prohibitPartialNumbers || !EndsInDigitOrDot(text) {
        parser.Done();
      }
      r := parser.ReadValue();
    }
  }

  /** One iteration moves the loop to the next index. */
  lemma {:induction false} NaFeedAt(opts: Options, m: NaMachine, s: string, i: nat)
    requires i < |s|
    ensures NaFeed(opts, m, s, i) == NaFeed(opts, NaIter(opts, m, s, i).0, s, NaIter(opts, m, s, i).1)
  {
  }
}
