/** Checkpoints only move forward, whatever the input: the buffer of
    dist/index.js only grows, a checkpoint once recorded is never removed,
    and each new one lies at or after the previous one. Every mark is at
    the length of the buffer, or one less right after a character was
    appended, so it is never before the buffer's length when the step
    began. */
module DistForward {
  import opened Wrappers
  import opened DistModel

  /** The checkpoint lies inside the buffer. */
  predicate Bounded(m: Machine)
  {
    m.trunc.Some? ==> 0 <= m.trunc.value.index <= |m.consumed|
  }

  /** From `m` to `m2` the buffer only grew and the checkpoint did not move
      back. */
  predicate Grows(m: Machine, m2: Machine)
  {
    && m.consumed <= m2.consumed
    && Bounded(m2)
    && (m.trunc.Some? ==> m2.trunc.Some? && m.trunc.value.index <= m2.trunc.value.index)
  }

  lemma {:induction false} GrowsTrans(m: Machine, m1: Machine, m2: Machine)
    requires Grows(m, m1) && Grows(m1, m2)
    ensures Grows(m, m2)
  {
  }

  /** A part of a step after the character was appended: the buffer stays
      and any checkpoint it records lies between `n` and the buffer's end. */
  predicate MarksFrom(n: nat, m1: Machine, m2: Machine)
  {
    && m2.consumed == m1.consumed
    && (m2.trunc == m1.trunc || (m2.trunc.Some? && n <= m2.trunc.value.index <= |m2.consumed|))
  }

  lemma {:induction false} MarksTrans(n: nat, m1: Machine, m2: Machine, m3: Machine)
    requires MarksFrom(n, m1, m2) && MarksFrom(n, m2, m3)
    ensures MarksFrom(n, m1, m3)
  {
  }

  lemma {:induction false} MarkFrom(n: nat, m1: Machine, delta: int)
    requires n <= |m1.consumed| + delta <= |m1.consumed|
    ensures MarksFrom(n, m1, Mark(m1, delta))
  {
  }

  /** The number flag and the appended characters: at least one character
      is appended, and a checkpoint, if any, is at the new end. */
  lemma {:induction false} AppendGrows(m: Machine, c: char)
    requires Bounded(m)
    ensures var m1 := Inject(TrackNumber(m, c), c);
      Grows(m, m1) && |m1.consumed| > |m.consumed|
  {
    var m0 := TrackNumber(m, c);
    assert m0.consumed == m.consumed && m0.trunc == m.trunc;
  }

  lemma {:induction false} StringMarks(opts: Options, m1: Machine, n: nat)
    requires n < |m1.consumed|
    ensures MarksFrom(n, m1, if !TopIs(m1.context, KeyCtx) && !opts.prohibitPartialStrings then Mark(m1, 0) else m1)
  {
  }

  lemma {:induction false} PopQuoteMarks(m1: Machine, c: char, n: nat)
    requires n < |m1.consumed|
    ensures MarksFrom(n, m1, PopQuote(m1, c))
  {
    if |m1.closers| > 0 && c == m1.closers[0] && c == '"' {
      var t := m1.(closers := m1.closers[1..]);
      if !TopIs(t.context, KeyCtx) {
        MarkFrom(n, t, 0);
      }
    }
  }

  lemma {:induction false} NumberSymbolMarks(opts: Options, m1: Machine, c: char, n: nat)
    requires n < |m1.consumed|
    ensures MarksFrom(n, m1, NumberSymbol(opts, m1, c))
  {
  }

  lemma {:induction false} QuoteMarks(opts: Options, m1: Machine, c: char, n: nat)
    requires n < |m1.consumed|
    ensures MarksFrom(n, m1, Quote(opts, m1, c))
  {
    if c == '"' {
      var t := m1.(inString := !m1.inString);
      if !opts.prohibitPartialStrings && t.inString {
        var u := t.(closers := "\"" + t.closers);
        if !TopIs(u.context, KeyCtx) {
          MarkFrom(n, u, 0);
        }
      }
    }
  }

  lemma {:induction false} SeparatorMarks(m1: Machine, c: char, n: nat)
    requires n < |m1.consumed|
    ensures MarksFrom(n, m1, Separator(m1, c))
  {
    if c == ',' {
      MarkFrom(n, m1, -1);
    }
  }

  lemma {:induction false} NestMarks(m1: Machine, c: char, n: nat)
    requires n < |m1.consumed|
    ensures MarksFrom(n, m1, Nest(m1, c))
  {
    var a := if c == '[' then Mark(m1.(context := [ArrCtx] + m1.context, closers := "]" + m1.closers), 0) else m1;
    assert MarksFrom(n, m1, a);
    var b := if c == '{' then Mark(a.(context := [KeyCtx] + a.context, closers := "}" + a.closers), 0) else a;
    assert MarksFrom(n, a, b);
    MarksTrans(n, m1, a, b);
  }

  /** The parts of a step after the quote handling of a structural
      character. */
  lemma {:induction false} TailMarks(opts: Options, m1: Machine, c: char, n: nat)
    requires n < |m1.consumed|
    ensures MarksFrom(n, m1, Nest(Separator(Quote(opts, NumberSymbol(opts, PopQuote(m1, c), c), c), c), c))
  {
    var a := PopQuote(m1, c);
    PopQuoteMarks(m1, c, n);
    var b := NumberSymbol(opts, a, c);
    NumberSymbolMarks(opts, a, c, n);
    MarksTrans(n, m1, a, b);
    var d := Quote(opts, b, c);
    QuoteMarks(opts, b, c, n);
    MarksTrans(n, m1, b, d);
    var e := Separator(d, c);
    SeparatorMarks(d, c, n);
    MarksTrans(n, m1, d, e);
    NestMarks(e, c, n);
    MarksTrans(n, m1, e, Nest(e, c));
  }

  /** One character that does not start an escape. */
  lemma {:induction false} CharStepGrows(opts: Options, m: Machine, c: char)
    requires Bounded(m)
    ensures Grows(m, CharStep(opts, m, c))
  {
    var m1 := Inject(TrackNumber(m, c), c);
    AppendGrows(m, c);
    var n := |m.consumed|;
    if m.inString && c != '"' {
      StringMarks(opts, m1, n);
    } else {
      TailMarks(opts, m1, c, n);
    }
    var m2 := CharStep(opts, m, c);
    assert MarksFrom(n, m1, m2);
  }

  /** One iteration of the loop of `addChunk`. */
  lemma {:induction false} IterGrows(opts: Options, m: Machine, s: string, i: nat)
    requires i < |s| && Bounded(m)
    ensures Grows(m, Iter(opts, m, s, i).0)
  {
    if !(m.inString && s[i] == '\\') {
      CharStepGrows(opts, m, s[i]);
    }
  }

  /** The loop of `addChunk`. */
  lemma {:induction false} FeedGrows(opts: Options, m: Machine, s: string)
    requires Bounded(m)
    ensures Grows(m, Feed(opts, m, s))
    decreases |s|
  {
    if s != [] {
      var r := Iter(opts, m, s, 0);
      IterGrows(opts, m, s, 0);
      assert Feed(opts, m, s) == Feed(opts, r.0, Drop(s, r.1));
      FeedGrows(opts, r.0, Drop(s, r.1));
      GrowsTrans(m, r.0, Feed(opts, r.0, Drop(s, r.1)));
    }
  }

  /** `addChunk`, `done` and `readValue` each keep the checkpoint inside
      the buffer, let the buffer only grow and never move the checkpoint
      back; `done` after a decodable buffer puts it at the buffer's end. */
  lemma {:induction false} AddChunkGrows(opts: Options, m: Machine, chunk: string)
    requires Bounded(m) && AddChunk(opts, m, chunk).Success?
    ensures Grows(m, AddChunk(opts, m, chunk).value)
  {
    FeedGrows(opts, m.(unconsumed := ""), m.unconsumed + chunk);
  }

  lemma {:induction false} DoneGrows(m: Machine)
    requires Bounded(m)
    ensures Grows(m, Done(m))
    ensures !m.isDone && Done(m).trunc != m.trunc ==> Done(m).trunc.value.index == |m.consumed|
  {
  }

  lemma {:induction false} ReadValueGrows(m: Machine)
    requires Bounded(m)
    ensures Grows(m, ReadValue(m).1)
    ensures ReadValue(m).1.consumed == m.consumed
    ensures m.trunc.Some? ==> ReadValue(m).1.trunc.value.index == m.trunc.value.index
  {
  }
}
