/** Properties of the session of dist/index.js that hold for every input,
    well-formed or not: how chunks are split does not matter, escapes are
    taken whole, checkpoints only move forward, `done` is final and
    idempotent, `readValue` decodes once per checkpoint, and the reviver
    turns envelopes into flagged containers. */
module DistProps {
  import opened Wrappers
  import opened Json
  import opened DistModel
  import opened DistRuns
  import opened DistSafety

  // ---------------------------------------------------------------------
  // Chunking

  /** An iteration that stays inside `s` is the same inside `s + t`. */
  lemma {:induction false} IterExtend(opts: Options, m: Machine, s: string, t: string)
    requires 0 < |s| && Iter(opts, m, s, 0).1 <= |s|
    ensures Iter(opts, m, s + t, 0) == Iter(opts, m, s, 0)
  {
    var u := s + t;
    assert u[0] == s[0];
    if m.inString && s[0] == '\\' {
      assert u[1] == s[1];
      if s[1] == 'u' {
        assert u[0..6] == s[0..6];
      } else {
        assert u[0..2] == s[0..2];
      }
    }
  }

  lemma {:induction false} DropAppend(s: string, t: string, i: nat)
    requires i <= |s|
    ensures Drop(s + t, i) == Drop(s, i) + t
  {
    assert (s + t)[i..] == s[i..] + t;
  }

  /** The loop over `s` and then over `t`, with what it withheld in front,
      is the loop over `s + t`. */
  lemma {:induction false} FeedSplit(opts: Options, m: Machine, s: string, t: string)
    requires m.unconsumed == []
    ensures var m1 := Feed(opts, m, s);
      Feed(opts, m1.(unconsumed := []), m1.unconsumed + t) == Feed(opts, m, s + t)
    decreases |s|
  {
    if s == [] {
      assert Feed(opts, m, s) == m;
      assert m.(unconsumed := []) == m;
      assert m.unconsumed + t == t && s + t == t;
    } else {
      var r := Iter(opts, m, s, 0);
      assert Feed(opts, m, s) == Feed(opts, r.0, Drop(s, r.1));
      IterWithholds(opts, m, s);
      if r.1 <= |s| {
        IterExtend(opts, m, s, t);
        DropAppend(s, t, r.1);
        assert Feed(opts, m, s + t) == Feed(opts, r.0, Drop(s, r.1) + t);
        FeedSplit(opts, r.0, Drop(s, r.1), t);
      } else {
        assert Feed(opts, r.0, []) == r.0;
        assert r.0.(unconsumed := []) == m;
      }
    }
  }

  /** An iteration withholds all of `s`, an escape cut off by its end, or
      nothing. */
  lemma {:induction false} IterWithholds(opts: Options, m: Machine, s: string)
    requires 0 < |s| && m.unconsumed == []
    ensures var r := Iter(opts, m, s, 0);
      if r.1 <= |s| then r.0.unconsumed == [] else r.0 == m.(unconsumed := s)
  {
    if !(m.inString && s[0] == '\\') {
      CharStepKeeps(opts, m, s[0]);
    } else {
      assert s[0..] == s;
    }
  }

  lemma {:induction false} FirstHalfKeeps(opts: Options, m: Machine, c: char)
    ensures Keeps(m, Inject(TrackNumber(m, c), c))
  {
  }

  lemma {:induction false} StringCharKeeps(opts: Options, m: Machine, c: char)
    ensures var m1 := Inject(TrackNumber(m, c), c);
      Keeps(m1, if !TopIs(m1.context, KeyCtx) && !opts.prohibitPartialStrings then Mark(m1, 0) else m1)
  {
  }

  lemma {:induction false} QuoteKeeps(opts: Options, m: Machine, c: char)
    ensures Keeps(m, Quote(opts, NumberSymbol(opts, PopQuote(m, c), c), c))
  {
    var m1 := PopQuote(m, c);
    assert Keeps(m, m1);
    var m2 := NumberSymbol(opts, m1, c);
    assert Keeps(m1, m2);
    assert Keeps(m2, Quote(opts, m2, c));
  }

  lemma {:induction false} NestKeeps(m: Machine, c: char)
    ensures Keeps(m, Nest(Separator(m, c), c))
  {
  }

  /** One character leaves `unconsumed`, `isDone` and the cache alone. */
  lemma {:induction false} CharStepKeeps(opts: Options, m: Machine, c: char)
    ensures Keeps(m, CharStep(opts, m, c))
  {
    FirstHalfKeeps(opts, m, c);
    var m1 := Inject(TrackNumber(m, c), c);
    if m.inString && c != '"' {
      StringCharKeeps(opts, m, c);
    } else {
      QuoteKeeps(opts, m1, c);
      NestKeeps(Quote(opts, NumberSymbol(opts, PopQuote(m1, c), c), c), c);
    }
  }

  /** Splitting a chunk in two changes nothing: `addChunk(b)` after
      `addChunk(a)` leaves the session as `addChunk(a + b)` does, also when
      the split falls inside an escape. */
  lemma {:induction false} ChunkSplit(opts: Options, m: Machine, a: string, b: string)
    requires !m.isDone
    ensures AddChunk(opts, m, a).Success?
    ensures AddChunk(opts, AddChunk(opts, m, a).value, b) == AddChunk(opts, m, a + b)
  {
    var s := m.unconsumed + a;
    var m0 := m.(unconsumed := []);
    var m1 := Feed(opts, m0, s);
    assert AddChunk(opts, m, a) == Success(m1);
    FeedKeeps(opts, m0, s);
    assert AddChunk(opts, m1, b) == Success(Feed(opts, m1.(unconsumed := []), m1.unconsumed + b));
    FeedSplit(opts, m0, s, b);
    AppendAssoc(m.unconsumed, a, b);
  }

  lemma {:induction false} AppendAssoc(x: string, y: string, z: string)
    ensures x + (y + z) == (x + y) + z
  {
  }

  /** The loop never sets `isDone`. */
  lemma {:induction false} FeedKeeps(opts: Options, m: Machine, s: string)
    ensures Feed(opts, m, s).isDone == m.isDone
    decreases |s|
  {
    if s != [] {
      var r := Iter(opts, m, s, 0);
      if !(m.inString && s[0] == '\\') {
        CharStepKeeps(opts, m, s[0]);
      }
      assert Feed(opts, m, s) == Feed(opts, r.0, Drop(s, r.1));
      FeedKeeps(opts, r.0, Drop(s, r.1));
    }
  }

  // ---------------------------------------------------------------------
  // Finishing and escapes

  /** `done` finishes the session for good: a second `done` changes
      nothing, and `addChunk` then throws, leaving the session as it is. */
  lemma {:induction false} DoneFinal(opts: Options, m: Machine, chunk: string)
    ensures Done(m).isDone
    ensures Done(Done(m)) == Done(m)
    ensures AddChunk(opts, Done(m), chunk) == Failure(AlreadyDone)
    ensures AddChunk(opts, m, chunk).Failure? <==> m.isDone
  {
  }

  /** Escapes are atomic: a backslash in a string and the characters after
      it up to the escape's width (six for `\u` and four hex digits, two
      otherwise) are appended together when all of them are present, and
      otherwise all of the rest is withheld and nothing is appended. */
  lemma {:induction false} IterEscape(opts: Options, m: Machine, s: string, i: nat)
    requires i < |s| && m.inString && s[i] == '\\'
    ensures var r := Iter(opts, m, s, i);
      var width := if i + 1 < |s| && s[i + 1] == 'u' then 6 else 2;
      && r.1 == i + width
      && if i + width <= |s| then r.0 == m.(consumed := m.consumed + s[i..i + width])
         else r.0 == m.(unconsumed := s[i..])
  {
  }
}
