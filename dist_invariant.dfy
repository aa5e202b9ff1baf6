/** The invariant of the session of dist/index.js over the raw text fed to
    it, kept by every call of `addChunk` on a prefix of a JSON text, and
    what it gives `done` and `readValue`: the checkpoint always stands for
    a JSON text, so reading it never meets a syntax error. */
module DistInvariant {
  import opened Wrappers
  import opened Json
  import opened DistModel
  import opened DistRuns
  import opened DistSafety

  /** Splitting a run at index `k`. */
  lemma {:induction false} RunSplit(st: State, s: string, k: nat)
    requires k <= |s| && Run(st, s).Some?
    ensures Run(st, s[..k]).Some? && Run(Run(st, s[..k]).value, s[k..]) == Run(st, s)
  {
    assert s == s[..k] + s[k..];
    RunAppend(st, s[..k], s[k..]);
  }

  /** A checkpoint below the end of the buffer reads the same after the
      buffer grows. */
  lemma {:induction false} CutTextGrows(m: Machine, m2: Machine, y: string)
    requires m.trunc.Some? && 0 <= m.trunc.value.index <= |m.consumed|
    requires m2.consumed == m.consumed + y && m2.trunc == m.trunc
    ensures CutText(m2, m2.trunc.value) == CutText(m, m.trunc.value)
  {
    var k := m.trunc.value.index;
    assert (m.consumed + y)[..k] == m.consumed[..k];
  }

  /** A closing run from the end of a buffer makes the buffer and the
      closers a JSON text. */
  lemma {:induction false} ClosedText(u: string, t: string)
    requires Run(Start, u).Some? && ClosesFrom(Run(Start, u).value, t)
    ensures IsJsonText(u + t)
  {
    RunAppend(Start, u, t);
  }

  /** One step of the loop keeps the checkpoint sound. */
  lemma {:induction false} CheckpointStep(m: Machine, a: State, m2: Machine, y: string)
    requires Run(Start, m.consumed) == Some(a) && Checkpointed(m)
    requires m2.consumed == m.consumed + y && Run(a, y).Some? && MarkOk(m, a, m2, y)
    ensures Checkpointed(m2)
  {
    RunAppend(Start, m.consumed, y);
    if m2.trunc == m.trunc {
      if m.trunc.Some? {
        CutTextGrows(m, m2, y);
      }
    } else {
      var t := m2.trunc.value;
      if t.index == |m.consumed| + |y| && ClosesFrom(Run(a, y).value, t.append) {
        assert CutText(m2, t) == m2.consumed + t.append by {
          assert m2.consumed[..t.index] == m2.consumed;
        }
        ClosedText(m2.consumed, t.append);
      } else {
        assert t.index == |m.consumed| && ClosesFrom(a, t.append);
        assert CutText(m2, t) == m.consumed + t.append by {
          assert m2.consumed[..t.index] == m.consumed;
        }
        ClosedText(m.consumed, t.append);
      }
    }
  }

  /** One iteration of the loop of `addChunk` at the head of `s`, whose raw
      text the decoder `q` accepts: it appends `y` and advances `q` over
      `s[..j]`, or it withholds an escape cut off by the end of `s`. */
  lemma {:induction false} IterSafe(opts: Options, m: Machine, q: State, s: string) returns (y: string)
    requires 0 < |s| && Run(Start, m.consumed).Some?
    requires Agree(opts, m, q, Run(Start, m.consumed).value) && Run(q, s).Some?
    ensures var r := Iter(opts, m, s, 0);
      if r.1 <= |s| then
        Run(q, s[..r.1]).Some? && Advanced(opts, m, Run(Start, m.consumed).value, r.0, Run(q, s[..r.1]).value, y)
      else
        r.0 == m.(unconsumed := s) && m.inString && PendingEscape(s)
  {
    var a := Run(Start, m.consumed).value;
    var r := Iter(opts, m, s, 0);
    if m.inString && s[0] == '\\' {
      if r.1 <= |s| {
        y := s[..r.1];
        assert y[0] == '\\' && (1 < |s| && s[1] == 'u' ==> r.1 == 6);
        assert s[0..r.1] == y;
        RunSplit(q, s, r.1);
        EscapeSafe(opts, m, q, a, y);
      } else {
        assert s[0..] == s;
        y := [];
      }
    } else {
      y := CharSafe(opts, m, q, a, s[0]);
      RunSplit(q, s, 1);
      assert s[..1] == [s[0]];
      RunOne(q, s[0]);
    }
  }

  /** The loop of `addChunk` may run over `s`: nothing is withheld, the
      buffer is read by the decoder `a`, which agrees with the raw decoder
      `q`, and `q` accepts `s`. */
  ghost predicate Ready(opts: Options, m: Machine, q: State, s: string)
  {
    && m.unconsumed == [] && Run(Start, m.consumed).Some? && Checkpointed(m)
    && Agree(opts, m, q, Run(Start, m.consumed).value) && Run(q, s).Some?
  }

  /** Run over `s`, the loop ended in `m2` having accepted `s[..k]` and
      withholding `s[k..]`, a cut-off escape, with its checkpoint sound. */
  ghost predicate Fed(opts: Options, m: Machine, q: State, s: string, m2: Machine)
  {
    var k := |s| - |m2.unconsumed|;
    && 0 <= k <= |s| && m2.unconsumed == s[k..]
    && Run(q, s[..k]).Some? && Run(Start, m2.consumed).Some?
    && Agree(opts, m2, Run(q, s[..k]).value, Run(Start, m2.consumed).value)
    && Checkpointed(m2)
    && (m2.unconsumed != [] ==> m2.inString && PendingEscape(m2.unconsumed))
    && m2.isDone == m.isDone && m2.cache == m.cache
  }

  /** An iteration that stays inside `s` leaves the loop ready for the rest
      of `s`. */
  lemma {:induction false} IterReady(opts: Options, m: Machine, q: State, s: string)
    requires Ready(opts, m, q, s) && 0 < |s| && Iter(opts, m, s, 0).1 <= |s|
    ensures var r := Iter(opts, m, s, 0);
      && Run(q, s[..r.1]).Some? && Ready(opts, r.0, Run(q, s[..r.1]).value, s[r.1..])
      && r.0.isDone == m.isDone && r.0.cache == m.cache
  {
    var a := Run(Start, m.consumed).value;
    var r := Iter(opts, m, s, 0);
    var y := IterSafe(opts, m, q, s);
    RunAppend(Start, m.consumed, y);
    CheckpointStep(m, a, r.0, y);
    RunSplit(q, s, r.1);
  }

  /** An iteration that withholds a cut-off escape ends the loop. */
  lemma {:induction false} IterPending(opts: Options, m: Machine, q: State, s: string)
    requires Ready(opts, m, q, s) && 0 < |s| && Iter(opts, m, s, 0).1 > |s|
    ensures Fed(opts, m, q, s, Iter(opts, m, s, 0).0)
  {
    var y := IterSafe(opts, m, q, s);
    assert s[..0] == [] && s[0..] == s;
    assert Run(q, []) == Some(q);
  }

  lemma {:induction false} FedEnd(opts: Options, m: Machine, q: State, s: string)
    requires Ready(opts, m, q, s) && s == []
    ensures Fed(opts, m, q, s, m)
  {
    assert s[..0] == s;
  }

  lemma {:induction false} FedCompose(opts: Options, m: Machine, q: State, s: string, j: nat, q2: State, mid: Machine, m2: Machine)
    requires j <= |s| && Run(q, s[..j]) == Some(q2)
    requires mid.isDone == m.isDone && mid.cache == m.cache
    requires Fed(opts, mid, q2, s[j..], m2)
    ensures Fed(opts, m, q, s, m2)
  {
    var u := s[j..];
    var k2 := |u| - |m2.unconsumed|;
    assert u[k2..] == s[j + k2..];
    assert s[..j + k2] == s[..j] + u[..k2];
    RunAppend(q, s[..j], u[..k2]);
  }

  /** The loop of `addChunk` over `s`. */
  lemma {:induction false} FeedSafe(opts: Options, m: Machine, q: State, s: string)
    requires Ready(opts, m, q, s)
    ensures Fed(opts, m, q, s, Feed(opts, m, s))
    decreases |s|
  {
    if s == [] {
      FedEnd(opts, m, q, s);
    } else {
      var r := Iter(opts, m, s, 0);
      assert Feed(opts, m, s) == Feed(opts, r.0, Drop(s, r.1));
      if r.1 <= |s| {
        IterReady(opts, m, q, s);
        var q2 := Run(q, s[..r.1]).value;
        FeedSafe(opts, r.0, q2, s[r.1..]);
        FedCompose(opts, m, q, s, r.1, q2, r.0, Feed(opts, r.0, s[r.1..]));
      } else {
        IterPending(opts, m, q, s);
        assert Feed(opts, r.0, []) == r.0;
      }
    }
  }

  // ---------------------------------------------------------------------
  // The invariant over the raw text

  /** The raw text the session has accepted: all except what it withholds. */
  function Accepted(m: Machine, raw: string): string
    requires |m.unconsumed| <= |raw|
  {
    raw[..|raw| - |m.unconsumed|]
  }

  /** The session `m` has been fed `raw`: it has accepted all of it but a
      cut-off escape, and its checkpoint stands for a JSON text. */
  ghost predicate Inv(opts: Options, m: Machine, raw: string)
  {
    && |m.unconsumed| <= |raw|
    && m.unconsumed == raw[|raw| - |m.unconsumed|..]
    && Sim(opts, m, Accepted(m, raw))
    && Checkpointed(m)
    && (m.unconsumed != [] ==> m.inString && PendingEscape(m.unconsumed))
  }

  /** A new session holds the invariant for the empty text. */
  lemma {:induction false} FreshInv(opts: Options)
    ensures Inv(opts, Fresh, [])
  {
    assert Run(Start, []) == Some(Start);
    assert Accepted(Fresh, []) == [];
    assert Kinds(Start.stack) == [] && Expand([]) == [];
    assert Twins(Start, Start) && Reachable(Start);
    assert CtxMatches([], Start);
    assert Owed(opts, Fresh) == [];
    assert Agree(opts, Fresh, Start, Start);
  }

  /** Fed more raw text, a session holding the invariant is ready to run
      the loop over what it withheld and the new chunk. */
  lemma {:induction false} InvReady(opts: Options, m: Machine, raw: string, chunk: string)
    requires Inv(opts, m, raw) && IsJsonPrefix(raw + chunk)
    ensures raw + chunk == Accepted(m, raw) + (m.unconsumed + chunk)
    ensures Ready(opts, m.(unconsumed := []), Run(Start, Accepted(m, raw)).value, m.unconsumed + chunk)
  {
    var acc := Accepted(m, raw);
    var s := m.unconsumed + chunk;
    assert raw == acc + m.unconsumed;
    assert raw + chunk == acc + s;
    RunAppend(Start, acc, s);
  }

  /** The loop's outcome holds the invariant for the whole raw text. */
  lemma {:induction false} FedInv(opts: Options, acc: string, s: string, q: State, m: Machine, m2: Machine)
    requires Run(Start, acc) == Some(q) && Fed(opts, m, q, s, m2)
    ensures Inv(opts, m2, acc + s)
  {
    var k := |s| - |m2.unconsumed|;
    var raw2 := acc + s;
    assert Accepted(m2, raw2) == acc + s[..k] by {
      assert raw2[..|raw2| - |m2.unconsumed|] == (acc + s)[..|acc| + k];
    }
    assert m2.unconsumed == raw2[|raw2| - |m2.unconsumed|..] by {
      assert raw2[|raw2| - |m2.unconsumed|..] == (acc + s)[|acc| + k..];
    }
    RunAppend(Start, acc, s[..k]);
  }

  /** `addChunk` on a session that is not finished, fed a chunk that keeps
      the raw text a prefix of a JSON text, succeeds and keeps the
      invariant. */
  lemma {:induction false} AddChunkSafe(opts: Options, m: Machine, raw: string, chunk: string)
    requires Inv(opts, m, raw) && !m.isDone && IsJsonPrefix(raw + chunk)
    ensures AddChunk(opts, m, chunk).Success?
    ensures Inv(opts, AddChunk(opts, m, chunk).value, raw + chunk)
    ensures !AddChunk(opts, m, chunk).value.isDone
  {
    var acc := Accepted(m, raw);
    var s := m.unconsumed + chunk;
    var m1 := m.(unconsumed := []);
    var q := Run(Start, acc).value;
    InvReady(opts, m, raw, chunk);
    FeedSafe(opts, m1, q, s);
    FedInv(opts, acc, s, q, m1, Feed(opts, m1, s));
  }

  // ---------------------------------------------------------------------
  // What the invariant gives `readValue` and `done`

  /** The checkpoint lies inside the buffer and either holds its decoded
      value already or stands for a JSON text. */
  ghost predicate Readable(m: Machine)
  {
    m.trunc.Some? ==>
      && 0 <= m.trunc.value.index <= |m.consumed|
      && (m.trunc.value.result.Some? || IsJsonText(CutText(m, m.trunc.value)))
  }

  /** `JSON.parse` with the reviver fails with a syntax error exactly on
      texts that are not JSON. */
  lemma {:induction false} ParseReviveSyntax(s: string)
    ensures ParseRevive(s) == Failure(SyntaxError) <==> !IsJsonText(s)
  {
    if IsJsonText(s) {
      ReviveError(Decode(s).value);
    }
  }

  /** The reviver throws only type errors. */
  lemma {:induction false} ReviveError(v: Json)
    ensures Revive(v).Failure? ==> Revive(v).error == TypeError
  {
  }

  /** Reading a readable session never meets a syntax error, and leaves it
      readable. */
  lemma {:induction false} ReadValueSafe(m: Machine)
    requires Readable(m)
    ensures ReadValue(m).0 != Failure(SyntaxError)
    ensures Readable(ReadValue(m).1)
  {
    if m.consumed != [] && m.trunc.Some? && m.trunc.value.result.None? {
      var t := m.trunc.value;
      ParseReviveSyntax(CutText(m, t));
    }
  }

  /** `done` keeps a session readable: its own checkpoint holds its value. */
  lemma {:induction false} DoneReadable(m: Machine)
    requires Readable(m)
    ensures Readable(Done(m))
  {
  }

  lemma {:induction false} InvReadable(opts: Options, m: Machine, raw: string)
    requires Inv(opts, m, raw)
    ensures Readable(m)
  {
  }

  /** `readValue` changes only the checkpoint's stored result and the
      cache, so the session keeps its invariant. */
  lemma {:induction false} ReadValueInv(opts: Options, m: Machine, raw: string)
    requires Inv(opts, m, raw)
    ensures Inv(opts, ReadValue(m).1, raw)
  {
    var m2 := ReadValue(m).1;
    ReadValueFields(m);
    InvResult(opts, m, m2, raw);
  }

  /** What `readValue` changes: the cache, and the stored result. */
  lemma {:induction false} ReadValueFields(m: Machine)
    ensures var m2 := ReadValue(m).1;
      && m2 == m.(trunc := m2.trunc, cache := m2.cache)
      && (m2.trunc == m.trunc || (m.trunc.Some? && m2.trunc.Some? && m2.trunc == Some(m.trunc.value.(result := m2.trunc.value.result))))
  {
  }

  /** The invariant does not depend on the stored result or the cache. */
  lemma {:induction false} InvResult(opts: Options, m: Machine, m2: Machine, raw: string)
    requires Inv(opts, m, raw) && m2 == m.(trunc := m2.trunc, cache := m2.cache)
    requires m2.trunc == m.trunc || (m.trunc.Some? && m2.trunc.Some? && m2.trunc == Some(m.trunc.value.(result := m2.trunc.value.result)))
    ensures Inv(opts, m2, raw)
  {
    if m2.trunc != m.trunc {
      assert CutText(m2, m2.trunc.value) == CutText(m, m.trunc.value);
    }
    assert Accepted(m2, raw) == Accepted(m, raw);
    assert Owed(opts, m2) == Owed(opts, m);
  }

  /** Once the raw text is a whole JSON text, nothing is withheld and the
      buffer with its closers is a JSON text: `done` decodes all of it. */
  lemma {:induction false} CompleteText(opts: Options, m: Machine, raw: string)
    requires Inv(opts, m, raw) && IsJsonText(raw)
    ensures m.unconsumed == [] && m.closers == []
    ensures IsJsonText(m.consumed + m.closers)
  {
    var acc := Accepted(m, raw);
    var q := Run(Start, acc).value;
    assert raw == acc + m.unconsumed;
    RunAppend(Start, acc, m.unconsumed);
    if m.unconsumed != [] {
      PendingInside(q, m.unconsumed);
      assert false;
    }
    assert acc == raw;
    var a := Run(Start, m.consumed).value;
    assert q.stack == [];
    assert |m.context| == 0 by {
      assert |CtxKinds(m.context)| == |Kinds(q.stack)|;
    }
    assert |a.stack| == 0 by {
      assert |Kinds(a.stack)| == |Expand(Kinds(q.stack))|;
    }
    assert m.consumed + m.closers == m.consumed;
  }

  /** The text of a stream of chunks. */
  function Concat(chunks: seq<string>): string
  {
    if chunks == [] then [] else Concat(chunks[..|chunks| - 1]) + chunks[|chunks| - 1]
  }

  /** A new session fed the chunks one `addChunk` at a time. */
  function FeedAll(opts: Options, chunks: seq<string>): Result<Machine, Error>
  {
    if chunks == [] then Success(Fresh)
    else
      match FeedAll(opts, chunks[..|chunks| - 1])
      case Failure(e) => Failure(e)
      case Success(m) => AddChunk(opts, m, chunks[|chunks| - 1])
  }

  lemma {:induction false} PrefixAccepted(p: string, t: string)
    requires IsJsonPrefix(p + t)
    ensures IsJsonPrefix(p)
  {
    RunAppend(Start, p, t);
  }

  /** Fed any split of a prefix of a JSON text, every `addChunk` succeeds
      and the session holds the invariant for the text. */
  lemma {:induction false} FeedAllSafe(opts: Options, chunks: seq<string>)
    requires IsJsonPrefix(Concat(chunks))
    ensures FeedAll(opts, chunks).Success?
    ensures Inv(opts, FeedAll(opts, chunks).value, Concat(chunks))
    ensures !FeedAll(opts, chunks).value.isDone
  {
    if chunks == [] {
      FreshInv(opts);
    } else {
      var init := chunks[..|chunks| - 1];
      var last := chunks[|chunks| - 1];
      PrefixAccepted(Concat(init), last);
      FeedAllSafe(opts, init);
      AddChunkSafe(opts, FeedAll(opts, init).value, Concat(init), last);
    }
  }

  /** The safety of the session: however a prefix of a JSON text is split
      into chunks, `readValue` never meets a syntax error, before or after
      `done`. */
  lemma {:induction false} StreamSafe(opts: Options, chunks: seq<string>)
    requires IsJsonPrefix(Concat(chunks))
    ensures FeedAll(opts, chunks).Success?
    ensures ReadValue(FeedAll(opts, chunks).value).0 != Failure(SyntaxError)
    ensures ReadValue(Done(FeedAll(opts, chunks).value)).0 != Failure(SyntaxError)
  {
    FeedAllSafe(opts, chunks);
    var m := FeedAll(opts, chunks).value;
    InvReadable(opts, m, Concat(chunks));
    ReadValueSafe(m);
    DoneReadable(m);
    ReadValueSafe(Done(m));
  }

  /** The static `parse` of a prefix of a JSON text never reports a syntax
      error. */
  lemma {:induction false} ParseSafe(text: string, opts: Options)
    requires IsJsonPrefix(text)
    ensures Parse(text, opts) != Failure(SyntaxError)
  {
    if text != [] {
      FreshInv(opts);
      assert [] + text == text;
      AddChunkSafe(opts, Fresh, [], text);
      var fed := Feed(opts, Fresh, text);
      assert Fresh.(unconsumed := []) == Fresh;
      InvReadable(opts, fed, text);
      DoneReadable(fed);
      ReadValueSafe(fed);
      ReadValueSafe(Done(fed));
    }
  }

  /** The closers are two per open container of the raw text, plus the
      quote owed inside any open string, key or value, when partial
      strings are allowed. */
  lemma {:induction false} ClosersLength(opts: Options, m: Machine, raw: string)
    requires Inv(opts, m, raw)
    ensures |m.context| == |Run(Start, Accepted(m, raw)).value.stack|
    ensures |m.closers| == 2 * |m.context| + (if m.inString && !opts.prohibitPartialStrings then 1 else 0)
  {
    var q := Run(Start, Accepted(m, raw)).value;
    assert |CtxKinds(m.context)| == |Kinds(q.stack)|;
  }

  /** `done` after a whole JSON text records a checkpoint at the end of the
      buffer holding the decoded value, unless the reviver throws. */
  lemma {:induction false} DoneComplete(opts: Options, m: Machine, raw: string)
    requires Inv(opts, m, raw) && IsJsonText(raw) && !m.isDone
    ensures Done(m).isDone
    ensures || (Done(m).trunc.Some? && Done(m).trunc.value.index == |m.consumed|
                && Done(m).trunc.value.append == [] && Done(m).trunc.value.result.Some?)
            || ParseRevive(m.consumed) == Failure(TypeError)
  {
    CompleteText(opts, m, raw);
    assert m.consumed + m.closers == m.consumed;
    ParseReviveSyntax(m.consumed);
  }
}
