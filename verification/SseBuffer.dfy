/** The buffer that reassembles a server-sent event stream from network reads, cuts it at event
    boundaries and strips the internal provider-started markers. */
module SseBuffer {
  import opened Sums
  import opened Text

  const LF_BOUNDARY := "\n\n"
  const CRLF_BOUNDARY := "\r\n\r\n"

  const TOKEN_DASHED := "genfity-provider-started"
  const TOKEN_DOTTED := "genfity.provider_started"
  const OPENAI_HEAD := "data: {\"type\":\""
  const OPENAI_TAIL := "\",\"genfity_internal\":true}\n\n"
  const OPENAI_MARKER := OPENAI_HEAD + TOKEN_DOTTED + OPENAI_TAIL
  const CLAUDE_HEAD := "event: "
  const CLAUDE_PREFIX := CLAUDE_HEAD + TOKEN_DOTTED + "\n"
  const CLAUDE_MARKER := CLAUDE_PREFIX + OPENAI_MARKER
  const LEGACY_HEAD := ": "
  const LEGACY_MARKER := LEGACY_HEAD + TOKEN_DASHED + "\n\n"
  const WRAPPED_PREFIX := "data: "
  const WRAPPED_MARKER := WRAPPED_PREFIX + LEGACY_MARKER

  // ----- cutting -----

  /** Where the last complete event ends, or zero. */
  function CutPoint(s: string): (n: nat)
    ensures n <= |s|
    ensures n > 0 ==> EndsOnBoundary(s[..n])
    ensures n == 0 ==> !HasBoundary(s)
    ensures !HasBoundary(s[n..])
  {
    var lf := LastIndex(s, LF_BOUNDARY, |s|);
    var crlf := LastIndex(s, CRLF_BOUNDARY, |s|);
    if lf < 0 && crlf < 0 then
      NoBoundaryAfter(s, 0, lf, crlf);
      assert s[0..] == s;
      0
    else if lf > crlf then
      NoBoundaryAfter(s, lf + 2, lf, crlf);
      assert s[..lf + 2][lf..] == LF_BOUNDARY;
      lf + 2
    else
      NoBoundaryAfter(s, crlf + 4, lf, crlf);
      assert s[..crlf + 4][crlf..] == CRLF_BOUNDARY;
      crlf + 4
  }

  ghost predicate HasBoundary(s: string) { Contains(s, LF_BOUNDARY) || Contains(s, CRLF_BOUNDARY) }

  predicate EndsOnBoundary(s: string) {
    At(s, |s| - 2, LF_BOUNDARY) || At(s, |s| - 4, CRLF_BOUNDARY)
  }

  lemma NoBoundaryAfter(s: string, n: nat, lf: int, crlf: int)
    requires n <= |s| && lf < n && crlf < n
    requires forall i :: lf < i <= |s| ==> !At(s, i, LF_BOUNDARY)
    requires forall i :: crlf < i <= |s| ==> !At(s, i, CRLF_BOUNDARY)
    ensures !HasBoundary(s[n..])
  {
    forall i, b | b in {LF_BOUNDARY, CRLF_BOUNDARY} && At(s[n..], i, b) ensures false {
      assert s[n..][i..i + |b|] == s[n + i..n + i + |b|];
      assert At(s, n + i, b);
    }
  }

  // ----- the buffer as a value -----

  datatype Buffer = Buffer(pending: string, started: bool)

  predicate HasMarker(s: string) { Occurs(s, TOKEN_DASHED) || Occurs(s, TOKEN_DOTTED) }

  /** The piece a chunk releases: everything up to the last complete event. */
  function Piece(b: Buffer, chunk: string): string {
    if chunk == "" then "" else (b.pending + chunk)[..CutPoint(b.pending + chunk)]
  }

  function Appended(b: Buffer, chunk: string): Buffer {
    if chunk == "" then b
    else Buffer((b.pending + chunk)[CutPoint(b.pending + chunk)..], b.started || HasMarker(Piece(b, chunk)))
  }

  function Flushed(b: Buffer): Buffer { Buffer("", b.started || HasMarker(b.pending)) }

  function Concat(parts: seq<string>): string {
    if parts == [] then "" else parts[0] + Concat(parts[1..])
  }

  function Pieces(b: Buffer, chunks: seq<string>): seq<string>
    decreases |chunks|
  {
    if chunks == [] then [] else [Piece(b, chunks[0])] + Pieces(Appended(b, chunks[0]), chunks[1..])
  }

  function AppendedAll(b: Buffer, chunks: seq<string>): Buffer
    decreases |chunks|
  {
    if chunks == [] then b else AppendedAll(Appended(b, chunks[0]), chunks[1..])
  }

  lemma AppendFacts(b: Buffer, chunk: string)
    requires !HasBoundary(b.pending)
    ensures Piece(b, chunk) + Appended(b, chunk).pending == b.pending + chunk
    ensures Piece(b, chunk) == "" || EndsOnBoundary(Piece(b, chunk))
    ensures !HasBoundary(Appended(b, chunk).pending)
    ensures Piece(b, chunk) == "" ==> Appended(b, chunk).started == b.started
  {
    if chunk != "" && Piece(b, chunk) == "" {
      assert forall i :: !At("", i, TOKEN_DASHED) && !At("", i, TOKEN_DOTTED);
    }
  }

  /** However the stream is split, the released pieces followed by what is pending are the
      input, every piece ends an event, and no complete event is held back. */
  lemma {:induction false} EmissionIsLossless(b: Buffer, chunks: seq<string>)
    requires !HasBoundary(b.pending)
    ensures Concat(Pieces(b, chunks)) + AppendedAll(b, chunks).pending == b.pending + Concat(chunks)
    ensures forall p :: p in Pieces(b, chunks) ==> p == "" || EndsOnBoundary(p)
    ensures !HasBoundary(AppendedAll(b, chunks).pending)
    decreases |chunks|
  {
    if chunks != [] {
      AppendFacts(b, chunks[0]);
      EmissionIsLossless(Appended(b, chunks[0]), chunks[1..]);
      var p, rest := Piece(b, chunks[0]), Concat(Pieces(Appended(b, chunks[0]), chunks[1..]));
      var held := AppendedAll(Appended(b, chunks[0]), chunks[1..]).pending;
      ConcatStep(p, Pieces(Appended(b, chunks[0]), chunks[1..]));
      Regrouped(p, rest, held, Appended(b, chunks[0]).pending, Concat(chunks[1..]), b.pending, chunks[0]);
    }
  }

  lemma ConcatStep(p: string, parts: seq<string>)
    ensures Concat([p] + parts) == p + Concat(parts)
  {
    assert ([p] + parts)[1..] == parts;
  }

  lemma Regrouped(p: string, rest: string, held: string, next: string, later: string, pending: string, chunk: string)
    requires rest + held == next + later && p + next == pending + chunk
    ensures p + rest + held == pending + (chunk + later)
  {
    assert p + rest + held == p + (rest + held) == (p + next) + later;
  }

  ghost predicate Marked(s: string) { Contains(s, TOKEN_DASHED) || Contains(s, TOKEN_DOTTED) }

  lemma MarkedSplit(a: string, b: string)
    requires a == "" || EndsOnBoundary(a)
    ensures Marked(a + b) <==> Marked(a) || Marked(b)
  {
    if a != "" {
      if At(a, |a| - 2, LF_BOUNDARY) {
        assert a[|a| - 2..|a|][1] == '\n';
      } else {
        assert a[|a| - 4..|a|][3] == '\n';
      }
    }
    ContainsSplit(a, b, TOKEN_DASHED);
    ContainsSplit(a, b, TOKEN_DOTTED);
  }

  /** Whether the provider counts as started depends on the stream alone, not on its splits. */
  lemma {:induction false} StartedIsSplitIndependent(b: Buffer, chunks: seq<string>)
    requires !HasBoundary(b.pending)
    ensures Flushed(AppendedAll(b, chunks)).started <==> b.started || Marked(b.pending + Concat(chunks))
    decreases |chunks|
  {
    if chunks == [] {
      assert b.pending + Concat([]) == b.pending;
    } else {
      var b' := Appended(b, chunks[0]);
      AppendFacts(b, chunks[0]);
      StartedIsSplitIndependent(b', chunks[1..]);
      var p, later := Piece(b, chunks[0]), Concat(chunks[1..]);
      Reassociate(p, b'.pending, b.pending, chunks[0], later);
      MarkedSplit(p, b'.pending + later);
      StartedByPiece(b, chunks[0]);
    }
  }

  lemma Reassociate(p: string, held: string, pending: string, chunk: string, later: string)
    requires p + held == pending + chunk
    ensures p + (held + later) == pending + (chunk + later)
  {
    assert (p + held) + later == p + (held + later);
    assert (pending + chunk) + later == pending + (chunk + later);
  }

  lemma StartedByPiece(b: Buffer, chunk: string)
    requires !HasBoundary(b.pending)
    ensures Appended(b, chunk).started <==> b.started || Marked(Piece(b, chunk))
  {
    AppendFacts(b, chunk);
    EmptyIsUnmarked();
  }

  lemma EmptyIsUnmarked()
    ensures !Marked("")
  {
    assert forall i :: !At("", i, TOKEN_DASHED) && !At("", i, TOKEN_DOTTED);
  }

  // ----- when the cut does not depend on the split -----

  predicate BoundaryAt(s: string, i: int) { At(s, i, LF_BOUNDARY) || At(s, i, CRLF_BOUNDARY) }

  function BoundaryEnd(s: string, i: int): int { if At(s, i, LF_BOUNDARY) then i + 2 else i + 4 }

  /** Some boundary ends inside the last one. */
  ghost predicate LastOverlaps(s: string) {
    exists i, j :: BoundaryAt(s, i) && BoundaryAt(s, j) && BoundaryEnd(s, i) == CutPoint(s) && i < BoundaryEnd(s, j) < CutPoint(s)
  }

  lemma BoundaryChars(s: string, i: int)
    ensures At(s, i, LF_BOUNDARY) <==> 0 <= i && i + 2 <= |s| && s[i] == '\n' && s[i + 1] == '\n'
    ensures At(s, i, CRLF_BOUNDARY) <==>
            0 <= i && i + 4 <= |s| && s[i] == '\r' && s[i + 1] == '\n' && s[i + 2] == '\r' && s[i + 3] == '\n'
  {
    if 0 <= i && i + 2 <= |s| {
      assert s[i..i + 2] == [s[i], s[i + 1]];
    }
    if 0 <= i && i + 4 <= |s| {
      assert s[i..i + 4] == [s[i], s[i + 1], s[i + 2], s[i + 3]];
    }
  }

  /** A boundary is the last one exactly when it starts last; the cut is its end. */
  lemma CutIsLastEnd(s: string, i: int)
    requires BoundaryAt(s, i) && forall j :: BoundaryAt(s, j) ==> j <= i
    ensures CutPoint(s) == BoundaryEnd(s, i)
  {
    BoundaryChars(s, i);
    var lf, crlf := LastIndex(s, LF_BOUNDARY, |s|), LastIndex(s, CRLF_BOUNDARY, |s|);
    assert lf >= 0 ==> BoundaryAt(s, lf);
    assert crlf >= 0 ==> BoundaryAt(s, crlf);
  }

  lemma NoBoundaryAt(s: string)
    requires !HasBoundary(s)
    ensures forall k :: !BoundaryAt(s, k)
  {
  }

  lemma LastBoundary(s: string) returns (i: int)
    requires HasBoundary(s)
    ensures BoundaryAt(s, i) && CutPoint(s) == BoundaryEnd(s, i) && forall j :: BoundaryAt(s, j) ==> j <= i
  {
    i := Max(LastIndex(s, LF_BOUNDARY, |s|), LastIndex(s, CRLF_BOUNDARY, |s|));
    CutIsLastEnd(s, i);
  }

  /** Boundaries that start earlier do not end later, and equal ends have equal starts. */
  lemma EndsAreOrdered(s: string, i: int, j: int)
    requires BoundaryAt(s, i) && BoundaryAt(s, j) && j < i
    ensures BoundaryEnd(s, j) < BoundaryEnd(s, i)
  {
    BoundaryChars(s, i);
    BoundaryChars(s, j);
  }

  lemma PrefixBoundary(a: string, b: string, i: int)
    requires BoundaryAt(a, i)
    ensures BoundaryAt(a + b, i) && BoundaryEnd(a + b, i) == BoundaryEnd(a, i)
  {
    BoundaryChars(a, i);
    BoundaryChars(a + b, i);
  }

  lemma SuffixBoundary(a: string, b: string, i: int)
    requires i >= |a|
    ensures BoundaryAt(a + b, i) <==> BoundaryAt(b, i - |a|)
  {
    BoundaryChars(a + b, i);
    BoundaryChars(b, i - |a|);
    assert forall k :: |a| <= k < |a + b| ==> (a + b)[k] == b[k - |a|];
  }

  lemma BoundaryOfEnd(s: string) returns (j: int)
    requires EndsOnBoundary(s)
    ensures BoundaryAt(s, j) && BoundaryEnd(s, j) == |s|
  {
    j := if At(s, |s| - 2, LF_BOUNDARY) then |s| - 2 else |s| - 4;
    BoundaryChars(s, |s| - 2);
    BoundaryChars(s, |s| - 4);
  }

  lemma {:induction false} ConcatEndsOnBoundary(parts: seq<string>)
    requires forall p :: p in parts ==> p == "" || EndsOnBoundary(p)
    ensures Concat(parts) == "" || EndsOnBoundary(Concat(parts))
  {
    if parts != [] {
      var p, rest := parts[0], Concat(parts[1..]);
      ConcatEndsOnBoundary(parts[1..]);
      if rest == "" {
        assert p + rest == p;
      } else {
        AtInSuffix(p, rest, if At(rest, |rest| - 2, LF_BOUNDARY) then |rest| - 2 else |rest| - 4,
                   if At(rest, |rest| - 2, LF_BOUNDARY) then LF_BOUNDARY else CRLF_BOUNDARY);
      }
    }
  }

  /** What is released of a stream is its part up to the cut, if no boundary ends inside the last. */
  lemma ReleasedIsCut(done: string, held: string)
    requires done == "" || EndsOnBoundary(done)
    requires !HasBoundary(held) && !LastOverlaps(done + held)
    ensures CutPoint(done + held) == |done|
  {
    var s := done + held;
    if HasBoundary(s) {
      var i := LastBoundary(s);
      if i >= |done| {
        NoBoundaryAt(held);
        SuffixBoundary(done, held, i);
      } else {
        var j := BoundaryOfEnd(done);
        PrefixBoundary(done, held, j);
        if j < i {
          EndsAreOrdered(s, i, j);
        }
      }
    } else if done != "" {
      var j := BoundaryOfEnd(done);
      PrefixBoundary(done, held, j);
    }
  }

  lemma TwoChunks(a: string, b: string)
    ensures Concat([a, b]) == a + b
    ensures AppendedAll(Buffer("", false), [a, b]) == Appended(Appended(Buffer("", false), a), b)
  {
    var first := Appended(Buffer("", false), a);
    assert [a, b][1..] == [b] && [b][1..] == [];
    assert Concat([b]) == b + Concat([]) == b;
    assert AppendedAll(first, [b]) == AppendedAll(Appended(first, b), []);
  }

  /** Cutting a stream where an earlier boundary ends inside its last one loses the last one. */
  lemma OverlapMovesCut(s: string, i: int, j: int)
    requires BoundaryAt(s, i) && BoundaryAt(s, j) && BoundaryEnd(s, i) == CutPoint(s) && i < BoundaryEnd(s, j) < CutPoint(s)
    ensures var q := BoundaryEnd(s, j);
      Concat([s[..q], s[q..]]) == s
      && AppendedAll(Buffer("", false), [s[..q], s[q..]]).pending != s[CutPoint(s)..]
  {
    var q := BoundaryEnd(s, j);
    var a, b := s[..q], s[q..];
    assert s == a + b;
    CutAtEarlierEnd(s, j);
    NothingAfter(s, i, q);
    TwoChunks(a, b);
    assert "" + a == a && a[q..] == "" && "" + b == b;
    assert CutPoint(b) == 0;
  }

  /** The text up to the end of a boundary is cut there. */
  lemma CutAtEarlierEnd(s: string, j: int)
    requires BoundaryAt(s, j)
    ensures BoundaryEnd(s, j) <= |s| && CutPoint(s[..BoundaryEnd(s, j)]) == BoundaryEnd(s, j)
  {
    BoundaryChars(s, j);
    var q := BoundaryEnd(s, j);
    var a, b := s[..q], s[q..];
    assert s == a + b;
    BoundaryChars(a, j);
    forall k | BoundaryAt(a, k) ensures k <= j {
      BoundaryChars(a, k);
      if k > j {
        PrefixBoundary(a, b, k);
        EndsAreOrdered(s, k, j);
      }
    }
    CutIsLastEnd(a, j);
  }

  /** After the start of the last boundary there is none. */
  lemma NothingAfter(s: string, i: int, q: int)
    requires BoundaryAt(s, i) && BoundaryEnd(s, i) == CutPoint(s) && i < q <= |s|
    ensures CutPoint(s[q..]) == 0
  {
    var a, b := s[..q], s[q..];
    assert s == a + b;
    var last := LastBoundary(s);
    if last != i {
      EndsAreOrdered(s, last, i);
    }
    forall k ensures !BoundaryAt(b, k) {
      if BoundaryAt(b, k) {
        SuffixBoundary(a, b, q + k);
      }
    }
    assert forall k :: !At(b, k, LF_BOUNDARY) && !At(b, k, CRLF_BOUNDARY) by {
      forall k ensures !At(b, k, LF_BOUNDARY) && !At(b, k, CRLF_BOUNDARY) {
        assert !BoundaryAt(b, k);
      }
    }
  }

  /** What is pending in the end is what follows the cut of the whole stream, however the stream is
      split, if and only if no boundary ends inside its last one. */
  lemma CutIsSplitIndependentIff(s: string)
    ensures (forall chunks :: Concat(chunks) == s ==> AppendedAll(Buffer("", false), chunks).pending == s[CutPoint(s)..])
            <==> !LastOverlaps(s)
  {
    if i, j :| BoundaryAt(s, i) && BoundaryAt(s, j) && BoundaryEnd(s, i) == CutPoint(s) && i < BoundaryEnd(s, j) < CutPoint(s) {
      OverlapMovesCut(s, i, j);
    } else {
      forall chunks | Concat(chunks) == s ensures AppendedAll(Buffer("", false), chunks).pending == s[CutPoint(s)..] {
        var b := Buffer("", false);
        assert forall k :: !At("", k, LF_BOUNDARY) && !At("", k, CRLF_BOUNDARY);
        EmissionIsLossless(b, chunks);
        ConcatEndsOnBoundary(Pieces(b, chunks));
        var done, held := Concat(Pieces(b, chunks)), AppendedAll(b, chunks).pending;
        assert done + held == s by {
          assert "" + s == s;
        }
        ReleasedIsCut(done, held);
      }
    }
  }

  /** Where the cut falls is not split independent: a run of three line breaks is released whole
      when it arrives at once, and leaves one pending when it does not. */
  lemma CutDependsOnSplit()
    ensures AppendedAll(Buffer("", false), ["\n\n\n"]).pending == ""
    ensures AppendedAll(Buffer("", false), ["\n\n", "\n"]).pending == "\n"
  {
    var b := Buffer("", false);
    assert "" + "\n\n\n" == "\n\n\n" && "" + "\n\n" == "\n\n" && "" + "\n" == "\n";
    assert At("\n\n\n", 1, LF_BOUNDARY);
    assert CutPoint("\n\n\n") == 3;
    assert At("\n\n", 0, LF_BOUNDARY);
    assert CutPoint("\n\n") == 2;
    assert CutPoint("\n") == 0;
    assert Appended(b, "\n\n").pending == "";
    assert ["\n\n", "\n"][1..] == ["\n"] && ["\n"][1..] == [] && ["\n\n\n"][1..] == [];
    assert AppendedAll(Appended(b, "\n\n"), ["\n"]).pending == "\n";
  }

  // ----- the markers -----

  function Stripped(s: string): string {
    if !HasMarker(s) then s
    else Remove(Remove(Remove(Remove(s, OPENAI_MARKER), CLAUDE_MARKER), LEGACY_MARKER), WRAPPED_MARKER)
  }

  class SseRewriteBuffer {
    var pending: string
    var providerStarted: bool

    ghost function State(): Buffer
      reads this
    {
      Buffer(pending, providerStarted)
    }

    constructor ()
      ensures State() == Buffer("", false)
    {
      pending, providerStarted := "", false;
    }

    method StripProviderStartedMarker(chunk: string) returns (out: string)
      modifies this`providerStarted
      ensures out == Stripped(chunk)
      ensures providerStarted == (old(providerStarted) || HasMarker(chunk))
    {
      out := chunk;
      if !HasMarker(chunk) {
        return;
      }
      providerStarted := true;
      out := Remove(out, OPENAI_MARKER);
      out := Remove(out, CLAUDE_MARKER);
      out := Remove(out, LEGACY_MARKER);
      out := Remove(out, WRAPPED_MARKER);
    }

    /** `rewrite` stands for the sanitizing of complete events. */
    method Append(chunk: string, rewrite: string -> string) returns (out: string)
      modifies this
      ensures State() == Appended(old(State()), chunk)
      ensures out == if Piece(old(State()), chunk) == "" then "" else rewrite(Stripped(Piece(old(State()), chunk)))
    {
      if chunk == "" {
        return "";
      }
      pending := pending + chunk;
      var n := CutPoint(pending);
      if n == 0 {
        assert forall i :: !At("", i, TOKEN_DASHED) && !At("", i, TOKEN_DOTTED);
        return "";
      }
      var complete := pending[..n];
      pending := pending[n..];
      complete := StripProviderStartedMarker(complete);
      return rewrite(complete);
    }

    method Flush(rewrite: string -> string) returns (out: string)
      modifies this
      ensures State() == Flushed(old(State()))
      ensures out == if old(pending) == "" then "" else rewrite(Stripped(old(pending)))
    {
      if pending == "" {
        assert forall i :: !At("", i, TOKEN_DASHED) && !At("", i, TOKEN_DOTTED);
        return "";
      }
      var rest := StripProviderStartedMarker(pending);
      pending := "";
      return rewrite(rest);
    }
  }
}
