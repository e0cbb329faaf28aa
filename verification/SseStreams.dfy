/** Streams in which provider-started markers stand among other lines, anywhere and any number of
    times, and what stripping leaves of them however the stream is split. */
module SseStreams {
  import opened Text
  import opened SseBuffer
  import opened SseMarkers

  /** A part of a stream: lines without a token, or one of the two markers that are removed exactly. */
  datatype Segment = Lines(text: string) | OpenAi | Legacy

  function Shown(g: Segment): string {
    match g case Lines(text) => text case OpenAi => OPENAI_MARKER case Legacy => LEGACY_MARKER
  }

  function Join(gs: seq<Segment>): string { if gs == [] then "" else Shown(gs[0]) + Join(gs[1..]) }

  /** The lines alone. */
  function Kept(gs: seq<Segment>): string {
    if gs == [] then "" else (if gs[0].Lines? then gs[0].text else "") + Kept(gs[1..])
  }

  ghost predicate Plain(s: string) { (s == "" || s[|s| - 1] == '\n') && !Marked(s) }

  ghost predicate Fine(gs: seq<Segment>) { forall g :: g in gs && g.Lines? ==> Plain(g.text) }

  // ----- where a token can be -----

  /** The token of a marker, and where it stands in it. */
  predicate TokenOf(g: Segment, token: string, k: nat) {
    (g == OpenAi && token == TOKEN_DOTTED && k == 15) || (g == Legacy && token == TOKEN_DASHED && k == 2)
  }

  lemma MarkerShape(g: Segment)
    requires !g.Lines?
    ensures var m := Shown(g);
      |m| >= 3 && m[|m| - 1] == m[|m| - 2] == '\n' && m[|m| - 3] != '\n' && m[|m| - 3] != '\r'
      && forall j :: 0 <= j < |m| - 2 ==> m[j] != '\n'
  {
    if g == OpenAi {
      assert '\n' !in OPENAI_HEAD && '\n' !in TOKEN_DOTTED && |OPENAI_TAIL| == 28;
      assert forall k :: 0 <= k < 26 ==> OPENAI_TAIL[k] != '\n';
      assert forall j :: 0 <= j < 65 ==>
        OPENAI_MARKER[j] == if j < 15 then OPENAI_HEAD[j] else if j < 39 then TOKEN_DOTTED[j - 15] else OPENAI_TAIL[j - 39];
    } else {
      assert '\n' !in TOKEN_DASHED;
      assert forall j :: 0 <= j < 26 ==> LEGACY_MARKER[j] == if j < 2 then LEGACY_HEAD[j] else TOKEN_DASHED[j - 2];
    }
  }

  lemma MarkerHasToken(g: Segment, token: string, k: nat)
    requires TokenOf(g, token, k)
    ensures At(Shown(g), k, token) && Token(token)
  {
    OpenAiHasToken();
    LegacyHasToken();
  }

  /** A marker holds its token once, and not the other. */
  lemma TokenInMarker(g: Segment, q: int, token: string)
    requires !g.Lines? && Token(token) && At(Shown(g), q, token)
    ensures q >= 0 && TokenOf(g, token, q)
  {
    if g == OpenAi {
      TokenInOpenAi(q, token);
    } else {
      TokenInLegacy(q, token);
    }
  }

  lemma TokenDots(token: string)
    requires Token(token)
    ensures |token| == 24 && token[7] == if token == TOKEN_DOTTED then '.' else '-'
  {
  }

  lemma OpenAiDots(j: nat)
    requires j < 67
    ensures |OPENAI_MARKER| == 67 && OPENAI_MARKER[j] != '-' && (OPENAI_MARKER[j] == '.' ==> j == 22)
  {
    assert |OPENAI_HEAD| == 15 && |TOKEN_DOTTED| == 24 && |OPENAI_TAIL| == 28;
    if j < 15 {
      assert '.' !in OPENAI_HEAD && '-' !in OPENAI_HEAD;
      assert OPENAI_MARKER[j] == OPENAI_HEAD[j];
    } else if j < 39 {
      assert OPENAI_MARKER[j] == TOKEN_DOTTED[j - 15];
      DottedDots(j - 15);
    } else {
      assert '.' !in OPENAI_TAIL && '-' !in OPENAI_TAIL;
      assert OPENAI_MARKER[j] == OPENAI_TAIL[j - 39];
    }
  }

  lemma DottedDots(j: nat)
    requires j < 24
    ensures TOKEN_DOTTED[j] != '-' && (TOKEN_DOTTED[j] == '.' ==> j == 7)
  {
    assert '-' !in TOKEN_DOTTED;
    assert forall i :: 0 <= i < 24 && i != 7 ==> TOKEN_DOTTED[i] != '.';
  }

  lemma TokenInOpenAi(q: int, token: string)
    requires Token(token) && At(OPENAI_MARKER, q, token)
    ensures q == 15 && token == TOKEN_DOTTED
  {
    TokenDots(token);
    OpenAiDots(0);
    OpenAiDots(q + 7);
    CharAt(OPENAI_MARKER, q, token, 7);
  }

  lemma DashedGs(j: nat)
    requires j < 24
    ensures TOKEN_DASHED[j] != '.' && (TOKEN_DASHED[j] == 'g' ==> j == 0)
  {
    assert '.' !in TOKEN_DASHED;
    assert TOKEN_DASHED == ['g'] + "enfity-provider-started" && 'g' !in "enfity-provider-started";
  }

  lemma LegacyGs(j: nat)
    requires j < 28
    ensures |LEGACY_MARKER| == 28 && LEGACY_MARKER[j] != '.' && (LEGACY_MARKER[j] == 'g' ==> j == 2)
  {
    assert |LEGACY_HEAD| == 2 && |TOKEN_DASHED| == 24;
    if j < 2 {
      assert '.' !in LEGACY_HEAD && 'g' !in LEGACY_HEAD;
      assert LEGACY_MARKER[j] == LEGACY_HEAD[j];
    } else if j < 26 {
      assert LEGACY_MARKER[j] == TOKEN_DASHED[j - 2];
      DashedGs(j - 2);
    } else {
      assert LEGACY_MARKER[j] == "\n\n"[j - 26];
    }
  }

  lemma TokenInLegacy(q: int, token: string)
    requires Token(token) && At(LEGACY_MARKER, q, token)
    ensures q == 2 && token == TOKEN_DASHED
  {
    TokenDots(token);
    TokenFacts(token);
    LegacyGs(0);
    LegacyGs(q);
    LegacyGs(q + 7);
    CharAt(LEGACY_MARKER, q, token, 0);
    CharAt(LEGACY_MARKER, q, token, 7);
  }

  lemma ShownEndsLine(g: Segment)
    requires g.Lines? ==> Plain(g.text)
    ensures Shown(g) == "" || Shown(g)[|Shown(g)| - 1] == '\n'
  {
    if !g.Lines? {
      MarkerShape(g);
    }
  }

  /** A token is in the first part or in the rest. */
  lemma TokenInOne(g: Segment, rest: string, q: int, token: string)
    requires (g.Lines? ==> Plain(g.text)) && Token(token) && At(Shown(g) + rest, q, token)
    ensures At(rest, q - |Shown(g)|, token) || (!g.Lines? && q >= 0 && TokenOf(g, token, q))
  {
    TokenFacts(token);
    ShownEndsLine(g);
    AtInEither(Shown(g), rest, q, token);
    if q < |Shown(g)| < q + |token| {
      Straddles(Shown(g), rest, token, q);
    }
    assert g.Lines? ==> !Contains(g.text, token);
    if !g.Lines? && At(Shown(g), q, token) {
      TokenInMarker(g, q, token);
    }
  }

  /** No token comes earlier than its own marker has it. */
  lemma {:induction false} TokenIsLate(gs: seq<Segment>, m: Segment, q: int, token: string, k: nat)
    requires Fine(gs) && TokenOf(m, token, k) && At(Join(gs), q, token)
    ensures q >= k
  {
    if gs != [] {
      assert gs[0] in gs;
      TokenInOne(gs[0], Join(gs[1..]), q, token);
      if At(Join(gs[1..]), q - |Shown(gs[0])|, token) {
        TokenIsLate(gs[1..], m, q - |Shown(gs[0])|, token, k);
      }
    }
  }

  lemma {:induction false} NoTokenLeft(gs: seq<Segment>, m: Segment, token: string, k: nat)
    requires Fine(gs) && TokenOf(m, token, k) && m !in gs
    ensures !Contains(Join(gs), token)
  {
    if gs != [] {
      assert gs[0] in gs;
      NoTokenLeft(gs[1..], m, token, k);
      forall q ensures !At(Join(gs), q, token) {
        if At(Join(gs), q, token) {
          TokenInOne(gs[0], Join(gs[1..]), q, token);
        }
      }
    }
  }

  // ----- removing one kind of marker -----

  function Without(gs: seq<Segment>, m: Segment): (r: seq<Segment>)
    ensures forall g :: g in r <==> g in gs && g != m
  {
    if gs == [] then [] else (if gs[0] == m then [] else [gs[0]]) + Without(gs[1..], m)
  }

  lemma {:induction false} RemoveSkips(a: string, b: string, marker: string)
    requires marker != "" && forall i :: 0 <= i < |a| ==> !At(a + b, i, marker)
    ensures Remove(a + b, marker) == a + Remove(b, marker)
    decreases |a|
  {
    if a == "" {
      assert a + b == b;
    } else {
      assert (a + b)[1..] == a[1..] + b;
      assert [a[0]] + (a[1..] + b) == a + b;
      forall i | 0 <= i < |a| - 1 ensures !At(a[1..] + b, i, marker) {
        assert !At(a + b, i + 1, marker);
        if At(a[1..] + b, i, marker) {
          AtInSuffix([a[0]], a[1..] + b, i, marker);
        }
      }
      RemoveSkips(a[1..], b, marker);
    }
  }

  lemma RemovesHead(marker: string, b: string)
    requires marker != ""
    ensures Remove(marker + b, marker) == Remove(b, marker)
  {
    assert (marker + b)[0..|marker|] == marker && (marker + b)[|marker|..] == b;
  }

  lemma NoMarkerInside(g: Segment, rest: seq<Segment>, m: Segment, token: string, k: nat, i: int)
    requires (g.Lines? ==> Plain(g.text)) && Fine(rest) && TokenOf(m, token, k) && g != m && 0 <= i < |Shown(g)|
    ensures !At(Shown(g) + Join(rest), i, Shown(m))
  {
    MarkerHasToken(m, token, k);
    if At(Shown(g) + Join(rest), i, Shown(m)) {
      Inside(Shown(g) + Join(rest), i, Shown(m), k, token);
      TokenInOne(g, Join(rest), i + k, token);
      TokenIsLate(rest, m, i + k - |Shown(g)|, token, k);
    }
  }

  lemma {:induction false} RemovesMarker(gs: seq<Segment>, m: Segment, token: string, k: nat)
    requires Fine(gs) && TokenOf(m, token, k)
    ensures Remove(Join(gs), Shown(m)) == Join(Without(gs, m))
    decreases |gs|
  {
    if gs != [] {
      var g, rest := gs[0], gs[1..];
      assert gs == [g] + rest && g in gs;
      RemovesMarker(rest, m, token, k);
      if g == m {
        RemovesHead(Shown(m), Join(rest));
        assert Without(gs, m) == Without(rest, m);
      } else {
        forall i | 0 <= i < |Shown(g)| ensures !At(Shown(g) + Join(rest), i, Shown(m)) {
          NoMarkerInside(g, rest, m, token, k, i);
        }
        RemoveSkips(Shown(g), Join(rest), Shown(m));
        assert ([g] + Without(rest, m))[1..] == Without(rest, m);
      }
    }
  }

  lemma WithoutStep(g: Segment, rest: seq<Segment>, m: Segment)
    ensures Without([g] + rest, m) == (if g == m then [] else [g]) + Without(rest, m)
  {
    assert ([g] + rest)[1..] == rest;
  }

  lemma JoinStep(g: Segment, rest: seq<Segment>)
    ensures Join([g] + rest) == Shown(g) + Join(rest)
  {
    assert ([g] + rest)[1..] == rest;
  }

  lemma {:induction false} OnlyLines(gs: seq<Segment>)
    ensures Join(Without(Without(gs, OpenAi), Legacy)) == Kept(gs)
  {
    if gs != [] {
      var g, rest := gs[0], gs[1..];
      assert gs == [g] + rest;
      OnlyLines(rest);
      WithoutStep(g, rest, OpenAi);
      KeptStep(g, rest);
      assert [] + Without(rest, OpenAi) == Without(rest, OpenAi) && "" + Kept(rest) == Kept(rest);
      if g != OpenAi {
        WithoutStep(g, Without(rest, OpenAi), Legacy);
        assert [] + Without(Without(rest, OpenAi), Legacy) == Without(Without(rest, OpenAi), Legacy);
        if g != Legacy {
          JoinStep(g, Without(Without(rest, OpenAi), Legacy));
        }
      }
    }
  }

  /** Stripping a stream leaves exactly its lines. */
  lemma StripsEveryMarker(gs: seq<Segment>)
    requires Fine(gs)
    ensures Stripped(Join(gs)) == Kept(gs)
  {
    var without := Without(gs, OpenAi);
    var lines := Without(without, Legacy);
    RemovesMarker(gs, OpenAi, TOKEN_DOTTED, 15);
    NoTokenLeft(without, OpenAi, TOKEN_DOTTED, 15);
    DottedMarkersAbsent(Join(without));
    RemoveAbsent(Join(without), CLAUDE_MARKER);
    RemovesMarker(without, Legacy, TOKEN_DASHED, 2);
    NoTokenLeft(lines, Legacy, TOKEN_DASHED, 2);
    DashedMarkersAbsent(Join(lines));
    RemoveAbsent(Join(lines), WRAPPED_MARKER);
    OnlyLines(gs);
    if !HasMarker(Join(gs)) {
      DottedMarkersAbsent(Join(gs));
      RemoveAbsent(Join(gs), OPENAI_MARKER);
      DashedMarkersAbsent(Join(gs));
      RemoveAbsent(Join(gs), LEGACY_MARKER);
    }
  }

  // ----- any split -----

  lemma {:induction false} KeptConcat(a: seq<Segment>, b: seq<Segment>)
    ensures Kept(a + b) == Kept(a) + Kept(b)
  {
    if a == [] {
      assert a + b == b;
    } else {
      assert (a + b)[1..] == a[1..] + b;
      KeptConcat(a[1..], b);
    }
  }

  lemma PlainParts(a: string, b: string)
    requires Plain(a + b) && a != "" && a[|a| - 1] == '\n'
    ensures Plain(a) && Plain(b)
  {
    forall t, i | Token(t) ensures !At(a, i, t) && !At(b, i, t) {
      assert !Contains(a + b, t);
      if At(a, i, t) {
        AtInPrefix(a, b, i, t);
      }
      if At(b, i, t) {
        AtInSuffix(a, b, i, t);
      }
    }
    assert Token(TOKEN_DASHED) && Token(TOKEN_DOTTED);
    assert b != "" ==> b[|b| - 1] == (a + b)[|a + b| - 1];
  }

  lemma BoundaryChars2(s: string)
    requires EndsOnBoundary(s)
    ensures |s| >= 2 && s[|s| - 1] == '\n' && s[|s| - 2] in {'\n', '\r'}
  {
    BoundaryChars(s, |s| - 2);
    BoundaryChars(s, |s| - 4);
  }

  lemma BoundaryEndsLine(before: string, p: string)
    requires p != "" && EndsOnBoundary(before + p)
    ensures p[|p| - 1] == '\n' && (|p| > 1 ==> p[|p| - 2] in {'\n', '\r'})
  {
    BoundaryChars2(before + p);
    assert (before + p)[|before + p| - 1] == p[|p| - 1];
    assert |p| > 1 ==> (before + p)[|before + p| - 2] == p[|p| - 2];
  }

  /** No boundary ends inside a marker. */
  lemma MarkerIsWhole(g: Segment, before: string, n: nat)
    requires !g.Lines? && 0 < n < |Shown(g)|
    ensures !EndsOnBoundary(before + Shown(g)[..n])
  {
    MarkerShape(g);
    if EndsOnBoundary(before + Shown(g)[..n]) {
      BoundaryEndsLine(before, Shown(g)[..n]);
    }
  }

  lemma CutIsInLines(before: string, g: Segment, p: string, r: string)
    requires Shown(g) == p + r && r != "" && p != "" && EndsOnBoundary(before + p)
    ensures g.Lines?
  {
    assert p == Shown(g)[..|p|];
    if !g.Lines? {
      MarkerIsWhole(g, before, |p|);
    }
  }

  lemma CutFirst(before: string, g: Segment, rest: seq<Segment>, p: string, r: string)
    returns (left: seq<Segment>, right: seq<Segment>)
    requires Fine([g] + rest) && Shown(g) == p + r && r != "" && p != "" && EndsOnBoundary(before + p)
    ensures Fine(left) && Fine(right) && Join(left) == p && Join(right) == r + Join(rest)
    ensures Kept(left) + Kept(right) == Kept([g] + rest)
  {
    CutIsInLines(before, g, p, r);
    BoundaryEndsLine(before, p);
    left, right := [Lines(p)], [Lines(r)] + rest;
    FineParts(g, rest, p, r);
    CutKeeps(g, rest, p, r);
  }

  lemma FineParts(g: Segment, rest: seq<Segment>, p: string, r: string)
    requires Fine([g] + rest) && g == Lines(p + r) && p != "" && p[|p| - 1] == '\n'
    ensures Fine([Lines(p)]) && Fine([Lines(r)] + rest)
  {
    assert g in [g] + rest && forall x :: x in rest ==> x in [g] + rest;
    PlainParts(p, r);
  }

  lemma CutKeeps(g: Segment, rest: seq<Segment>, p: string, r: string)
    requires g == Lines(p + r)
    ensures Join([Lines(p)]) == p && Join([Lines(r)] + rest) == r + Join(rest)
    ensures Kept([Lines(p)]) + Kept([Lines(r)] + rest) == Kept([g] + rest)
  {
    JoinStep(Lines(p), []);
    JoinStep(Lines(r), rest);
    KeptStep(Lines(p), []);
    KeptStep(Lines(r), rest);
    KeptStep(g, rest);
    assert [Lines(p)] + [] == [Lines(p)];
    ThreeParts(p, r, Kept(rest));
  }

  lemma KeptStep(g: Segment, rest: seq<Segment>)
    ensures Kept([g] + rest) == (if g.Lines? then g.text else "") + Kept(rest)
  {
    assert ([g] + rest)[1..] == rest;
  }

  lemma Cancel(x: string, y: string, p: string, r: string)
    requires x + y == p + r
    ensures |x| <= |p| ==> p == x + p[|x|..] && y == p[|x|..] + r
    ensures |x| > |p| ==> x == p + x[|p|..] && r == x[|p|..] + y
  {
    assert x == (p + r)[..|x|] && y == (p + r)[|x|..];
    assert p == (x + y)[..|p|] && r == (x + y)[|p|..];
  }

  /** A stream cut at a boundary is two streams. */
  lemma {:induction false} CutSegments(before: string, gs: seq<Segment>, p: string, r: string)
    returns (left: seq<Segment>, right: seq<Segment>)
    requires Fine(gs) && Join(gs) == p + r && (p == "" || EndsOnBoundary(before + p))
    ensures Fine(left) && Fine(right) && Join(left) == p && Join(right) == r && Kept(left) + Kept(right) == Kept(gs)
    decreases |gs|
  {
    left, right := [], gs;
    if p != "" {
      var g, rest, x := gs[0], gs[1..], Shown(gs[0]);
      assert g in gs && gs == [g] + rest;
      Cancel(x, Join(rest), p, r);
      if |x| <= |p| {
        var tail := p[|x|..];
        assert before + (x + tail) == (before + x) + tail;
        left, right := CutSegments(before + x, rest, tail, r);
        JoinStep(g, left);
        KeptStep(g, left);
        left := [g] + left;
      } else {
        left, right := CutFirst(before, g, rest, p, x[|p|..]);
      }
    }
  }

  function StripEach(parts: seq<string>): string { if parts == [] then "" else Stripped(parts[0]) + StripEach(parts[1..]) }

  /** One chunk releases a part of the stream. */
  lemma StripOne(b: Buffer, gs: seq<Segment>, chunk: string, rest: string) returns (right: seq<Segment>)
    requires !HasBoundary(b.pending) && Fine(gs) && Join(gs) == b.pending + (chunk + rest)
    ensures Fine(right) && Join(right) == Appended(b, chunk).pending + rest
    ensures Kept(gs) == Stripped(Piece(b, chunk)) + Kept(right)
  {
    var p, next := Piece(b, chunk), Appended(b, chunk).pending;
    AppendFacts(b, chunk);
    Reassembled(b.pending, chunk, p, next, rest);
    var left;
    left, right := CutSegments("", gs, p, next + rest);
    StripsEveryMarker(left);
  }

  /** However such a stream is split into chunks, the released pieces and the pending rest, each
      stripped by itself, make up exactly its lines. */
  lemma {:induction false} StrippingIsSplitIndependent(b: Buffer, gs: seq<Segment>, chunks: seq<string>)
    requires !HasBoundary(b.pending) && Fine(gs) && Join(gs) == b.pending + Concat(chunks)
    ensures StripEach(Pieces(b, chunks)) + Stripped(AppendedAll(b, chunks).pending) == Kept(gs)
    decreases |chunks|
  {
    if chunks == [] {
      assert b.pending + "" == b.pending;
      StripsEveryMarker(gs);
    } else {
      var next := Appended(b, chunks[0]);
      AppendFacts(b, chunks[0]);
      var right := StripOne(b, gs, chunks[0], Concat(chunks[1..]));
      StrippingIsSplitIndependent(next, right, chunks[1..]);
      StripStep(Piece(b, chunks[0]), Pieces(next, chunks[1..]));
      ThreeParts(Stripped(Piece(b, chunks[0])), StripEach(Pieces(next, chunks[1..])), Stripped(AppendedAll(next, chunks[1..]).pending));
    }
  }

  lemma ThreeParts(a: string, b: string, c: string)
    ensures (a + b) + c == a + (b + c)
  {
  }

  lemma StripStep(p: string, parts: seq<string>)
    ensures StripEach([p] + parts) == Stripped(p) + StripEach(parts)
  {
    assert ([p] + parts)[1..] == parts;
  }

  lemma Reassembled(held: string, chunk: string, p: string, next: string, rest: string)
    requires p + next == held + chunk
    ensures held + (chunk + rest) == p + (next + rest) && "" + p == p
  {
    assert held + (chunk + rest) == (held + chunk) + rest;
  }
}
