/** What stripping leaves of each provider-started marker that stands between clean events. */
module SseMarkers {
  import opened Text
  import opened SseBuffer

  // ----- positions -----

  lemma Middle(head: string, sub: string, tail: string)
    ensures At(head + sub + tail, |head|, sub)
  {
    assert (head + sub + tail)[|head|..|head| + |sub|] == sub;
  }

  lemma Inside(s: string, i: int, marker: string, k: int, token: string)
    requires At(s, i, marker) && At(marker, k, token)
    ensures At(s, i + k, token)
  {
    var n := |token|;
    assert forall j :: 0 <= j < n ==> s[i + k..i + k + n][j] == s[i + k + j] == marker[k + j] == token[j];
  }

  lemma Suffix(a: string, b: string, i: int, token: string)
    requires At(a + b, i, token) && i >= |a|
    ensures At(b, i - |a|, token)
  {
    assert b[i - |a|..i - |a| + |token|] == (a + b)[i..i + |token|];
  }

  lemma CharAt(s: string, i: int, token: string, k: nat)
    requires At(s, i, token) && k < |token|
    ensures s[i + k] == token[k]
  {
    assert s[i..i + |token|][k] == s[i + k];
  }

  /** A marker that contains a token is absent where the token is. */
  lemma NoTokenNoMarker(s: string, marker: string, k: int, token: string)
    requires At(marker, k, token) && !Contains(s, token)
    ensures !Contains(s, marker)
  {
    forall i | At(s, i, marker) ensures At(s, i + k, token) {
      Inside(s, i, marker, k, token);
    }
  }

  lemma LacksChar(s: string, token: string, k: nat)
    requires k < |token| && token[k] !in s
    ensures !Contains(s, token)
  {
    forall i ensures !At(s, i, token) {
      if At(s, i, token) {
        CharAt(s, i, token, k);
      }
    }
  }

  // ----- the literals -----

  predicate Token(t: string) { t in {TOKEN_DASHED, TOKEN_DOTTED} }

  lemma TokenFacts(t: string)
    requires Token(t)
    ensures |t| == 24 && t[0] == 'g' && '\n' !in t
  {
  }

  lemma OpenAiHasToken()
    ensures At(OPENAI_MARKER, 15, TOKEN_DOTTED)
  {
    Middle(OPENAI_HEAD, TOKEN_DOTTED, OPENAI_TAIL);
  }

  lemma LegacyHasToken()
    ensures At(LEGACY_MARKER, 2, TOKEN_DASHED)
  {
    Middle(LEGACY_HEAD, TOKEN_DASHED, "\n\n");
  }

  lemma ClaudePrefixHasToken()
    ensures At(CLAUDE_PREFIX, 7, TOKEN_DOTTED) && |CLAUDE_PREFIX| == 32
  {
    Middle(CLAUDE_HEAD, TOKEN_DOTTED, "\n");
  }

  lemma ClaudeHasTokens()
    ensures At(CLAUDE_MARKER, 7, TOKEN_DOTTED) && At(CLAUDE_MARKER, 47, TOKEN_DOTTED)
  {
    ClaudePrefixHasToken();
    OpenAiHasToken();
    Middle("", CLAUDE_PREFIX, OPENAI_MARKER);
    assert "" + CLAUDE_PREFIX + OPENAI_MARKER == CLAUDE_MARKER;
    Inside(CLAUDE_MARKER, 0, CLAUDE_PREFIX, 7, TOKEN_DOTTED);
    Middle(CLAUDE_PREFIX, OPENAI_MARKER, "");
    assert CLAUDE_PREFIX + OPENAI_MARKER + "" == CLAUDE_MARKER;
    Inside(CLAUDE_MARKER, 32, OPENAI_MARKER, 15, TOKEN_DOTTED);
  }

  lemma WrappedHasToken()
    ensures At(WRAPPED_MARKER, 8, TOKEN_DASHED)
  {
    LegacyHasToken();
    Middle(WRAPPED_PREFIX, LEGACY_MARKER, "");
    assert WRAPPED_PREFIX + LEGACY_MARKER + "" == WRAPPED_MARKER;
    Inside(WRAPPED_MARKER, 6, LEGACY_MARKER, 2, TOKEN_DASHED);
  }

  lemma LegacyLacksDotted()
    ensures !Contains(LEGACY_MARKER, TOKEN_DOTTED)
    ensures !Contains(WRAPPED_MARKER, TOKEN_DOTTED)
  {
    assert '.' !in LEGACY_HEAD && '.' !in TOKEN_DASHED && '.' !in WRAPPED_PREFIX;
    assert TOKEN_DOTTED[7] == '.';
    LacksChar(LEGACY_MARKER, TOKEN_DOTTED, 7);
    LacksChar(WRAPPED_MARKER, TOKEN_DOTTED, 7);
  }

  lemma ClaudePrefixLacksDashed()
    ensures !Contains(CLAUDE_PREFIX, TOKEN_DASHED)
  {
    assert '-' !in CLAUDE_HEAD && '-' !in TOKEN_DOTTED;
    assert TOKEN_DASHED[7] == '-';
    LacksChar(CLAUDE_PREFIX, TOKEN_DASHED, 7);
  }

  lemma DashedMarkersAbsent(s: string)
    requires !Contains(s, TOKEN_DASHED)
    ensures !Contains(s, LEGACY_MARKER) && !Contains(s, WRAPPED_MARKER)
  {
    LegacyHasToken();
    WrappedHasToken();
    NoTokenNoMarker(s, LEGACY_MARKER, 2, TOKEN_DASHED);
    NoTokenNoMarker(s, WRAPPED_MARKER, 8, TOKEN_DASHED);
  }

  lemma DottedMarkersAbsent(s: string)
    requires !Contains(s, TOKEN_DOTTED)
    ensures !Contains(s, OPENAI_MARKER) && !Contains(s, CLAUDE_MARKER)
  {
    OpenAiHasToken();
    ClaudeHasTokens();
    NoTokenNoMarker(s, OPENAI_MARKER, 15, TOKEN_DOTTED);
    NoTokenNoMarker(s, CLAUDE_MARKER, 7, TOKEN_DOTTED);
  }

  // ----- clean surroundings -----

  /** Whole events without a token. */
  ghost predicate Clean(s: string) { (s == "" || EndsOnBoundary(s)) && !Marked(s) }

  lemma CleanEndsLine(s: string)
    requires s != "" && EndsOnBoundary(s)
    ensures s[|s| - 1] == '\n'
  {
    if At(s, |s| - 2, LF_BOUNDARY) {
      CharAt(s, |s| - 2, LF_BOUNDARY, 1);
    } else {
      CharAt(s, |s| - 4, CRLF_BOUNDARY, 3);
    }
  }

  /** A token in clean text followed by something else starts after the clean text. */
  lemma TokenAfterClean(a: string, rest: string, i: int, token: string)
    requires Clean(a) && Token(token) && At(a + rest, i, token)
    ensures i >= |a| && At(rest, i - |a|, token)
  {
    TokenFacts(token);
    if |a| > 0 {
      CleanEndsLine(a);
    }
    if i < |a| < i + |token| {
      Straddles(a, rest, token, i);
    } else if i < |a| {
      Prefix(a, rest, i, token);
    } else {
      Suffix(a, rest, i, token);
    }
  }

  lemma Prefix(a: string, b: string, i: int, token: string)
    requires At(a + b, i, token) && i + |token| <= |a|
    ensures At(a, i, token)
  {
    assert a[i..i + |token|] == (a + b)[i..i + |token|];
  }

  lemma CleanAround(a: string, m: string, b: string, token: string)
    requires Clean(a) && Clean(b) && Token(token)
    requires m == "" || m[|m| - 1] == '\n'
    ensures Contains(a + m + b, token) <==> Contains(m, token)
  {
    TokenFacts(token);
    assert a + m + b == a + (m + b);
    if a != "" {
      CleanEndsLine(a);
    }
    ContainsSplit(a, m + b, token);
    ContainsSplit(m, b, token);
  }

  lemma CleanJoined(a: string, b: string)
    requires Clean(a) && Clean(b)
    ensures !Contains(a + b, TOKEN_DASHED) && !Contains(a + b, TOKEN_DOTTED)
  {
    assert a + "" + b == a + b;
    LacksChar("", TOKEN_DASHED, 0);
    LacksChar("", TOKEN_DOTTED, 0);
    CleanAround(a, "", b, TOKEN_DASHED);
    CleanAround(a, "", b, TOKEN_DOTTED);
  }

  /** After clean text and a prefix without the token's first letter, a marker whose own first
      such letter begins the token occurs nowhere earlier. */
  lemma NoEarlier(a: string, pre: string, marker: string, b: string, k: nat, token: string)
    requires Clean(a) && Token(token) && At(marker, k, token)
    requires 'g' !in pre && forall j :: 0 <= j < k ==> marker[j] != 'g'
    ensures forall i :: 0 <= i < |a + pre| ==> !At(a + pre + marker + b, i, marker)
  {
    var rest := pre + marker + b;
    assert a + pre + marker + b == a + rest;
    forall p | 0 <= p < |pre| + k ensures p < |rest| && rest[p] != 'g' {
      assert rest[p] == if p < |pre| then pre[p] else marker[p - |pre|];
    }
    forall i | 0 <= i < |a + pre| ensures !At(a + rest, i, marker) {
      NotAt(a, rest, |pre| + k, marker, k, token, i);
    }
  }

  lemma NotAt(a: string, rest: string, n: nat, marker: string, k: nat, token: string, i: nat)
    requires Clean(a) && Token(token) && At(marker, k, token) && i + k < |a| + n
    requires forall p :: 0 <= p < n ==> p < |rest| && rest[p] != 'g'
    ensures !At(a + rest, i, marker)
  {
    TokenStartsWithG(rest, token);
    if At(a + rest, i, marker) {
      Inside(a + rest, i, marker, k, token);
      TokenAfterClean(a, rest, i + k, token);
    }
  }

  lemma TokenStartsWithG(s: string, token: string)
    requires Token(token)
    ensures forall i :: At(s, i, token) ==> s[i] == 'g'
  {
    TokenFacts(token);
    forall i | At(s, i, token) ensures s[i] == 'g' {
      CharAt(s, i, token, 0);
    }
  }

  // ----- what stripping leaves -----

  lemma OpenAiAloneIsRemoved(a: string, b: string)
    requires Clean(a) && Clean(b)
    ensures Remove(a + OPENAI_MARKER + b, OPENAI_MARKER) == a + b
  {
    OpenAiHasToken();
    assert 'g' !in OPENAI_HEAD;
    assert forall j :: 0 <= j < 15 ==> OPENAI_MARKER[j] == OPENAI_HEAD[j];
    NoEarlier(a, "", OPENAI_MARKER, b, 15, TOKEN_DOTTED);
    assert a + "" == a;
    DottedMarkersAbsent(b);
    RemoveOnce(a, OPENAI_MARKER, b);
  }

  lemma LegacyAfterIsRemoved(a: string, pre: string, b: string)
    requires Clean(a) && Clean(b) && 'g' !in pre
    ensures Remove(a + pre + LEGACY_MARKER + b, LEGACY_MARKER) == a + pre + b
  {
    LegacyHasToken();
    assert 'g' !in LEGACY_HEAD;
    assert forall j :: 0 <= j < 2 ==> LEGACY_MARKER[j] == LEGACY_HEAD[j];
    NoEarlier(a, pre, LEGACY_MARKER, b, 2, TOKEN_DASHED);
    DashedMarkersAbsent(b);
    RemoveOnce(a + pre, LEGACY_MARKER, b);
  }

  lemma MarksPiece(a: string, m: string, b: string, token: string)
    requires Clean(a) && Clean(b) && Token(token) && Contains(m, token)
    requires m != "" && m[|m| - 1] == '\n'
    ensures HasMarker(a + m + b)
  {
    CleanAround(a, m, b, token);
  }

  /** The OpenAI marker is removed exactly. */
  lemma StripsOpenAi(a: string, b: string)
    requires Clean(a) && Clean(b)
    ensures Stripped(a + OPENAI_MARKER + b) == a + b
  {
    OpenAiHasToken();
    MarksPiece(a, OPENAI_MARKER, b, TOKEN_DOTTED);
    OpenAiAloneIsRemoved(a, b);
    CleanJoined(a, b);
    RemovesNothingMore(a + b);
  }

  lemma RemovesNothingMore(s: string)
    requires !Contains(s, TOKEN_DASHED) && !Contains(s, TOKEN_DOTTED)
    ensures Remove(s, CLAUDE_MARKER) == s && Remove(s, LEGACY_MARKER) == s && Remove(s, WRAPPED_MARKER) == s
  {
    DashedMarkersAbsent(s);
    DottedMarkersAbsent(s);
    RemoveAbsent(s, CLAUDE_MARKER);
    RemoveAbsent(s, LEGACY_MARKER);
    RemoveAbsent(s, WRAPPED_MARKER);
  }

  lemma DottedRemovalsIdle(a: string, m: string, b: string)
    requires Clean(a) && Clean(b) && m in {LEGACY_MARKER, WRAPPED_MARKER}
    ensures Remove(a + m + b, OPENAI_MARKER) == a + m + b && Remove(a + m + b, CLAUDE_MARKER) == a + m + b
  {
    LegacyLacksDotted();
    CleanAround(a, m, b, TOKEN_DOTTED);
    DottedMarkersAbsent(a + m + b);
    RemoveAbsent(a + m + b, OPENAI_MARKER);
    RemoveAbsent(a + m + b, CLAUDE_MARKER);
  }

  /** So is the plain legacy comment. */
  lemma StripsLegacy(a: string, b: string)
    requires Clean(a) && Clean(b)
    ensures Stripped(a + LEGACY_MARKER + b) == a + b
  {
    LegacyHasToken();
    MarksPiece(a, LEGACY_MARKER, b, TOKEN_DASHED);
    DottedRemovalsIdle(a, LEGACY_MARKER, b);
    LegacyAfterIsRemoved(a, "", b);
    assert a + "" == a;
    CleanJoined(a, b);
    RemovesNothingMore(a + b);
  }

  /** The wrapped comment ends in the plain one, which is removed first: its prefix stays behind. */
  lemma WrappedLeavesPrefix(a: string, b: string)
    requires Clean(a) && Clean(b)
    ensures Stripped(a + WRAPPED_MARKER + b) == a + WRAPPED_PREFIX + b
  {
    WrappedHasToken();
    MarksPiece(a, WRAPPED_MARKER, b, TOKEN_DASHED);
    DottedRemovalsIdle(a, WRAPPED_MARKER, b);
    LegacyInWrapped(a, b);
    PrefixIsUnmarked(a, b);
    DashedMarkersAbsent(a + WRAPPED_PREFIX + b);
    RemoveAbsent(a + WRAPPED_PREFIX + b, WRAPPED_MARKER);
    FourRemovals(a + WRAPPED_MARKER + b, a + WRAPPED_MARKER + b, a + WRAPPED_PREFIX + b);
  }

  lemma LegacyInWrapped(a: string, b: string)
    requires Clean(a) && Clean(b)
    ensures Remove(a + WRAPPED_MARKER + b, LEGACY_MARKER) == a + WRAPPED_PREFIX + b
  {
    Regroup(a, WRAPPED_PREFIX, LEGACY_MARKER, b);
    PrefixLacksG();
    LegacyAfterIsRemoved(a, WRAPPED_PREFIX, b);
  }

  lemma Regroup(a: string, x: string, y: string, b: string)
    ensures a + (x + y) + b == a + x + y + b
  {
  }

  lemma PrefixLacksG()
    ensures 'g' !in WRAPPED_PREFIX
  {
  }

  lemma FourRemovals(s: string, s1: string, s2: string)
    requires HasMarker(s) && Remove(s, OPENAI_MARKER) == s1 && Remove(s1, CLAUDE_MARKER) == s1
    requires Remove(s1, LEGACY_MARKER) == s2 && Remove(s2, WRAPPED_MARKER) == s2
    ensures Stripped(s) == s2
  {
  }

  lemma PrefixIsUnmarked(a: string, b: string)
    requires Clean(a) && Clean(b)
    ensures !Contains(a + WRAPPED_PREFIX + b, TOKEN_DASHED)
  {
    var t := a + WRAPPED_PREFIX + b;
    TokenFacts(TOKEN_DASHED);
    assert 'g' !in WRAPPED_PREFIX;
    assert t == a + (WRAPPED_PREFIX + b);
    forall i | At(t, i, TOKEN_DASHED) ensures Contains(b, TOKEN_DASHED) {
      TokenAfterClean(a, WRAPPED_PREFIX + b, i, TOKEN_DASHED);
      CharAt(WRAPPED_PREFIX + b, i - |a|, TOKEN_DASHED, 0);
      Suffix(WRAPPED_PREFIX, b, i - |a|, TOKEN_DASHED);
    }
  }

  // ----- the Claude marker -----

  /** The token of the Claude prefix is the only one. */
  lemma OneDotted(a: string, b: string, i: int)
    requires Clean(a) && Clean(b) && At(a + CLAUDE_PREFIX + b, i, TOKEN_DOTTED)
    ensures i == |a| + 7
  {
    var rest := CLAUDE_PREFIX + b;
    assert a + CLAUDE_PREFIX + b == a + rest;
    TokenAfterClean(a, rest, i, TOKEN_DOTTED);
    TokenFacts(TOKEN_DOTTED);
    ClaudePrefixHasToken();
    var p := i - |a|;
    CharAt(rest, p, TOKEN_DOTTED, 0);
    if p < |CLAUDE_PREFIX| {
      LonelyG(p);
    } else {
      Suffix(CLAUDE_PREFIX, b, p, TOKEN_DOTTED);
    }
  }

  lemma LonelyG(p: nat)
    requires p < |CLAUDE_PREFIX| && CLAUDE_PREFIX[p] == 'g'
    ensures p == 7
  {
    assert 'g' !in CLAUDE_HEAD;
    assert forall j :: 0 < j < |TOKEN_DOTTED| ==> TOKEN_DOTTED[j] != 'g';
    assert forall j :: 0 <= j < 7 ==> CLAUDE_PREFIX[j] == CLAUDE_HEAD[j];
    assert forall j :: 7 < j < 31 ==> CLAUDE_PREFIX[j] == TOKEN_DOTTED[j - 7];
  }

  /** The OpenAI marker has no line break before its last two characters. */
  lemma OpenAiBreaksLate(j: nat)
    requires j < 65
    ensures |OPENAI_MARKER| == 67 && OPENAI_MARKER[j] != '\n'
  {
    assert '\n' !in OPENAI_HEAD && '\n' !in TOKEN_DOTTED;
    assert forall k :: 0 <= k < 26 ==> OPENAI_TAIL[k] != '\n';
    assert OPENAI_MARKER[j] == if j < 15 then OPENAI_HEAD[j] else if j < 39 then TOKEN_DOTTED[j - 15] else OPENAI_TAIL[j - 39];
  }

  /** Such a marker would have its token in the Claude prefix or later. */
  lemma OpenAiTokenLate(a: string, rest: string, i: nat)
    requires Clean(a) && At(a + rest, i, OPENAI_MARKER)
    ensures i + 15 >= |a|
  {
    OpenAiHasToken();
    Inside(a + rest, i, OPENAI_MARKER, 15, TOKEN_DOTTED);
    TokenAfterClean(a, rest, i + 15, TOKEN_DOTTED);
  }

  lemma BreakInOpenAi(s: string, i: nat, j: nat)
    requires i <= j < i + 65 && j < |s| && s[j] == '\n'
    ensures !At(s, i, OPENAI_MARKER)
  {
    OpenAiBreaksLate(j - i);
    if At(s, i, OPENAI_MARKER) {
      CharAt(s, i, OPENAI_MARKER, j - i);
    }
  }

  lemma ClaudePrefixBreak(a: string, b: string)
    ensures |a| + 31 < |a + CLAUDE_PREFIX + b| && (a + CLAUDE_PREFIX + b)[|a| + 31] == '\n'
  {
    ClaudePrefixHasToken();
    assert CLAUDE_PREFIX[31] == '\n';
    assert (a + CLAUDE_PREFIX + b)[|a| + 31] == CLAUDE_PREFIX[31];
  }

  lemma OpenAiNotEarly(a: string, rest: string, i: nat)
    requires Clean(a) && i < |a| + 32 && |a| + 31 < |a + rest| && (a + rest)[|a| + 31] == '\n'
    ensures !At(a + rest, i, OPENAI_MARKER)
  {
    if i + 15 >= |a| {
      BreakInOpenAi(a + rest, i, |a| + 31);
    } else if At(a + rest, i, OPENAI_MARKER) {
      OpenAiTokenLate(a, rest, i);
    }
  }

  lemma FourParts(a: string, b: string, c: string, d: string)
    ensures a + b + c + d == a + (b + (c + d)) && a + b + (c + d) == a + (b + (c + d))
  {
  }

  lemma OpenAiNotBefore(a: string, b: string, i: nat)
    requires Clean(a) && Clean(b) && i < |a + CLAUDE_PREFIX|
    ensures !At(a + CLAUDE_PREFIX + OPENAI_MARKER + b, i, OPENAI_MARKER)
  {
    ClaudePrefixBreak(a, OPENAI_MARKER + b);
    ClaudePrefixHasToken();
    FourParts(a, CLAUDE_PREFIX, OPENAI_MARKER, b);
    OpenAiNotEarly(a, CLAUDE_PREFIX + (OPENAI_MARKER + b), i);
  }

  lemma ClaudeNotLeft(a: string, b: string)
    requires Clean(a) && Clean(b)
    ensures !Contains(a + CLAUDE_PREFIX + b, CLAUDE_MARKER)
  {
    var t := a + CLAUDE_PREFIX + b;
    ClaudeHasTokens();
    forall i ensures !At(t, i, CLAUDE_MARKER) {
      if At(t, i, CLAUDE_MARKER) {
        Inside(t, i, CLAUDE_MARKER, 47, TOKEN_DOTTED);
        OneDotted(a, b, i + 47);
        Inside(t, i, CLAUDE_MARKER, 7, TOKEN_DOTTED);
        OneDotted(a, b, i + 7);
      }
    }
  }

  lemma OpenAiInClaude(a: string, b: string)
    requires Clean(a) && Clean(b)
    ensures Remove(a + CLAUDE_MARKER + b, OPENAI_MARKER) == a + CLAUDE_PREFIX + b
  {
    var s := a + CLAUDE_MARKER + b;
    assert s == (a + CLAUDE_PREFIX) + OPENAI_MARKER + b;
    forall i | 0 <= i < |a + CLAUDE_PREFIX| ensures !At(s, i, OPENAI_MARKER) {
      OpenAiNotBefore(a, b, i);
    }
    DottedMarkersAbsent(b);
    RemoveOnce(a + CLAUDE_PREFIX, OPENAI_MARKER, b);
  }

  lemma ClaudeRestIdle(a: string, b: string)
    requires Clean(a) && Clean(b)
    ensures var t := a + CLAUDE_PREFIX + b;
      Remove(t, CLAUDE_MARKER) == t && Remove(t, LEGACY_MARKER) == t && Remove(t, WRAPPED_MARKER) == t
  {
    var t := a + CLAUDE_PREFIX + b;
    ClaudeNotLeft(a, b);
    RemoveAbsent(t, CLAUDE_MARKER);
    ClaudePrefixLacksDashed();
    CleanAround(a, CLAUDE_PREFIX, b, TOKEN_DASHED);
    DashedMarkersAbsent(t);
    RemoveAbsent(t, LEGACY_MARKER);
    RemoveAbsent(t, WRAPPED_MARKER);
  }

  /** The Claude marker ends in the OpenAI one: its event line stays behind, and names whatever
      event follows. */
  lemma ClaudeLeavesEventLine(a: string, b: string)
    requires Clean(a) && Clean(b)
    ensures Stripped(a + CLAUDE_MARKER + b) == a + CLAUDE_PREFIX + b
  {
    ClaudeHasTokens();
    MarksPiece(a, CLAUDE_MARKER, b, TOKEN_DOTTED);
    OpenAiInClaude(a, b);
    ClaudeRestIdle(a, b);
    FourRemovals(a + CLAUDE_MARKER + b, a + CLAUDE_PREFIX + b, a + CLAUDE_PREFIX + b);
  }
}
