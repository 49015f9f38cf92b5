// Token redaction over a mutable byte buffer: six rules, each overwriting what
// follows its needle up to its own terminators.
module Redact {
  import opened Wrappers

  // Bytes, as the characters they encode.
  type Bytes = seq<char>

  datatype Rule = Rule(needle: Bytes, terminators: Bytes)

  const X := 'x'

  const URL_TERMINATORS: Bytes := "&\"' \t\r\n;<>"
  const JSON_TERMINATORS: Bytes := "\""

  const API_KEY := Rule("api_key=", URL_TERMINATORS)
  const TOKEN_ENCODED := Rule("X-MediaBrowser-Token%3D", URL_TERMINATORS)
  const TOKEN := Rule("X-MediaBrowser-Token=", URL_TERMINATORS)
  const API_KEY_CAMEL := Rule("ApiKey=", URL_TERMINATORS)
  const ACCESS_TOKEN := Rule("AccessToken=", URL_TERMINATORS)
  const ACCESS_TOKEN_JSON := Rule("AccessToken\":\"", JSON_TERMINATORS)

  const RULES: seq<Rule> := [API_KEY, TOKEN_ENCODED, TOKEN, API_KEY_CAMEL, ACCESS_TOKEN, ACCESS_TOKEN_JSON]

  // ----- searching -----

  predicate OccursAt(s: Bytes, needle: Bytes, p: int) {
    0 <= p && p + |needle| <= |s| && s[p..p + |needle|] == needle
  }

  // The first occurrence at or after `from`.
  function Find(s: Bytes, needle: Bytes, from: nat): (r: Option<nat>)
    requires from <= |s|
    ensures r.Some? ==> from <= r.value && OccursAt(s, needle, r.value)
    ensures r.Some? ==> forall p | from <= p < r.value :: !OccursAt(s, needle, p)
    ensures r.None? ==> forall p | from <= p :: !OccursAt(s, needle, p)
    decreases |s| - from
  {
    if OccursAt(s, needle, from) then Some(from)
    else if from == |s| then None
    else Find(s, needle, from + 1)
  }

  // The first terminator at or after `from`, or the end.
  function TokenEnd(s: Bytes, from: nat, terminators: Bytes): (e: nat)
    requires from <= |s|
    ensures from <= e <= |s|
    ensures forall i | from <= i < e :: s[i] !in terminators
    ensures e < |s| ==> s[e] in terminators
    decreases |s| - from
  {
    if from == |s| || s[from] in terminators then from else TokenEnd(s, from + 1, terminators)
  }

  // ----- what the passes compute -----

  function Fill(s: Bytes, from: nat, end: nat): (r: Bytes)
    requires from <= end <= |s|
    ensures |r| == |s|
    ensures forall i | 0 <= i < |s| :: r[i] == if from <= i < end then X else s[i]
  {
    s[..from] + seq(end - from, i => X) + s[end..]
  }

  // The first token at or after `start` filled, and where the pass goes on.
  function ElideOne(s: Bytes, rule: Rule, start: nat): (r: Option<(Bytes, nat)>)
    requires start <= |s| && rule.needle != ""
    ensures r.Some? ==> |r.value.0| == |s| && start < r.value.1 <= |s|
  {
    match Find(s, rule.needle, start)
    case None => None
    case Some(pos) =>
      var tokenStart := pos + |rule.needle|;
      var tokenEnd := TokenEnd(s, tokenStart, rule.terminators);
      Some((Fill(s, tokenStart, tokenEnd), tokenEnd))
  }

  // One rule's pass over the buffer from `start` on.
  function ElideFrom(s: Bytes, rule: Rule, start: nat): (r: Bytes)
    requires start <= |s| && rule.needle != ""
    ensures |r| == |s|
    decreases |s| - start
  {
    match ElideOne(s, rule, start)
    case None => s
    case Some((filled, next)) => ElideFrom(filled, rule, next)
  }

  function CensorWith(s: Bytes, rules: seq<Rule>): (r: Bytes)
    requires forall k | 0 <= k < |rules| :: rules[k].needle != ""
    ensures |r| == |s|
    decreases |rules|
  {
    if rules == [] then s
    else
      var last := |rules| - 1;
      ElideFrom(CensorWith(s, rules[..last]), rules[last], 0)
  }

  // ----- what redaction means -----

  // Byte `i` is in the token of the needle at `p`.
  ghost predicate InToken(s: Bytes, rule: Rule, p: int, i: int) {
    && OccursAt(s, rule.needle, p)
    && p + |rule.needle| <= i < |s|
    && forall k | p + |rule.needle| <= k <= i :: s[k] !in rule.terminators
  }

  ghost predicate Covered(s: Bytes, rule: Rule, i: int) {
    exists p :: InToken(s, rule, p, i)
  }

  ghost predicate CoveredByAny(s: Bytes, rules: seq<Rule>, i: int) {
    exists k | 0 <= k < |rules| :: Covered(s, rules[k], i)
  }

  // The output settles every byte: 'x' exactly where the output itself has a
  // token, under any rule, and the original everywhere else.
  ghost predicate Redacted(s: Bytes, out: Bytes, rules: seq<Rule>) {
    && |out| == |s|
    && forall i | 0 <= i < |s| :: out[i] == if CoveredByAny(out, rules, i) then X else s[i]
  }

  // What one rule needs: its needle is not touched by redaction, does not
  // overlap itself, and a redacted byte never ends a token.
  ghost predicate Sound(rule: Rule) {
    && rule.needle != ""
    && X !in rule.needle && X !in rule.terminators
    && forall k | 0 < k < |rule.needle| :: rule.needle[k] != rule.needle[0]
  }

  // What an earlier rule needs of a later one: the later rule runs through
  // whatever the earlier one stops at or consists of.
  ghost predicate RunsThrough(earlier: Rule, later: Rule) {
    && (forall c | c in later.terminators :: c in earlier.terminators)
    && (forall c | c in earlier.needle :: c !in later.terminators)
  }

  ghost predicate Compatible(rules: seq<Rule>) {
    && (forall k | 0 <= k < |rules| :: Sound(rules[k]))
    && (forall j, k | 0 <= j < k < |rules| :: RunsThrough(rules[j], rules[k]))
  }

  // ----- one pass -----

  // An occurrence survives only untouched, so one seen afterwards was there
  // before, at the same place.
  lemma {:induction false} OccurrenceWasThere(s: Bytes, out: Bytes, needle: Bytes, p: int)
    requires |s| == |out| && X !in needle && OccursAt(out, needle, p)
    requires forall i | 0 <= i < |s| :: out[i] == s[i] || out[i] == X
    ensures OccursAt(s, needle, p)
  {
    forall k | 0 <= k < |needle|
      ensures s[p..p + |needle|][k] == needle[k]
    {
      assert out[p..p + |needle|][k] == needle[k];
      assert out[p + k] != X;
    }
  }

  lemma {:induction false} NeedleAt(s: Bytes, needle: Bytes, p: int, k: int)
    requires OccursAt(s, needle, p) && 0 <= k < |needle|
    ensures s[p + k] == needle[k]
  {
    assert s[p..p + |needle|][k] == needle[k];
  }

  lemma {:induction false} SameOccurrence(s: Bytes, t: Bytes, needle: Bytes, p: int)
    requires OccursAt(s, needle, p) && |s| == |t|
    requires forall i | p <= i < p + |needle| :: t[i] == s[i]
    ensures OccursAt(t, needle, p)
  {
    assert t[p..p + |needle|] == s[p..p + |needle|];
  }

  // The pass changes nothing up to its start, nothing but tokens after it, and
  // leaves no token of its own rule standing.
  ghost predicate Elided(s: Bytes, out: Bytes, rule: Rule, start: nat) {
    && |out| == |s|
    && (forall i | 0 <= i < |s| :: out[i] == s[i] || (start < i && out[i] == X && Covered(out, rule, i)))
    && (forall p, i | start <= p && InToken(out, rule, p, i) :: out[i] == X)
  }

  lemma {:induction false} ElideMeans(s: Bytes, rule: Rule, start: nat)
    requires start <= |s| && Sound(rule)
    ensures Elided(s, ElideFrom(s, rule, start), rule, start)
    decreases |s| - start
  {
    var one := ElideOne(s, rule, start);
    if one.Some? {
      ElideMeans(one.value.0, rule, one.value.1);
      OneToken(s, ElideFrom(one.value.0, rule, one.value.1), rule, start, Find(s, rule.needle, start).value);
    } else {
      NoToken(s, rule, start);
    }
  }

  lemma {:induction false} NoToken(s: Bytes, rule: Rule, start: nat)
    requires start <= |s| && Sound(rule) && Find(s, rule.needle, start).None?
    ensures Elided(s, s, rule, start)
  {
  }

  // One token filled, and the rest of the pass after it.
  lemma {:induction false} OneToken(s: Bytes, out: Bytes, rule: Rule, start: nat, pos: nat)
    requires start <= |s| && Sound(rule) && Find(s, rule.needle, start) == Some(pos)
    requires var tokenStart := pos + |rule.needle|; var tokenEnd := TokenEnd(s, tokenStart, rule.terminators);
      Elided(Fill(s, tokenStart, tokenEnd), out, rule, tokenEnd)
    ensures Elided(s, out, rule, start)
  {
    var tokenStart := pos + |rule.needle|;
    var tokenEnd := TokenEnd(s, tokenStart, rule.terminators);
    SameOccurrence(s, out, rule.needle, pos);
    forall i | tokenStart <= i < tokenEnd
      ensures Covered(out, rule, i)
    {
      assert InToken(out, rule, pos, i);
    }
    forall p, i | start <= p && InToken(out, rule, p, i)
      ensures out[i] == X
    {
      TokenIsElided(s, out, rule, start, pos, tokenEnd, p, i);
    }
  }

  // Where an occurrence in the output can be: at the needle just handled, whose
  // token is filled, or past its token, where the rest of the pass has been.
  lemma {:induction false} TokenIsElided(s: Bytes, out: Bytes, rule: Rule, start: nat, pos: nat, tokenEnd: nat, p: int, i: int)
    requires start <= |s| && Sound(rule) && Find(s, rule.needle, start) == Some(pos)
    requires tokenEnd == TokenEnd(s, pos + |rule.needle|, rule.terminators)
    requires Elided(Fill(s, pos + |rule.needle|, tokenEnd), out, rule, tokenEnd)
    requires start <= p && InToken(out, rule, p, i)
    ensures out[i] == X
  {
    var tokenStart := pos + |rule.needle|;
    var filled := Fill(s, tokenStart, tokenEnd);
    OccurrenceWasThere(s, out, rule.needle, p);
    assert p >= pos;
    if p == pos {
      assert tokenEnd < |s| ==> out[tokenEnd] == s[tokenEnd];
      assert i < tokenEnd;
      assert out[i] == filled[i];
    } else {
      NeverOverlaps(s, rule, pos, p);
      if p < tokenEnd {
        FilledStartsNothing(out, rule, p);
        assert false;
      }
    }
  }

  lemma {:induction false} FilledStartsNothing(s: Bytes, rule: Rule, p: int)
    requires Sound(rule) && OccursAt(s, rule.needle, p)
    ensures s[p] != X
  {
    NeedleAt(s, rule.needle, p, 0);
  }

  lemma {:induction false} NeverOverlaps(s: Bytes, rule: Rule, pos: int, p: int)
    requires Sound(rule) && OccursAt(s, rule.needle, pos) && OccursAt(s, rule.needle, p)
    requires pos < p
    ensures pos + |rule.needle| <= p
  {
    if p < pos + |rule.needle| {
      NeedleAt(s, rule.needle, pos, p - pos);
      NeedleAt(s, rule.needle, p, 0);
      assert false;
    }
  }

  // ----- all passes -----

  ghost predicate Settled(s: Bytes, out: Bytes, rules: seq<Rule>) {
    && |out| == |s|
    && (forall i | 0 <= i < |s| :: out[i] == s[i] || (out[i] == X && CoveredByAny(out, rules, i)))
    && (forall i | 0 <= i < |s| && CoveredByAny(out, rules, i) :: out[i] == X)
  }

  lemma {:induction false} SettledIsRedacted(s: Bytes, out: Bytes, rules: seq<Rule>)
    requires Settled(s, out, rules)
    ensures Redacted(s, out, rules)
  {
  }

  // A byte hidden by an earlier rule is still inside some token after a later
  // pass: either the earlier needle survived it, or the later token ran over it
  // and on to the byte.
  lemma {:induction false} StaysCovered(mid: Bytes, out: Bytes, earlier: Rule, later: Rule, i: int)
    requires Sound(earlier) && Sound(later) && RunsThrough(earlier, later)
    requires Elided(mid, out, later, 0) && Covered(mid, earlier, i)
    ensures Covered(out, earlier, i) || Covered(out, later, i)
  {
    var p :| InToken(mid, earlier, p, i);
    var tokenStart := p + |earlier.needle|;
    if forall j | p <= j < tokenStart :: out[j] == mid[j] {
      SameOccurrence(mid, out, earlier.needle, p);
      assert InToken(out, earlier, p, i);
    } else {
      var j :| p <= j < tokenStart && out[j] != mid[j];
      var q :| InToken(out, later, q, j);
      forall k | q + |later.needle| <= k <= i
        ensures out[k] !in later.terminators
      {
        if j < k && out[k] == mid[k] {
          if k < tokenStart {
            NeedleAt(mid, earlier.needle, p, k - p);
          }
        }
      }
      assert InToken(out, later, q, i);
    }
  }

  // A token an earlier rule sees after a later pass is hidden: it was hidden
  // already, or the later pass hid the terminator that used to end it and went
  // on hiding.
  lemma {:induction false} StaysHidden(mid: Bytes, out: Bytes, earlier: Rule, later: Rule, i: int)
    requires Sound(earlier) && Sound(later) && RunsThrough(earlier, later)
    requires Elided(mid, out, later, 0) && 0 <= i < |mid|
    requires Covered(mid, earlier, i) ==> mid[i] == X
    requires Covered(out, earlier, i)
    ensures out[i] == X
  {
    var p :| InToken(out, earlier, p, i);
    var tokenStart := p + |earlier.needle|;
    OccurrenceWasThere(mid, out, earlier.needle, p);
    if forall k | tokenStart <= k <= i :: mid[k] !in earlier.terminators {
      assert InToken(mid, earlier, p, i);
    } else {
      var j :| tokenStart <= j <= i && mid[j] in earlier.terminators;
      var q :| InToken(out, later, q, j);
      forall k | q + |later.needle| <= k <= i
        ensures out[k] !in later.terminators
      {
        if j < k {
          assert out[k] !in earlier.terminators;
        }
      }
      assert InToken(out, later, q, i);
    }
  }

  lemma {:induction false} PassSettles(s: Bytes, mid: Bytes, rules: seq<Rule>, later: Rule)
    requires Sound(later) && Compatible(rules + [later]) && Settled(s, mid, rules)
    ensures Settled(s, ElideFrom(mid, later, 0), rules + [later])
  {
    var all := rules + [later];
    var out := ElideFrom(mid, later, 0);
    assert all[|rules|] == later;
    ElideMeans(mid, later, 0);
    forall i | 0 <= i < |s|
      ensures out[i] == s[i] || (out[i] == X && CoveredByAny(out, all, i))
    {
      if out[i] != mid[i] {
        assert Covered(out, all[|rules|], i);
      } else if mid[i] != s[i] {
        var k :| 0 <= k < |rules| && Covered(mid, rules[k], i);
        assert all[k] == rules[k];
        StaysCovered(mid, out, all[k], all[|rules|], i);
      }
    }
    forall i | 0 <= i < |s| && CoveredByAny(out, all, i)
      ensures out[i] == X
    {
      var k :| 0 <= k < |all| && Covered(out, all[k], i);
      if k == |rules| {
        var p :| InToken(out, later, p, i);
      } else {
        assert all[k] == rules[k];
        if Covered(mid, rules[k], i) {
          assert CoveredByAny(mid, rules, i);
        }
        StaysHidden(mid, out, all[k], all[|rules|], i);
      }
    }
  }

  lemma {:induction false} CensorSettles(s: Bytes, rules: seq<Rule>)
    requires Compatible(rules)
    ensures Settled(s, CensorWith(s, rules), rules)
    decreases |rules|
  {
    if rules != [] {
      var last := |rules| - 1;
      var before := rules[..last];
      assert forall k | 0 <= k < |before| :: before[k] == rules[k];
      CensorSettles(s, before);
      assert before + [rules[last]] == rules;
      PassSettles(s, CensorWith(s, before), before, rules[last]);
    }
  }

  lemma {:induction false} FillOfFilled(s: Bytes, from: nat, end: nat)
    requires from <= end <= |s| && forall i | from <= i < end :: s[i] == X
    ensures Fill(s, from, end) == s
  {
  }

  // A pass over a buffer without standing tokens changes nothing.
  ghost predicate NoneStanding(s: Bytes, rule: Rule) {
    forall p, i | InToken(s, rule, p, i) :: s[i] == X
  }

  lemma {:induction false} TokenIsFilled(s: Bytes, rule: Rule, pos: nat)
    requires OccursAt(s, rule.needle, pos) && NoneStanding(s, rule)
    ensures var tokenStart := pos + |rule.needle|;
      Fill(s, tokenStart, TokenEnd(s, tokenStart, rule.terminators)) == s
  {
    var tokenStart := pos + |rule.needle|;
    var tokenEnd := TokenEnd(s, tokenStart, rule.terminators);
    forall i | tokenStart <= i < tokenEnd
      ensures s[i] == X
    {
      assert InToken(s, rule, pos, i);
    }
    FillOfFilled(s, tokenStart, tokenEnd);
  }

  lemma {:induction false} ElideOfElided(s: Bytes, rule: Rule, start: nat)
    requires start <= |s| && rule.needle != "" && NoneStanding(s, rule)
    ensures ElideFrom(s, rule, start) == s
    decreases |s| - start
  {
    var one := ElideOne(s, rule, start);
    if one.Some? {
      TokenIsFilled(s, rule, Find(s, rule.needle, start).value);
      assert one.value.0 == s;
      ElideOfElided(s, rule, one.value.1);
    }
  }

  lemma {:induction false} CensorOfRedacted(s: Bytes, rules: seq<Rule>, all: seq<Rule>)
    requires Compatible(all) && rules <= all
    requires forall i | 0 <= i < |s| && CoveredByAny(s, all, i) :: s[i] == X
    ensures CensorWith(s, rules) == s
    decreases |rules|
  {
    if rules != [] {
      var last := |rules| - 1;
      CensorOfRedacted(s, rules[..last], all);
      assert all[last] == rules[last];
      forall p, i | InToken(s, rules[last], p, i)
        ensures s[i] == X
      {
        assert Covered(s, all[last], i);
      }
      ElideOfElided(s, rules[last], 0);
    }
  }

  // ----- the six rules -----

  // A byte that is neither redaction's own, nor a URL terminator.
  predicate Plain(c: char) {
    c != X && ('a' <= c <= 'z' || 'A' <= c <= 'Z' || '0' <= c <= '9' || c == '-' || c == '_' || c == '%' || c == '=')
  }

  lemma {:induction false} PlainIsNoTerminator(c: char)
    requires Plain(c)
    ensures c !in URL_TERMINATORS
  {
  }

  // A needle is sound when its first byte does not come again.
  lemma {:induction false} SoundFrom(rule: Rule, first: char, rest: Bytes)
    requires rule.needle == [first] + rest && first != X && X !in rule.terminators
    requires forall c | c in rest :: c != X && c != first
    ensures Sound(rule)
    ensures Plain(first) && (forall c | c in rest :: Plain(c)) ==> forall c | c in rule.needle :: Plain(c)
  {
    forall k | 0 < k < |rule.needle|
      ensures rule.needle[k] != rule.needle[0]
    {
      assert rule.needle[k] == rest[k - 1] && rest[k - 1] in rest;
    }
  }

  lemma {:induction false} ApiKeyIsSound()
    ensures Sound(API_KEY) && forall c | c in API_KEY.needle :: Plain(c)
  {
    var rest := "pi_key=";
    assert API_KEY.needle == ['a'] + rest;
    assert forall c | c in rest :: Plain(c) && c != 'a';
    SoundFrom(API_KEY, 'a', rest);
  }

  const TOKEN_ENCODED_REST: Bytes := "-MediaBrowser-Token%3D"

  lemma {:induction false} TokenEncodedRest()
    ensures forall c | c in TOKEN_ENCODED_REST :: Plain(c) && c != 'X'
  {
  }

  lemma {:induction false} TokenEncodedSplit()
    ensures TOKEN_ENCODED.needle == ['X'] + TOKEN_ENCODED_REST
  {
  }

  lemma {:induction false} TokenEncodedIsSound()
    ensures Sound(TOKEN_ENCODED) && forall c | c in TOKEN_ENCODED.needle :: Plain(c)
  {
    TokenEncodedRest();
    TokenEncodedSplit();
    SoundFrom(TOKEN_ENCODED, 'X', TOKEN_ENCODED_REST);
  }

  const TOKEN_REST: Bytes := "-MediaBrowser-Token="

  lemma {:induction false} TokenRest()
    ensures forall c | c in TOKEN_REST :: Plain(c) && c != 'X'
  {
  }

  lemma {:induction false} TokenSplit()
    ensures TOKEN.needle == ['X'] + TOKEN_REST
  {
  }

  lemma {:induction false} TokenIsSound()
    ensures Sound(TOKEN) && forall c | c in TOKEN.needle :: Plain(c)
  {
    TokenRest();
    TokenSplit();
    SoundFrom(TOKEN, 'X', TOKEN_REST);
  }

  lemma {:induction false} ApiKeyCamelIsSound()
    ensures Sound(API_KEY_CAMEL) && forall c | c in API_KEY_CAMEL.needle :: Plain(c)
  {
    var rest := "piKey=";
    assert API_KEY_CAMEL.needle == ['A'] + rest;
    assert forall c | c in rest :: Plain(c) && c != 'A';
    SoundFrom(API_KEY_CAMEL, 'A', rest);
  }

  lemma {:induction false} AccessTokenIsSound()
    ensures Sound(ACCESS_TOKEN) && forall c | c in ACCESS_TOKEN.needle :: Plain(c)
  {
    var rest := "ccessToken=";
    assert ACCESS_TOKEN.needle == ['A'] + rest;
    assert forall c | c in rest :: Plain(c) && c != 'A';
    SoundFrom(ACCESS_TOKEN, 'A', rest);
  }

  lemma {:induction false} AccessTokenJsonIsSound()
    ensures Sound(ACCESS_TOKEN_JSON)
  {
    var rest := "ccessToken\":\"";
    assert ACCESS_TOKEN_JSON.needle == ['A'] + rest;
    assert forall c | c in rest :: c != X && c != 'A';
    SoundFrom(ACCESS_TOKEN_JSON, 'A', rest);
  }

  // Only the last rule has terminators of its own, and they are among the others'.
  lemma {:induction false} RuleRunsThrough(earlier: Rule, later: Rule)
    requires earlier.terminators == URL_TERMINATORS && later.terminators in [URL_TERMINATORS, JSON_TERMINATORS]
    requires forall c | c in earlier.needle :: Plain(c)
    ensures RunsThrough(earlier, later)
  {
    forall c | c in earlier.needle
      ensures c !in URL_TERMINATORS
    {
      PlainIsNoTerminator(c);
    }
    JsonTerminates();
  }

  lemma {:induction false} JsonTerminates()
    ensures forall c | c in JSON_TERMINATORS :: c in URL_TERMINATORS
  {
  }

  // All rules but the last.
  lemma {:induction false} EarlierRule(j: nat)
    requires j < |RULES| - 1
    ensures Sound(RULES[j]) && RULES[j].terminators == URL_TERMINATORS && forall c | c in RULES[j].needle :: Plain(c)
  {
    ApiKeyIsSound();
    TokenEncodedIsSound();
    TokenIsSound();
    ApiKeyCamelIsSound();
    AccessTokenIsSound();
  }

  lemma {:induction false} RulesAreCompatible()
    ensures Compatible(RULES)
  {
    AccessTokenJsonIsSound();
    forall k | 0 <= k < |RULES|
      ensures Sound(RULES[k])
    {
      if k < |RULES| - 1 {
        EarlierRule(k);
      }
    }
    forall j, k | 0 <= j < k < |RULES|
      ensures RunsThrough(RULES[j], RULES[k])
    {
      EarlierRule(j);
      if k < |RULES| - 1 {
        EarlierRule(k);
      }
      RuleRunsThrough(RULES[j], RULES[k]);
    }
  }

  // The censored buffer, byte by byte: 'x' exactly where the output has a token
  // under one of the six rules, and untouched everywhere else. So every needle
  // left in it is followed by nothing but 'x' up to its rule's terminator, for
  // all rules at once, and nothing but tokens changed.
  lemma {:induction false} CensorRedacts(s: Bytes)
    ensures Redacted(s, Censor(s), RULES)
  {
    RulesAreCompatible();
    CensorSettles(s, RULES);
    SettledIsRedacted(s, Censor(s), RULES);
  }

  lemma {:induction false} CensorIsIdempotent(s: Bytes)
    ensures Censor(Censor(s)) == Censor(s)
  {
    RulesAreCompatible();
    CensorSettles(s, RULES);
    CensorOfRedacted(Censor(s), RULES, RULES);
  }

  function Censor(s: Bytes): (r: Bytes)
    ensures |r| == |s|
  {
    CensorWith(s, RULES)
  }

  // ----- the gate in front of it -----

  // The log writer censors a record only when this answers yes. It looks at
  // each needle's first occurrence alone.
  predicate FirstTokenOpen(s: Bytes, rule: Rule) {
    match Find(s, rule.needle, 0)
    case None => false
    case Some(pos) =>
      var tokenStart := pos + |rule.needle|;
      tokenStart < |s| && s[tokenStart] !in rule.terminators
  }

  predicate ContainsSecret(s: Bytes) {
    exists k | 0 <= k < |RULES| :: FirstTokenOpen(s, RULES[k])
  }

  function Gated(s: Bytes): Bytes {
    if ContainsSecret(s) then Censor(s) else s
  }

  // A token byte in the clear behind an occurrence that is not its needle's
  // first.
  ghost predicate LaterTokenInClear(s: Bytes) {
    exists k, p, i | 0 <= k < |RULES| && InToken(s, RULES[k], p, i) ::
      s[i] != X && Find(s, RULES[k].needle, 0) != Some(p)
  }

  // The gate leaves a record redacted except exactly when no needle's first
  // occurrence has a token and a later one has a token in the clear.
  lemma {:induction false} GateRedactsUnless(s: Bytes)
    ensures Redacted(s, Gated(s), RULES) <==> ContainsSecret(s) || !LaterTokenInClear(s)
  {
    CensorRedacts(s);
    if !ContainsSecret(s) {
      if LaterTokenInClear(s) {
        var k, p, i :| 0 <= k < |RULES| && InToken(s, RULES[k], p, i) && s[i] != X && Find(s, RULES[k].needle, 0) != Some(p);
        assert Covered(s, RULES[k], i);
        assert CoveredByAny(s, RULES, i);
        assert !Redacted(s, s, RULES);
      } else {
        forall i | 0 <= i < |s| && CoveredByAny(s, RULES, i)
          ensures s[i] == X
        {
          var k :| 0 <= k < |RULES| && Covered(s, RULES[k], i);
          var p :| InToken(s, RULES[k], p, i);
          FirstTokenIsOpen(s, RULES[k], p, i);
        }
      }
    }
  }

  lemma {:induction false} FirstTokenIsOpen(s: Bytes, rule: Rule, p: int, i: int)
    requires InToken(s, rule, p, i)
    ensures Find(s, rule.needle, 0).Some?
    ensures Find(s, rule.needle, 0) == Some(p) ==> FirstTokenOpen(s, rule)
  {
  }

  const SAMPLE: Bytes := "api_key=&api_key=k"

  // A record the gate lets through with its token in the clear.
  lemma {:induction false} GateMissesSecondToken()
    ensures !Redacted(SAMPLE, Gated(SAMPLE), RULES)
  {
    SampleTokens();
    SamplePassesGate();
    var k, p, i := 0, 9, 17;
    assert RULES[k] == API_KEY;
    assert InToken(SAMPLE, RULES[k], p, i) && SAMPLE[i] != X && Find(SAMPLE, RULES[k].needle, 0) != Some(p);
    GateRedactsUnless(SAMPLE);
  }

  lemma {:induction false} SampleTokens()
    ensures Find(SAMPLE, API_KEY.needle, 0) == Some(0) && !FirstTokenOpen(SAMPLE, API_KEY)
    ensures InToken(SAMPLE, API_KEY, 9, 17) && SAMPLE[17] == 'k'
  {
    assert SAMPLE[0..8] == "api_key=";
    assert SAMPLE[9..17] == "api_key=";
    assert OccursAt(SAMPLE, API_KEY.needle, 0) && OccursAt(SAMPLE, API_KEY.needle, 9);
    assert SAMPLE[8] == '&' && '&' in URL_TERMINATORS;
  }

  lemma {:induction false} SamplePassesGate()
    ensures !ContainsSecret(SAMPLE)
  {
    SampleTokens();
    forall k | 0 <= k < |RULES|
      ensures !FirstTokenOpen(SAMPLE, RULES[k])
    {
      if k > 0 {
        var found := Find(SAMPLE, RULES[k].needle, 0);
        if found.Some? {
          OtherNeedles(SAMPLE, k, found.value);
        }
      }
    }
  }

  // The other needles hold a capital letter, and the record holds none.
  lemma {:induction false} OtherNeedles(s: Bytes, k: nat, p: int)
    requires s == SAMPLE && 0 < k < |RULES|
    ensures !OccursAt(s, RULES[k].needle, p)
  {
    if OccursAt(s, RULES[k].needle, p) {
      NeedleAt(s, RULES[k].needle, p, 0);
    }
  }

  // ----- in place -----

  // One turn of the scan.
  method FirstTokenOpenAt(buf: array<char>, rule: Rule) returns (open: bool)
    ensures open <==> FirstTokenOpen(buf[..], rule)
  {
    var pos := Find(buf[..], rule.needle, 0);
    if pos.None? {
      return false;
    }
    var tokenStart := pos.value + |rule.needle|;
    return tokenStart < buf.Length && buf[tokenStart] !in rule.terminators;
  }

  method ContainsSecretScan(buf: array<char>) returns (found: bool)
    ensures found <==> ContainsSecret(buf[..])
  {
    ghost var bytes := buf[..];
    var k := 0;
    while k < |RULES|
      invariant 0 <= k <= |RULES| && bytes == buf[..]
      invariant forall j | 0 <= j < k :: !FirstTokenOpen(bytes, RULES[j])
    {
      var open := FirstTokenOpenAt(buf, RULES[k]);
      if open {
        return true;
      }
      k := k + 1;
    }
    return false;
  }

  method Elide(buf: array<char>, rule: Rule)
    requires rule.needle != ""
    modifies buf
    ensures buf[..] == ElideFrom(old(buf[..]), rule, 0)
  {
    ghost var goal := ElideFrom(buf[..], rule, 0);
    var start := 0;
    var found := Find(buf[..], rule.needle, start);
    while found.Some?
      invariant 0 <= start <= buf.Length && found == Find(buf[..], rule.needle, start)
      invariant ElideFrom(buf[..], rule, start) == goal
      decreases buf.Length - start
    {
      ghost var held := buf[..];
      var tokenStart := found.value + |rule.needle|;
      var tokenEnd := TokenEnd(buf[..], tokenStart, rule.terminators);
      Overwrite(buf, tokenStart, tokenEnd);
      ElideStep(held, rule, start, found.value, buf[..], tokenEnd);
      start := tokenEnd;
      found := Find(buf[..], rule.needle, start);
    }
  }

  lemma {:induction false} ElideStep(s: Bytes, rule: Rule, start: nat, pos: nat, filled: Bytes, next: nat)
    requires start <= |s| && rule.needle != "" && Find(s, rule.needle, start) == Some(pos)
    requires next == TokenEnd(s, pos + |rule.needle|, rule.terminators) && filled == Fill(s, pos + |rule.needle|, next)
    ensures start < next <= |filled| && ElideFrom(s, rule, start) == ElideFrom(filled, rule, next)
  {
    assert ElideOne(s, rule, start) == Some((filled, next));
  }

  method Overwrite(buf: array<char>, tokenStart: nat, tokenEnd: nat)
    requires tokenStart <= tokenEnd <= buf.Length
    modifies buf
    ensures buf[..] == Fill(old(buf[..]), tokenStart, tokenEnd)
  {
    ghost var before := buf[..];
    var b := tokenStart;
    while b < tokenEnd
      invariant tokenStart <= b <= tokenEnd
      invariant forall i | 0 <= i < buf.Length :: buf[i] == if tokenStart <= i < b then X else before[i]
    {
      buf[b] := X;
      b := b + 1;
    }
    assert buf[..] == Fill(before, tokenStart, tokenEnd);
  }

  // `censor`: the six passes in their order, on the one buffer.
  method CensorInPlace(buf: array<char>)
    modifies buf
    ensures buf[..] == Censor(old(buf[..]))
  {
    ghost var before := buf[..];
    var k := 0;
    while k < |RULES|
      invariant 0 <= k <= |RULES|
      invariant buf[..] == CensorWith(before, RULES[..k])
    {
      assert RULES[..k + 1][..k] == RULES[..k];
      Elide(buf, RULES[k]);
      k := k + 1;
    }
    assert RULES[..k] == RULES;
  }
}
