/**
 Making sense of a model's answer. The JSON decoder is an oracle: an answer comes as what
 it decodes to. Scores are forced into the ranges the score table allows, and variants are
 reduced to those the variant table accepts.
 */
module AiParse {
  import opened Wrappers
  import opened Text

  const MAX_CAPTION := 2200
  const MAX_REASON := 1000

  datatype NewsScore = NewsScore(
    importance: int,
    virality: int,
    accountFit: string,
    shouldNotify: bool,
    risk: string,
    reason: string)

  datatype PostVariant = PostVariant(no: int, style: string, caption: string)

  /** What a response decodes to, read as an object holding variants and read as a bare array. */
  datatype Document = Document(envelope: Option<seq<PostVariant>>, bare: Option<seq<PostVariant>>)

  // ---- scores ----

  function Clamp(v: int, lo: int, hi: int): int {
    if v < lo then lo else if v > hi then hi else v
  }

  predicate KnownFit(fit: string) {
    fit in {"technology", "cinema", "news", "economy", "skip"}
  }

  predicate KnownRisk(risk: string) {
    risk in {"low", "medium", "high"}
  }

  /** What the column types and the CHECK constraints of news_scores ask. */
  predicate StorableScore(s: NewsScore) {
    && 0 <= s.importance <= 100 && 0 <= s.virality <= 100 && KnownFit(s.accountFit) && KnownRisk(s.risk)
    && FitsText(s.reason)
  }

  /** An answer that does not decode, or names an unknown category or risk, is refused. */
  function ParseScore(decoded: Option<NewsScore>): Option<NewsScore> {
    if decoded.None? then None
    else
      var raw := decoded.value;
      var fit := if raw.accountFit == "" then "skip" else raw.accountFit;
      var risk := if raw.risk == "" then "low" else raw.risk;
      if !KnownFit(fit) || !KnownRisk(risk) then None
      else
        Some(NewsScore(Clamp(raw.importance, 0, 100), Clamp(raw.virality, 0, 100), fit, raw.shouldNotify, risk,
                       if |raw.reason| > MAX_REASON then raw.reason[..MAX_REASON] else raw.reason))
  }

  /**
   A parsed score can be stored if and only if the reason that is kept holds no U+0000; nothing
   else can stop it. A storable answer is taken as it is (but for a long reason) and stays
   storable, and parsing what was parsed changes nothing.
   */
  lemma ParsedScoreIsStorable(decoded: Option<NewsScore>)
    ensures var parsed := ParseScore(decoded);
            && (parsed.Some? ==>
                  && (StorableScore(parsed.value) <==> FitsText(parsed.value.reason))
                  && |parsed.value.reason| <= MAX_REASON
                  && ParseScore(parsed) == parsed)
            && (decoded.Some? && StorableScore(decoded.value) ==>
                  && parsed.Some? && parsed.value == decoded.value.(reason := parsed.value.reason)
                  && parsed.value.reason <= decoded.value.reason && StorableScore(parsed.value))
  {
  }

  /**
   Exactly which answers are refused, and what becomes of each field of one that is not: numbers
   are moved into 0 to 100, an absent category or risk gets its default, and a reason is cut off
   after its first 1000 characters.
   */
  lemma ParsedScoreByField(decoded: Option<NewsScore>)
    ensures var parsed := ParseScore(decoded);
            && (parsed.Some? <==>
                  && decoded.Some?
                  && decoded.value.accountFit in {"", "technology", "cinema", "news", "economy", "skip"}
                  && decoded.value.risk in {"", "low", "medium", "high"})
            && (parsed.Some? ==>
                  var raw, s := decoded.value, parsed.value;
                  && (raw.importance < 0 ==> s.importance == 0) && (raw.importance > 100 ==> s.importance == 100)
                  && (0 <= raw.importance <= 100 ==> s.importance == raw.importance)
                  && (raw.virality < 0 ==> s.virality == 0) && (raw.virality > 100 ==> s.virality == 100)
                  && (0 <= raw.virality <= 100 ==> s.virality == raw.virality)
                  && s.accountFit == (if raw.accountFit == "" then "skip" else raw.accountFit)
                  && s.risk == (if raw.risk == "" then "low" else raw.risk)
                  && s.shouldNotify == raw.shouldNotify
                  && s.reason <= raw.reason && |s.reason| == (if |raw.reason| > 1000 then 1000 else |raw.reason|))
  {
  }

  // ---- variants ----

  /** Length is counted in characters. */
  predicate Acceptable(v: PostVariant) {
    !IsBlank(v.caption) && |v.caption| <= MAX_CAPTION
  }

  /** The acceptable variants in their order, renumbered from one. */
  function Normalized(vs: seq<PostVariant>): seq<PostVariant> {
    if vs == [] then []
    else
      var front, last := Normalized(vs[..|vs| - 1]), vs[|vs| - 1];
      if Acceptable(last) then front + [last.(no := |front| + 1)] else front
  }

  method NormalizeVariants(vs: seq<PostVariant>) returns (out: seq<PostVariant>)
    ensures out == Normalized(vs)
  {
    out := [];
    for i := 0 to |vs|
      invariant out == Normalized(vs[..i])
    {
      assert vs[..i + 1][..i] == vs[..i];
      if !IsBlank(vs[i].caption) && |vs[i].caption| <= MAX_CAPTION {
        out := out + [vs[i].(no := |out| + 1)];
      }
    }
    assert vs[..|vs|] == vs;
  }

  /** Which of the given variants the k-th kept one is: positions[k] is its index. */
  ghost predicate KeptAt(vs: seq<PostVariant>, out: seq<PostVariant>, positions: seq<nat>) {
    && |positions| == |out|
    && (forall k :: 0 <= k < |out| ==>
          && positions[k] < |vs| && Acceptable(vs[positions[k]])
          && !IsBlank(vs[positions[k]].caption) && |vs[positions[k]].caption| <= 2200
          && out[k] == vs[positions[k]].(no := k + 1))
    && (forall k, m :: 0 <= k < m < |out| ==> positions[k] < positions[m])
    && (forall i :: 0 <= i < |vs| && !IsBlank(vs[i].caption) && |vs[i].caption| <= 2200 ==> i in positions)
  }

  /** Normalising keeps exactly the acceptable variants, in order, numbered 1, 2, 3 and so on. */
  lemma {:induction false} NormalizedKeepsTheAcceptable(vs: seq<PostVariant>) returns (positions: seq<nat>)
    ensures KeptAt(vs, Normalized(vs), positions)
  {
    if vs == [] { return []; }
    var n := |vs| - 1;
    var front, last := vs[..n], vs[n];
    positions := NormalizedKeepsTheAcceptable(front);
    assert vs == front + [last];
    hide IsBlank;
    if Acceptable(last) {
      OneMoreKept(front, Normalized(front), positions, last);
      positions := positions + [n];
    } else {
      OneLeftOut(front, Normalized(front), positions, last);
    }
  }

  lemma OneMoreKept(front: seq<PostVariant>, out: seq<PostVariant>, positions: seq<nat>, last: PostVariant)
    requires KeptAt(front, out, positions) && Acceptable(last)
    ensures KeptAt(front + [last], out + [last.(no := |out| + 1)], positions + [|front|])
  {
    hide IsBlank;
    var vs, positions' := front + [last], positions + [|front|];
    assert positions'[|positions|] == |front| && forall k :: 0 <= k < |positions| ==> positions'[k] == positions[k];
    forall i | 0 <= i < |vs| && Acceptable(vs[i])
      ensures i in positions'
    {
      if i < |front| { assert vs[i] == front[i] && i in positions; }
    }
  }

  lemma OneLeftOut(front: seq<PostVariant>, out: seq<PostVariant>, positions: seq<nat>, last: PostVariant)
    requires KeptAt(front, out, positions) && !Acceptable(last)
    ensures KeptAt(front + [last], out, positions)
  {
    hide IsBlank;
    var vs := front + [last];
    forall i | 0 <= i < |vs| && Acceptable(vs[i])
      ensures i in positions
    {
      assert i < |front| && vs[i] == front[i];
    }
  }

  /** The documented envelope is preferred; a bare array is taken too. None is a parse error. */
  function ParseVariants(doc: Document): Option<seq<PostVariant>> {
    if doc.envelope.Some? && doc.envelope.value != [] then Some(Normalized(doc.envelope.value))
    else if doc.bare.Some? && doc.bare.value != [] then Some(Normalized(doc.bare.value))
    else None
  }

  /** The envelope counts if it holds variants at all, even if none of them is acceptable. */
  lemma EnvelopeIsPreferred(doc: Document)
    ensures doc.envelope.Some? && doc.envelope.value != [] ==>
              ParseVariants(doc) == Some(Normalized(doc.envelope.value))
    ensures (doc.envelope.None? || doc.envelope.value == []) && doc.bare.Some? && doc.bare.value != [] ==>
              ParseVariants(doc) == Some(Normalized(doc.bare.value))
    ensures ParseVariants(doc).None? <==>
              (doc.envelope.None? || doc.envelope.value == []) && (doc.bare.None? || doc.bare.value == [])
  {
  }
}
