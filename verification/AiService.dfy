/**
 The ordered provider chain and what the pipeline can rely on when it succeeds: exactly
 the requested number of variants, from the first provider with an acceptable answer, in a
 form the variant table always accepts.
 */
module AiService {
  import opened Wrappers
  import opened Text
  import opened AiParse
  import PostTables

  /** One provider and what its calls would answer now; None is a failed call. */
  datatype Provider = Provider(
    name: string,
    available: bool,
    score: Option<NewsScore>,
    variants: Option<Document>)

  datatype VariantsResult = VariantsResult(variants: seq<PostVariant>, provider: string)

  datatype ScoreResult = ScoreResult(score: NewsScore, provider: string)

  /** The first success wins; None is the failure of all providers. */
  function ScoreNews(providers: seq<Provider>): Option<ScoreResult> {
    if providers == [] then None
    else
      var p := providers[0];
      var parsed := ParseScore(p.score);
      if p.available && parsed.Some? then Some(ScoreResult(parsed.value, p.name))
      else ScoreNews(providers[1..])
  }

  function Answer(p: Provider): Option<seq<PostVariant>> {
    if p.variants.None? then None else ParseVariants(p.variants.value)
  }

  function GeneratePostVariants(providers: seq<Provider>, count: nat): Option<VariantsResult> {
    if providers == [] then None
    else
      var p := providers[0];
      var answer := Answer(p);
      if !p.available || answer.None? || answer.value == [] || |answer.value| != count then
        GeneratePostVariants(providers[1..], count)
      else Some(VariantsResult(answer.value, p.name))
  }

  // ---- the first acceptable provider ----

  predicate Serves(p: Provider, count: nat) {
    && p.available && p.variants.Some? && ParseVariants(p.variants.value).Some?
    && |ParseVariants(p.variants.value).value| == count > 0
  }

  /** Generation succeeds if and only if some provider serves, and then the first that does has answered. */
  lemma {:induction false} FirstServingProviderAnswers(providers: seq<Provider>, count: nat)
    ensures GeneratePostVariants(providers, count).Some? <==>
            exists i :: 0 <= i < |providers| && Serves(providers[i], count)
    ensures GeneratePostVariants(providers, count).Some? ==>
              exists i :: 0 <= i < |providers| && Serves(providers[i], count)
                          && (forall k :: 0 <= k < i ==> !Serves(providers[k], count))
                          && GeneratePostVariants(providers, count).value
                                == VariantsResult(ParseVariants(providers[i].variants.value).value, providers[i].name)
  {
    if providers != [] {
      var tail := providers[1..];
      FirstServingProviderAnswers(tail, count);
      if Serves(providers[0], count) {
      } else {
        if exists i :: 0 <= i < |providers| && Serves(providers[i], count) {
          var i :| 0 <= i < |providers| && Serves(providers[i], count);
          assert tail[i - 1] == providers[i];
        }
        if GeneratePostVariants(providers, count).Some? {
          var i :| 0 <= i < |tail| && Serves(tail[i], count) && (forall k :: 0 <= k < i ==> !Serves(tail[k], count))
                   && GeneratePostVariants(tail, count).value == VariantsResult(Answer(tail[i]).value, tail[i].name);
          forall k | 0 <= k < i + 1
            ensures !Serves(providers[k], count)
          {
            if k > 0 { assert providers[k] == tail[k - 1]; }
          }
          assert providers[i + 1] == tail[i];
        }
      }
    }
  }

  /**
   The first available provider that parses wins. Its score can be stored if and only if its
   reason holds no U+0000; no other provider is asked when it cannot.
   */
  lemma {:induction false} FirstScoreWins(providers: seq<Provider>)
    ensures ScoreNews(providers).Some? <==> exists i :: 0 <= i < |providers| && Scores(providers[i])
    ensures ScoreNews(providers).Some? ==>
              && var best := ScoreNews(providers).value;
              && (StorableScore(best.score) <==> FitsText(best.score.reason))
              && exists i: nat :: ScoredBy(providers, i) && best.provider == providers[i].name
                                  && Some(best.score) == ParseScore(providers[i].score)
  {
    hide ParseScore, StorableScore, FitsText;
    if providers != [] {
      var tail := providers[1..];
      ParsedScoreIsStorable(providers[0].score);
      FirstScoreWins(tail);
      if Scores(providers[0]) {
        assert ScoredBy(providers, 0);
      } else if ScoreNews(providers).Some? {
        var i: nat :| ScoredBy(tail, i) && ScoreNews(tail).value.provider == tail[i].name
                      && Some(ScoreNews(tail).value.score) == ParseScore(tail[i].score);
        ScoredByLater(providers, i);
      } else {
        assert forall i :: 0 < i < |providers| ==> providers[i] == tail[i - 1];
      }
    }
  }

  /** A reason the parser accepts and the score table refuses, with a provider behind it that would have done. */
  lemma NulScoreWins()
    ensures var bad := NewsScore(50, 50, "news", true, "low", "a\0");
            var first, second := Provider("tgpt", true, Some(bad), None),
                                 Provider("ollama", true, Some(bad.(reason := "a")), None);
            && ScoreNews([first, second]) == Some(ScoreResult(bad, "tgpt")) && !StorableScore(bad)
            && ParseScore(second.score).Some? && StorableScore(ParseScore(second.score).value)
  {
    var bad := NewsScore(50, 50, "news", true, "low", "a\0");
    assert bad.reason[1] == '\0';
    assert 50 == Clamp(50, 0, 100) && ParseScore(Some(bad)) == Some(bad);
  }

  /** Provider i is the first that scores. */
  ghost predicate ScoredBy(providers: seq<Provider>, i: nat) {
    i < |providers| && Scores(providers[i]) && forall k :: 0 <= k < i ==> !Scores(providers[k])
  }

  lemma ScoredByLater(providers: seq<Provider>, i: nat)
    requires providers != [] && !Scores(providers[0]) && ScoredBy(providers[1..], i)
    ensures ScoredBy(providers, i + 1) && providers[i + 1] == providers[1..][i]
  {
    hide Scores;
    forall k | 0 <= k < i + 1
      ensures !Scores(providers[k])
    {
      if k > 0 { assert providers[k] == providers[1..][k - 1]; }
    }
  }

  predicate Scores(p: Provider) {
    p.available && ParseScore(p.score).Some?
  }

  // ---- what the variant table makes of it ----

  function ToRows(vs: seq<PostVariant>): seq<PostTables.NewVariant> {
    seq(|vs|, i requires 0 <= i < |vs| => PostTables.NewVariant(vs[i].no, vs[i].style, vs[i].caption))
  }

  /** The table has no column type for a text that holds U+0000; the decoder lets it through. */
  predicate AllFit(vs: seq<PostVariant>) {
    forall k :: 0 <= k < |vs| ==> FitsText(vs[k].caption) && FitsText(vs[k].style)
  }

  /** Whatever a response decodes to, its variants meet every CHECK and UNIQUE constraint; only U+0000 can stop them. */
  lemma AnswersAreStorable(doc: Document)
    requires ParseVariants(doc).Some?
    ensures var vs := ParseVariants(doc).value;
            && (PostTables.WellNumbered(ToRows(vs)) <==> AllFit(vs))
            && forall k :: 0 <= k < |vs| ==> vs[k].no == k + 1 && !IsBlank(vs[k].caption)
  {
    var raw := if doc.envelope.Some? && doc.envelope.value != [] then doc.envelope.value else doc.bare.value;
    var positions := NormalizedKeepsTheAcceptable(raw);
    var vs := Normalized(raw);
    forall k | 0 <= k < |vs|
      ensures vs[k].no == k + 1 && Acceptable(vs[k]) && 1 <= |vs[k].caption|
    {
      assert vs[k] == raw[positions[k]].(no := k + 1);
    }
    if PostTables.WellNumbered(ToRows(vs)) {
      forall k | 0 <= k < |vs|
        ensures FitsText(vs[k].caption) && FitsText(vs[k].style)
      {
        assert FitsText(ToRows(vs)[k].caption) && FitsText(ToRows(vs)[k].style);
      }
    }
  }

  /** The rows that numbered variants become. */
  lemma StoredRows(db: PostTables.Tables, id: PostTables.JobId, vs: seq<PostVariant>,
                   after: map<PostTables.VariantId, PostTables.Variant>)
    requires forall v :: v in db.variants ==> v < db.nextVariant
    requires forall k :: 0 <= k < |vs| ==> vs[k].no == k + 1
    requires after == PostTables.InsertAll(PostTables.WithoutJob(db.variants, id), db.nextVariant, id, ToRows(vs))
    ensures forall v :: db.nextVariant <= v < db.nextVariant + |vs| ==>
              && v in after
              && var k := v - db.nextVariant;
                 after[v] == PostTables.Variant(id, k + 1, vs[k].style, vs[k].caption, PostTables.Blank)
    ensures forall v :: v in after && after[v].job == id ==> db.nextVariant <= v < db.nextVariant + |vs|
  {
    PostTables.InsertAllAt(PostTables.WithoutJob(db.variants, id), db.nextVariant, id, ToRows(vs));
    hide PostTables.InsertAll;
    forall v | db.nextVariant <= v < db.nextVariant + |vs|
      ensures v in after && after[v] == PostTables.Inserted(id, ToRows(vs)[v - db.nextVariant])
    {
      assert after[db.nextVariant + (v - db.nextVariant)] == PostTables.Inserted(id, ToRows(vs)[v - db.nextVariant]);
    }
  }

  /**
   A generation that succeeds yields exactly the requested number of variants, numbered 1 to n
   with non-blank captions, so there is a first one to ask for approval with. Storing them for an
   existing job succeeds if and only if no text holds U+0000, and then the job has exactly these rows.
   */
  lemma GeneratedVariantsCanBeStored(providers: seq<Provider>, count: nat, db: PostTables.Tables, id: PostTables.JobId)
    requires GeneratePostVariants(providers, count).Some?
    requires id in db.jobs && forall v :: v in db.variants ==> v < db.nextVariant
    ensures var vs := GeneratePostVariants(providers, count).value.variants;
            var e := PostTables.ReplaceVariants(db, id, ToRows(vs));
            && |vs| == count >= 1
            && (forall k :: 0 <= k < count ==> vs[k].no == k + 1 && !IsBlank(vs[k].caption))
            && (e.outcome == PostTables.Committed <==> AllFit(vs))
            && (AllFit(vs) ==> forall v :: db.nextVariant <= v < db.nextVariant + count ==>
                  && v in e.db.variants
                  && var k := v - db.nextVariant;
                     e.db.variants[v] == PostTables.Variant(id, k + 1, vs[k].style, vs[k].caption, PostTables.Blank))
            && (AllFit(vs) ==> forall v :: v in e.db.variants && e.db.variants[v].job == id ==>
                  db.nextVariant <= v < db.nextVariant + count)
  {
    FirstServingProviderAnswers(providers, count);
    var vs := GeneratePostVariants(providers, count).value.variants;
    var i :| 0 <= i < |providers| && Serves(providers[i], count)
             && GeneratePostVariants(providers, count).value
                   == VariantsResult(ParseVariants(providers[i].variants.value).value, providers[i].name);
    AnswersAreStorable(providers[i].variants.value);
    hide Normalized, PostTables.WellNumbered, Acceptable, AllFit;
    if AllFit(vs) { StoredRows(db, id, vs, PostTables.ReplaceVariants(db, id, ToRows(vs)).db.variants); }
  }

  /** The condition is not idle: a provider may answer with a caption that the parser accepts and the table refuses. */
  lemma NulIsGeneratedAndRefused(db: PostTables.Tables, id: PostTables.JobId)
    ensures var v := PostVariant(1, "", "a\0");
            var p := Provider("tgpt", true, None, Some(Document(Some([v]), None)));
            && GeneratePostVariants([p], 1) == Some(VariantsResult([v], "tgpt"))
            && PostTables.ReplaceVariants(db, id, ToRows([v])).outcome == PostTables.ConstraintViolation
  {
    var v := PostVariant(1, "", "a\0");
    assert [v][..0] == [] && Normalized([v]) == [v] by { assert v.caption[0] == 'a'; }
    assert v.caption[1] == '\0';
    assert !FitsText(ToRows([v])[0].caption);
  }
}
