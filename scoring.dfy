/**
  The per-article risk scorer (services/scoring.py): for every category of the
  taxonomy, a blend of negative sentiment, keyword presence and the severity
  reported by the enrichment collaborator, clamped to 1 and rounded to four
  decimals.
*/
module Scoring {
  import opened Wrappers
  import opened Strings
  import opened Rounding
  import opened Nlp

  /**
    The enrichment metadata dict `{categories, summary, severity}`; a field is
    `None` when its key is missing or its value is null.
  */
  datatype Meta = Meta(categories: Option<seq<string>>, summary: Option<string>, severity: Option<string>)

  /** The empty dict `{}`. */
  const EmptyMeta: Meta := Meta(None, None, None)

  /** What the enrichment collaborator returns when its call fails. */
  const FallbackMeta: Meta := Meta(Some([]), Some(""), Some("unknown"))

  function Min(a: real, b: real): real
  {
    if a <= b then a else b
  }

  /** `max(0.0, -polarity)`: only negative sentiment contributes. */
  function SentimentRisk(polarity: real): (r: real)
    ensures r >= 0.0
    ensures polarity >= 0.0 ==> r == 0.0
    ensures polarity < 0.0 ==> r == -polarity
  {
    if -polarity > 0.0 then -polarity else 0.0
  }

  /** The severity text, `(openai_meta.get("severity") or "").lower()`, with `None` metadata read as `{}`. */
  function Severity(meta: Option<Meta>): (sev: string)
    ensures meta.None? || meta.value.severity.None? ==> sev == ""
    ensures meta.Some? && meta.value.severity.Some? ==> sev == Lower(meta.value.severity.value)
    ensures forall i :: 0 <= i < |sev| ==> !('A' <= sev[i] <= 'Z')
  {
    Lower(meta.GetOr(EmptyMeta).severity.GetOr(""))
  }

  /** 0.5 for "high", 0.25 for "medium", 0 for anything else. */
  function SeverityBoost(meta: Option<Meta>): (boost: real)
    ensures 0.0 <= boost <= 0.5
    ensures boost == 0.5 <==> Severity(meta) == "high"
    ensures boost == 0.25 <==> Severity(meta) == "medium"
    ensures boost == 0.0 <==> Severity(meta) != "high" && Severity(meta) != "medium"
  {
    var sev := Severity(meta);
    if sev == "high" then 0.5 else if sev == "medium" then 0.25 else 0.0
  }

  /** `cat in (keyword_tags or {})`. */
  predicate Tagged(tags: Option<Tags>, cat: string)
    ensures Tagged(tags, cat) <==> tags.Some? && exists k :: 0 <= k < |tags.value| && tags.value[k].0 == cat
  {
    cat in TagKeys(tags.GetOr([]))
  }

  /** `min(1.0, k_hits * 0.4)` with `k_hits` 1 or 0. */
  function KeywordContribution(present: bool): (c: real)
    ensures present ==> c == 0.4
    ensures !present ==> c == 0.0
  {
    Min(1.0, (if present then 1.0 else 0.0) * 0.4)
  }

  /** `round(min(1.0, base), 4)` for one category. */
  function CategoryScore(polarity: real, present: bool, boost: real): (score: real)
    requires 0.0 <= boost
    ensures 0.0 <= score <= 1.0
  {
    var base := SentimentRisk(polarity) * 0.6 + KeywordContribution(present) + boost * 0.4;
    Round4Unit(Min(1.0, base));
    Round4(Min(1.0, base))
  }

  /**
    `score_article(polarity, keyword_tags, openai_meta)`: one score per category
    of the taxonomy, in taxonomy order, each in [0, 1].
  */
  function ScoreArticle(tax: Taxonomy, polarity: real, tags: Option<Tags>, meta: Option<Meta>): (scores: seq<(string, real)>)
    ensures |scores| == |tax|
    ensures forall i :: 0 <= i < |tax| ==> scores[i].0 == tax[i].0
    ensures forall i :: 0 <= i < |tax| ==> 0.0 <= scores[i].1 <= 1.0
  {
    var boost := SeverityBoost(meta);
    seq(|tax|, i requires 0 <= i < |tax| => (tax[i].0, CategoryScore(polarity, Tagged(tags, tax[i].0), boost)))
  }

  /** The score of category `i`, spelled out. */
  lemma ScoreAt(tax: Taxonomy, polarity: real, tags: Option<Tags>, meta: Option<Meta>, i: nat)
    requires i < |tax|
    ensures ScoreArticle(tax, polarity, tags, meta)[i].1 ==
            Round4(Min(1.0, SentimentRisk(polarity) * 0.6 + (if Tagged(tags, tax[i].0) then 0.4 else 0.0) + SeverityBoost(meta) * 0.4))
  {
  }

  /** Non-negative polarity contributes nothing: every such polarity scores as 0 does. */
  lemma PositivePolarityIgnored(tax: Taxonomy, polarity: real, tags: Option<Tags>, meta: Option<Meta>)
    requires polarity >= 0.0
    ensures ScoreArticle(tax, polarity, tags, meta) == ScoreArticle(tax, 0.0, tags, meta)
  {
  }

  /** With tags and metadata fixed, a higher polarity never raises any category's score. */
  lemma ScoreNonIncreasing(tax: Taxonomy, p1: real, p2: real, tags: Option<Tags>, meta: Option<Meta>)
    requires p1 <= p2
    ensures forall i :: 0 <= i < |tax| ==>
              ScoreArticle(tax, p2, tags, meta)[i].1 <= ScoreArticle(tax, p1, tags, meta)[i].1
  {
    forall i | 0 <= i < |tax|
      ensures ScoreArticle(tax, p2, tags, meta)[i].1 <= ScoreArticle(tax, p1, tags, meta)[i].1
    {
      ScoreAt(tax, p1, tags, meta, i);
      ScoreAt(tax, p2, tags, meta, i);
      var k := if Tagged(tags, tax[i].0) then 0.4 else 0.0;
      var b := SeverityBoost(meta) * 0.4;
      assert SentimentRisk(p2) <= SentimentRisk(p1);
      Round4Monotone(Min(1.0, SentimentRisk(p2) * 0.6 + k + b), Min(1.0, SentimentRisk(p1) * 0.6 + k + b));
    }
  }


  /** A category that is tagged never scores below one that is not, all else equal. */
  lemma KeywordNeverLowers(polarity: real, boost: real)
    requires 0.0 <= boost
    ensures CategoryScore(polarity, false, boost) <= CategoryScore(polarity, true, boost)
  {
    var base := SentimentRisk(polarity) * 0.6 + boost * 0.4;
    Round4Monotone(Min(1.0, base), Min(1.0, base + 0.4));
  }

  /** Missing (`None`) metadata scores exactly like the empty dict. */
  lemma NoneMetaIsEmptyMeta(tax: Taxonomy, polarity: real, tags: Option<Tags>)
    ensures ScoreArticle(tax, polarity, tags, None) == ScoreArticle(tax, polarity, tags, Some(EmptyMeta))
  {
  }

  /** The severity test ignores case. */
  lemma SeverityIgnoresCase(m: Meta, s: string)
    ensures SeverityBoost(Some(m.(severity := Some(s)))) == SeverityBoost(Some(m.(severity := Some(Lower(s)))))
  {
    LowerIdempotent(s);
  }

  /** The boost table: "high" 0.5 and "medium" 0.25 in any case; "low", "unknown", a missing severity and no metadata 0. */
  lemma SeverityTable()
    ensures SeverityBoost(Some(EmptyMeta.(severity := Some("High")))) == 0.5
    ensures SeverityBoost(Some(EmptyMeta.(severity := Some("MEDIUM")))) == 0.25
    ensures SeverityBoost(Some(EmptyMeta.(severity := Some("low")))) == 0.0
    ensures SeverityBoost(Some(FallbackMeta)) == 0.0
    ensures SeverityBoost(Some(EmptyMeta)) == 0.0
    ensures SeverityBoost(None) == 0.0
  {
    assert Lower("High") == "high";
    assert Lower("MEDIUM") == "medium";
    assert Lower("low") == "low";
    assert Lower("unknown") == "unknown";
  }

  /** A failed enrichment (the fallback metadata) scores exactly like no enrichment. */
  lemma FallbackMetaIsNoMeta(tax: Taxonomy, polarity: real, tags: Option<Tags>)
    ensures ScoreArticle(tax, polarity, tags, Some(FallbackMeta)) == ScoreArticle(tax, polarity, tags, None)
  {
    SeverityTable();
  }

  /** Missing (`None`) tags score exactly like the empty dict. */
  lemma NoneTagsAreEmpty(tax: Taxonomy, polarity: real, meta: Option<Meta>)
    ensures ScoreArticle(tax, polarity, None, meta) == ScoreArticle(tax, polarity, Some([]), meta)
  {
  }

  /**
    Keyword contribution is presence only: two tag mappings with the same keys
    give the same scores, however many keywords each category matched.
  */
  lemma PresenceOnly(tax: Taxonomy, polarity: real, t1: Option<Tags>, t2: Option<Tags>, meta: Option<Meta>)
    requires forall i :: 0 <= i < |tax| ==> (Tagged(t1, tax[i].0) <==> Tagged(t2, tax[i].0))
    ensures ScoreArticle(tax, polarity, t1, meta) == ScoreArticle(tax, polarity, t2, meta)
  {
    var s1, s2 := ScoreArticle(tax, polarity, t1, meta), ScoreArticle(tax, polarity, t2, meta);
    forall i | 0 <= i < |tax| ensures s1[i] == s2[i] {
    }
  }

  /** Two categories that are both tagged, or both untagged, score the same. */
  lemma SamePresenceSameScore(tax: Taxonomy, polarity: real, tags: Option<Tags>, meta: Option<Meta>, i: nat, j: nat)
    requires i < |tax| && j < |tax|
    requires Tagged(tags, tax[i].0) <==> Tagged(tags, tax[j].0)
    ensures ScoreArticle(tax, polarity, tags, meta)[i].1 == ScoreArticle(tax, polarity, tags, meta)[j].1
  {
  }

  /** Without tags or metadata every category scores `round(min(1, 0.6 * max(0, -p)), 4)`. */
  lemma NoTagsNoMeta(tax: Taxonomy, polarity: real, i: nat)
    requires i < |tax|
    ensures ScoreArticle(tax, polarity, None, None)[i].1 == Round4(Min(1.0, 0.6 * SentimentRisk(polarity)))
  {
    SeverityTable();
  }

  /** The clamp holds at the extremes: a polarity of -5 scores 1 in every category. */
  lemma ExtremePolarityClamps(tax: Taxonomy, tags: Option<Tags>, meta: Option<Meta>)
    ensures forall i :: 0 <= i < |tax| ==> ScoreArticle(tax, -5.0, tags, meta)[i].1 == 1.0
  {
    Round4Exact(10000);
  }

  /**
    "Port strike disrupts shipments" at polarity -0.3, tagged labor and
    logistics, no enrichment: both tagged categories score 0.58, the others 0.18.
  */
  lemma StrikeScenario()
    ensures var s := ScoreArticle(RiskKeywords, -0.3, Some([("logistics", ["shipment"]), ("labor", ["strike"])]), None);
            s == [("logistics", 0.58), ("political", 0.18), ("weather", 0.18), ("labor", 0.58), ("esg", 0.18)]
  {
    var tags: Option<Tags> := Some([("logistics", ["shipment"]), ("labor", ["strike"])]);
    var s := ScoreArticle(RiskKeywords, -0.3, tags, None);
    assert SeverityBoost(None) == 0.0;
    StrikeValues();
    StrikeTags();
    assert s[0] == ("logistics", 0.58) && s[3] == ("labor", 0.58);
    assert s[1] == ("political", 0.18) && s[2] == ("weather", 0.18) && s[4] == ("esg", 0.18);
  }

  /** Which categories the strike article's tags mark. */
  lemma StrikeTags()
    ensures var tags: Option<Tags> := Some([("logistics", ["shipment"]), ("labor", ["strike"])]);
            && Tagged(tags, "logistics") && Tagged(tags, "labor")
            && !Tagged(tags, "political") && !Tagged(tags, "weather") && !Tagged(tags, "esg")
  {
    var tags: Option<Tags> := Some([("logistics", ["shipment"]), ("labor", ["strike"])]);
    assert TagKeys(tags.value) == ["logistics", "labor"];
    assert "political" != "logistics" && "political" != "labor";
    assert "weather" != "logistics" && "weather" != "labor";
    assert "esg" != "logistics" && "esg" != "labor";
  }

  /** The two category scores of polarity -0.3 without metadata. */
  lemma StrikeValues()
    ensures CategoryScore(-0.3, true, 0.0) == 0.58
    ensures CategoryScore(-0.3, false, 0.0) == 0.18
  {
    Round4Exact(5800);
    Round4Exact(1800);
  }

}
