/**
  Sentiment labelling and keyword tagging (services/nlp.py). The sentiment
  analyser itself (TextBlob) is a parameter: a function from text to raw
  (polarity, subjectivity).
*/
module Nlp {
  import opened Wrappers
  import opened Strings
  import opened Rounding

  /** `a` is obtained from `b` by deleting elements (order kept). */
  predicate IsSubsequence<T(==)>(a: seq<T>, b: seq<T>)
  {
    if |a| == 0 then true
    else if |b| == 0 then false
    else if a[0] == b[0] then IsSubsequence(a[1..], b[1..])
    else IsSubsequence(a, b[1..])
  }

  /** No category name appears twice (the keys of a Python dict). */
  predicate DistinctCategories(t: seq<(string, seq<string>)>)
  {
    forall i, j :: 0 <= i < j < |t| ==> t[i].0 != t[j].0
  }

  /** The risk taxonomy: an ordered mapping from category name to its keyword list. */
  type Taxonomy = t: seq<(string, seq<string>)> | DistinctCategories(t) witness []

  /** The category names, in taxonomy order (`list(RISK_KEYWORDS.keys())`). */
  function Categories(tax: seq<(string, seq<string>)>): (cs: seq<string>)
    ensures |cs| == |tax|
    ensures forall i :: 0 <= i < |tax| ==> cs[i] == tax[i].0
  {
    seq(|tax|, i requires 0 <= i < |tax| => tax[i].0)
  }

  /** `RISK_KEYWORDS`, the deployed taxonomy. */
  const RiskKeywords: Taxonomy := (RiskKeywordsDistinct(); RiskKeywordTable())

  function RiskKeywordTable(): seq<(string, seq<string>)>
  {
    [
      ("logistics", ["shipment", "delay", "port congestion", "container", "truck", "vessel", "berth", "backlog"]),
      ("political", ["sanction", "election", "government", "protest", "policy", "geopolitical", "ussc", "embargo"]),
      ("weather", ["hurricane", "storm", "flood", "earthquake", "typhoon", "cyclone"]),
      ("labor", ["strike", "union", "workers", "labor", "walkout", "dockworker"]),
      ("esg", ["environment", "emission", "spill", "pollution", "accident"])
    ]
  }

  lemma RiskKeywordsDistinct()
    ensures DistinctCategories(RiskKeywordTable())
  {
    var cs := Categories(RiskKeywordTable());
    assert cs == ["logistics", "political", "weather", "labor", "esg"];
    assert cs[0][1] == 'o' && cs[1][0] == 'p' && cs[2][0] == 'w' && cs[3][1] == 'a' && cs[4][0] == 'e';
  }

  /** Keyword tags: an ordered mapping from category to the keywords that matched. */
  type Tags = seq<(string, seq<string>)>

  function TagKeys(tags: Tags): (ks: seq<string>)
    ensures |ks| == |tags|
    ensures forall k :: 0 <= k < |tags| ==> ks[k] == tags[k].0
  {
    seq(|tags|, k requires 0 <= k < |tags| => tags[k].0)
  }

  /** `[w for w in words if w.lower() in text_lower]`. */
  function Hits(words: seq<string>, lowered: string): (hits: seq<string>)
    ensures forall w :: w in hits <==> w in words && Contains(lowered, Lower(w))
  {
    if |words| == 0 then []
    else if Contains(lowered, Lower(words[0])) then [words[0]] + Hits(words[1..], lowered)
    else Hits(words[1..], lowered)
  }

  /** The hits keep the taxonomy's keyword order: they are a subsequence of the keyword list. */
  lemma {:induction false} HitsInOrder(words: seq<string>, lowered: string)
    ensures IsSubsequence(Hits(words, lowered), words)
  {
    if |words| > 0 {
      HitsInOrder(words[1..], lowered);
      if !Contains(lowered, Lower(words[0])) {
        SubsequenceOfTail(Hits(words[1..], lowered), words);
      }
    }
  }

  /** Allowing one more element at the front of `b` keeps `a` a subsequence. */
  lemma {:induction false} SubsequenceOfTail<T>(a: seq<T>, b: seq<T>)
    requires |b| > 0 && IsSubsequence(a, b[1..])
    ensures IsSubsequence(a, b)
    decreases |b|, 1
  {
    if |a| > 0 && a[0] == b[0] {
      SubsequenceDropHead(a, b[1..]);
    }
  }

  /** Dropping the first element of a subsequence leaves a subsequence. */
  lemma {:induction false} SubsequenceDropHead<T>(a: seq<T>, c: seq<T>)
    requires |a| > 0 && IsSubsequence(a, c)
    ensures IsSubsequence(a[1..], c)
    decreases |c|, 2
  {
    if a[0] == c[0] {
      SubsequenceOfTail(a[1..], c);
    } else {
      SubsequenceDropHead(a, c[1..]);
      SubsequenceOfTail(a[1..], c);
    }
  }

  /** The loop of `tag_keywords` over the taxonomy, on already lower-cased text. */
  function TagWith(tax: seq<(string, seq<string>)>, lowered: string): (tags: Tags)
    ensures |tags| <= |tax|
  {
    if |tax| == 0 then []
    else
      var hits := Hits(tax[0].1, lowered);
      if |hits| > 0 then [(tax[0].0, hits)] + TagWith(tax[1..], lowered) else TagWith(tax[1..], lowered)
  }

  /** No category is ever mapped to an empty list. */
  lemma {:induction false} TagWithNonEmpty(tax: seq<(string, seq<string>)>, lowered: string)
    ensures forall k :: 0 <= k < |TagWith(tax, lowered)| ==> |TagWith(tax, lowered)[k].1| > 0
  {
    if |tax| > 0 {
      TagWithNonEmpty(tax[1..], lowered);
    }
  }

  /** The categories of the result appear in taxonomy order, each at most once. */
  lemma {:induction false} TagKeysInOrder(tax: seq<(string, seq<string>)>, lowered: string)
    ensures IsSubsequence(TagKeys(TagWith(tax, lowered)), Categories(tax))
  {
    if |tax| > 0 {
      var rest := TagWith(tax[1..], lowered);
      TagKeysInOrder(tax[1..], lowered);
      assert Categories(tax)[1..] == Categories(tax[1..]);
      if |Hits(tax[0].1, lowered)| > 0 {
        assert TagKeys(TagWith(tax, lowered)) == [tax[0].0] + TagKeys(rest);
      } else {
        SubsequenceOfTail(TagKeys(rest), Categories(tax));
      }
    }
  }

  /** Each key of the result is a category of the taxonomy. */
  lemma {:induction false} TagWithKeysKnown(tax: seq<(string, seq<string>)>, lowered: string)
    ensures forall k :: 0 <= k < |TagWith(tax, lowered)| ==> TagWith(tax, lowered)[k].0 in Categories(tax)
  {
    if |tax| > 0 {
      TagWithKeysKnown(tax[1..], lowered);
      assert forall c :: c in Categories(tax[1..]) ==> c in Categories(tax);
    }
  }

  /**
    A category is a key of the result exactly when one of its keywords occurs,
    and then its value is the list of keywords that occur.
  */
  lemma {:induction false} TagWithEntry(tax: seq<(string, seq<string>)>, lowered: string, i: nat)
    requires DistinctCategories(tax) && i < |tax|
    ensures tax[i].0 in TagKeys(TagWith(tax, lowered)) <==> |Hits(tax[i].1, lowered)| > 0
    ensures forall k :: 0 <= k < |TagWith(tax, lowered)| && TagWith(tax, lowered)[k].0 == tax[i].0 ==>
              TagWith(tax, lowered)[k].1 == Hits(tax[i].1, lowered)
  {
    var tags := TagWith(tax, lowered);
    var rest := TagWith(tax[1..], lowered);
    TagWithKeysKnown(tax[1..], lowered);
    if i == 0 {
      assert tax[0].0 !in Categories(tax[1..]);
      assert tax[0].0 !in TagKeys(rest);
      if |Hits(tax[0].1, lowered)| > 0 {
        assert TagKeys(tags)[0] == tax[0].0;
      } else {
        assert tags == rest;
      }
    } else {
      TagWithEntry(tax[1..], lowered, i - 1);
      assert tax[i].0 != tax[0].0;
      if |Hits(tax[0].1, lowered)| > 0 {
        assert TagKeys(tags) == [tax[0].0] + TagKeys(rest);
      } else {
        assert tags == rest;
      }
    }
  }

  /**
    `tag_keywords(text)`: every category of the taxonomy one of whose keywords
    occurs in the lower-cased text, with the keywords that occur; `None` is
    treated as the empty text.
  */
  function TagKeywords(tax: Taxonomy, text: Option<string>): (tags: Tags)
    ensures forall k :: 0 <= k < |tags| ==> |tags[k].1| > 0
    ensures forall k :: 0 <= k < |tags| ==> tags[k].0 in Categories(tax)
    ensures IsSubsequence(TagKeys(tags), Categories(tax))
    ensures forall i :: 0 <= i < |tax| ==>
              (tax[i].0 in TagKeys(tags) <==> exists w :: w in tax[i].1 && Contains(Lower(text.GetOr("")), Lower(w)))
    ensures forall i, k :: 0 <= i < |tax| && 0 <= k < |tags| && tags[k].0 == tax[i].0 ==>
              tags[k].1 == Hits(tax[i].1, Lower(text.GetOr("")))
  {
    var lowered := Lower(text.GetOr(""));
    TagWithNonEmpty(tax, lowered);
    TagWithKeysKnown(tax, lowered);
    TagKeysInOrder(tax, lowered);
    TagEntries(tax, lowered);
    TagWith(tax, lowered)
  }

  lemma TagEntries(tax: Taxonomy, lowered: string)
    ensures forall i :: 0 <= i < |tax| ==>
              (tax[i].0 in TagKeys(TagWith(tax, lowered)) <==> exists w :: w in tax[i].1 && Contains(lowered, Lower(w)))
    ensures forall i, k :: 0 <= i < |tax| && 0 <= k < |TagWith(tax, lowered)| && TagWith(tax, lowered)[k].0 == tax[i].0 ==>
              TagWith(tax, lowered)[k].1 == Hits(tax[i].1, lowered)
  {
    forall i | 0 <= i < |tax|
      ensures tax[i].0 in TagKeys(TagWith(tax, lowered)) <==> exists w :: w in tax[i].1 && Contains(lowered, Lower(w))
      ensures forall k :: 0 <= k < |TagWith(tax, lowered)| && TagWith(tax, lowered)[k].0 == tax[i].0 ==>
                TagWith(tax, lowered)[k].1 == Hits(tax[i].1, lowered)
    {
      TagWithEntry(tax, lowered, i);
      var hits := Hits(tax[i].1, lowered);
      if |hits| > 0 {
        assert hits[0] in hits;
      }
    }
  }

  /** Matching ignores case: tagging a text and tagging its lower-cased form agree. */
  lemma TagIgnoresCase(tax: Taxonomy, text: string)
    ensures TagKeywords(tax, Some(Lower(text))) == TagKeywords(tax, Some(text))
  {
    LowerIdempotent(text);
  }

  /** `None` text yields no tags at all, as does the empty text. */
  lemma {:induction false} TagNoneIsEmpty(tax: Taxonomy)
    ensures TagKeywords(tax, None) == TagKeywords(tax, Some(""))
  {
  }

  datatype Label = Positive | Negative | Neutral

  /** The three sentiment values `analyze_sentiment_textblob` returns. */
  datatype Sentiment = Sentiment(polarity: real, subjectivity: real, sentimentLabel: Label)

  /** Label thresholds on the rounded polarity: above 0.1 positive, below -0.1 negative, otherwise neutral. */
  function LabelOf(polarity: real): (l: Label)
    ensures l == Positive <==> polarity > 0.1
    ensures l == Negative <==> polarity < -0.1
    ensures l == Neutral <==> -0.1 <= polarity <= 0.1
  {
    if polarity > 0.1 then Positive
    else if polarity < -0.1 then Negative
    else Neutral
  }

  /**
    `analyze_sentiment_textblob(text)`: empty or missing text is neutral with both
    scores 0.0 and the analyser is not consulted; otherwise both scores are the
    analyser's, rounded to four decimals, and the label follows the rounded polarity.
  */
  function AnalyzeSentiment(text: Option<string>, analyser: string -> (real, real)): (r: Sentiment)
    ensures text.GetOr("") == "" ==> r == Sentiment(0.0, 0.0, Neutral)
    ensures text.GetOr("") != "" ==>
              r.polarity == Round4(analyser(text.value).0) && r.subjectivity == Round4(analyser(text.value).1)
    ensures r.sentimentLabel == LabelOf(r.polarity)
  {
    if text.GetOr("") == "" then
      Sentiment(0.0, 0.0, Neutral)
    else
      var (p, s) := analyser(text.value);
      var polarity := Round4(p);
      Sentiment(polarity, Round4(s), LabelOf(polarity))
  }

  /** Scores inside the analyser's ranges stay there after rounding. */
  lemma SentimentInRange(text: Option<string>, analyser: string -> (real, real))
    requires text.GetOr("") != "" ==>
               -1.0 <= analyser(text.value).0 <= 1.0 && 0.0 <= analyser(text.value).1 <= 1.0
    ensures -1.0 <= AnalyzeSentiment(text, analyser).polarity <= 1.0
    ensures 0.0 <= AnalyzeSentiment(text, analyser).subjectivity <= 1.0
  {
    if text.GetOr("") != "" {
      Round4Signed(analyser(text.value).0);
      Round4Unit(analyser(text.value).1);
    }
  }

  /**
    Only the empty text is short-circuited: a text made only of whitespace is
    handed to the analyser, whose rounded scores are returned as they are.
  */
  lemma WhitespaceIsAnalysed(s: string, analyser: string -> (real, real))
    requires s != "" && AllSpace(s)
    ensures AnalyzeSentiment(Some(s), analyser)
            == Sentiment(Round4(analyser(s).0), Round4(analyser(s).1), LabelOf(Round4(analyser(s).0)))
  {
  }
}
