/**
  The pipeline glue of app.py once the articles are fetched: the three scoped
  tables, flagging, the newest-first flagged pool, the top-K enrichment map,
  scoring every row and the three per-scope aggregations.  The sentiment
  analyser, the datetime parser and the metadata classifier are parameters.
*/
module App {
  import opened Wrappers
  import opened Strings
  import opened News
  import opened Nlp
  import opened Scoring
  import opened Utils

  // ---------------------------------------------------------------- flagging

  /**
    The row with its `flagged` column set by the flagging rule (polarity at or
    below the threshold, or at least one keyword category); every other column
    unchanged.
  */
  function WithFlag(row: ArticleRow, threshold: real): (r: ArticleRow)
    ensures r.(flagged := row.flagged) == row
    ensures r.flagged <==> row.polarity <= threshold || |row.keywordTags| > 0
  {
    row.(flagged := row.polarity <= threshold || |row.keywordTags| > 0)
  }

  /** The threshold is inclusive, and each condition alone is enough; with neither the row is not flagged. */
  lemma FlagConditions(row: ArticleRow, threshold: real)
    ensures row.polarity == threshold ==> WithFlag(row, threshold).flagged
    ensures |row.keywordTags| > 0 ==> WithFlag(row, threshold).flagged
    ensures row.polarity > threshold && |row.keywordTags| == 0 ==> !WithFlag(row, threshold).flagged
  {
  }

  /** `analyze_sentiment_textblob` over the given analyser, as passed to `build_df`. */
  function Analyser(blob: string -> (real, real)): string -> Sentiment
  {
    t => AnalyzeSentiment(Some(t), blob)
  }

  /** `tag_keywords` over the given taxonomy, as passed to `build_df`. */
  function Tagger(tax: Taxonomy): string -> Tags
  {
    t => TagKeywords(tax, Some(t))
  }

  /** The row `build_df` makes of an article with the application's collaborators. */
  function RowOf(a: Article, scope: string, tax: Taxonomy, blob: string -> (real, real)): ArticleRow
  {
    ArticleToRow(a, scope, TextFromArticle, Analyser(blob), Tagger(tax))
  }

  /**
    End to end, an article's row is flagged exactly when its rounded polarity is
    at or below the threshold or some taxonomy keyword occurs, ignoring case, in
    its normalised text.
  */
  lemma FlaggedByKeywordOrPolarity(a: Article, scope: string, tax: Taxonomy, blob: string -> (real, real), threshold: real)
    ensures var row := RowOf(a, scope, tax, blob);
            WithFlag(row, threshold).flagged <==>
              row.polarity <= threshold
              || exists i, w :: 0 <= i < |tax| && w in tax[i].1 && Contains(Lower(TextFromArticle(a)), Lower(w))
  {
    var row := RowOf(a, scope, tax, blob);
    var text := TextFromArticle(a);
    var tags := TagKeywords(tax, Some(text));
    assert row.keywordTags == tags;
    if |tags| > 0 {
      assert tags[0].0 in Categories(tax);
      var i :| 0 <= i < |tax| && Categories(tax)[i] == tags[0].0;
      assert tax[i].0 in TagKeys(tags);
      var w :| w in tax[i].1 && Contains(Lower(text), Lower(w));
    }
    if exists i, w :: 0 <= i < |tax| && w in tax[i].1 && Contains(Lower(text), Lower(w)) {
      var i, w :| 0 <= i < |tax| && w in tax[i].1 && Contains(Lower(text), Lower(w));
      assert tax[i].0 in TagKeys(tags);
    }
  }

  /** `df_all["flagged"] = df_all.apply(...)`: the column is set on every row in place, nothing else changes. */
  method MarkFlagged(df: Frame, threshold: real)
    modifies df
    ensures |df.rows| == |old(df.rows)|
    ensures forall i :: 0 <= i < |df.rows| ==> df.rows[i] == WithFlag(old(df.rows[i]), threshold)
  {
    var k := 0;
    while k < |df.rows|
      invariant 0 <= k <= |df.rows| == |old(df.rows)|
      invariant forall i :: 0 <= i < k ==> df.rows[i] == WithFlag(old(df.rows[i]), threshold)
      invariant forall i :: k <= i < |df.rows| ==> df.rows[i] == old(df.rows[i])
    {
      df.rows := df.rows[k := WithFlag(df.rows[k], threshold)];
      k := k + 1;
    }
  }

  // ---------------------------------------------------------------- the flagged pool

  /** `df_all[df_all["flagged"]]`: the flagged rows, in table order. */
  function FlaggedRows(rows: seq<ArticleRow>): (r: seq<ArticleRow>)
    ensures forall x :: x in r <==> x in rows && x.flagged
    ensures forall x :: multiset(r)[x] == if x.flagged then multiset(rows)[x] else 0
    ensures IsSubsequence(r, rows)
  {
    FilterCount(rows, FlaggedMask);
    FilterOrder(rows, FlaggedMask);
    Filter(rows, FlaggedMask)
  }

  /** The mask `df_all["flagged"]`. */
  const FlaggedMask: ArticleRow -> bool := (x: ArticleRow) => x.flagged

  /** Datetime `a` is at or after datetime `b`. */
  predicate AtOrAfter(a: DateTime, b: DateTime)
  {
    a.date.ordinal > b.date.ordinal || (a.date.ordinal == b.date.ordinal && a.nanos >= b.nanos)
  }

  /**
    Sorting on `publishedAt_dt` descending, nulls last: a row with datetime `a`
    may come before a row with datetime `b`.
  */
  predicate Precedes(a: Option<DateTime>, b: Option<DateTime>)
  {
    b.None? || (a.Some? && AtOrAfter(a.value, b.value))
  }

  /** Newest first, null datetimes last; the order among equal datetimes is left open. */
  predicate NewestFirst(s: seq<ArticleRow>)
  {
    forall i, j :: 0 <= i < j < |s| ==> Precedes(s[i].publishedAtDt, s[j].publishedAtDt)
  }

  /** `flagged`: a reordering of exactly the flagged rows, newest first. */
  predicate IsFlaggedPool(pool: seq<ArticleRow>, rows: seq<ArticleRow>)
  {
    multiset(pool) == multiset(FlaggedRows(rows)) && NewestFirst(pool)
  }

  lemma PrecedesTotal(a: Option<DateTime>, b: Option<DateTime>)
    ensures Precedes(a, b) || Precedes(b, a)
  {
  }

  /** A pool holds the flagged rows of the table and nothing else. */
  lemma PoolMembers(pool: seq<ArticleRow>, rows: seq<ArticleRow>)
    requires IsFlaggedPool(pool, rows)
    ensures |pool| == |FlaggedRows(rows)|
    ensures forall x :: x in pool <==> x in rows && x.flagged
  {
    assert |multiset(pool)| == |multiset(FlaggedRows(rows))|;
    forall x
      ensures x in pool <==> x in FlaggedRows(rows)
    {
      assert x in pool <==> x in multiset(pool);
      assert x in FlaggedRows(rows) <==> x in multiset(FlaggedRows(rows));
    }
  }

  /** Places `x` after every row that may precede it. */
  function InsertNewest(x: ArticleRow, sorted: seq<ArticleRow>): (r: seq<ArticleRow>)
    ensures |r| == |sorted| + 1
    ensures forall y :: y in r <==> y == x || y in sorted
  {
    if |sorted| == 0 then [x]
    else if Precedes(x.publishedAtDt, sorted[0].publishedAtDt) then [x] + sorted
    else [sorted[0]] + InsertNewest(x, sorted[1..])
  }

  /** Inserting adds exactly `x`. */
  lemma {:induction false} InsertNewestPerm(x: ArticleRow, sorted: seq<ArticleRow>)
    ensures multiset(InsertNewest(x, sorted)) == multiset(sorted) + multiset{x}
  {
    if |sorted| > 0 && !Precedes(x.publishedAtDt, sorted[0].publishedAtDt) {
      InsertNewestPerm(x, sorted[1..]);
      assert sorted == [sorted[0]] + sorted[1..];
    }
  }

  /** Every row of `s` may come after `y` when `y` may precede the first row of a newest-first `s`. */
  lemma PrecedesAllOf(y: Option<DateTime>, s: seq<ArticleRow>)
    requires NewestFirst(s) && |s| > 0 && Precedes(y, s[0].publishedAtDt)
    ensures forall k :: 0 <= k < |s| ==> Precedes(y, s[k].publishedAtDt)
  {
    forall k | 0 < k < |s|
      ensures Precedes(y, s[k].publishedAtDt)
    {
      assert Precedes(s[0].publishedAtDt, s[k].publishedAtDt);
    }
  }

  /** Inserting keeps the sequence newest first. */
  lemma {:induction false} InsertNewestSorted(x: ArticleRow, sorted: seq<ArticleRow>)
    requires NewestFirst(sorted)
    ensures NewestFirst(InsertNewest(x, sorted))
  {
    if |sorted| == 0 {
    } else if Precedes(x.publishedAtDt, sorted[0].publishedAtDt) {
      PrecedesAllOf(x.publishedAtDt, sorted);
      ConsNewestFirst(x, sorted);
    } else {
      PrecedesTotal(x.publishedAtDt, sorted[0].publishedAtDt);
      InsertNewestSorted(x, sorted[1..]);
      InsertNewestPerm(x, sorted[1..]);
      HeadBeforeInserted(x, sorted);
      ConsNewestFirst(sorted[0], InsertNewest(x, sorted[1..]));
    }
  }

  /** The head of a newest-first sequence may precede everything after inserting a later row into its tail. */
  lemma HeadBeforeInserted(x: ArticleRow, sorted: seq<ArticleRow>)
    requires NewestFirst(sorted) && |sorted| > 0
    requires Precedes(sorted[0].publishedAtDt, x.publishedAtDt)
    requires multiset(InsertNewest(x, sorted[1..])) == multiset(sorted[1..]) + multiset{x}
    ensures forall k :: 0 <= k < |InsertNewest(x, sorted[1..])| ==>
              Precedes(sorted[0].publishedAtDt, InsertNewest(x, sorted[1..])[k].publishedAtDt)
  {
    var tail := sorted[1..];
    var rest := InsertNewest(x, tail);
    forall k | 0 <= k < |rest|
      ensures Precedes(sorted[0].publishedAtDt, rest[k].publishedAtDt)
    {
      var y := rest[k];
      assert y in multiset(rest);
      if y != x {
        assert y in multiset(tail);
        var m :| 0 <= m < |tail| && tail[m] == y;
        assert sorted[m + 1] == y;
      }
    }
  }

  /** Putting a row that may precede every row in front of a newest-first sequence keeps it newest first. */
  lemma ConsNewestFirst(h: ArticleRow, rest: seq<ArticleRow>)
    requires NewestFirst(rest)
    requires forall k :: 0 <= k < |rest| ==> Precedes(h.publishedAtDt, rest[k].publishedAtDt)
    ensures NewestFirst([h] + rest)
  {
    var r := [h] + rest;
    forall i, j | 0 <= i < j < |r|
      ensures Precedes(r[i].publishedAtDt, r[j].publishedAtDt)
    {
      assert r[j] == rest[j - 1];
      if i > 0 {
        assert r[i] == rest[i - 1];
      }
    }
  }

  /** `sort_values("publishedAt_dt", ascending=False)` on the flagged rows. */
  method FlaggedPool(rows: seq<ArticleRow>) returns (pool: seq<ArticleRow>)
    ensures IsFlaggedPool(pool, rows)
  {
    pool := [];
    for k := 0 to |rows|
      invariant NewestFirst(pool)
      invariant multiset(pool) == multiset(FlaggedRows(rows[..k]))
    {
      assert rows[..k + 1] == rows[..k] + [rows[k]];
      FilterSnoc(rows[..k], rows[k], FlaggedMask);
      if rows[k].flagged {
        InsertNewestSorted(rows[k], pool);
        InsertNewestPerm(rows[k], pool);
        pool := InsertNewest(rows[k], pool);
      }
    }
    assert rows[..|rows|] == rows;
  }

  // ---------------------------------------------------------------- enrichment

  /** The metadata the classifier returns for a row: `extract_article_meta(title or "", description or "")`. */
  function ClassifyRow(row: ArticleRow, classify: (string, string) -> Meta): (m: Meta)
    ensures row.title.Some? && row.description.Some? ==> m == classify(row.title.value, row.description.value)
    ensures row.title.None? && row.description.None? ==> m == classify("", "")
    ensures row.title.Some? && row.description.None? ==> m == classify(row.title.value, "")
    ensures row.title.None? && row.description.Some? ==> m == classify("", row.description.value)
  {
    classify(row.title.GetOr(""), row.description.GetOr(""))
  }

  /** The url-to-metadata map filled row by row, a later row overwriting an earlier one with the same url. */
  function MetaMapOf(rows: seq<ArticleRow>, classify: (string, string) -> Meta): (m: map<Option<string>, Meta>)
    ensures forall i :: 0 <= i < |rows| ==> rows[i].url in m
  {
    if |rows| == 0 then map[]
    else
      var last := rows[|rows| - 1];
      MetaMapOf(rows[..|rows| - 1], classify)[last.url := ClassifyRow(last, classify)]
  }

  /**
    Every key of the map is the url of one of the rows, so there are no more
    keys than rows.
  */
  lemma {:induction false} MetaMapKeys(rows: seq<ArticleRow>, classify: (string, string) -> Meta)
    ensures forall u :: u in MetaMapOf(rows, classify) ==> exists i :: 0 <= i < |rows| && rows[i].url == u
    ensures |MetaMapOf(rows, classify)| <= |rows|
  {
    if |rows| > 0 {
      var init := rows[..|rows| - 1];
      var last := rows[|rows| - 1];
      var m := MetaMapOf(init, classify);
      MetaMapKeys(init, classify);
      assert m[last.url := ClassifyRow(last, classify)].Keys == m.Keys + {last.url};
      forall u | u in MetaMapOf(rows, classify)
        ensures exists i :: 0 <= i < |rows| && rows[i].url == u
      {
        if u != last.url {
          var i :| 0 <= i < |init| && init[i].url == u;
          assert rows[i].url == u;
        }
      }
    }
  }

  /** A url keeps the metadata of the last row that carries it. */
  lemma {:induction false} MetaMapLastWins(rows: seq<ArticleRow>, classify: (string, string) -> Meta, i: nat)
    requires i < |rows|
    requires forall j :: i < j < |rows| ==> rows[j].url != rows[i].url
    ensures MetaMapOf(rows, classify)[rows[i].url] == ClassifyRow(rows[i], classify)
  {
    if i < |rows| - 1 {
      MetaMapLastWins(rows[..|rows| - 1], classify, i);
    }
  }

  function MinInt(a: int, b: int): int
  {
    if a < b then a else b
  }

  /**
    The enrichment step: with a client, a positive top-K and a non-empty pool,
    the first min(top-K, |pool|) rows of the pool are classified into a map keyed
    by url; otherwise the map stays empty.
  */
  method Enrich(pool: seq<ArticleRow>, topK: int, hasClient: bool, classify: (string, string) -> Meta)
    returns (metaMap: map<Option<string>, Meta>)
    ensures !(hasClient && topK > 0 && |pool| > 0) ==> metaMap == map[]
    ensures hasClient && topK > 0 ==> metaMap == MetaMapOf(pool[..MinInt(topK, |pool|)], classify)
    ensures |metaMap| <= if topK > 0 then topK else 0
  {
    metaMap := map[];
    if hasClient && topK > 0 && |pool| > 0 {
      var n := MinInt(topK, |pool|);
      for k := 0 to n
        invariant metaMap == MetaMapOf(pool[..k], classify)
      {
        assert pool[..k + 1][..k] == pool[..k];
        var row := pool[k];
        metaMap := metaMap[row.url := ClassifyRow(row, classify)];
      }
      assert pool[..n] == pool[..MinInt(topK, |pool|)];
      MetaMapKeys(pool[..n], classify);
    } else if hasClient && topK > 0 {
      assert pool[..MinInt(topK, |pool|)] == [];
    }
  }

  /** Only urls of the first top-K pool rows are enriched. */
  lemma EnrichedUrlsFromPoolHead(pool: seq<ArticleRow>, topK: int, classify: (string, string) -> Meta, u: Option<string>)
    requires topK > 0
    requires u in MetaMapOf(pool[..MinInt(topK, |pool|)], classify)
    ensures exists i :: 0 <= i < topK && i < |pool| && pool[i].url == u
  {
    var head := pool[..MinInt(topK, |pool|)];
    MetaMapKeys(head, classify);
    var i :| 0 <= i < |head| && head[i].url == u;
    assert pool[i] == head[i];
  }

  // ---------------------------------------------------------------- scoring

  /** `openai_meta_map.get(row["url"], {})`. */
  function MetaFor(row: ArticleRow, metaMap: map<Option<string>, Meta>): (m: Meta)
    ensures row.url in metaMap ==> m == metaMap[row.url]
    ensures row.url !in metaMap ==> m == EmptyMeta
  {
    if row.url in metaMap then metaMap[row.url] else EmptyMeta
  }

  /** No two pairs share a key. */
  predicate DistinctKeys(pairs: seq<(string, real)>)
  {
    forall i, j :: 0 <= i < j < |pairs| ==> pairs[i].0 != pairs[j].0
  }

  /** The category scores as a dict. */
  function ScoreMap(pairs: seq<(string, real)>): (m: map<string, real>)
    requires DistinctKeys(pairs)
    ensures forall i :: 0 <= i < |pairs| ==> pairs[i].0 in m && m[pairs[i].0] == pairs[i].1
    ensures forall k :: k in m ==> exists i :: 0 <= i < |pairs| && pairs[i].0 == k
  {
    map i | 0 <= i < |pairs| :: pairs[i].0 := pairs[i].1
  }

  /** The category scores of a row, with the row's metadata or `{}`. */
  function RowScores(row: ArticleRow, metaMap: map<Option<string>, Meta>, tax: Taxonomy): (pairs: seq<(string, real)>)
    ensures DistinctKeys(pairs)
  {
    ScoreArticle(tax, row.polarity, Some(row.keywordTags), Some(MetaFor(row, metaMap)))
  }

  /**
    The score row of one article row: the category scores, then the row's own
    columns, and the metadata summary, `""` without metadata.
  */
  function ScoreRowFor(row: ArticleRow, metaMap: map<Option<string>, Meta>, tax: Taxonomy): (s: ScoreRow)
    ensures s.url == row.url && s.title == row.title && s.sourceLabel == row.sourceLabel
    ensures s.date == row.date && s.polarity == row.polarity && s.sentimentLabel == row.sentimentLabel
    ensures row.url !in metaMap ==> s.openaiSummary == ""
    ensures row.url in metaMap && metaMap[row.url] != EmptyMeta ==> s.openaiSummary == metaMap[row.url].summary.GetOr("")
  {
    var meta := MetaFor(row, metaMap);
    ScoreRow(ScoreMap(RowScores(row, metaMap, tax)), row.url, row.title, row.sourceLabel, row.date, row.polarity,
             row.sentimentLabel, if meta == EmptyMeta then "" else meta.summary.GetOr(""))
  }

  /**
    A score row has exactly the taxonomy categories as score columns, each
    scored from the row's polarity and tags with the row's metadata (or `{}`),
    every score in [0,1]; the row's url, title, scope, date, polarity and label
    are copied unchanged, and the summary is `""` when the url has no metadata.
  */
  lemma ScoreRowContents(row: ArticleRow, metaMap: map<Option<string>, Meta>, tax: Taxonomy)
    ensures var s := ScoreRowFor(row, metaMap, tax);
            && (forall k :: k in s.scores <==> k in Categories(tax))
            && (forall i :: 0 <= i < |tax| ==>
                  tax[i].0 in s.scores
                  && s.scores[tax[i].0] == ScoreArticle(tax, row.polarity, Some(row.keywordTags), Some(MetaFor(row, metaMap)))[i].1)
            && (forall k :: k in s.scores ==> 0.0 <= s.scores[k] <= 1.0)
            && s.url == row.url && s.title == row.title && s.sourceLabel == row.sourceLabel
            && s.date == row.date && s.polarity == row.polarity && s.sentimentLabel == row.sentimentLabel
            && (row.url !in metaMap ==> s.openaiSummary == "")
            && (row.url in metaMap ==> s.openaiSummary == metaMap[row.url].summary.GetOr(""))
  {
    var pairs := RowScores(row, metaMap, tax);
    var m := ScoreMap(pairs);
    assert ScoreRowFor(row, metaMap, tax).scores == m;
    ScoreMapCategories(pairs, tax);
  }

  /** A dict of a score list whose keys follow the taxonomy has exactly the taxonomy's categories, each score in [0,1]. */
  lemma ScoreMapCategories(pairs: seq<(string, real)>, tax: Taxonomy)
    requires DistinctKeys(pairs)
    requires |pairs| == |tax|
    requires forall i :: 0 <= i < |tax| ==> pairs[i].0 == tax[i].0 && 0.0 <= pairs[i].1 <= 1.0
    ensures forall k :: k in ScoreMap(pairs) <==> k in Categories(tax)
    ensures forall k :: k in ScoreMap(pairs) ==> 0.0 <= ScoreMap(pairs)[k] <= 1.0
  {
    var m := ScoreMap(pairs);
    var cs := Categories(tax);
    forall k | k in m
      ensures k in cs && 0.0 <= m[k] <= 1.0
    {
      var i :| 0 <= i < |pairs| && pairs[i].0 == k;
      assert cs[i] == k;
    }
    forall k | k in cs
      ensures k in m
    {
      var i :| 0 <= i < |tax| && cs[i] == k;
      assert pairs[i].0 == k;
    }
  }


  /** The scoring loop: one score row per table row, in order. */
  method ScoreAll(rows: seq<ArticleRow>, metaMap: map<Option<string>, Meta>, tax: Taxonomy) returns (scores: seq<ScoreRow>)
    ensures |scores| == |rows|
    ensures forall i :: 0 <= i < |rows| ==> scores[i] == ScoreRowFor(rows[i], metaMap, tax)
  {
    scores := [];
    for k := 0 to |rows|
      invariant |scores| == k
      invariant forall i :: 0 <= i < k ==> scores[i] == ScoreRowFor(rows[i], metaMap, tax)
    {
      var s := ScoreRowFor(rows[k], metaMap, tax);
      assert forall i :: 0 <= i < k ==> (scores + [s])[i] == scores[i];
      scores := scores + [s];
    }
  }

  /** Every score row carries every category, so the aggregation's requirement holds. */
  lemma ScoreRowsCover(rows: seq<ArticleRow>, scores: seq<ScoreRow>, metaMap: map<Option<string>, Meta>, tax: Taxonomy)
    requires |scores| == |rows|
    requires forall i :: 0 <= i < |rows| ==> scores[i] == ScoreRowFor(rows[i], metaMap, tax)
    ensures forall x :: x in scores ==> Covers(x, Categories(tax))
  {
    forall x | x in scores
      ensures Covers(x, Categories(tax))
    {
      var i :| 0 <= i < |scores| && scores[i] == x;
      ScoreRowContents(rows[i], metaMap, tax);
    }
  }

  // ---------------------------------------------------------------- the pipeline

  /** The three per-scope aggregates. */
  datatype Aggregates = Aggregates(corridor: seq<DailyAggregate>, origin: seq<DailyAggregate>, destination: seq<DailyAggregate>)

  /** A table row after the datetime and flagging steps. */
  function FinalRow(a: Article, scope: string, tax: Taxonomy, blob: string -> (real, real),
                    parse: string -> Option<DateTime>, threshold: real): ArticleRow
  {
    WithFlag(WithDatetime(RowOf(a, scope, tax, blob), parse), threshold)
  }

  /**
    The table `df_all`: the corridor, origin and destination rows in that
    order, one per article, each with its datetime columns and flag set.
  */
  method BuildTable(corridorArticles: seq<Article>, originArticles: seq<Article>, destinationArticles: seq<Article>,
                    tax: Taxonomy, blob: string -> (real, real), parse: string -> Option<DateTime>, threshold: real)
    returns (rows: seq<ArticleRow>)
    ensures |rows| == |corridorArticles| + |originArticles| + |destinationArticles|
    ensures forall i :: 0 <= i < |corridorArticles| ==>
              rows[i] == FinalRow(corridorArticles[i], "corridor", tax, blob, parse, threshold)
    ensures forall i :: 0 <= i < |originArticles| ==>
              rows[|corridorArticles| + i] == FinalRow(originArticles[i], "origin", tax, blob, parse, threshold)
    ensures forall i :: 0 <= i < |destinationArticles| ==>
              rows[|corridorArticles| + |originArticles| + i] == FinalRow(destinationArticles[i], "destination", tax, blob, parse, threshold)
  {
    var dfCorridor := BuildDf(corridorArticles, "corridor", TextFromArticle, Analyser(blob), Tagger(tax));
    var dfOrigin := BuildDf(originArticles, "origin", TextFromArticle, Analyser(blob), Tagger(tax));
    var dfDestination := BuildDf(destinationArticles, "destination", TextFromArticle, Analyser(blob), Tagger(tax));
    var all := dfCorridor + dfOrigin + dfDestination;
    var df := new Frame(all);
    NormalizeDatetimeColumn(df, parse);
    MarkFlagged(df, threshold);
    rows := df.rows;
    ConcatSegments(dfCorridor, dfOrigin, dfDestination);
    forall i | 0 <= i < |corridorArticles|
      ensures rows[i] == FinalRow(corridorArticles[i], "corridor", tax, blob, parse, threshold)
    {
      assert all[i] == dfCorridor[i];
    }
    forall i | 0 <= i < |originArticles|
      ensures rows[|corridorArticles| + i] == FinalRow(originArticles[i], "origin", tax, blob, parse, threshold)
    {
      assert all[|corridorArticles| + i] == dfOrigin[i];
    }
    forall i | 0 <= i < |destinationArticles|
      ensures rows[|corridorArticles| + |originArticles| + i] == FinalRow(destinationArticles[i], "destination", tax, blob, parse, threshold)
    {
      assert all[|corridorArticles| + |originArticles| + i] == dfDestination[i];
    }
  }

  /** Where each part of a three-way concatenation lands. */
  lemma ConcatSegments<T>(a: seq<T>, b: seq<T>, c: seq<T>)
    ensures forall i :: 0 <= i < |a| ==> (a + b + c)[i] == a[i]
    ensures forall i :: 0 <= i < |b| ==> (a + b + c)[|a| + i] == b[i]
    ensures forall i :: 0 <= i < |c| ==> (a + b + c)[|a| + |b| + i] == c[i]
  {
  }

  /**
    From the three fetched article lists to the three aggregates: the table is
    built as above; the pool is the flagged rows newest first; the map enriches
    the head of the pool; every row is scored; each scope is aggregated over
    the taxonomy categories.
  */
  method RunPipeline(corridorArticles: seq<Article>, originArticles: seq<Article>, destinationArticles: seq<Article>,
                     tax: Taxonomy, blob: string -> (real, real), parse: string -> Option<DateTime>,
                     threshold: real, topK: int, hasClient: bool, classify: (string, string) -> Meta)
    returns (rows: seq<ArticleRow>, pool: seq<ArticleRow>, metaMap: map<Option<string>, Meta>,
             scores: seq<ScoreRow>, aggs: Aggregates)
    ensures |rows| == |corridorArticles| + |originArticles| + |destinationArticles|
    ensures forall i :: 0 <= i < |corridorArticles| ==>
              rows[i] == FinalRow(corridorArticles[i], "corridor", tax, blob, parse, threshold)
    ensures forall i :: 0 <= i < |originArticles| ==>
              rows[|corridorArticles| + i] == FinalRow(originArticles[i], "origin", tax, blob, parse, threshold)
    ensures forall i :: 0 <= i < |destinationArticles| ==>
              rows[|corridorArticles| + |originArticles| + i] == FinalRow(destinationArticles[i], "destination", tax, blob, parse, threshold)
    ensures IsFlaggedPool(pool, rows)
    ensures metaMap == (if hasClient && topK > 0 then MetaMapOf(pool[..MinInt(topK, |pool|)], classify) else map[])
    ensures |scores| == |rows|
    ensures forall i :: 0 <= i < |rows| ==> scores[i] == ScoreRowFor(rows[i], metaMap, tax)
    ensures forall x :: x in scores ==> Covers(x, Categories(tax))
    ensures aggs.corridor == AggregateScores(rows, scores, Categories(tax), "corridor")
    ensures aggs.origin == AggregateScores(rows, scores, Categories(tax), "origin")
    ensures aggs.destination == AggregateScores(rows, scores, Categories(tax), "destination")
  {
    rows := BuildTable(corridorArticles, originArticles, destinationArticles, tax, blob, parse, threshold);
    pool := FlaggedPool(rows);
    metaMap := Enrich(pool, topK, hasClient, classify);
    scores := ScoreAll(rows, metaMap, tax);
    ScoreRowsCover(rows, scores, metaMap, tax);
    var categories := Categories(tax);
    aggs := Aggregates(AggregateScores(rows, scores, categories, "corridor"),
                       AggregateScores(rows, scores, categories, "origin"),
                       AggregateScores(rows, scores, categories, "destination"));
  }

  /** Every score row of the pipeline covers the taxonomy, and every score lies in [0,1]. */
  lemma ScoreRowsInUnit(rows: seq<ArticleRow>, scores: seq<ScoreRow>, metaMap: map<Option<string>, Meta>, tax: Taxonomy)
    requires |scores| == |rows|
    requires forall i :: 0 <= i < |rows| ==> scores[i] == ScoreRowFor(rows[i], metaMap, tax)
    ensures forall x :: x in scores ==> forall k :: k in x.scores ==> 0.0 <= x.scores[k] <= 1.0
  {
    forall x | x in scores
      ensures forall k :: k in x.scores ==> 0.0 <= x.scores[k] <= 1.0
    {
      var i :| 0 <= i < |scores| && scores[i] == x;
      ScoreRowContents(rows[i], metaMap, tax);
    }
  }

  /**
    In the pipeline every aggregate row has a mean polarity: each score row
    comes from an article row of the same scope and date, so the left join
    always finds a partner.
  */
  lemma AvgPolarityAlwaysPresent(rows: seq<ArticleRow>, scores: seq<ScoreRow>, metaMap: map<Option<string>, Meta>,
                                 tax: Taxonomy, scope: string)
    requires |scores| == |rows|
    requires forall i :: 0 <= i < |rows| ==> scores[i] == ScoreRowFor(rows[i], metaMap, tax)
    ensures forall x :: x in scores ==> Covers(x, Categories(tax))
    ensures forall a :: a in AggregateScores(rows, scores, Categories(tax), scope) ==> a.avgPolarity.Some?
  {
    ScoreRowsCover(rows, scores, metaMap, tax);
    forall x | x in scores && x.date.Some?
      ensures exists r :: r in rows && r.sourceLabel == x.sourceLabel && r.date == x.date
    {
      var i :| 0 <= i < |scores| && scores[i] == x;
      ScoreRowContents(rows[i], metaMap, tax);
      assert rows[i] in rows;
    }
    AggregatePolarityPresent(rows, scores, Categories(tax), scope);
  }

  /**
    In the pipeline every daily category mean and every overall risk lies in
    [0,1], since every score does.
  */
  lemma DailyRiskInUnit(rows: seq<ArticleRow>, scores: seq<ScoreRow>, metaMap: map<Option<string>, Meta>,
                        tax: Taxonomy, scope: string)
    requires |scores| == |rows|
    requires forall i :: 0 <= i < |rows| ==> scores[i] == ScoreRowFor(rows[i], metaMap, tax)
    ensures forall x :: x in scores ==> Covers(x, Categories(tax))
    ensures forall a :: a in AggregateScores(rows, scores, Categories(tax), scope) ==>
              (forall j :: 0 <= j < |a.categoryMeans| ==> 0.0 <= a.categoryMeans[j] <= 1.0)
              && (a.overallRisk.Some? ==> 0.0 <= a.overallRisk.value <= 1.0)
  {
    ScoreRowsCover(rows, scores, metaMap, tax);
    ScoreRowsInUnit(rows, scores, metaMap, tax);
    AggregateInUnit(rows, scores, Categories(tax), scope);
  }
}
