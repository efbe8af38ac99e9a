/**
  The table-level helpers of services/utils.py: search-query formatting, the
  article table builder, datetime normalisation of the table, and the per-scope
  daily aggregation of risk scores.
*/
module Utils {
  import opened Wrappers
  import opened Strings
  import opened News
  import opened Nlp

  // ---------------------------------------------------------------- queries

  /** The three search queries: corridor, origin and destination. */
  datatype Queries = Queries(corridor: string, origin: string, destination: string)

  function Quote(s: string): string
  {
    "\"" + s + "\""
  }

  /**
    `build_queries(origin, destination)`: both names stripped; the origin and
    destination queries are the quoted names, the corridor query is
    `("O" AND "D") OR "O D" OR O OR D`.
  */
  function BuildQueries(origin: string, destination: string): (q: Queries)
    ensures var o, d := Strip(origin), Strip(destination);
            && q.origin == Quote(o)
            && q.destination == Quote(d)
            && q.corridor == "(" + Quote(o) + " AND " + Quote(d) + ") OR " + Quote(o + " " + d) + " OR " + o + " OR " + d
  {
    var o := Strip(origin);
    var d := Strip(destination);
    Queries("(" + Quote(o) + " AND " + Quote(d) + ") OR " + Quote(o + " " + d) + " OR " + o + " OR " + d, Quote(o), Quote(d))
  }

  /** Whitespace around the names never reaches the queries: stripping them first changes nothing. */
  lemma QueriesIgnoreSurroundingSpace(origin: string, destination: string)
    ensures BuildQueries(Strip(origin), Strip(destination)) == BuildQueries(origin, destination)
  {
    StripIdempotent(origin);
    StripIdempotent(destination);
  }

  /** Unquoting the origin and destination queries gives back the stripped names. */
  lemma QuotedNamesRecovered(origin: string, destination: string)
    ensures var q := BuildQueries(origin, destination);
            && |q.origin| >= 2 && q.origin[0] == '"' && q.origin[|q.origin| - 1] == '"'
            && q.origin[1..|q.origin| - 1] == Strip(origin) && NoEdgeSpace(q.origin[1..|q.origin| - 1])
            && |q.destination| >= 2 && q.destination[1..|q.destination| - 1] == Strip(destination)
  {
  }

  // ---------------------------------------------------------------- the article table

  /** A calendar date, as its day number. */
  datatype Date = Date(ordinal: int)

  /** A UTC-naive datetime: its calendar date and the nanoseconds into that day. */
  datatype DateTime = DateTime(date: Date, nanos: nat)

  /**
    One row of the article table: the columns `build_df` writes, then the
    columns added later, `publishedAt_dt` and `date` (by the datetime
    normaliser) and `flagged` (by the flagging step); these start as
    `None`/`false`.
  */
  datatype ArticleRow = ArticleRow(
    sourceLabel: string,
    publishedAt: Option<string>,
    title: Option<string>,
    description: Option<string>,
    url: Option<string>,
    source: Option<string>,
    contentText: string,
    polarity: real,
    subjectivity: real,
    sentimentLabel: Label,
    keywordTags: Tags,
    publishedAtDt: Option<DateTime>,
    date: Option<Date>,
    flagged: bool)

  /** `(a.get("source") or {}).get("name")`. */
  function SourceName(a: Article): (name: Option<string>)
    ensures a.source.None? ==> name.None?
    ensures a.source.Some? ==> name == a.source.value.name
  {
    if a.source.Some? then a.source.value.name else None
  }

  /**
    The row `build_df` appends for article `a`: the scope label, the article's
    own fields, the text and what the collaborators compute from that text; the
    later columns start out null and unflagged.
  */
  function ArticleToRow(a: Article, scope: string, textOf: Article -> string,
                        analyse: string -> Sentiment, tag: string -> Tags): (r: ArticleRow)
    ensures r.sourceLabel == scope && r.source == SourceName(a)
    ensures r.publishedAt == a.publishedAt && r.title == a.title && r.description == a.description && r.url == a.url
    ensures r.contentText == textOf(a) && r.keywordTags == tag(textOf(a))
    ensures r.polarity == analyse(textOf(a)).polarity && r.subjectivity == analyse(textOf(a)).subjectivity
    ensures r.sentimentLabel == analyse(textOf(a)).sentimentLabel
    ensures r.publishedAtDt.None? && r.date.None? && !r.flagged
  {
    var text := textOf(a);
    var s := analyse(text);
    ArticleRow(scope, a.publishedAt, a.title, a.description, a.url, SourceName(a), text,
               s.polarity, s.subjectivity, s.sentimentLabel, tag(text), None, None, false)
  }

  /**
    `build_df(articles, source_label, text_from_article, analyze_sentiment, tag_keywords)`:
    exactly one row per article, in input order, no deduplication; each row
    carries the scope label verbatim, the article's own fields, and the text,
    sentiment and tags computed by the given collaborators.
  */
  method BuildDf(articles: seq<Article>, scope: string, textOf: Article -> string,
                 analyse: string -> Sentiment, tag: string -> Tags) returns (rows: seq<ArticleRow>)
    ensures |rows| == |articles|
    ensures forall i :: 0 <= i < |articles| ==> rows[i] == ArticleToRow(articles[i], scope, textOf, analyse, tag)
    ensures forall i :: 0 <= i < |articles| ==>
              && rows[i].sourceLabel == scope
              && rows[i].url == articles[i].url
              && rows[i].publishedAt == articles[i].publishedAt
              && rows[i].source == SourceName(articles[i])
              && rows[i].contentText == textOf(articles[i])
              && rows[i].keywordTags == tag(textOf(articles[i]))
  {
    rows := [];
    for k := 0 to |articles|
      invariant |rows| == k
      invariant forall i :: 0 <= i < k ==> rows[i] == ArticleToRow(articles[i], scope, textOf, analyse, tag)
    {
      rows := rows + [ArticleToRow(articles[k], scope, textOf, analyse, tag)];
    }
  }

  /** The whole table, updated in place by the steps that add columns. */
  class Frame {
    var rows: seq<ArticleRow>

    constructor (rows: seq<ArticleRow>)
      ensures this.rows == rows
    {
      this.rows := rows;
    }
  }

  /**
    The datetime columns of one row: a missing or unparseable `publishedAt` gives
    null for both; otherwise `date` is the calendar date of the parsed datetime.
    Every other column is unchanged.
  */
  function WithDatetime(row: ArticleRow, parse: string -> Option<DateTime>): (r: ArticleRow)
    ensures r.(publishedAtDt := row.publishedAtDt, date := row.date) == row
    ensures r.publishedAtDt == (if row.publishedAt.Some? then parse(row.publishedAt.value) else None)
    ensures r.date.Some? <==> r.publishedAtDt.Some?
    ensures r.date.Some? ==> r.date.value == r.publishedAtDt.value.date
  {
    var dt := if row.publishedAt.Some? then parse(row.publishedAt.value) else None;
    row.(publishedAtDt := dt, date := if dt.Some? then Some(dt.value.date) else None)
  }

  /**
    `normalize_datetime_column(df)`: adds `publishedAt_dt` and `date` to every
    row of the table, in place; no row is added, dropped or reordered.
  */
  method NormalizeDatetimeColumn(df: Frame, parse: string -> Option<DateTime>)
    modifies df
    ensures |df.rows| == |old(df.rows)|
    ensures forall i :: 0 <= i < |df.rows| ==> df.rows[i] == WithDatetime(old(df.rows[i]), parse)
  {
    df.rows := seq(|df.rows|, i requires 0 <= i < |df.rows| reads df => WithDatetime(df.rows[i], parse));
  }

  // ---------------------------------------------------------------- aggregation

  /** One row of the score table (`df_scores`): the category scores and the copied article columns. */
  datatype ScoreRow = ScoreRow(
    scores: map<string, real>,
    url: Option<string>,
    title: Option<string>,
    sourceLabel: string,
    date: Option<Date>,
    polarity: real,
    sentimentLabel: Label,
    openaiSummary: string)

  /** One row of an aggregate: a date, its category means (in category order), overall risk and mean polarity. */
  datatype DailyAggregate = DailyAggregate(date: Date, categoryMeans: seq<real>, overallRisk: Option<real>, avgPolarity: Option<real>)

  function Sum(xs: seq<real>): real
  {
    if |xs| == 0 then 0.0 else xs[0] + Sum(xs[1..])
  }

  /** The unweighted mean (pandas' `mean`) of a non-empty column. */
  function Mean(xs: seq<real>): (m: real)
    requires |xs| > 0
    ensures m * |xs| as real == Sum(xs)
  {
    Sum(xs) / |xs| as real
  }

  lemma {:induction false} SumBounds(xs: seq<real>, lo: real, hi: real)
    requires forall i :: 0 <= i < |xs| ==> lo <= xs[i] <= hi
    ensures |xs| as real * lo <= Sum(xs) <= |xs| as real * hi
  {
    if |xs| > 0 {
      SumBounds(xs[1..], lo, hi);
    }
  }

  /** A mean lies between the bounds of the values averaged. */
  lemma MeanBounds(xs: seq<real>, lo: real, hi: real)
    requires |xs| > 0
    requires forall i :: 0 <= i < |xs| ==> lo <= xs[i] <= hi
    ensures lo <= Mean(xs) <= hi
  {
    SumBounds(xs, lo, hi);
    var n := |xs| as real;
    assert Sum(xs) / n >= (n * lo) / n;
    assert Sum(xs) / n <= (n * hi) / n;
  }

  /**
    Boolean-mask selection `frame[mask]`: the rows that satisfy `keep`, in their
    original order, each kept row as often as it occurs.
  */
  function Filter<T(==,!new)>(rows: seq<T>, keep: T -> bool): (r: seq<T>)
    ensures forall x :: x in r <==> x in rows && keep(x)
  {
    if |rows| == 0 then []
    else
      var rest := Filter(rows[1..], keep);
      if keep(rows[0]) then [rows[0]] + rest else rest
  }

  /** Each kept row occurs in the selection exactly as often as in the table; no other row occurs. */
  lemma {:induction false} FilterCount<T(!new)>(rows: seq<T>, keep: T -> bool)
    ensures forall x :: multiset(Filter(rows, keep))[x] == if keep(x) then multiset(rows)[x] else 0
  {
    if |rows| > 0 {
      FilterCount(rows[1..], keep);
      assert rows == [rows[0]] + rows[1..];
    }
  }

  /** The selection keeps the rows in their original relative order. */
  lemma {:induction false} FilterOrder<T(!new)>(rows: seq<T>, keep: T -> bool)
    ensures IsSubsequence(Filter(rows, keep), rows)
  {
    if |rows| > 0 {
      FilterOrder(rows[1..], keep);
      var r := Filter(rows, keep);
      if keep(rows[0]) {
        assert r[1..] == Filter(rows[1..], keep);
      } else if |r| > 0 {
        assert r[0] in r;
      }
    }
  }

  /** Selecting one more row at the end adds it at the end of the selection when it is kept. */
  lemma {:induction false} FilterSnoc<T(!new)>(rows: seq<T>, x: T, keep: T -> bool)
    ensures Filter(rows + [x], keep) == Filter(rows, keep) + (if keep(x) then [x] else [])
  {
    if |rows| > 0 {
      assert (rows + [x])[1..] == rows[1..] + [x];
      FilterSnoc(rows[1..], x, keep);
    } else {
      assert (rows + [x])[1..] == [];
    }
  }

  /** Selecting twice with the same mask selects nothing more. */
  lemma {:induction false} FilterIdempotent<T(!new)>(rows: seq<T>, keep: T -> bool)
    ensures Filter(Filter(rows, keep), keep) == Filter(rows, keep)
  {
    if |rows| > 0 {
      FilterIdempotent(rows[1..], keep);
      var r := Filter(rows, keep);
      if keep(rows[0]) {
        assert r[0] == rows[0] && r[1..] == Filter(rows[1..], keep);
      } else {
        assert r == Filter(rows[1..], keep);
      }
    }
  }

  /** The mask `df_all["source_label"] == scope`. */
  function ArticleInScope(scope: string): ArticleRow -> bool
  {
    (x: ArticleRow) => x.sourceLabel == scope
  }

  /** The mask `df_scores["source_label"] == scope`. */
  function ScoreInScope(scope: string): ScoreRow -> bool
  {
    (x: ScoreRow) => x.sourceLabel == scope
  }

  /** The mask selecting the score rows of the date group `d`. */
  function ScoreOnDate(d: Date): ScoreRow -> bool
  {
    (x: ScoreRow) => x.date == Some(d)
  }

  /** The mask selecting the article rows of date `d`. */
  function ArticleOnDate(d: Date): ArticleRow -> bool
  {
    (x: ArticleRow) => x.date == Some(d)
  }

  /** `df_all[df_all["source_label"] == scope]`. */
  function ArticlesIn(rows: seq<ArticleRow>, scope: string): (r: seq<ArticleRow>)
    ensures forall x :: x in r <==> x in rows && x.sourceLabel == scope
  {
    Filter(rows, ArticleInScope(scope))
  }

  /** `df_scores[df_scores["source_label"] == scope]`. */
  function ScoresIn(rows: seq<ScoreRow>, scope: string): (r: seq<ScoreRow>)
    ensures forall x :: x in r <==> x in rows && x.sourceLabel == scope
  {
    Filter(rows, ScoreInScope(scope))
  }

  /** The score rows of one date group. */
  function ScoresOn(rows: seq<ScoreRow>, d: Date): (r: seq<ScoreRow>)
    ensures forall x :: x in r <==> x in rows && x.date == Some(d)
    ensures HasScoreOn(rows, d) ==> |r| > 0
  {
    Filter(rows, ScoreOnDate(d))
  }

  /** The article rows of one date group. */
  function ArticlesOn(rows: seq<ArticleRow>, d: Date): (r: seq<ArticleRow>)
    ensures forall x :: x in r <==> x in rows && x.date == Some(d)
  {
    Filter(rows, ArticleOnDate(d))
  }

  /**
    The scope selections keep every row of the scope as often as the table
    holds it, drop every other row, and keep the table's order.
  */
  lemma ScopeSelections(all: seq<ArticleRow>, scores: seq<ScoreRow>, scope: string)
    ensures forall x :: multiset(ArticlesIn(all, scope))[x] == if x.sourceLabel == scope then multiset(all)[x] else 0
    ensures forall x :: multiset(ScoresIn(scores, scope))[x] == if x.sourceLabel == scope then multiset(scores)[x] else 0
    ensures IsSubsequence(ArticlesIn(all, scope), all) && IsSubsequence(ScoresIn(scores, scope), scores)
  {
    FilterCount(all, ArticleInScope(scope));
    FilterCount(scores, ScoreInScope(scope));
    FilterOrder(all, ArticleInScope(scope));
    FilterOrder(scores, ScoreInScope(scope));
  }

  /** The same for the date groups. */
  lemma DateSelections(all: seq<ArticleRow>, scores: seq<ScoreRow>, d: Date)
    ensures forall x :: multiset(ScoresOn(scores, d))[x] == if x.date == Some(d) then multiset(scores)[x] else 0
    ensures forall x :: multiset(ArticlesOn(all, d))[x] == if x.date == Some(d) then multiset(all)[x] else 0
    ensures IsSubsequence(ScoresOn(scores, d), scores) && IsSubsequence(ArticlesOn(all, d), all)
  {
    FilterCount(scores, ScoreOnDate(d));
    FilterCount(all, ArticleOnDate(d));
    FilterOrder(scores, ScoreOnDate(d));
    FilterOrder(all, ArticleOnDate(d));
  }

  /** The polarities of the article rows of one date, in row order. */
  function PolaritiesOn(rows: seq<ArticleRow>, d: Date): (ps: seq<real>)
    ensures |ps| == |ArticlesOn(rows, d)|
    ensures forall i :: 0 <= i < |ps| ==> ps[i] == ArticlesOn(rows, d)[i].polarity
    ensures |ps| > 0 <==> exists x :: x in rows && x.date == Some(d)
  {
    var group := ArticlesOn(rows, d);
    assert |group| > 0 ==> group[0] in group;
    seq(|group|, i requires 0 <= i < |group| => group[i].polarity)
  }

  /** Every category is a column of the score row. */
  predicate Covers(row: ScoreRow, categories: seq<string>)
  {
    forall j :: 0 <= j < |categories| ==> categories[j] in row.scores
  }

  /** The column of category `categories[j]` of a group of score rows. */
  function Column(rows: seq<ScoreRow>, categories: seq<string>, j: nat): (xs: seq<real>)
    requires j < |categories|
    requires forall x :: x in rows ==> Covers(x, categories)
    ensures |xs| == |rows|
    ensures forall i :: 0 <= i < |rows| ==> Covers(rows[i], categories) && xs[i] == rows[i].scores[categories[j]]
  {
    if |rows| == 0 then []
    else
      assert Covers(rows[0], categories);
      [rows[0].scores[categories[j]]] + Column(rows[1..], categories, j)
  }

  /** The date `d` is the date of some score row. */
  predicate HasScoreOn(rows: seq<ScoreRow>, d: Date)
  {
    exists x :: x in rows && x.date == Some(d)
  }

  predicate Ascending(ds: seq<Date>)
  {
    forall i, j :: 0 <= i < j < |ds| ==> ds[i].ordinal < ds[j].ordinal
  }

  function InsertDate(d: Date, ds: seq<Date>): (r: seq<Date>)
    requires Ascending(ds)
    ensures Ascending(r)
    ensures forall e :: e in r <==> e == d || e in ds
  {
    if |ds| == 0 then [d]
    else if d.ordinal < ds[0].ordinal then [d] + ds
    else if d == ds[0] then ds
    else
      var rest := InsertDate(d, ds[1..]);
      assert forall e :: e in rest ==> ds[0].ordinal < e.ordinal;
      [ds[0]] + rest
  }

  /** The distinct non-null dates of the score rows, ascending: the group keys of `groupby("date")`. */
  function ScoreDates(rows: seq<ScoreRow>): (ds: seq<Date>)
    ensures Ascending(ds)
    ensures forall d :: d in ds <==> HasScoreOn(rows, d)
  {
    if |rows| == 0 then []
    else
      var rest := ScoreDates(rows[1..]);
      assert forall x :: x in rows <==> x == rows[0] || x in rows[1..];
      if rows[0].date.Some? then InsertDate(rows[0].date.value, rest) else rest
  }

  /** The aggregate row of date `d`, from the scope's score rows and article rows. */
  function DayAggregate(d: Date, scores: seq<ScoreRow>, articles: seq<ArticleRow>, categories: seq<string>): (a: DailyAggregate)
    requires HasScoreOn(scores, d)
    requires forall x :: x in scores ==> Covers(x, categories)
    ensures a.date == d
  {
    var group := ScoresOn(scores, d);
    var means := seq(|categories|, j requires 0 <= j < |categories| => Mean(Column(group, categories, j)));
    var pol := PolaritiesOn(articles, d);
    DailyAggregate(d, means,
                   if |categories| == 0 then None else Some(Mean(means)),
                   if |pol| == 0 then None else Some(Mean(pol)))
  }

  /**
    `aggregate_scores(df_all, df_scores, categories, scope)`: empty when the
    scope has no articles or no score rows; otherwise one row per group date,
    strictly ascending.
  */
  function AggregateScores(all: seq<ArticleRow>, scores: seq<ScoreRow>, categories: seq<string>, scope: string): (agg: seq<DailyAggregate>)
    requires forall x :: x in scores ==> Covers(x, categories)
    ensures |ArticlesIn(all, scope)| == 0 || |ScoresIn(scores, scope)| == 0 ==> agg == []
    ensures forall i, j :: 0 <= i < j < |agg| ==> agg[i].date.ordinal < agg[j].date.ordinal
  {
    var articles := ArticlesIn(all, scope);
    var sc := ScoresIn(scores, scope);
    if |articles| == 0 || |sc| == 0 then []
    else
      var ds := ScoreDates(sc);
      seq(|ds|, i requires 0 <= i < |ds| => DayAggregate(ds[i], sc, articles, categories))
  }

  /**
    The aggregate has a row for exactly the distinct non-null dates of the
    scope's score rows (when the scope has articles): no row without a score
    row of that date, no filler rows, and no such date missing.
  */
  lemma AggregateDates(all: seq<ArticleRow>, scores: seq<ScoreRow>, categories: seq<string>, scope: string)
    requires forall x :: x in scores ==> Covers(x, categories)
    ensures var agg := AggregateScores(all, scores, categories, scope);
            forall i :: 0 <= i < |agg| ==> HasScoreOn(ScoresIn(scores, scope), agg[i].date)
    ensures var agg := AggregateScores(all, scores, categories, scope);
            |ArticlesIn(all, scope)| > 0 ==>
              forall x :: x in scores && x.sourceLabel == scope && x.date.Some? ==>
                exists i :: 0 <= i < |agg| && agg[i].date == x.date.value
  {
    var agg := AggregateScores(all, scores, categories, scope);
    var sc := ScoresIn(scores, scope);
    if |ArticlesIn(all, scope)| > 0 && |sc| > 0 {
      var ds := ScoreDates(sc);
      assert forall k :: 0 <= k < |ds| ==> agg[k].date == ds[k];
      forall i | 0 <= i < |agg|
        ensures HasScoreOn(sc, agg[i].date)
      {
        assert ds[i] in ds;
      }
      forall x | x in scores && x.sourceLabel == scope && x.date.Some?
        ensures exists i :: 0 <= i < |agg| && agg[i].date == x.date.value
      {
        assert x in sc;
        assert HasScoreOn(sc, x.date.value);
        assert x.date.value in ds;
        var k :| 0 <= k < |ds| && ds[k] == x.date.value;
        assert agg[k].date == x.date.value;
      }
    }
  }

  /**
    Each aggregate row: every category column is the unweighted mean of that
    category's scores over the date's score rows in the scope; the overall risk
    is the mean of those category means (absent when there are no categories);
    the mean polarity is the mean over the scope's articles of that date, absent
    when the scope has no article of that date.
  */
  lemma AggregateRow(all: seq<ArticleRow>, scores: seq<ScoreRow>, categories: seq<string>, scope: string, i: nat)
    requires forall x :: x in scores ==> Covers(x, categories)
    requires i < |AggregateScores(all, scores, categories, scope)|
    ensures var a := AggregateScores(all, scores, categories, scope)[i];
            var group := ScoresOn(ScoresIn(scores, scope), a.date);
            var arts := ArticlesIn(all, scope);
            && |group| > 0
            && |a.categoryMeans| == |categories|
            && (forall j :: 0 <= j < |categories| ==> a.categoryMeans[j] == Mean(Column(group, categories, j)))
            && a.overallRisk == (if |categories| == 0 then None else Some(Mean(a.categoryMeans)))
            && a.avgPolarity == (if HasArticleOn(arts, a.date) then Some(Mean(PolaritiesOn(arts, a.date))) else None)
  {
    var sc := ScoresIn(scores, scope);
    var articles := ArticlesIn(all, scope);
    var ds := ScoreDates(sc);
    assert ds[i] in ds;
    var a := DayAggregate(ds[i], sc, articles, categories);
    assert AggregateScores(all, scores, categories, scope)[i] == a;
    var pol := PolaritiesOn(articles, ds[i]);
    assert |pol| > 0 <==> HasArticleOn(articles, ds[i]);
  }

  /**
    When every score lies in [0,1], so does every daily category mean and every
    overall risk.
  */
  lemma AggregateInUnit(all: seq<ArticleRow>, scores: seq<ScoreRow>, categories: seq<string>, scope: string)
    requires forall x :: x in scores ==> Covers(x, categories)
    requires forall x :: x in scores ==> forall k :: k in x.scores ==> 0.0 <= x.scores[k] <= 1.0
    ensures forall a :: a in AggregateScores(all, scores, categories, scope) ==>
              (forall j :: 0 <= j < |a.categoryMeans| ==> 0.0 <= a.categoryMeans[j] <= 1.0)
              && (a.overallRisk.Some? ==> 0.0 <= a.overallRisk.value <= 1.0)
  {
    var agg := AggregateScores(all, scores, categories, scope);
    forall k | 0 <= k < |agg|
      ensures forall j :: 0 <= j < |agg[k].categoryMeans| ==> 0.0 <= agg[k].categoryMeans[j] <= 1.0
      ensures agg[k].overallRisk.Some? ==> 0.0 <= agg[k].overallRisk.value <= 1.0
    {
      AggregateRow(all, scores, categories, scope, k);
      DayInUnit(ScoresOn(ScoresIn(scores, scope), agg[k].date), categories, agg[k].categoryMeans);
    }
  }

  lemma DayInUnit(group: seq<ScoreRow>, categories: seq<string>, means: seq<real>)
    requires |group| > 0
    requires forall x :: x in group ==> Covers(x, categories)
    requires forall x :: x in group ==> forall k :: k in x.scores ==> 0.0 <= x.scores[k] <= 1.0
    requires |means| == |categories|
    requires forall j :: 0 <= j < |categories| ==> means[j] == Mean(Column(group, categories, j))
    ensures forall j :: 0 <= j < |means| ==> 0.0 <= means[j] <= 1.0
    ensures |means| > 0 ==> 0.0 <= Mean(means) <= 1.0
  {
    forall j | 0 <= j < |categories|
      ensures 0.0 <= means[j] <= 1.0
    {
      var col := Column(group, categories, j);
      forall t | 0 <= t < |col|
        ensures 0.0 <= col[t] <= 1.0
      {
        assert group[t] in group;
      }
      MeanBounds(col, 0.0, 1.0);
    }
    if |means| > 0 {
      MeanBounds(means, 0.0, 1.0);
    }
  }

  /**
    When every dated score row has an article row of the same scope and date,
    the left join finds a mean polarity for every aggregate row.
  */
  lemma AggregatePolarityPresent(all: seq<ArticleRow>, scores: seq<ScoreRow>, categories: seq<string>, scope: string)
    requires forall x :: x in scores ==> Covers(x, categories)
    requires forall x :: x in scores && x.date.Some? ==>
               exists r :: r in all && r.sourceLabel == x.sourceLabel && r.date == x.date
    ensures forall a :: a in AggregateScores(all, scores, categories, scope) ==> a.avgPolarity.Some?
  {
    var agg := AggregateScores(all, scores, categories, scope);
    AggregateDates(all, scores, categories, scope);
    forall k | 0 <= k < |agg|
      ensures agg[k].avgPolarity.Some?
    {
      AggregateRow(all, scores, categories, scope, k);
      var x :| x in ScoresIn(scores, scope) && x.date == Some(agg[k].date);
      var r :| r in all && r.sourceLabel == x.sourceLabel && r.date == x.date;
      assert r in ArticlesIn(all, scope);
    }
  }

  /**
    The aggregate of a scope depends only on that scope's rows: aggregating the
    pre-filtered tables gives the same result, so rows of other scopes never
    influence it.
  */
  lemma AggregateOnlyScope(all: seq<ArticleRow>, scores: seq<ScoreRow>, categories: seq<string>, scope: string)
    requires forall x :: x in scores ==> Covers(x, categories)
    ensures forall x :: x in ScoresIn(scores, scope) ==> Covers(x, categories)
    ensures AggregateScores(ArticlesIn(all, scope), ScoresIn(scores, scope), categories, scope)
            == AggregateScores(all, scores, categories, scope)
  {
    FilterIdempotent(all, ArticleInScope(scope));
    FilterIdempotent(scores, ScoreInScope(scope));
  }

  /** Some article row has date `d`. */
  predicate HasArticleOn(rows: seq<ArticleRow>, d: Date)
  {
    exists x :: x in rows && x.date == Some(d)
  }
}
