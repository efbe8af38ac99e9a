# Supply-chain risk scoring pipeline, in Dafny

This project models the part of the Supply-Chain Intelligence Platform that
turns news-article records into risk figures. The platform fetches articles
for a trade corridor, its origin and its destination. Each article record
becomes a text. The text gets a sentiment and keyword tags from a fixed risk
taxonomy. Rows are flagged when their sentiment is low or a tag is present.
The newest flagged rows may be enriched with classifier metadata. Every row
then gets a score per risk category, and the scores are averaged per scope
and per day.

Modules, one per source file, plus three helpers:

- `Wrappers`: `Option`.
- `Strings`: the parts of Python's `str` that the code uses. These are
  `isspace`, `strip`, `lower`, substring `in`, `split(sep)[0]` and `" ".join`.
- `Rounding`: `round(x, 4)` on exact reals, with ties to even.
- `Nlp` (`services/nlp.py`): the taxonomy, `tag_keywords` and the sentiment
  guard and labelling.
- `Scoring` (`services/scoring.py`): `score_article`.
- `News` (`services/news.py`): `text_from_article`.
- `Utils` (`services/utils.py`): `build_queries`, `build_df`,
  `normalize_datetime_column` and `aggregate_scores`.
- `App` (`app.py`): flagging, the flagged pool, enrichment, the scoring loop
  and the three aggregation calls.

The taxonomy is an explicit, ordered parameter with distinct category names.
Both the tagger and the scorer take it, and `Nlp.RiskKeywords` is the deployed
table. External collaborators are parameters:

- the TextBlob analyser is `string -> (real, real)`;
- pandas' datetime parser is `string -> Option<DateTime>`;
- the metadata classifier is `(string, string) -> Meta`, and whether a client
  exists is a boolean.

The table `df_all` is a `Frame` object whose row sequence is updated in place.
The loops in `build_df`, the enrichment step and the scoring step are methods
with loop invariants.

## Model

| member | source | states |
|---|---|---|
| Strings.Strip | utils.py:6-7 | the result has no whitespace at either end; it is the input with only whitespace removed around it |
| Strings.StripEmpty | news.py:37 | stripping gives "" exactly when the text is all whitespace |
| Strings.StripIdempotent | utils.py:6-7 | stripping twice equals stripping once |
| Strings.StripNoEdge | utils.py:6-7 | a text with no whitespace at either end is unchanged by stripping |
| Strings.Lower | nlp.py:28 | lower-casing keeps the length and maps each character to its lower case |
| Strings.LowerIdempotent | nlp.py:28 | lower-casing twice equals lower-casing once |
| Strings.ContainsIff | nlp.py:30 | `w in s` holds exactly when `w` occurs at some position of `s` |
| Strings.BeforeFirst | news.py:35 | `s.split(sep)[0]` is a prefix of `s` with no occurrence of `sep` starting inside it, and `sep` starts right after it unless it is all of `s` |
| Strings.BeforeFirstWhole | news.py:35 | the split keeps all of `s` exactly when `sep` does not occur in it |
| Strings.NonEmpty | news.py:37 | the filter keeps exactly the non-empty parts |
| Strings.JoinSpaces | news.py:37 | joining no parts gives "", one part gives that part; otherwise the result starts with the first part, followed by a space |
| Strings.JoinSpacesSnoc | news.py:37 | joining one part more appends a single space and that part, so the parts follow one another one space apart |
| Rounding.RoundHalfEven | scoring.py:22 | the rounded value is the floor or the floor plus one, within one half of the input |
| Rounding.RoundHalfEvenMonotone | scoring.py:22 | rounding to an integer never reverses the order of two values |
| Rounding.Round4 | scoring.py:22 | `round(x, 4)` has at most four decimals and lies within half a unit of the fourth decimal of `x` |
| Rounding.Round4Monotone | scoring.py:22 | `round(x, 4)` never reverses the order of two values |
| Rounding.Round4Within | scoring.py:22 | `round(x, 4)` keeps a value inside any interval whose ends have four decimals |
| Rounding.Round4Unit | scoring.py:22 | `round(x, 4)` maps [0,1] into [0,1] |
| Rounding.Round4Signed | nlp.py:16 | `round(x, 4)` maps [-1,1] into [-1,1] |
| Rounding.Round4Exact | nlp.py:16-17 | a value that already has four decimals is unchanged by `round(x, 4)` |
| Nlp.Categories | app.py:133 | the category list has one name per taxonomy entry, in taxonomy order |
| Nlp.RiskKeywordsDistinct | nlp.py:4-10 | the five deployed categories have distinct names |
| Nlp.Hits | nlp.py:30 | the hits are exactly the keywords that occur in the lower-cased text |
| Nlp.HitsInOrder | nlp.py:30 | the hits form a subsequence of the category's keyword list |
| Nlp.TagWith | nlp.py:26-33 | the tagging loop yields at most one entry per taxonomy category |
| Nlp.TagWithNonEmpty | nlp.py:31-32 | no category is mapped to an empty hit list |
| Nlp.TagKeysInOrder | nlp.py:29 | the tagged categories form a subsequence of the taxonomy, in order |
| Nlp.TagWithKeysKnown | nlp.py:29 | every tagged category belongs to the taxonomy |
| Nlp.TagWithEntry | nlp.py:29-32 | category `i` is a key exactly when its hit list is non-empty, and its entry is that hit list |
| Nlp.TagKeywords | nlp.py:26-33 | each category is a key exactly when one of its keywords occurs in the lower-cased text; its value is the hit list, never empty; the keys follow taxonomy order; `None` is read as "" |
| Nlp.TagEntries | nlp.py:29-32 | a category is tagged exactly when some keyword occurs, and its entry is that category's hits |
| Nlp.TagIgnoresCase | nlp.py:28 | tagging a text equals tagging its lower-cased form |
| Nlp.TagNoneIsEmpty | nlp.py:28 | `None` text is tagged like the empty text |
| Nlp.LabelOf | nlp.py:18-23 | the label is positive exactly above 0.1, negative exactly below -0.1, and neutral otherwise |
| Nlp.AnalyzeSentiment | nlp.py:12-24 | empty or `None` text gives (0, 0, neutral) without using the analyser; otherwise the analyser's polarity and subjectivity, each rounded to 4 places, and the label of the rounded polarity |
| Nlp.WhitespaceIsAnalysed | nlp.py:13-17 | any non-empty text made only of whitespace is handed to the analyser, and the result is its rounded polarity, rounded subjectivity and the label of that polarity |
| Nlp.SentimentInRange | nlp.py:12-24 | when the analyser gives polarity in [-1,1] and subjectivity in [0,1], so does the result |
| Scoring.SentimentRisk | scoring.py:13 | sentiment risk is 0 for polarity at or above 0 and `-polarity` below 0, so never negative |
| Scoring.Severity | scoring.py:14 | no metadata or no severity gives ""; otherwise the severity lower-cased, with no upper-case letter left |
| Scoring.Tagged | scoring.py:19 | a category is present exactly when the tags exist and one of their entries has that category as key |
| Scoring.KeywordContribution | scoring.py:19-20 | a present category contributes 0.4, an absent one 0 |
| Scoring.SeverityBoost | scoring.py:14-15 | the boost is 0.5 exactly for lower-cased severity "high", 0.25 exactly for "medium" and 0 exactly for any other severity, missing included |
| Scoring.CategoryScore | scoring.py:19-22 | a category score lies in [0,1] for any polarity and any non-negative boost |
| Scoring.ScoreArticle | scoring.py:4-23 | one score per taxonomy category, in taxonomy order, each in [0,1] |
| Scoring.ScoreAt | scoring.py:13-22 | category `i` scores `round(min(1, 0.6·max(0,-p) + 0.4·[tagged] + 0.4·boost), 4)` |
| Scoring.PositivePolarityIgnored | scoring.py:13 | every polarity at or above 0 scores exactly as polarity 0 does |
| Scoring.ScoreNonIncreasing | scoring.py:13-22 | with tags and metadata fixed, a higher polarity never raises any category's score |
| Scoring.KeywordNeverLowers | scoring.py:19-21 | a tagged category never scores below an untagged one, all else equal |
| Scoring.PresenceOnly | scoring.py:19-20 | two tag sets with the same categories present give the same scores, whatever the hit lists |
| Scoring.SamePresenceSameScore | scoring.py:18-22 | two categories that are both tagged, or both untagged, get equal scores |
| Scoring.NoTagsNoMeta | scoring.py:13-22 | with no tags and no metadata every score is `round(min(1, 0.6·max(0,-p)), 4)` |
| Scoring.NoneMetaIsEmptyMeta | scoring.py:11-12 | `None` metadata scores exactly like `{}` |
| Scoring.SeverityIgnoresCase | scoring.py:14 | the severity test ignores case |
| Scoring.SeverityTable | scoring.py:14-15 | "High" gives 0.5 and "MEDIUM" gives 0.25; "low", "unknown", a missing severity and no metadata give 0 |
| Scoring.FallbackMetaIsNoMeta | scoring.py:14-15 | the classifier's failure metadata scores exactly like no metadata |
| Scoring.NoneTagsAreEmpty | scoring.py:19 | `None` tags score exactly like `{}` |
| Scoring.ExtremePolarityClamps | scoring.py:21-22 | a polarity of -5 scores 1.0 in every category |
| Scoring.StrikeScenario | scoring.py:13-22 | polarity -0.3, tags on logistics and labor, no metadata: logistics and labor score 0.58, the others 0.18 |
| Scoring.StrikeTags | scoring.py:19 | the strike article's tags mark logistics and labor and none of the other three categories |
| Scoring.StrikeValues | scoring.py:13-22 | polarity -0.3 without metadata scores 0.58 for a tagged category and 0.18 for an untagged one |
| News.TextFromArticle | news.py:31-37 | the text has no leading or trailing whitespace |
| News.NonEmptyOfThree | news.py:37 | filtering three parts keeps the non-empty ones, in order |
| News.BodyIsPrefixBeforeMarker | news.py:35 | the body is the prefix of the content before the first marker, or all of it when there is no marker |
| News.MissingFieldsAreEmpty | news.py:33-35 | a missing title, description or content is read as "" |
| News.AllEmptyGivesEmpty | news.py:37 | with all three parts empty the text is "" |
| News.TitleOnly | news.py:32-37 | a title alone, non-empty and without surrounding whitespace, is the whole text |
| News.MissingDescriptionSeparator | news.py:37 | a missing description adds no separator: title and body are joined by one space |
| News.AllPartsSeparator | news.py:37 | with all three parts present they are joined by single spaces |
| Utils.BuildQueries | utils.py:5-11 | both names are stripped; origin and destination queries are the quoted names; the corridor query has the four-alternative shape |
| Utils.QueriesIgnoreSurroundingSpace | utils.py:6-7 | stripping the names first changes none of the queries |
| Utils.QuotedNamesRecovered | utils.py:8-10 | removing the quotes from the origin and destination queries gives back the stripped names |
| Utils.SourceName | utils.py:33 | no source gives `None`; otherwise the source's name, itself possibly `None` |
| Utils.ArticleToRow | utils.py:24-39 | the row holds the scope label, the article's publication time, title, description, url and source name, the text, the sentiment and tags computed from that text; datetime columns are null and the row is unflagged |
| Utils.BuildDf | utils.py:21-41 | one row per article, in input order, with no dedup; each row carries the scope label verbatim, the article's fields, `source.name` or `None`, and the text, sentiment and tags the collaborators compute |
| Utils.WithDatetime | utils.py:13-19 | a missing or unparseable `publishedAt` gives a null datetime and a null date; otherwise the date is the parsed datetime's calendar date; other columns are unchanged |
| Utils.NormalizeDatetimeColumn | utils.py:13-19 | every row of the table gets its datetime columns in place; no row is added, dropped or reordered |
| Utils.Mean | utils.py:52-54 | the mean times the number of values is their sum |
| Utils.MeanBounds | utils.py:52-54 | a mean lies between the bounds of the values averaged |
| Utils.Filter | utils.py:44 | a boolean-mask selection holds exactly the rows that satisfy the mask |
| Utils.FilterCount | utils.py:44 | each selected row occurs as often as in the table, and no other row occurs |
| Utils.FilterOrder | utils.py:44 | the selection keeps the table's order: it is a subsequence of the table |
| Utils.FilterSnoc | app.py:94 | selecting from a table with one more row at the end adds that row at the end exactly when the mask holds |
| Utils.FilterIdempotent | utils.py:44 | selecting twice with the same mask equals selecting once |
| Utils.ArticlesIn | utils.py:44 | the scope's article rows are exactly the rows with that label (multiplicity and order: `Utils.ScopeSelections`) |
| Utils.ScoresIn | utils.py:48 | the scope's score rows are exactly the score rows with that label (multiplicity and order: `Utils.ScopeSelections`) |
| Utils.ScopeSelections | utils.py:44-48 | both scope selections keep each row of the scope exactly as often as the table holds it, drop every other row, and keep the table's order |
| Utils.ScoresOn | utils.py:52 | a date group holds exactly the score rows of that date, and it is non-empty when some row has the date |
| Utils.ArticlesOn | utils.py:54 | the article group of a date holds exactly the article rows of that date |
| Utils.DateSelections | utils.py:52-54 | both date groups keep each row of the date exactly as often as the table holds it, drop every other row, and keep the table's order |
| Utils.Column | utils.py:52 | the column of a category has one value per score row of the group, that row's score for the category |
| Utils.PolaritiesOn | utils.py:54 | the polarities of a date are those of the date's article group, one per row, in order; there are some exactly when some article row has that date |
| Utils.InsertDate | utils.py:52 | inserting a date into an ascending list of distinct dates keeps it ascending and adds exactly that date |
| Utils.DayAggregate | utils.py:52-55 | the aggregate row of a date carries that date |
| Utils.DayInUnit | utils.py:52-53 | when every score of a date group is in [0,1], so are its category means and their mean |
| Utils.ScoreDates | utils.py:52-55 | the group keys are strictly ascending and are exactly the distinct non-null dates of the score rows |
| Utils.AggregateScores | utils.py:43-56 | the result is empty when the scope has no articles or no score rows; its dates strictly ascend |
| Utils.AggregateDates | utils.py:52-55 | every aggregate date is the date of one of the scope's score rows, and every dated score row of the scope has its date in the aggregate |
| Utils.AggregateRow | utils.py:52-55 | each category column is the unweighted mean of that category over the date's score rows; overall risk is the mean of those means; average polarity is the mean over the scope's articles of that date, or absent |
| Utils.AggregateInUnit | utils.py:52-53 | when every score is in [0,1], so is every daily category mean and every overall risk |
| Utils.AggregatePolarityPresent | utils.py:54-55 | when every dated score row has an article row of the same scope and date, every aggregate row has an average polarity |
| Utils.AggregateOnlyScope | utils.py:43-56 | aggregating only the scope's rows gives the same result: rows of other scopes have no influence |
| App.WithFlag | app.py:91-93 | a row is flagged exactly when polarity is at or below the threshold or it has a keyword tag; other columns are unchanged |
| App.FlagConditions | app.py:92 | the threshold is inclusive; either condition alone flags a row; with neither, the row is not flagged |
| App.FlaggedByKeywordOrPolarity | app.py:91-93 | an article's row is flagged exactly when its polarity is at or below the threshold or some taxonomy keyword occurs, ignoring case, in its text |
| App.MarkFlagged | app.py:91-93 | the flag is set on every row of the table in place; nothing else changes |
| App.FlaggedRows | app.py:94 | the flagged rows are exactly the table rows whose flag is set, each as often as in the table, in table order |
| App.PrecedesTotal | app.py:94 | any two publication datetimes, null included, can be ordered |
| App.PoolMembers | app.py:94 | a pool holds exactly the flagged rows, each as often as in the table |
| App.InsertNewest | app.py:94 | inserting gives one row more, made of the inserted row and the rows already there (exact multiplicity: `App.InsertNewestPerm`; order: `App.InsertNewestSorted`) |
| App.InsertNewestPerm | app.py:94 | inserting a row adds exactly that row to the multiset of rows |
| App.InsertNewestSorted | app.py:94 | inserting into a newest-first sequence keeps it newest first |
| App.ConsNewestFirst | app.py:94 | a row that may precede every row, put in front of a newest-first sequence, keeps it newest first |
| App.ClassifyRow | app.py:106 | the classifier gets the row's title and description, each read as "" when missing, in all four present/missing combinations |
| App.FlaggedPool | app.py:94 | the pool is a reordering of exactly the flagged rows, newest first, with null datetimes last; the order among ties is left open |
| App.MetaMapOf | app.py:105-107 | every enriched row's url is a key of the map |
| App.MetaMapKeys | app.py:105-107 | every key is the url of an enriched row, so there are no more keys than rows |
| App.MetaMapLastWins | app.py:107 | a url that repeats keeps the metadata of its last row |
| App.Enrich | app.py:103-107 | the map is empty unless a client exists, top-K is positive and the pool is non-empty; otherwise it classifies the first min(top-K, pool size) pool rows by url; it never has more than top-K entries |
| App.EnrichedUrlsFromPoolHead | app.py:105 | every enriched url belongs to one of the first top-K pool rows |
| App.MetaFor | app.py:114 | a row whose url is in the map gets that metadata, any other row `{}` |
| App.ScoreMap | app.py:115-116 | the score dict maps each category of the list to its score and has no other key |
| App.RowScores | app.py:114-115 | the categories of a row's score list are distinct |
| App.ScoreMapCategories | app.py:115-116 | the score dict has exactly the taxonomy categories as keys, each score in [0,1] |
| App.ScoreRowFor | app.py:114-125 | url, title, scope, date, polarity and label are copied from the row; the summary is "" without metadata and the metadata's summary (or "") with it |
| App.ScoreRowContents | app.py:114-125 | the score columns are exactly the taxonomy categories, scored with the row's metadata or `{}`, each in [0,1]; url, title, scope, date, polarity and label are copied; the summary is "" without metadata |
| App.ScoreAll | app.py:112-126 | every table row is scored exactly once, in order |
| App.ScoreRowsCover | app.py:133-136 | every score row carries every taxonomy category |
| App.BuildTable | app.py:80-93 | the table holds the corridor, origin and destination rows in that order, each normalised and flagged |
| App.RunPipeline | app.py:80-136 | table, pool, map, scores and the corridor, origin and destination aggregates over the taxonomy categories are each what the steps above specify |
| App.ScoreRowsInUnit | app.py:112-126 | every score of every score row lies in [0,1] |
| App.AvgPolarityAlwaysPresent | app.py:112-136 | in the pipeline every aggregate row has an average polarity |
| App.DailyRiskInUnit | app.py:112-136 | in the pipeline every daily category mean and every overall risk lies in [0,1] |

## Left out

- `fetch_news_newsapi` (news.py:5-29) is not modelled because it is HTTP I/O. The three article lists are inputs of `App.RunPipeline`.
- openai_helpers.py is not part of this model. `extract_article_meta` is a function parameter, and a client's existence is a boolean. Its failure dictionary appears as `Scoring.FallbackMeta`; its extra "error" key plays no part in scoring.
- pdf_export.py, the Streamlit widgets, charts, downloads and environment loading in app.py are not part of this model; they are presentation and I/O.
- TextBlob is a parameter, `string -> (real, real)`.
- pandas `to_datetime` with `utc=True` and its time-zone handling is a parameter, `string -> Option<DateTime>`. pandas infers one format for the whole column, so a row's parse can depend on the other rows; the model parses each row on its own.
- Floating point: scores, means and polarities are exact reals, and `round(x, 4)` rounds the exact value with ties to even. IEEE representation error is not modelled.
- Strings.Lower: only ASCII letters are lower-cased. Python's full Unicode case mapping is not modelled.
- Scoring.Meta: severity and summary are modelled as strings or absent. JSON values of other types (numbers, lists) are not modelled.
- Utils.AggregateScores requires every score row to carry every category. pandas would skip a missing (NaN) value in a mean; in the pipeline every score row covers the taxonomy, as `App.ScoreRowsCover` shows. With no categories, `overall_risk` is absent where pandas gives NaN.
- App.ScoreRowFor: a taxonomy category named like a copied column (for example "url") would be overwritten by the copied value in the source. The model keeps scores and copied columns apart.
- App.ScoreRowFor: a summary key that is present with a null value gives `None` in the source's `openai_summary` column, but "" in the model, because `Scoring.Meta` reads a missing and a null field alike. Only that displayed column differs; scores do not depend on the summary.
- App.MetaFor: the model keys a missing url as `None`, which is what `a.get("url")` writes (utils.py:29). How pandas represents a missing url in the table is not modelled.
- When all three fetches return nothing, the source raises on the empty table. The model returns empty aggregates instead.
- `analyze_sentiment_textblob` treats a non-string falsy value like `None`. The model only has `Option<string>`.
