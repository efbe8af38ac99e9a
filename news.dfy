/**
  The article record returned by the news search collaborator and the text
  normaliser `text_from_article` (services/news.py). Fetching itself is I/O and
  is not part of this model.
*/
module News {
  import opened Wrappers
  import opened Strings

  /** The nested `source` object of an article. */
  datatype ArticleSource = ArticleSource(name: Option<string>)

  /** A raw article dict; a field is `None` when its key is missing or its value is null. */
  datatype Article = Article(
    title: Option<string>,
    description: Option<string>,
    content: Option<string>,
    url: Option<string>,
    source: Option<ArticleSource>,
    publishedAt: Option<string>)

  /** The "read more" marker that truncated bodies end with: the three characters of a mis-decoded ellipsis, "â€¦". */
  const TruncationMarker: string := "\U{00E2}\U{20AC}\U{00A6}"

  /** The body part: `content` cut before the first truncation marker. */
  function Body(a: Article): string
  {
    BeforeFirst(a.content.GetOr(""), TruncationMarker)
  }

  /** The three parts, each missing field read as "". */
  function Parts(a: Article): seq<string>
  {
    [a.title.GetOr(""), a.description.GetOr(""), Body(a)]
  }

  /** The filter on three parts keeps the non-empty ones, in order. */
  lemma NonEmptyOfThree(x: string, y: string, z: string)
    ensures NonEmpty([x, y, z]) == (if x == "" then [] else [x]) + (if y == "" then [] else [y]) + (if z == "" then [] else [z])
  {
    assert [x, y, z][1..] == [y, z];
    assert [y, z][1..] == [z];
    assert [z][1..] == [];
    assert NonEmpty([z]) == (if z == "" then [] else [z]) + NonEmpty([]);
    assert NonEmpty([y, z]) == (if y == "" then [] else [y]) + NonEmpty([z]);
    assert NonEmpty([x, y, z]) == (if x == "" then [] else [x]) + NonEmpty([y, z]);
  }

  /**
    `text_from_article(a)`: title, description and truncated body, the empty
    ones dropped, joined with single spaces and stripped.
  */
  function TextFromArticle(a: Article): (text: string)
    ensures NoEdgeSpace(text)
  {
    Strip(JoinSpaces(NonEmpty(Parts(a))))
  }

  /** The body is the prefix of the content before the first marker, or all of the content when there is no marker. */
  lemma BodyIsPrefixBeforeMarker(a: Article)
    ensures var c := a.content.GetOr("");
            Body(a) == c[..|Body(a)|]
            && (forall i: nat :: i < |Body(a)| ==> !OccursAt(c, TruncationMarker, i))
            && (|Body(a)| < |c| ==> OccursAt(c, TruncationMarker, |Body(a)|))
            && (Body(a) == c <==> !Contains(c, TruncationMarker))
  {
    BeforeFirstWhole(a.content.GetOr(""), TruncationMarker);
  }

  /** A missing or null field is read as the empty string. */
  lemma MissingFieldsAreEmpty(a: Article)
    ensures TextFromArticle(a.(title := None)) == TextFromArticle(a.(title := Some("")))
    ensures TextFromArticle(a.(description := None)) == TextFromArticle(a.(description := Some("")))
    ensures TextFromArticle(a.(content := None)) == TextFromArticle(a.(content := Some("")))
  {
  }

  /** With all three parts empty the text is empty. */
  lemma AllEmptyGivesEmpty(a: Article)
    requires a.title.GetOr("") == "" && a.description.GetOr("") == "" && Body(a) == ""
    ensures TextFromArticle(a) == ""
  {
    NonEmptyOfThree(a.title.GetOr(""), a.description.GetOr(""), Body(a));
  }

  /** A title alone, without surrounding whitespace, is the whole text. */
  lemma TitleOnly(a: Article, t: string)
    requires a.title == Some(t) && t != "" && NoEdgeSpace(t)
    requires a.description.GetOr("") == "" && Body(a) == ""
    ensures TextFromArticle(a) == t
  {
    NonEmptyOfThree(a.title.GetOr(""), a.description.GetOr(""), Body(a));
    assert NonEmpty(Parts(a)) == [t];
    StripNoEdge(t);
  }

  /**
    Empty parts add no separator: with the description missing, title and body
    are joined by exactly one space.
  */
  lemma MissingDescriptionSeparator(a: Article)
    requires a.title.GetOr("") != "" && a.description.GetOr("") == "" && Body(a) != ""
    ensures TextFromArticle(a) == Strip(a.title.value + " " + Body(a))
  {
    var x, z := a.title.value, Body(a);
    NonEmptyOfThree(x, a.description.GetOr(""), z);
    assert NonEmpty(Parts(a)) == [x, z];
    assert [x, z][1..] == [z];
    assert JoinSpaces([x, z]) == x + " " + JoinSpaces([z]);
  }

  /** With all three parts present they are joined by one space each. */
  lemma AllPartsSeparator(a: Article)
    requires a.title.GetOr("") != "" && a.description.GetOr("") != "" && Body(a) != ""
    ensures TextFromArticle(a) == Strip(a.title.value + " " + a.description.value + " " + Body(a))
  {
    var x, y, z := a.title.value, a.description.value, Body(a);
    NonEmptyOfThree(x, y, z);
    assert NonEmpty(Parts(a)) == [x, y, z];
    assert [x, y, z][1..] == [y, z];
    assert [y, z][1..] == [z];
    assert JoinSpaces([y, z]) == y + " " + z;
    assert JoinSpaces([x, y, z]) == x + " " + (y + " " + z);
    assert x + " " + (y + " " + z) == x + " " + y + " " + z;
  }
}
