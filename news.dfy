/**
 * The news fetcher's pure parts: which provider `fetch_news` dispatches to, and
 * how an article's text is assembled for sentiment analysis. The HTTP fetchers
 * themselves are outside this model.
 */
module News {
  import opened Wrappers
  import opened Strings

  /**
   * An article as the fetchers return it. A field that is absent, None or empty
   * is the empty string here. `get_article_text` tests title, description and
   * content for truth, and also compares and measures the content; url, source
   * and published date are only copied along.
   */
  datatype Article = Article(
    title: string, description: string, content: string,
    url: string, source: string, publishedDate: string)

  /** The fetchers `fetch_news` can dispatch to. */
  datatype Provider = NewsApi | CryptoControl | CryptoPanic

  /** Title, then description, each only when non-empty; the two are not compared. */
  function Headline(a: Article): (parts: seq<string>)
    ensures |parts| == (if a.title != "" then 1 else 0) + (if a.description != "" then 1 else 0)
    ensures forall i :: 0 <= i < |parts| ==> parts[i] != ""
    ensures a.title != "" ==> parts[0] == a.title
    ensures a.description != "" ==> parts[|parts| - 1] == a.description
  {
    (if a.title != "" then [a.title] else []) + (if a.description != "" then [a.description] else [])
  }

  /** The content joins the parts only when it is non-empty, new, and longer than 50 characters. */
  predicate ContentQualifies(a: Article) {
    a.content != "" && a.content !in Headline(a) && |a.content| > 50
  }

  /** The parts `get_article_text` joins, in order. */
  function ArticleParts(a: Article): (parts: seq<string>)
    ensures |parts| <= 3
    ensures forall i :: 0 <= i < |parts| ==> parts[i] != ""
    ensures |parts| >= |Headline(a)| && parts[..|Headline(a)|] == Headline(a)
    ensures |parts| == |Headline(a)| + 1 <==> ContentQualifies(a)
    ensures ContentQualifies(a) ==> parts[|parts| - 1] == a.content
    ensures |parts| == 0 <==> a.title == "" && a.description == "" && !ContentQualifies(a)
  {
    Headline(a) + (if ContentQualifies(a) then [a.content] else [])
  }

  class NewsFetcher {
    const apiKey: string
    const provider: string

    /** The provider name is stored lower-cased; it is not checked here. */
    constructor (apiKey: string, provider: string := "newsapi")
      ensures this.apiKey == apiKey && this.provider == Lower(provider)
    {
      this.apiKey := apiKey;
      this.provider := Lower(provider);
    }

    /** The fetcher `fetch_news` calls, or the ValueError it raises for an unknown provider. */
    function Dispatch(): (r: Result<Provider>)
      ensures r == Ok(NewsApi) <==> provider == "newsapi"
      ensures r == Ok(CryptoControl) <==> provider == "cryptocontrol"
      ensures r == Ok(CryptoPanic) <==> provider == "cryptopanic"
      ensures r.Err? <==> provider !in {"newsapi", "cryptocontrol", "cryptopanic"}
      ensures r.Err? ==> r.error == ValueError("Unknown provider: " + provider)
    {
      if provider == "newsapi" then Ok(NewsApi)
      else if provider == "cryptocontrol" then Ok(CryptoControl)
      else if provider == "cryptopanic" then Ok(CryptoPanic)
      else Err(ValueError("Unknown provider: " + provider))
    }

    /** `get_article_text`: the qualifying parts joined by single spaces. */
    method GetArticleText(article: Article) returns (text: string)
      ensures text == Join(ArticleParts(article), " ")
      ensures ArticleParts(article) == [] ==> text == ""
    {
      var textParts: seq<string> := [];
      if article.title != "" {
        textParts := textParts + [article.title];
      }
      if article.description != "" {
        textParts := textParts + [article.description];
      }
      assert textParts == Headline(article);
      if article.content != "" && article.content !in textParts {
        var content := article.content;
        if content != "" && |content| > 50 {
          textParts := textParts + [content];
        }
      }
      text := Join(textParts, " ");
    }
  }

  /**
   * With a title or a description present, the fetcher's text is the headline
   * text, followed by the content when that qualifies.
   */
  lemma ArticleTextExtendsHeadline(a: Article)
    requires a.title != "" || a.description != ""
    ensures ContentQualifies(a) ==> Join(ArticleParts(a), " ") == Join(Headline(a), " ") + " " + a.content
    ensures !ContentQualifies(a) ==> Join(ArticleParts(a), " ") == Join(Headline(a), " ")
  {
    if ContentQualifies(a) {
      JoinSnoc(Headline(a), a.content, " ");
    }
  }
}
