/** The two extractors (sources.py). Everything the extractors get from the
    outside world is an input here: the video loaders are functions of the
    URL that either answer or fail with the message of what they raised; the
    HTTP fetch plus HTML parse is a Response value; `urlparse` of the source
    string is a ParsedUrl (or the message of the ValueError it raised). */
module Sources {
  import opened Wrappers
  import opened Strings
  import opened Models

  const YouTubeType: string := "youtube"
  const ArticleType: string := "article"

  /** The two components of `urlparse(...)` that the bot reads. */
  datatype ParsedUrl = ParsedUrl(scheme: string, netloc: string)

  /** A classified source; each variant keeps the string it was built from. */
  datatype Source =
    | YouTubeSource(sourceString: string)
    | ArticleSource(sourceString: string)

  // ---------------------------------------------------------------- YouTube

  const InvalidUrlPrefix: string := "Invalid YouTube URL: "
  const YouTubeErrorPrefix: string := "Error YouTube: "
  const NoDetailsMessage: string := "Failed to get video details"
  const NoSubtitlesMessage: string := "Subtitles could not be downloaded"

  /** One entry of the video-info loader's answer; only the thumbnail is read. */
  datatype VideoDetails = VideoDetails(thumbnailUrl: Option<string>)

  /** One transcript document; `None` is a document lacking `page_content`. */
  datatype TranscriptDoc = TranscriptDoc(pageContent: Option<string>)

  /** Which of the two loaders the extractor invoked. */
  datatype Loader = DetailsLoader | TranscriptLoader

  type DetailsLoaderFn = string -> Result<seq<VideoDetails>>
  type TranscriptLoaderFn = string -> Result<seq<TranscriptDoc>>

  /** Error Content of the video extractor: tagged "youtube" with the source string. */
  function YouTubeError(sourceString: string, message: string): Content {
    Content(sourceType := Some(YouTubeType), sourceUrl := Some(sourceString), errorMessage := Some(message))
  }

  /** The transcript text as the extraction loop builds it: document by
      document, appending each page content and adding nothing for a
      document that has none. */
  function Transcript(docs: seq<TranscriptDoc>): string
  {
    if docs == [] then ""
    else
      var last := docs[|docs| - 1];
      Transcript(docs[..|docs| - 1]) + (if last.pageContent.Some? then last.pageContent.value else "")
  }

  /** The page contents that exist, in document order. */
  function PageContents(docs: seq<TranscriptDoc>): seq<string>
  {
    if docs == [] then []
    else (if docs[0].pageContent.Some? then [docs[0].pageContent.value] else []) + PageContents(docs[1..])
  }

  lemma {:induction false} PageContentsAppend(docs: seq<TranscriptDoc>, doc: TranscriptDoc)
    ensures PageContents(docs + [doc]) ==
      PageContents(docs) + (if doc.pageContent.Some? then [doc.pageContent.value] else [])
  {
    if docs != [] {
      assert (docs + [doc])[1..] == docs[1..] + [doc];
      PageContentsAppend(docs[1..], doc);
    } else {
      assert PageContents([doc][1..]) == [];
    }
  }

  /** The transcript is exactly the existing page contents concatenated in
      order: malformed documents are skipped, nothing else is lost or reordered. */
  lemma {:induction false} TranscriptIsConcatOfPages(docs: seq<TranscriptDoc>)
    ensures Transcript(docs) == Join("", PageContents(docs))
  {
    if docs != [] {
      var init, last := docs[..|docs| - 1], docs[|docs| - 1];
      assert docs == init + [last];
      TranscriptIsConcatOfPages(init);
      PageContentsAppend(init, last);
      var pages := PageContents(init);
      if last.pageContent.Some? {
        if pages == [] {
          assert pages + [last.pageContent.value] == [last.pageContent.value];
        } else {
          JoinAppend("", pages, last.pageContent.value);
        }
      } else {
        assert pages + [] == pages;
      }
    }
  }

  /** YouTubeSource.get_content. Besides the Content, `calls` lists the
      loaders invoked, in order. */
  method GetYouTubeContent(sourceString: string, loadDetails: DetailsLoaderFn, loadTranscript: TranscriptLoaderFn)
    returns (c: Content, calls: seq<Loader>)
    // an empty source string is rejected before any loader runs
    ensures sourceString == "" ==>
      c == YouTubeError(sourceString, InvalidUrlPrefix + sourceString) && calls == []
    // a failing video-info loader is reported and the transcript is never asked for
    ensures sourceString != "" && loadDetails(sourceString).Err? ==>
      c == YouTubeError(sourceString, YouTubeErrorPrefix + loadDetails(sourceString).error)
      && calls == [DetailsLoader]
    // so is an empty video-info answer
    ensures sourceString != "" && loadDetails(sourceString) == Ok([]) ==>
      c == YouTubeError(sourceString, NoDetailsMessage) && calls == [DetailsLoader]
    // past the video info, both loaders have run, and the transcript decides
    ensures sourceString != "" && loadDetails(sourceString).Ok? && loadDetails(sourceString).value != [] ==>
      calls == [DetailsLoader, TranscriptLoader]
      && match loadTranscript(sourceString)
        case Err(e) => c == YouTubeError(sourceString, YouTubeErrorPrefix + e)
        case Ok(docs) =>
          if docs == [] then c == YouTubeError(sourceString, NoSubtitlesMessage)
          else c == Content(text := Some(Transcript(docs)), sourceType := Some(YouTubeType),
                            sourceUrl := Some(sourceString),
                            imageUrl := loadDetails(sourceString).value[0].thumbnailUrl)
    // every outcome is tagged as a video and keeps the source string
    ensures c.sourceType == Some(YouTubeType) && c.sourceUrl == Some(sourceString)
    // a success has text and no error; an error has no text
    ensures c.errorMessage.Some? != c.text.Some?
    // an error message is never empty, so the summarizer passes it on
    ensures c.errorMessage.Some? ==> Truthy(c.errorMessage)
  {
    if sourceString == "" {
      return YouTubeError(sourceString, InvalidUrlPrefix + sourceString), [];
    }
    calls := [DetailsLoader];
    var details := loadDetails(sourceString);
    if details.Err? {
      return YouTubeError(sourceString, YouTubeErrorPrefix + details.error), calls;
    }
    if |details.value| == 0 {
      return YouTubeError(sourceString, NoDetailsMessage), calls;
    }
    var imageUrl := details.value[0].thumbnailUrl;
    calls := calls + [TranscriptLoader];
    var loaded := loadTranscript(sourceString);
    if loaded.Err? {
      return YouTubeError(sourceString, YouTubeErrorPrefix + loaded.error), calls;
    }
    var docs := loaded.value;
    if docs == [] {
      return YouTubeError(sourceString, NoSubtitlesMessage), calls;
    }
    var text := "";
    var i := 0;
    while i < |docs|
      invariant 0 <= i <= |docs|
      invariant text == Transcript(docs[..i])
    {
      assert docs[..i + 1][..i] == docs[..i];
      match docs[i].pageContent {
        case Some(page) => text := text + page;
        case None =>
      }
      i := i + 1;
    }
    assert docs[..i] == docs;
    c := Content(text := Some(text), sourceType := Some(YouTubeType), sourceUrl := Some(sourceString), imageUrl := imageUrl);
  }

  // ---------------------------------------------------------------- Article

  const LoadErrorPrefix: string := "Error loading the article: "
  const ExtractErrorPrefix: string := "Error when extracting the text of the article: "

  /** What fetching and parsing the article page gave. */
  datatype Response =
      /** the text of every <p> in document order, and the `src` of the first
          <img> (None when there is no <img> or it has no `src`) */
    | Page(paragraphs: seq<string>, imgSrc: Option<string>)
      /** the HTTP layer failed: connection, timeout, non-2xx status, bad URL */
    | RequestFailed(message: string)
      /** anything else raised while extracting */
    | ExtractionFailed(message: string)

  /** An image address that does not start with "http" is put after the
      page's `scheme://netloc`; any other is kept as it is. */
  function ResolveImageUrl(src: string, origin: ParsedUrl): string
  {
    if StartsWith(src, "http") then src else origin.scheme + "://" + origin.netloc + src
  }

  /** Resolution only ever prepends: the image address is a suffix of the
      result, and what is prepended is the page origin or nothing. */
  lemma ResolveImageUrlPrepends(src: string, origin: ParsedUrl)
    ensures var url := ResolveImageUrl(src, origin);
      |src| <= |url| && url[|url| - |src|..] == src
      && (url == src || url[..|url| - |src|] == origin.scheme + "://" + origin.netloc)
    ensures StartsWith(src, "http") <==> ResolveImageUrl(src, origin) == src
  {}

  /** For an http or https page a resolved address is absolute, so resolving
      it again changes nothing. */
  lemma ResolveImageUrlIdempotent(src: string, origin: ParsedUrl)
    requires StartsWith(origin.scheme, "http")
    ensures ResolveImageUrl(ResolveImageUrl(src, origin), origin) == ResolveImageUrl(src, origin)
  {}

  /** The `image_url` of an article: none without a (non-empty) `src`;
      otherwise the resolved address. Parsing the page URL is only needed
      for a relative address, and its failure is an extraction error. */
  function ArticleImage(imgSrc: Option<string>, parsed: Result<ParsedUrl>): Result<Option<string>>
  {
    if !Truthy(imgSrc) then Ok(None)
    else if StartsWith(imgSrc.value, "http") then Ok(imgSrc)
    else match parsed
      case Err(e) => Err(e)
      case Ok(origin) => Ok(Some(ResolveImageUrl(imgSrc.value, origin)))
  }

  /** ArticleSource.get_content; `parsed` is `urlparse` of the source string. */
  function GetArticleContent(sourceString: string, response: Response, parsed: Result<ParsedUrl>): (c: Content)
    // a failed fetch is reported with its own message
    ensures response.RequestFailed? ==> c.errorMessage == Some(LoadErrorPrefix + response.message)
    // any other failure is an extraction error
    ensures response.ExtractionFailed? ==> c.errorMessage == Some(ExtractErrorPrefix + response.message)
    ensures response.Page? && ArticleImage(response.imgSrc, parsed).Err? ==>
      c.errorMessage == Some(ExtractErrorPrefix + ArticleImage(response.imgSrc, parsed).error)
    // an article error carries nothing but the message, and that is never empty
    ensures c.errorMessage.Some? ==> c == Content(errorMessage := c.errorMessage) && Truthy(c.errorMessage)
    // a success: the paragraphs one per line, the resolved image, tagged as an article
    ensures response.Page? && ArticleImage(response.imgSrc, parsed).Ok? ==>
      c == Content(text := Some(Join("\n", response.paragraphs)), sourceType := Some(ArticleType),
                   sourceUrl := Some(sourceString), imageUrl := ArticleImage(response.imgSrc, parsed).value)
  {
    match response
    case RequestFailed(m) => Content(errorMessage := Some(LoadErrorPrefix + m))
    case ExtractionFailed(m) => Content(errorMessage := Some(ExtractErrorPrefix + m))
    case Page(paragraphs, imgSrc) =>
      match ArticleImage(imgSrc, parsed)
      case Err(e) => Content(errorMessage := Some(ExtractErrorPrefix + e))
      case Ok(imageUrl) =>
        Content(text := Some(Join("\n", paragraphs)), sourceType := Some(ArticleType),
                sourceUrl := Some(sourceString), imageUrl := imageUrl)
  }

  /** The image of an article: absent without a usable `src`, the `src` itself
      when it starts with "http", and the `src` behind the page origin otherwise. */
  lemma ArticleImageCases(imgSrc: Option<string>, parsed: Result<ParsedUrl>)
    ensures !Truthy(imgSrc) ==> ArticleImage(imgSrc, parsed) == Ok(None)
    ensures Truthy(imgSrc) && StartsWith(imgSrc.value, "http") ==> ArticleImage(imgSrc, parsed) == Ok(imgSrc)
    ensures Truthy(imgSrc) && !StartsWith(imgSrc.value, "http") && parsed.Ok? ==>
      ArticleImage(imgSrc, parsed) ==
        Ok(Some(parsed.value.scheme + "://" + parsed.value.netloc + imgSrc.value))
    ensures ArticleImage(imgSrc, parsed).Err? <==>
      Truthy(imgSrc) && !StartsWith(imgSrc.value, "http") && parsed.Err?
  {}

  /** A page without paragraphs is a success with empty text, not an error. */
  lemma ArticleWithoutParagraphs(sourceString: string, imgSrc: Option<string>, parsed: Result<ParsedUrl>)
    requires ArticleImage(imgSrc, parsed).Ok?
    ensures GetArticleContent(sourceString, Page([], imgSrc), parsed).text == Some("")
    ensures GetArticleContent(sourceString, Page([], imgSrc), parsed).errorMessage == None
  {}

  /** The article text loses nothing: if no paragraph holds a line break,
      splitting the text into lines gives the paragraphs back. */
  lemma ArticleTextSplitsIntoParagraphs(sourceString: string, paragraphs: seq<string>, imgSrc: Option<string>, parsed: Result<ParsedUrl>)
    requires ArticleImage(imgSrc, parsed).Ok?
    requires |paragraphs| >= 1
    requires forall i :: 0 <= i < |paragraphs| ==> '\n' !in paragraphs[i]
    ensures var c := GetArticleContent(sourceString, Page(paragraphs, imgSrc), parsed);
      c.text.Some? && Split(c.text.value, '\n') == paragraphs
  {
    SplitJoin(paragraphs, '\n');
  }

  /** A root-relative image on an https page is put behind the page's origin. */
  lemma RelativeImageExample()
    ensures ResolveImageUrl("/img.jpg", ParsedUrl("https", "x.com")) == "https://x.com/img.jpg"
  {
    assert "/img.jpg"[0] != "http"[0];
  }

  /** An absolute image address is kept as it is. */
  lemma AbsoluteImageExample()
    ensures ResolveImageUrl("https://y.com/i.jpg", ParsedUrl("https", "x.com")) == "https://y.com/i.jpg"
  {}

  /** An address relative to the page's directory gets no separator: the
      origin and the address run together into a different host. */
  lemma PathRelativeImageExample()
    ensures ResolveImageUrl("img.jpg", ParsedUrl("https", "x.com")) == "https://x.comimg.jpg"
  {
    assert "img.jpg"[1] != "http"[1];
  }
}
