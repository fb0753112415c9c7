/** SourceFactory.create_source (src/factories.py): classify the user's
    string as a video or an article by the host and scheme `urlparse` found in
    it. `parsed` is that parse, or the message of the error it raised. */
module Factories {
  import opened Wrappers
  import opened Strings
  import opened Sources

  const NotSupportedMessage: string := "Not supported source."
  const CannotDeterminePrefix: string := "Cannot determine source type "

  /** The two video hosts, matched exactly (no subdomains, no bare domain). */
  predicate IsYouTubeHost(netloc: string) {
    netloc == "www.youtube.com" || netloc == "youtu.be"
  }

  predicate IsWebScheme(scheme: string) {
    scheme == "http" || scheme == "https"
  }

  /** Every failure, the parse's own included, surfaces as one ValueError
      whose message starts with "Cannot determine source type ". */
  function CreateSource(sourceString: string, parsed: Result<ParsedUrl>): (r: Result<Source>)
    // a video host wins, whatever the scheme
    ensures (r.Ok? && r.value.YouTubeSource?) <==> parsed.Ok? && IsYouTubeHost(parsed.value.netloc)
    // any other host is an article exactly when the scheme is http or https
    ensures (r.Ok? && r.value.ArticleSource?) <==>
      parsed.Ok? && !IsYouTubeHost(parsed.value.netloc) && IsWebScheme(parsed.value.scheme)
    // the source keeps the input string unchanged
    ensures r.Ok? ==> r.value.sourceString == sourceString
    // failures are rewrapped, never raised bare
    ensures r.Err? ==> StartsWith(r.error, CannotDeterminePrefix)
    ensures parsed.Err? ==> r == Err(CannotDeterminePrefix + parsed.error)
    ensures parsed.Ok? && !IsYouTubeHost(parsed.value.netloc) && !IsWebScheme(parsed.value.scheme) ==>
      r == Err(CannotDeterminePrefix + NotSupportedMessage)
  {
    match parsed
    case Err(e) => Err(CannotDeterminePrefix + e)
    case Ok(url) =>
      if IsYouTubeHost(url.netloc) then Ok(YouTubeSource(sourceString))
      else if IsWebScheme(url.scheme) then Ok(ArticleSource(sourceString))
      else Err(CannotDeterminePrefix + NotSupportedMessage)
  }

  /** Video links on either host, and an ordinary https page. */
  lemma CreateSourceAccepts()
    ensures CreateSource("https://www.youtube.com/watch?v=dQw4w9WgXcQ", Ok(ParsedUrl("https", "www.youtube.com")))
      == Ok(YouTubeSource("https://www.youtube.com/watch?v=dQw4w9WgXcQ"))
    ensures CreateSource("https://youtu.be/dQw4w9WgXcQ", Ok(ParsedUrl("https", "youtu.be")))
      == Ok(YouTubeSource("https://youtu.be/dQw4w9WgXcQ"))
    ensures CreateSource("https://www.example.com/article", Ok(ParsedUrl("https", "www.example.com")))
      == Ok(ArticleSource("https://www.example.com/article"))
  {}

  /** A string without a scheme or host, the empty string and an ftp link are refused. */
  lemma CreateSourceRefuses()
    ensures CreateSource("invalid-url", Ok(ParsedUrl("", ""))).Err?
    ensures CreateSource("", Ok(ParsedUrl("", ""))).Err?
    ensures CreateSource("ftp://example.com", Ok(ParsedUrl("ftp", "example.com"))).Err?
  {}

  /** The host is looked at before the scheme: a video host with any scheme is
      a video, while near misses of the video host are judged by scheme alone. */
  lemma HostBeforeScheme(scheme: string)
    ensures CreateSource("x", Ok(ParsedUrl(scheme, "youtu.be"))) == Ok(YouTubeSource("x"))
    ensures CreateSource("x", Ok(ParsedUrl(scheme, "youtube.com"))).Ok? <==> IsWebScheme(scheme)
    ensures CreateSource("x", Ok(ParsedUrl(scheme, "m.youtube.com"))).Ok? <==> IsWebScheme(scheme)
  {}
}
