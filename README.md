# youtube-summarizer-bot: the extraction and summarization core in Dafny

The bot takes a link from a chat user, decides whether it is a YouTube video
or a web article, extracts text and an image from it, cuts the text into
1024-character chunks, summarizes each chunk with a language model and joins
the summaries. This project models that pipeline with the external services
(transcript loaders, HTTP and HTML parsing, `urlparse`, the summarization
model) as inputs, and proves what the pipeline promises about its results.

Modules, one per source file:

- `Wrappers` (wrappers.dfy): `Option`, `Result` (an exception a caller catches
  is an `Err` carrying the text of `str(e)`), and `Truthy`, Python's truth test
  of an optional string.
- `Strings` (strings.dfy): `str.startswith`, `str.join`, `str.split` on one
  character, and the lemma that splitting undoes a join when no part holds
  the separator.
- `Models` (models.dfy): `Content` and `SummaryResult`, every field an
  `Option<string>` defaulting to `None`, as in src/models.py.
- `Processors` (processors.dfy): the chunking (`Chunks`), the stop-at-first-
  failure run of the model over the chunks (`SummarizeChunks`) and
  `TextProcessor.process` as the method `Process`, whose loop mirrors the
  source's loop. It also returns the chunks handed to the model, in order, so
  that "the model is never asked" and "asked once per chunk" can be stated.
- `Sources` (sources.dfy): the `Source` variants, the YouTube extractor as the
  method `GetYouTubeContent` (early-exit cascade, then the transcript loop;
  it also returns which loaders ran), and the article extractor as the
  function `GetArticleContent` (paragraph join, image resolution).
- `Factories` (factories.dfy): `CreateSource`, the classification of a
  parsed URL.

Behaviour of the code a reader might not expect:

- The video extractor rejects only the empty string. A string of blanks goes
  on to the loaders.
- A summarizer failure is reported as `"Error on summarizing: "` followed by
  the model's message.
- `SummaryResult` allows both fields to be set, or neither. `Process` never
  produces either case.
- `source_type` is a free string ("youtube", "article").
- An error message that is the empty string is falsy in Python. So
  `Content(error_message="")` is not passed through: its text is summarized.
- An image `src` without a leading slash is appended straight after the
  origin: "img.jpg" on https://x.com becomes "https://x.comimg.jpg".

## Model

| member | source | states |
|---|---|---|
| `Models.DefaultContentIsEmpty` | src/models.py:5-12 | `Content()` has all six fields None, `errorMessage` included |
| `Models.ContentHoldsArguments` | src/models.py:6-12 | a Content built from five fields (all but the error message) holds exactly those values, and the unpassed error message stays None |
| `Models.DefaultSummaryResultIsEmpty` | src/models.py:15-18 | `SummaryResult()` has summary and error both None |
| `Models.SummaryResultNotExclusive` | src/models.py:16-18 | the type lets summary and error be set at the same time |
| `Processors.ChunksConcat` | processors.py:59-60 | the chunks concatenated in order give back the text exactly |
| `Processors.ChunksPrefix` | processors.py:59-64 | the first k chunks together are the first k*1024 characters of the text (all of it once k reaches the chunk count), so the chunks asked before a failure cover a prefix of the text |
| `Processors.ChunksCount` | processors.py:60 | there are ceil(len(text)/1024) chunks |
| `Processors.ChunksSizes` | processors.py:59-60 | every chunk but the last has exactly 1024 characters; the last has 1 to 1024 |
| `Processors.ChunkAt` | processors.py:60 | chunk i is `text[i*1024 : (i+1)*1024]` clipped to the text, and starts inside the text |
| `Processors.TwoFullChunks` | processors.py:59-60 | a 2048-character text gives exactly two chunks of 1024 |
| `Processors.SummarizeChunksAllOk` | processors.py:61-66 | if the model succeeds on every chunk, the outcome is the list of their summaries in chunk order |
| `Processors.SummarizeChunksFailsAt` | processors.py:58-69 | if chunk k is the first the model fails on, the outcome is that failure at k, whatever later chunks would give |
| `Processors.SummarizeChunksSound` | processors.py:61-69 | conversely, a success lists the model's output for every chunk in order, and a failure names a chunk that failed with every earlier chunk succeeding |
| `Processors.SingleChunkSummary` | processors.py:59-66 | a text of 1 to 1024 characters is one chunk, and its summary is the model's output for it |
| `Processors.Process` | processors.py:52-69 | a set error is passed through verbatim and the model is not asked; no text (None or "") gives the fixed "No text" error without asking the model; otherwise the model is asked chunk by chunk in order; on success the summary is the outputs joined with one space; at the first failure the error is `"Error on summarizing: "` plus its message, no summary is kept and no later chunk is asked; exactly one of summary and error is set |
| `Sources.TranscriptIsConcatOfPages` | sources.py:62-67 | the transcript text is the existing page contents concatenated in document order; documents lacking page content are skipped |
| `Sources.GetYouTubeContent` | sources.py:33-69 | an empty URL gives "Invalid YouTube URL: " with no loader run; a failing info loader gives "Error YouTube: " plus its message and no transcript fetch; an empty info list gives "Failed to get video details" before the transcript fetch; a failing transcript loader gives "Error YouTube: "; no documents gives "Subtitles could not be downloaded"; otherwise the text is the transcript, the image the first entry's thumbnail; always tagged "youtube" with the input URL; errors are never empty and carry no text |
| `Sources.ResolveImageUrlPrepends` | sources.py:90-92 | resolving an image address only prepends `scheme://netloc`, and does so exactly when the address does not start with "http" |
| `Sources.ResolveImageUrlIdempotent` | sources.py:90-92 | on an http(s) page a resolved address is absolute, so resolving it again changes nothing |
| `Sources.ArticleImageCases` | sources.py:85-92 | no img or an empty src gives no image; a src starting with "http" is kept; any other src is put behind the page's `scheme://netloc`; the only failure is a relative src whose page URL cannot be parsed |
| `Sources.GetArticleContent` | sources.py:76-102 | a fetch failure gives "Error loading the article: " plus its message; any other failure gives "Error when extracting the text of the article: "; an error Content carries only a non-empty message; a success has the paragraphs joined with newlines, the resolved image, type "article" and the input URL |
| `Sources.ArticleWithoutParagraphs` | sources.py:82-83 | a page without paragraphs gives empty text and no error |
| `Sources.ArticleTextSplitsIntoParagraphs` | sources.py:83 | when no paragraph holds a line break, splitting the article text at line breaks gives the paragraphs back |
| `Sources.RelativeImageExample` | sources.py:90-92 | `/img.jpg` on `https://x.com` resolves to `https://x.com/img.jpg` |
| `Sources.PathRelativeImageExample` | sources.py:90-92 | `img.jpg` on `https://x.com` becomes `https://x.comimg.jpg`: no slash is inserted |
| `Sources.AbsoluteImageExample` | sources.py:90 | `https://y.com/i.jpg` is kept unchanged |
| `Factories.CreateSource` | src/factories.py:9-19 | a netloc of exactly "www.youtube.com" or "youtu.be" gives a YouTube source whatever the scheme; any other netloc gives an article exactly when the scheme is http or https; the source keeps the input string; every failure, a parse failure included, is an error starting with "Cannot determine source type ", the unsupported case with "Not supported source." after it |
| `Factories.CreateSourceAccepts` | tests/test_factories.py:9-16 | both video hosts give YouTube sources and an ordinary https page an article |
| `Factories.CreateSourceRefuses` | tests/test_factories.py:19-26 | "invalid-url", "" and an ftp link are refused |
| `Factories.HostBeforeScheme` | src/factories.py:12-15 | "youtu.be" with any scheme is a video; "youtube.com" and "m.youtube.com" are accepted only with an http(s) scheme |

## Left out

- The chat transport (handlers.py), process start-up (main.py) and logging (logger.py, and every log call in the core): I/O and configuration with no behaviour to state.
- The network and parsing libraries: the video-info and transcript loaders are function parameters, the HTTP fetch with BeautifulSoup is a `Response` value (paragraph texts, first img `src`, or a failure message), and `urlparse` is its result, a `ParsedUrl` record of scheme and netloc, or a failure message.
- The summarization model is a function parameter returning `Ok` or `Err`. Its generation settings (max length 130, min length 30, no sampling) are not modelled, because they only matter inside the model.
- The transcript language list and translation target are passed to the transcript loader only, so they are not modelled.
- `TextProcessor.__init__` only builds the model. `Process` takes the model as a parameter instead.
- The abstract `Source.get_content` and `Processor.process` are not modelled as dispatch. There are exactly two extractors and one processor, each modelled directly.
- Sources.GetYouTubeContent: a source string of None cannot be given, because the string is a Dafny `string`. The factory always passes a `str`.
- Sources.GetYouTubeContent: a transcript document whose `page_content` is None would raise outside the loop's handler. Here `None` stands only for a document lacking the attribute, which is skipped.
- The disabled audio processor (processors.py:14-45) is not modelled.
- The tests that need live YouTube access (tests/test_sources.py:11-35) are not modelled.
