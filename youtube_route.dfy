/**
 * The POST and PUT handlers of the YouTube route (src/app/api/youtube/route.js). POST
 * checks the URL, answers from the cache when it can, and otherwise processes the
 * fetched video and caches the result under its id; PUT answers a query from a cached
 * transcript. The cache is modelled as a map from video id to response data; its
 * 24-hour expiry is not modelled. The URL parser's result and the outcome of fetching
 * the video are inputs.
 */
module YouTubeRoute {
  import opened Wrappers
  import opened Strings
  import opened YouTube
  import opened Transcript
  import opened TranscriptSearch

  const UrlRequired := "YouTube video URL is required."
  const InvalidUrl := "Invalid YouTube URL. Please provide a valid YouTube video URL."
  const FetchFailed := "Could not fetch video information. The video might be private or unavailable."
  const ProcessedMessage := "Video processed successfully."
  const IdRequired := "Video ID is required."
  const QueryRequired := "Query text is required."
  const NotProcessed := "Please process the video first using the POST endpoint."

  /** The response data POST returns and caches. */
  datatype VideoData = VideoData(
    videoId: string, title: string, description: string, transcript: seq<Item>,
    summary: string, bulletPoints: seq<string>, message: string)

  /** What `fetchVideoData` gives: the video, `null`, or a thrown error's message. */
  datatype FetchResult =
    | Fetched(title: string, description: string, transcript: seq<Item>)
    | Unavailable
    | Threw(message: string)

  datatype Response =
    | Success(data: VideoData)
    | Answered(response: string)
    | Failure(error: ErrorResponse)

  /** Every cached entry is filed under its own id and has non-negative caption offsets. */
  predicate ValidCache(cache: map<string, VideoData>) {
    forall id :: id in cache ==> cache[id].videoId == id && ValidOffsets(cache[id].transcript)
  }

  /** POST's body: not JSON (the parser's error message), or JSON with an optional `videoUrl`. */
  datatype PostRequest = PostUnreadable(message: string) | PostBody(videoUrl: Option<string>)

  /** PUT's body: not JSON, or JSON with optional `videoId` and `query`. */
  datatype PutRequest = PutUnreadable | PutBody(videoId: Option<string>, query: Option<string>)

  const QueryError := "Error processing your query. Please try again."

  /**
   * What `POST` answers and what the cache becomes: `request` is the request's body,
   * `url` what the URL parser makes of its `videoUrl` (`None` when it throws) and
   * `fetched` the outcome of fetching the video, used only when the id is not cached;
   * `processed` is what processing the fetched transcript gives. A body that is not JSON
   * throws into the handler's `catch`, which classifies the parser's message. Entries
   * already cached are never replaced, a failure leaves the cache as it was, and a
   * processed video is cached under its own id.
   */
  function PostOutcome(request: PostRequest, url: Option<Url>, fetched: FetchResult, processed: Processed,
                       cache: map<string, VideoData>)
    : (out: (Response, map<string, VideoData>))
    requires ValidCache(cache)
    requires fetched.Fetched? ==> ValidOffsets(fetched.transcript)
    ensures ValidCache(out.1)
    ensures forall id :: id in cache ==> id in out.1 && out.1[id] == cache[id]
    ensures out.0.Failure? || out.0.Answered? ==> out.1 == cache
    ensures !out.0.Answered?
    ensures request.PostUnreadable? ==> out.0 == Failure(ClassifyError(request.message))
    ensures out.0.Success? ==>
              request.PostBody? && Truthy(request.videoUrl) && Truthy(ExtractVideoId(url)) &&
              out.0.data.videoId == ExtractVideoId(url).value &&
              out.0.data.videoId in out.1 && out.1[out.0.data.videoId] == out.0.data
    ensures out.0.Success? && out.1 != cache ==>
              fetched.Fetched? && out.0.data.videoId !in cache && out.1 == cache[out.0.data.videoId := out.0.data]
    ensures request.PostBody? && !Truthy(request.videoUrl) ==> out.0 == Failure(ErrorResponse(400, UrlRequired))
    ensures request.PostBody? && Truthy(request.videoUrl) && !Truthy(ExtractVideoId(url)) ==>
              out.0 == Failure(ErrorResponse(400, InvalidUrl))
    ensures request.PostBody? && Truthy(request.videoUrl) && Truthy(ExtractVideoId(url)) &&
            ExtractVideoId(url).value in cache ==>
              out == (Success(cache[ExtractVideoId(url).value]), cache)
    ensures request.PostBody? && Truthy(request.videoUrl) && Truthy(ExtractVideoId(url)) &&
            ExtractVideoId(url).value !in cache ==>
              && (fetched.Unavailable? ==> out.0 == Failure(ErrorResponse(400, FetchFailed)))
              && (fetched.Threw? ==> out.0 == Failure(ClassifyError(fetched.message)))
              && (fetched.Fetched? ==>
                    out.0 == Success(VideoData(ExtractVideoId(url).value, fetched.title, fetched.description,
                                               fetched.transcript, processed.summary, processed.bulletPoints,
                                               ProcessedMessage)))
  {
    if request.PostUnreadable? then (Failure(ClassifyError(request.message)), cache)
    else if !Truthy(request.videoUrl) then (Failure(ErrorResponse(400, UrlRequired)), cache)
    else
      var videoId := ExtractVideoId(url);
      if !Truthy(videoId) then (Failure(ErrorResponse(400, InvalidUrl)), cache)
      else
        var id := videoId.value;
        if id in cache then (Success(cache[id]), cache)
        else match fetched
          case Unavailable => (Failure(ErrorResponse(400, FetchFailed)), cache)
          case Threw(message) => (Failure(ClassifyError(message)), cache)
          case Fetched(title, description, transcript) =>
            var data := VideoData(id, title, description, transcript, processed.summary,
                                  processed.bulletPoints, ProcessedMessage);
            (Success(data), cache[id := data])
  }

  /** The processing of a fetched transcript; nothing is processed otherwise. */
  function Processing(fetched: FetchResult): Processed {
    if fetched.Fetched? then ProcessTranscript(fetched.transcript) else Processed("", [])
  }

  class Route {
    /** The `memory-cache` entries, by video id. */
    var cache: map<string, VideoData>

    predicate Valid()
      reads this
    {
      ValidCache(cache)
    }

    constructor ()
      ensures Valid() && cache == map[]
    {
      cache := map[];
    }

    /** `POST`: answers and updates the cache as `PostOutcome` says. */
    method Post(request: PostRequest, url: Option<Url>, fetched: FetchResult) returns (r: Response)
      requires Valid()
      requires fetched.Fetched? ==> ValidOffsets(fetched.transcript)
      modifies this
      ensures Valid()
      ensures (r, cache) == PostOutcome(request, url, fetched, Processing(fetched), old(cache))
    {
      if request.PostUnreadable? {
        return Failure(ClassifyError(request.message));
      }
      if !Truthy(request.videoUrl) {
        return Failure(ErrorResponse(400, UrlRequired));
      }
      var videoId := ExtractVideoId(url);
      if !Truthy(videoId) {
        return Failure(ErrorResponse(400, InvalidUrl));
      }
      var id := videoId.value;
      if id in cache {
        return Success(cache[id]);
      }
      match fetched {
        case Unavailable =>
          return Failure(ErrorResponse(400, FetchFailed));
        case Threw(message) =>
          return Failure(ClassifyError(message));
        case Fetched(title, description, transcript) =>
          var processed := ProcessTranscript(transcript);
          var data := VideoData(id, title, description, transcript, processed.summary,
                                processed.bulletPoints, ProcessedMessage);
          cache := cache[id := data];
          return Success(data);
      }
    }

    /** `PUT`: answers `query` from the cached transcript of `videoId`. */
    method Put(request: PutRequest) returns (r: Response)
      requires Valid()
      ensures request.PutUnreadable? ==> r == Failure(ErrorResponse(500, QueryError))
      ensures request.PutBody? && !Truthy(request.videoId) ==> r == Failure(ErrorResponse(400, IdRequired))
      ensures request.PutBody? && Truthy(request.videoId) && !Truthy(request.query) ==>
                r == Failure(ErrorResponse(400, QueryRequired))
      ensures request.PutBody? && Truthy(request.videoId) && Truthy(request.query) && request.videoId.value !in cache ==>
                r == Failure(ErrorResponse(400, NotProcessed))
      ensures request.PutBody? && Truthy(request.videoId) && Truthy(request.query) && request.videoId.value in cache ==>
                r == Answered(RelevantAnswer(cache[request.videoId.value].transcript, request.query.value))
    {
      if request.PutUnreadable? {
        return Failure(ErrorResponse(500, QueryError));
      }
      var videoId, query := request.videoId, request.query;
      if !Truthy(videoId) {
        return Failure(ErrorResponse(400, IdRequired));
      }
      if !Truthy(query) {
        return Failure(ErrorResponse(400, QueryRequired));
      }
      if videoId.value !in cache {
        return Failure(ErrorResponse(400, NotProcessed));
      }
      var answer := FindRelevantContent(cache[videoId.value].transcript, query.value);
      return Answered(answer);
    }
  }

  /**
   * A video POST has processed can be queried: once the id is cached, a PUT with that id
   * and a query is answered from its transcript.
   */
  method ProcessThenQuery(route: Route, videoUrl: string, url: Url, fetched: FetchResult, query: string)
    returns (posted: Response, answered: Response)
    requires route.Valid()
    requires fetched.Fetched? ==> ValidOffsets(fetched.transcript)
    requires videoUrl != "" && query != ""
    modifies route
    ensures posted.Success? ==>
              ValidOffsets(posted.data.transcript) && answered == Answered(RelevantAnswer(posted.data.transcript, query))
  {
    posted := route.Post(PostBody(Some(videoUrl)), Some(url), fetched);
    var id := ExtractVideoId(Some(url));
    answered := route.Put(PutBody(id, Some(query)));
  }
}
