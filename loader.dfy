/** `MoviesLoader` (MoviesLoader.swift): fetches the top-movies document through a
    `NetworkClient`, decodes it, and turns the API's own error message into a failure. */
module Loader {
  import opened Wrappers
  import opened Foundation
  import opened Errors
  import opened Movies
  import opened Network

  const ApiKey: string := "k_zcuw1ytf"
  const Top250MoviesPath: string := "https://tv-api.com/en/API/Top250Movies"

  /** The URL returned when the request URL does not parse (the release-build path
      after `assertionFailure`). */
  const FallbackURL: string := "https://invalid.url"

  /** `mostPopularMoviesUrl`. */
  function MostPopularMoviesURL(isValidURL: string -> bool): (url: string)
    ensures url == Top250MoviesPath + "/" + ApiKey || url == FallbackURL
    ensures url == FallbackURL <==> !isValidURL(Top250MoviesPath + "/" + ApiKey)
  {
    var url := Top250MoviesPath + "/" + ApiKey;
    if isValidURL(url) then url else FallbackURL
  }

  /** `String.isNotEmpty`. */
  function IsNotEmpty(s: string): (r: bool)
    ensures r <==> |s| > 0
  {
    !(s == [])
  }

  /** `decoder.decode(MostPopularMovies.self, from: data)`: lexing, then the
      `Decodable` mapping of the two records. */
  function JsonDecode(data: Data, platform: Platform): Option<MostPopularMovies> {
    match platform.parseJson(data)
    case Some(json) => Decode(json, platform.isValidURL)
    case None => None
  }

  /** `decodeMovies(from:)`: a decoding failure, a payload carrying an error message,
      or the payload itself. */
  function DecodeMovies(data: Data, platform: Platform): (r: Result<MostPopularMovies, Error>)
    ensures JsonDecode(data, platform).None? ==> r == Failure(Decoding)
    ensures JsonDecode(data, platform).Some? && JsonDecode(data, platform).value.errorMessage != "" ==>
              r == Failure(Loader(ServerError(JsonDecode(data, platform).value.errorMessage)))
    ensures r.Success? <==> JsonDecode(data, platform).Some? && JsonDecode(data, platform).value.errorMessage == ""
    ensures r.Success? ==> r == Success(JsonDecode(data, platform).value)
  {
    match JsonDecode(data, platform)
    case None => Failure(Decoding)
    case Some(movies) =>
      if IsNotEmpty(movies.errorMessage) then Failure(Loader(ServerError(movies.errorMessage)))
      else Success(movies)
  }

  /** `enrichError`: errors from the URL loading system are wrapped as
      `connectionError`; every other error is passed on as it is. */
  function EnrichError(e: Error): (r: Error)
    ensures InURLDomain(e) ==> r == Loader(ConnectionError(e))
    ensures !InURLDomain(e) ==> r == e
  {
    if InURLDomain(e) then Loader(ConnectionError(e)) else e
  }

  /** The closure of `loadMovies` that maps the fetch result (MoviesLoader.swift:52-59). */
  function HandleFetched(fetched: Result<Data, Error>, platform: Platform): (r: Result<MostPopularMovies, Error>)
    ensures fetched.Failure? ==> r == Failure(EnrichError(fetched.error))
    ensures fetched.Success? ==> r == DecodeMovies(fetched.value, platform)
    ensures r.Success? ==> fetched.Success? && r.value.errorMessage == ""
  {
    match fetched
    case Success(data) => DecodeMovies(data, platform)
    case Failure(e) => Failure(EnrichError(e))
  }

  /** Behind the real `NetworkClient`, every failure already is a
      `NetworkClient.NetworkError`, so `enrichError` passes it on unchanged and never
      produces `connectionError`. */
  lemma ClientFailuresPassThrough(network: Completion, platform: Platform)
    requires Classify(network).Failure?
    ensures HandleFetched(Classify(network), platform) == Failure(Classify(network).error)
    ensures !HandleFetched(Classify(network), platform).error.Loader?
  {
  }

  /** MoviesLoaderTests.swift:92-112: the stub's own error reaches the handler unchanged. */
  lemma StubErrorPassesThrough(platform: Platform, description: string)
    ensures var testError := Foreign("MovieQuizTests.StubNetworkClient.TestError", 0, description);
            HandleFetched(Failure(testError), platform) == Failure(testError)
  {
  }

  /** MoviesLoaderTests.swift:168-194: an empty error message with no items succeeds. */
  lemma EmptyItemsSucceed(data: Data, platform: Platform)
    requires platform.parseJson(data) == Some(JObject(map["errorMessage" := JString(""), "items" := JArray([])]))
    ensures HandleFetched(Success(data), platform) == Success(MostPopularMovies("", []))
  {
    assert DecodeItems([], platform.isValidURL) == Some([]);
  }

  /** MoviesLoaderTests.swift:196-222 expects success for this payload; the code
      reports it as a server error instead. */
  lemma ErrorMessageFails(data: Data, platform: Platform)
    requires platform.parseJson(data) == Some(JObject(map["errorMessage" := JString("API limit reached"), "items" := JArray([])]))
    ensures HandleFetched(Success(data), platform) == Failure(Loader(ServerError("API limit reached")))
  {
    assert DecodeItems([], platform.isValidURL) == Some([]);
  }

  class MoviesLoader {
    const networkClient: NetworkClient

    constructor(networkClient: NetworkClient)
      ensures this.networkClient == networkClient
    {
      this.networkClient := networkClient;
    }

    /** `loadMovies(handler:)`, with the handler's argument returned.  `network` is
        what the data task reports once it finishes. */
    method LoadMovies(network: Completion, platform: Platform) returns (result: Result<MostPopularMovies, Error>)
      modifies networkClient, networkClient.currentTask
      ensures old(networkClient.currentTask) != null ==>
                old(networkClient.currentTask).state == AfterCancel(old(networkClient.currentTask.state))
      ensures networkClient.currentTask != null && fresh(networkClient.currentTask)
      ensures networkClient.currentTask.request == URLRequest(MostPopularMoviesURL(platform.isValidURL), RequestTimeout)
      ensures networkClient.currentTask.state == Completed
      ensures result == HandleFetched(Classify(network), platform)
    {
      var task := networkClient.Fetch(MostPopularMoviesURL(platform.isValidURL));
      var fetched := task.Finish(network);
      result := HandleFetched(fetched, platform);
    }

    /** `cancel()`: cancels the client's current request. */
    method Cancel()
      modifies networkClient, networkClient.currentTask
      ensures networkClient.currentTask == null
      ensures old(networkClient.currentTask) != null ==>
                old(networkClient.currentTask).state == AfterCancel(old(networkClient.currentTask.state))
    {
      networkClient.Cancel();
    }
  }
}
