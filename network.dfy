/** `NetworkClient` (NetworkClient.swift): one GET request at a time over `URLSession`,
    and the guard chain that turns what the data task reports into a `Result`. */
module Network {
  import opened Wrappers
  import opened Foundation
  import opened Errors

  /** What the data task reports as its response: an `HTTPURLResponse` with its
      status code, or a response of another kind. */
  datatype Response = HTTPURLResponse(statusCode: int) | OtherResponse

  /** The three arguments `(data, response, error)` of the data task's completion handler. */
  datatype Completion = Completion(data: Option<Data>, response: Option<Response>, error: Option<Error>)

  /** `(200..<300).contains(statusCode)`. */
  predicate IsSuccessStatus(statusCode: int) {
    200 <= statusCode < 300
  }

  /** The completion handler's guard chain (NetworkClient.swift:59-112), checked in
      order: cancellation, any other error, a non-HTTP response, a status outside
      2xx, missing data; only what passes all five is a success. */
  function Classify(c: Completion): (r: Result<Data, Error>)
    ensures c.error.Some? && IsCancellation(c.error.value) ==> r == Failure(Client(Cancelled))
    ensures c.error.Some? && !IsCancellation(c.error.value) ==> r == Failure(Client(RequestFailed(c.error.value)))
    ensures c.error.None? && (c.response.None? || c.response.value.OtherResponse?) ==> r == Failure(Client(InvalidResponse))
    ensures c.error.None? && c.response.Some? && c.response.value.HTTPURLResponse? ==>
              !IsSuccessStatus(c.response.value.statusCode) ==> r == Failure(Client(CodeError(c.response.value.statusCode)))
    ensures r.Success? <==>
              c.error.None? && c.response.Some? && c.response.value.HTTPURLResponse?
              && IsSuccessStatus(c.response.value.statusCode) && c.data.Some?
    ensures r.Success? ==> r.value == c.data.value
    ensures r.Failure? ==> r.error.Client?
  {
    if c.error.Some? && IsCancellation(c.error.value) then Failure(Client(Cancelled))
    else if c.error.Some? then Failure(Client(RequestFailed(c.error.value)))
    else if c.response.None? || !c.response.value.HTTPURLResponse? then Failure(Client(InvalidResponse))
    else if !IsSuccessStatus(c.response.value.statusCode) then Failure(Client(CodeError(c.response.value.statusCode)))
    else if c.data.None? then Failure(Client(InvalidData))
    else Success(c.data.value)
  }

  /** An error decides the outcome alone: whatever data and response come with it
      are never looked at. */
  lemma ErrorDecidesAlone(c: Completion, data: Option<Data>, response: Option<Response>)
    requires c.error.Some?
    ensures Classify(c.(data := data, response := response)) == Classify(c)
  {
  }

  /** A 2xx HTTP response without data, and no error, is `invalidData`. */
  lemma MissingDataIsInvalidData(statusCode: int)
    requires IsSuccessStatus(statusCode)
    ensures Classify(Completion(None, Some(HTTPURLResponse(statusCode)), None)) == Failure(Client(InvalidData))
  {
  }

  /** The lifecycle of a `URLSessionTask`. */
  datatype TaskState = Suspended | Running | Canceling | Completed

  /** `URLRequest(url:timeoutInterval:)`. */
  datatype URLRequest = URLRequest(url: string, timeoutInterval: int)

  /** The timeout of every request, in seconds. */
  const RequestTimeout: int := 30

  /** What `URLSession` reports for a task that was cancelled before it finished. */
  const CancelledCompletion: Completion :=
    Completion(None, None, Some(Foreign(NSURLErrorDomain, NSURLErrorCancelled, "cancelled")))

  /** The effect of `URLSessionTask.cancel()`: only an unfinished task starts cancelling. */
  function AfterCancel(s: TaskState): TaskState {
    if s == Suspended || s == Running then Canceling else s
  }

  /** A `URLSessionDataTask` created by `NetworkClient.fetch`. */
  class SessionTask {
    const request: URLRequest
    var state: TaskState

    /** `session.dataTask(with:)`: a new task does not run until resumed. */
    constructor(request: URLRequest)
      ensures this.request == request && state == Suspended
    {
      this.request := request;
      state := Suspended;
    }

    method Resume()
      modifies this
      ensures state == if old(state) == Suspended then Running else old(state)
    {
      if state == Suspended {
        state := Running;
      }
    }

    method Cancel()
      modifies this
      ensures state == AfterCancel(old(state))
    {
      state := AfterCancel(state);
    }

    /** The task finishes and its completion handler runs once, on what the network
        produced, or on the cancellation error if the task was cancelled. */
    method Finish(network: Completion) returns (delivered: Result<Data, Error>)
      requires state == Running || state == Canceling
      modifies this
      ensures state == Completed
      ensures old(state) == Canceling ==> delivered == Failure(Client(Cancelled))
      ensures old(state) == Running ==> delivered == Classify(network)
    {
      var reported := if state == Canceling then CancelledCompletion else network;
      state := Completed;
      delivered := Classify(reported);
    }
  }

  class NetworkClient {
    /** The task of the latest request, until it is cancelled. */
    var currentTask: SessionTask?

    constructor()
      ensures currentTask == null
    {
      currentTask := null;
    }

    /** `cancel()`: cancels the current task, if any, and forgets it. */
    method Cancel()
      modifies this, currentTask
      ensures currentTask == null
      ensures old(currentTask) != null ==> old(currentTask).state == AfterCancel(old(currentTask.state))
    {
      if currentTask != null {
        currentTask.Cancel();
      }
      currentTask := null;
    }

    /** `fetch(url:handler:)`: cancels the previous request, then starts a new task
        for `url` with a 30-second timeout and remembers it. */
    method Fetch(url: string) returns (task: SessionTask)
      modifies this, currentTask
      ensures old(currentTask) != null ==> old(currentTask).state == AfterCancel(old(currentTask.state))
      ensures fresh(task) && currentTask == task
      ensures task.request == URLRequest(url, RequestTimeout) && task.state == Running
    {
      Cancel();
      task := new SessionTask(URLRequest(url, RequestTimeout));
      currentTask := task;
      task.Resume();
    }
  }

  /** A request superseded by a second `fetch` before it finished reports
      `cancelled`, whatever the network would have produced for it. */
  method SupersededRequestIsCancelled(first: string, second: string, network: Completion)
    returns (delivered: Result<Data, Error>)
    ensures delivered == Failure(Client(Cancelled))
  {
    var client := new NetworkClient();
    var task1 := client.Fetch(first);
    var task2 := client.Fetch(second);
    delivered := task1.Finish(network);
  }
}
