/**
 * `pyramid_hypernova/request.py`: `HypernovaQuery`, a query for one job group
 * that is sent either synchronously (`requests.post`) or asynchronously
 * (`fido.fetch`), and whose `json()` either returns the decoded reply or
 * raises `HypernovaQueryError`.
 */
module Request {

  import opened Wrappers
  import opened OrderedDict
  import opened Types
  import opened Strings

  /** The request body of one job: its name, its data and its context. */
  function JobPayload(job: Job): Json
  {
    JObject([("name", JString(job.name)), ("data", job.data), ("context", job.context)])
  }

  /** `create_jobs_payload`: the request body for a group, keyed like the group, in the group's order. */
  function CreateJobsPayload(jobs: Jobs): (r: Dict<Json>)
    ensures Keys(r) == Keys(jobs)
    ensures forall i :: 0 <= i < |jobs| ==>
      r[i].1 == JObject([("name", JString(jobs[i].1.name)), ("data", jobs[i].1.data), ("context", jobs[i].1.context)])
  {
    MapValues(jobs, (identifier: string, job: Job) => JobPayload(job))
  }

  /** Looking an identifier up in the payload gives the payload of the job it names, and nothing else. */
  lemma {:induction false} PayloadGet(jobs: Jobs, identifier: string)
    ensures var p := Get(CreateJobsPayload(jobs), identifier);
      && (p.Some? <==> identifier in Keys(jobs))
      && (p.Some? ==> p.value == JobPayload(Get(jobs, identifier).value))
  {
    MapValuesGet(jobs, (identifier: string, job: Job) => JobPayload(job), identifier);
  }

  /** `HypernovaQueryError(child)`: its message is `str(child)`. */
  datatype HypernovaQueryError = HypernovaQueryError(message: string)

  /** The headers of a synchronous request: the caller's, with `Content-Type` set to JSON. */
  function SendHeaders(requestHeaders: map<string, string>): (h: map<string, string>)
    ensures "Content-Type" in h && h["Content-Type"] == "application/json"
    ensures forall k :: k != "Content-Type" ==> (k in h <==> k in requestHeaders)
    ensures forall k :: k != "Content-Type" && k in requestHeaders ==> h[k] == requestHeaders[k]
  {
    requestHeaders["Content-Type" := "application/json"]
  }

  /** `{key: [value] for key, value in request_headers.items()}`, the header form `fido` takes. */
  function AsyncHeaders(h: map<string, string>): (r: map<string, seq<string>>)
  {
    map k | k in h :: [h[k]]
  }

  /** The wrapped headers have the same keys, and unwrapping each one-element list gives the headers back. */
  lemma {:induction false} AsyncHeadersRoundTrip(h: map<string, string>)
    ensures AsyncHeaders(h).Keys == h.Keys
    ensures forall k :: k in h ==> |AsyncHeaders(h)[k]| == 1
    ensures (map k | k in AsyncHeaders(h) :: AsyncHeaders(h)[k][0]) == h
  {
    var r := AsyncHeaders(h);
    var back := map k | k in r :: r[k][0];
    assert back.Keys == h.Keys;
  }

  /** A request as the transport receives it. */
  datatype Dispatch =
    | Post(url: string, headers: map<string, string>, data: string)
    | FetchRequest(url: string, fetchHeaders: map<string, seq<string>>, httpMethod: string, body: string)

  /**
   * What the transport gives back, for either transport. Synchronously:
   * the status and the text of the `HTTPError` that `raise_for_status` raises
   * for a 4xx or 5xx status. Asynchronously: the text of a `NetworkError` if
   * `wait()` raised one, else the status and the decoded body. In both
   * modes, the value `json()` of the response decodes to.
   */
  datatype Reply = Reply(networkError: Option<string>, status: nat, httpErrorText: string, body: string, json: Json)

  /** What `HypernovaQuery.json()` does: return the decoded reply, or raise. */
  datatype QueryResult =
    | Returned(json: Json)
    | QueryFailed(error: HypernovaQueryError)
    /** `self.response` was never set: `json()` before `send()` raises `AttributeError`. */
    | NoResponse

  /** `requests`' `raise_for_status` raises for the client and server error statuses. */
  predicate IsHttpError(status: nat)
  {
    400 <= status < 600
  }

  function StatusMessagePrefix(): string
  {
    "Received response with status code "
  }

  function StatusMessageMiddle(): string
  {
    " from Hypernova. Response body:\n"
  }

  /** The message of the error for an asynchronous reply whose status is not 200. */
  function StatusMessage(status: nat, body: string): string
  {
    StatusMessagePrefix() + NatToString(status) + StatusMessageMiddle() + body
  }

  /** The classification made by `json()` on the stored reply, in either mode. */
  function Classify(synchronous: bool, reply: Reply): QueryResult
  {
    if synchronous then
      if IsHttpError(reply.status) then QueryFailed(HypernovaQueryError(reply.httpErrorText))
      else Returned(reply.json)
    else if reply.networkError.Some? then QueryFailed(HypernovaQueryError(reply.networkError.value))
    else if reply.status != 200 then QueryFailed(HypernovaQueryError(StatusMessage(reply.status, reply.body)))
    else Returned(reply.json)
  }

  /** Synchronously, the query fails exactly on a 4xx or 5xx status, with the `HTTPError`'s text. */
  lemma {:induction false} ClassifySync(reply: Reply)
    ensures Classify(true, reply).QueryFailed? <==> 400 <= reply.status < 600
    ensures Classify(true, reply).QueryFailed? ==> Classify(true, reply).error.message == reply.httpErrorText
    ensures !Classify(true, reply).QueryFailed? ==> Classify(true, reply) == Returned(reply.json)
  {
  }

  /**
   * Asynchronously, the query fails exactly on a network error or a status
   * other than 200; a network error keeps its text, a status error names the
   * status and the body; otherwise the decoded reply is returned.
   */
  lemma {:induction false} ClassifyAsync(reply: Reply)
    ensures Classify(false, reply).QueryFailed? <==> reply.networkError.Some? || reply.status != 200
    ensures reply.networkError.Some? ==> Classify(false, reply) == QueryFailed(HypernovaQueryError(reply.networkError.value))
    ensures reply.networkError.None? && reply.status != 200 ==>
      Classify(false, reply).error.message == StatusMessage(reply.status, reply.body)
    ensures !Classify(false, reply).QueryFailed? ==> Classify(false, reply) == Returned(reply.json)
  {
  }

  /**
   * The status and the body can be read back from the message of a status
   * error: the digits right after the fixed prefix, up to the next space,
   * spell the status, and the message ends with the body.
   */
  lemma {:induction false} StatusMessageRecoverable(status: nat, body: string)
    ensures var m, p, d := StatusMessage(status, body), |StatusMessagePrefix()|, NatToString(status);
      && m[..p] == StatusMessagePrefix()
      && IsDigits(m[p..p + |d|])
      && ParseNat(m[p..p + |d|]) == status
      && m[p + |d|] == ' '
      && m[|m| - |body|..] == body
  {
    var m, p, d := StatusMessage(status, body), |StatusMessagePrefix()|, NatToString(status);
    var mid := StatusMessageMiddle();
    assert m == StatusMessagePrefix() + d + mid + body;
    assert m[p..p + |d|] == d;
    assert m[p + |d|] == mid[0];
    assert m[|m| - |body|..] == body;
    ParseNatToString(status);
  }

  /**
   * `HypernovaQuery`: one group's query. `send` stores what the transport
   * gave back, `json` classifies it.
   */
  class HypernovaQuery {
    const jobGroup: Jobs
    const url: string
    const encoder: Encoder
    const synchronous: bool
    /** The caller's headers; `send` works on a copy. */
    const requestHeaders: map<string, string>
    /** The request handed to the transport by the last `send`. */
    var dispatched: Option<Dispatch>
    /** `self.response`, unset until `send`. */
    var response: Option<Reply>

    constructor (jobGroup: Jobs, url: string, encoder: Encoder, synchronous: bool, requestHeaders: map<string, string>)
      ensures this.jobGroup == jobGroup && this.url == url && this.encoder == encoder
      ensures this.synchronous == synchronous && this.requestHeaders == requestHeaders
      ensures dispatched == None && response == None
    {
      this.jobGroup := jobGroup;
      this.url := url;
      this.encoder := encoder;
      this.synchronous := synchronous;
      this.requestHeaders := requestHeaders;
      dispatched := None;
      response := None;
    }

    /** The request `send` issues: the flag alone picks `requests.post` or `fido.fetch`. */
    function Outgoing(): (d: Dispatch)
      ensures d.Post? <==> synchronous
      ensures d.url == url
      ensures d.Post? ==> d.headers == SendHeaders(requestHeaders)
      ensures d.FetchRequest? ==> d.fetchHeaders == AsyncHeaders(SendHeaders(requestHeaders)) && d.httpMethod == "POST"
    {
      var jobText := encoder(JObject(CreateJobsPayload(jobGroup)));
      var headers := SendHeaders(requestHeaders);
      if synchronous then Post(url, headers, jobText)
      else FetchRequest(url, AsyncHeaders(headers), "POST", jobText)
    }

    /**
     * `send`: the encoded payload and the headers go to the transport chosen
     * by the flag; what it gives back is stored. `transport` stands for
     * `requests.post` and `fido.fetch`.
     */
    method Send(transport: Dispatch -> Reply)
      modifies this
      ensures dispatched == Some(Outgoing())
      ensures response == Some(transport(Outgoing()))
    {
      var jobText := encoder(JObject(CreateJobsPayload(jobGroup)));
      var headers := requestHeaders;
      headers := headers["Content-Type" := "application/json"];
      var request: Dispatch;
      if synchronous {
        request := Post(url, headers, jobText);
      } else {
        var wrapped := map k | k in headers :: [headers[k]];
        request := FetchRequest(url, wrapped, "POST", jobText);
      }
      dispatched := Some(request);
      response := Some(transport(request));
    }

    /** `json`: classify the stored reply; nothing changes. */
    method Json() returns (r: QueryResult)
      ensures response.None? ==> r == NoResponse
      ensures response.Some? ==> r == Classify(synchronous, response.value)
    {
      if response.None? {
        return NoResponse;
      }
      var reply := response.value;
      if synchronous {
        if IsHttpError(reply.status) {
          return QueryFailed(HypernovaQueryError(reply.httpErrorText));
        }
        r := Returned(reply.json);
      } else {
        if reply.networkError.Some? {
          return QueryFailed(HypernovaQueryError(reply.networkError.value));
        }
        if reply.status != 200 {
          var message := "Received response with status code " + NatToString(reply.status)
            + " from Hypernova. Response body:\n" + reply.body;
          return QueryFailed(HypernovaQueryError(message));
        }
        r := Returned(reply.json);
      }
    }
  }
}
