/**
 * `pyramid_hypernova/batch.py`: the client that collects render jobs, splits
 * them into groups, sends one request per group, and turns every outcome
 * (per-job error, whole-batch error, failed transport) into markup.
 */
module Batch {

  import opened Wrappers
  import opened OrderedDict
  import opened Types
  import opened Runtime
  import opened Rendering
  import opened Plugins

  // ----- create_fallback_response and create_jobs_payload -----

  /** `create_fallback_response`: client-side markup for every job, carrying `error`. */
  function CreateFallbackResponse(jobs: Jobs, throwClientError: bool, error: Option<HypernovaError>, encoder: Encoder): (r: Response)
    ensures Keys(r) == Keys(jobs)
    ensures forall i :: 0 <= i < |jobs| ==>
      r[i].1 == JobResult(error, RenderBlankMarkup(jobs[i].0, jobs[i].1, throwClientError, encoder), jobs[i].1)
  {
    MapValues(jobs, (identifier: string, job: Job) =>
      JobResult(error, RenderBlankMarkup(identifier, job, throwClientError, encoder), job))
  }

  /** The fallback for one identifier, looked up by key. */
  lemma {:induction false} FallbackGet(jobs: Jobs, throwClientError: bool, error: Option<HypernovaError>, encoder: Encoder, identifier: string)
    ensures var r := Get(CreateFallbackResponse(jobs, throwClientError, error, encoder), identifier);
      && (r.Some? <==> identifier in Keys(jobs))
      && (r.Some? ==> var job := Get(jobs, identifier).value;
            r.value == JobResult(error, RenderBlankMarkup(identifier, job, throwClientError, encoder), job))
  {
    var f := (identifier: string, job: Job) =>
      JobResult(error, RenderBlankMarkup(identifier, job, throwClientError, encoder), job);
    MapValuesGet(jobs, f, identifier);
  }

  /** The request body of one job: its name and its data. */
  function JobPayload(job: Job): Json
  {
    JObject([("name", JString(job.name)), ("data", job.data)])
  }

  /** `create_jobs_payload`: the body sent for a group, keyed like the group. */
  function CreateJobsPayload(jobs: Jobs): (r: Dict<Json>)
    ensures Keys(r) == Keys(jobs)
    ensures forall i :: 0 <= i < |jobs| ==> r[i].1 == JObject([("name", JString(jobs[i].1.name)), ("data", jobs[i].1.data)])
  {
    MapValues(jobs, (identifier: string, job: Job) => JobPayload(job))
  }

  // ----- create_job_groups -----

  /** The pairs of all groups, one group after the other. */
  function Concat(groups: seq<Jobs>): seq<(string, Job)>
    decreases |groups|
  {
    if |groups| == 0 then [] else groups[0] + Concat(groups[1..])
  }

  lemma {:induction false} ConcatAppend(groups: seq<Jobs>, g: Jobs)
    ensures Concat(groups + [g]) == Concat(groups) + g
    decreases |groups|
  {
    if |groups| == 0 {
      assert groups + [g] == [g];
    } else {
      assert (groups + [g])[1..] == groups[1..] + [g];
      ConcatAppend(groups[1..], g);
    }
  }

  /** `more_itertools.chunked`: consecutive pieces of `size` pairs, the last possibly shorter. */
  function Chunked(jobs: Jobs, size: nat): seq<Jobs>
    requires size > 0
    decreases |jobs|
  {
    if |jobs| == 0 then []
    else if |jobs| <= size then [jobs]
    else [jobs[..size]] + Chunked(jobs[size..], size)
  }

  /** What `create_job_groups` returns. */
  function JobGroups(jobs: Jobs, maxBatchSize: Option<int>): seq<Jobs>
  {
    if maxBatchSize.Some? && maxBatchSize.value > 0 then Chunked(jobs, maxBatchSize.value) else [jobs]
  }

  /** Without a positive maximum there is exactly one group, the whole job map. */
  lemma {:induction false} JobGroupsUnbounded(jobs: Jobs, maxBatchSize: Option<int>)
    requires maxBatchSize.None? || maxBatchSize.value <= 0
    ensures JobGroups(jobs, maxBatchSize) == [jobs]
  {
  }

  /** The chunks are the input cut into pieces: nothing lost, added or reordered. */
  lemma {:induction false} ChunkedConcat(jobs: Jobs, size: nat)
    requires size > 0
    ensures Concat(Chunked(jobs, size)) == jobs
    decreases |jobs|
  {
    if |jobs| == 0 {
    } else if |jobs| <= size {
      assert Concat([jobs]) == jobs + Concat([]);
    } else {
      var rest := Chunked(jobs[size..], size);
      ChunkedConcat(jobs[size..], size);
      assert ([jobs[..size]] + rest)[1..] == rest;
      assert jobs == jobs[..size] + jobs[size..];
    }
  }

  /** Every chunk is non-empty and holds at most `size` pairs, and all but the last exactly `size`. */
  lemma {:induction false} ChunkedSizes(jobs: Jobs, size: nat)
    requires size > 0
    ensures forall i :: 0 <= i < |Chunked(jobs, size)| ==> 0 < |Chunked(jobs, size)[i]| <= size
    ensures forall i :: 0 <= i < |Chunked(jobs, size)| - 1 ==> |Chunked(jobs, size)[i]| == size
    decreases |jobs|
  {
    if |jobs| == 0 {
      assert Chunked(jobs, size) == [];
    } else if |jobs| <= size {
      assert Chunked(jobs, size) == [jobs];
    } else {
      ChunkedSizes(jobs[size..], size);
      var rest := Chunked(jobs[size..], size);
      var groups := [jobs[..size]] + rest;
      assert Chunked(jobs, size) == groups;
      forall i | 0 <= i < |groups|
        ensures 0 < |groups[i]| <= size
        ensures i < |groups| - 1 ==> |groups[i]| == size
      {
        if i > 0 {
          assert groups[i] == rest[i - 1];
          assert 0 < |rest[i - 1]| <= size;
          assert i - 1 < |rest| - 1 ==> |rest[i - 1]| == size;
        } else {
          assert |groups[0]| == size;
        }
      }
    }
  }

  /** `ceil(n / size)`, written as the source's tests compute it. */
  function CeilDiv(n: nat, size: nat): nat
    requires size > 0
  {
    (n + size - 1) / size
  }

  /** There are `ceil(n / size)` chunks. */
  lemma {:induction false} ChunkedCount(jobs: Jobs, size: nat)
    requires size > 0
    ensures |Chunked(jobs, size)| == CeilDiv(|jobs|, size)
    decreases |jobs|
  {
    if |jobs| == 0 {
      DivUnique(size - 1, size, 0, size - 1);
    } else if |jobs| <= size {
      DivUnique(|jobs| + size - 1, size, 1, |jobs| - 1);
    } else {
      ChunkedCount(jobs[size..], size);
      DivStep(|jobs| - size + size - 1, size);
      assert |jobs| + size - 1 == (|jobs| - size + size - 1) + size;
    }
  }

  lemma {:induction false} MulAtLeast(size: nat, d: int)
    requires size > 0
    ensures d >= 1 ==> size * d >= size
  {
    if d >= 1 {
      assert size * d == size * (d - 1) + size;
    }
  }

  /** The quotient is the only `q` that leaves a remainder in `[0, size)`. */
  lemma {:induction false} DivUnique(n: int, size: nat, q: int, r: int)
    requires size > 0 && 0 <= r < size && n == size * q + r
    ensures n / size == q
  {
    var q', r' := n / size, n % size;
    assert size * q' + r' == size * q + r;
    MulAtLeast(size, q' - q);
    MulAtLeast(size, q - q');
    assert size * (q' - q) == size * q' - size * q;
    assert size * (q - q') == size * q - size * q';
  }

  /** Adding the divisor adds one to the quotient. */
  lemma {:induction false} DivStep(x: nat, size: nat)
    requires size > 0
    ensures (x + size) / size == x / size + 1
  {
    var q, r := x / size, x % size;
    assert x + size == size * (q + 1) + r;
    DivUnique(x + size, size, q + 1, r);
  }

  /** Sizes 2, 2 and 1 for five jobs in groups of at most two. */
  lemma {:induction false} ChunkedFiveByTwo(jobs: Jobs)
    requires |jobs| == 5
    ensures var groups := Chunked(jobs, 2);
      |groups| == 3 && |groups[0]| == 2 && |groups[1]| == 2 && |groups[2]| == 1
  {
    var second := jobs[2..];
    var third := second[2..];
    assert |third| == 1;
    assert Chunked(third, 2) == [third];
    assert Chunked(second, 2) == [second[..2]] + [third];
    assert Chunked(jobs, 2) == [jobs[..2]] + [second[..2]] + [third];
  }

  /** A single chunk when the maximum is at least the number of jobs. */
  lemma {:induction false} ChunkedOne(jobs: Jobs, size: nat)
    requires 0 < |jobs| <= size
    ensures Chunked(jobs, size) == [jobs]
  {
  }

  /** The chunks from `start` are the piece `[start, stop)` followed by the chunks from `stop`. */
  lemma {:induction false} ChunkedStep(jobs: Jobs, size: nat, start: nat, stop: nat)
    requires size > 0 && start < |jobs|
    requires stop == if |jobs| - start <= size then |jobs| else start + size
    ensures Chunked(jobs[start..], size) == [jobs[start..stop]] + Chunked(jobs[stop..], size)
  {
    var rest := jobs[start..];
    if |rest| <= size {
      assert rest == jobs[start..stop];
      assert jobs[stop..] == [];
      assert [rest] + [] == [rest];
    } else {
      assert rest[..size] == jobs[start..stop];
      assert rest[size..] == jobs[stop..];
    }
  }

  /** `create_job_groups`: the loop over the chunks, appending one group each time. */
  method CreateJobGroups(jobs: Jobs, maxBatchSize: Option<int>) returns (jobGroups: seq<Jobs>)
    ensures jobGroups == JobGroups(jobs, maxBatchSize)
  {
    jobGroups := [];
    if maxBatchSize.Some? && maxBatchSize.value > 0 {
      var size: nat := maxBatchSize.value;
      var start := 0;
      while start < |jobs|
        invariant 0 <= start <= |jobs|
        invariant jobGroups + Chunked(jobs[start..], size) == Chunked(jobs, size)
        decreases |jobs| - start
      {
        var stop := if |jobs| - start <= size then |jobs| else start + size;
        ChunkedStep(jobs, size, start, stop);
        Associative(jobGroups, [jobs[start..stop]], Chunked(jobs[stop..], size));
        jobGroups := jobGroups + [jobs[start..stop]];
        start := stop;
      }
      assert jobs[start..] == [] && jobGroups + [] == jobGroups;
    } else {
      jobGroups := jobGroups + [jobs];
    }
  }

  // ----- the service's reply and its parsing -----

  /** One entry of `response_json['results']`: its `error` (`None` when null) and its `html`. */
  datatype ResultEntry = ResultEntry(error: Option<HypernovaError>, html: Option<string>)

  /** The top-level `error` of a reply: the key absent, present with `null`, or present with an error. */
  datatype ErrorField = ErrorMissing | ErrorNull | ErrorGiven(value: HypernovaError)

  /** The decoded reply of the rendering service: the top-level `error`, and `results` unless that key is missing. */
  datatype ServiceReply = ServiceReply(error: ErrorField, results: Option<Dict<ResultEntry>>)

  /**
   * What waiting on a group's future and decoding its body gives: the reply, or
   * the `NetworkError` / `ValueError` raised on the way, as its type's `repr`,
   * its message and its formatted traceback.
   */
  datatype FetchOutcome =
    | Answered(reply: ServiceReply)
    | Failed(exceptionType: string, message: string, stack: seq<string>)

  /** A computation's return value or exception, with the calls it made on the way. */
  datatype Run<+T> = Run(outcome: Result<T>, events: seq<Event>)

  /** Python's falsiness of the `html` value: null or the empty string. */
  predicate Falsy(html: Option<string>)
  {
    html.None? || html.value == ""
  }

  /** The `JobResult` that `_parse_response` builds for one entry of a known job. */
  function EntryResult(identifier: string, job: Job, entry: ResultEntry, encoder: Encoder): JobResult
  {
    var html := if Falsy(entry.html) then RenderBlankMarkup(identifier, job, true, encoder) else entry.html.value;
    JobResult(entry.error, html, job)
  }

  /** The `on_error` calls for one entry: one per plugin, with the job alone, when the entry has an error. */
  function EntryCalls(n: nat, identifier: string, job: Job, entry: ResultEntry): seq<Event>
  {
    if entry.error.Some? then Broadcast(n, OnError(entry.error.value, [(identifier, job)])) else []
  }

  /**
   * `_parse_response` on the entries `results` against the pending `jobs`,
   * with `n` plugins: an entry whose identifier is not pending raises `KeyError`.
   */
  function Parse(jobs: Jobs, results: Dict<ResultEntry>, n: nat, encoder: Encoder): (run: Run<Response>)
    ensures run.outcome.Ok? ==> Keys(run.outcome.value) == Keys(results)
    decreases |results|
  {
    if |results| == 0 then Run(Ok([]), [])
    else
      var prev := Parse(jobs, results[..|results| - 1], n, encoder);
      var identifier, entry := results[|results| - 1].0, results[|results| - 1].1;
      if prev.outcome.Raise? then prev
      else if identifier !in Keys(jobs) then Run(Raise(KeyError(identifier)), prev.events)
      else
        var job := Get(jobs, identifier).value;
        KeyNotBefore(results, |results| - 1);
        var response := prev.outcome.value + [(identifier, EntryResult(identifier, job, entry, encoder))];
        assert Keys(response) == Keys(results);
        Run(Ok(response), prev.events + EntryCalls(n, identifier, job, entry))
  }

  /** `_parse_response` on the whole reply: a missing `results` key raises `KeyError`. */
  function ParseReply(jobs: Jobs, reply: ServiceReply, n: nat, encoder: Encoder): Run<Response>
  {
    if reply.results.None? then Run(Raise(KeyError("results")), []) else Parse(jobs, reply.results.value, n, encoder)
  }

  /** One step of `Parse`: the last entry is appended to the result of the others. */
  lemma {:induction false} ParseStep(jobs: Jobs, results: Dict<ResultEntry>, n: nat, encoder: Encoder)
    requires |results| > 0
    ensures var prev := Parse(jobs, results[..|results| - 1], n, encoder);
      var last := results[|results| - 1];
      Parse(jobs, results, n, encoder)
      == if prev.outcome.Raise? then prev
         else if last.0 !in Keys(jobs) then Run(Raise(KeyError(last.0)), prev.events)
         else Run(Ok(prev.outcome.value + [(last.0, EntryResult(last.0, Get(jobs, last.0).value, last.1, encoder))]),
                  prev.events + EntryCalls(n, last.0, Get(jobs, last.0).value, last.1))
  {
    var init := results[..|results| - 1];
    assert Keys(results)[..|results| - 1] == Keys(init);
  }

  /** Once parsing has raised, the later entries change nothing. */
  lemma {:induction false} ParseStops(jobs: Jobs, results: Dict<ResultEntry>, n: nat, encoder: Encoder, i: nat)
    requires i <= |results|
    requires Parse(jobs, results[..i], n, encoder).outcome.Raise?
    ensures Parse(jobs, results, n, encoder) == Parse(jobs, results[..i], n, encoder)
    decreases |results|
  {
    if i < |results| {
      var init := results[..|results| - 1];
      assert init[..i] == results[..i];
      ParseStops(jobs, init, n, encoder, i);
    } else {
      assert results[..i] == results;
    }
  }

  /** Parsing succeeds exactly when every identifier of the reply is a pending job. */
  lemma {:induction false} ParseOkIff(jobs: Jobs, results: Dict<ResultEntry>, n: nat, encoder: Encoder)
    ensures Parse(jobs, results, n, encoder).outcome.Ok? <==> forall i :: 0 <= i < |results| ==> results[i].0 in Keys(jobs)
    decreases |results|
  {
    if |results| > 0 {
      var init := results[..|results| - 1];
      ParseOkIff(jobs, init, n, encoder);
      assert forall i :: 0 <= i < |init| ==> init[i] == results[i];
    }
  }

  /** The exception names the first identifier that is not a pending job. */
  lemma {:induction false} ParseRaisesFirstUnknown(jobs: Jobs, results: Dict<ResultEntry>, n: nat, encoder: Encoder)
    requires Parse(jobs, results, n, encoder).outcome.Raise?
    ensures exists k :: (0 <= k < |results| && results[k].0 !in Keys(jobs)
      && (forall i :: 0 <= i < k ==> results[i].0 in Keys(jobs))
      && Parse(jobs, results, n, encoder).outcome.error == KeyError(results[k].0))
    decreases |results|
  {
    var init := results[..|results| - 1];
    var prev := Parse(jobs, init, n, encoder);
    var error := Parse(jobs, results, n, encoder).outcome.error;
    ParseStep(jobs, results, n, encoder);
    if prev.outcome.Raise? {
      ParseRaisesFirstUnknown(jobs, init, n, encoder);
      var k :| 0 <= k < |init| && init[k].0 !in Keys(jobs)
        && (forall i :: 0 <= i < k ==> init[i].0 in Keys(jobs))
        && prev.outcome.error == KeyError(init[k].0);
      assert error == KeyError(results[k].0);
      assert forall i :: 0 <= i < k ==> results[i] == init[i];
      assert results[k].0 !in Keys(jobs) && (forall i :: 0 <= i < k ==> results[i].0 in Keys(jobs));
    } else {
      ParseOkIff(jobs, init, n, encoder);
      var k := |results| - 1;
      assert error == KeyError(results[k].0);
      assert forall i :: 0 <= i < k ==> results[i] == init[i];
      assert results[k].0 !in Keys(jobs) && (forall i :: 0 <= i < k ==> results[i].0 in Keys(jobs));
    }
  }

  /**
   * On success every entry of the reply gives its job's result, in the reply's
   * order: the entry's error, and its html unless that is falsy, in which case
   * the blank markup with the client-error script.
   */
  lemma {:induction false} ParseEntries(jobs: Jobs, results: Dict<ResultEntry>, n: nat, encoder: Encoder)
    requires Parse(jobs, results, n, encoder).outcome.Ok?
    ensures var response := Parse(jobs, results, n, encoder).outcome.value;
      |response| == |results|
      && (forall i :: 0 <= i < |results| ==> (results[i].0 in Keys(jobs)
        && response[i] == (results[i].0, EntryResult(results[i].0, Get(jobs, results[i].0).value, results[i].1, encoder))))
    decreases |results|
  {
    if |results| > 0 {
      var k := |results| - 1;
      var init, last := results[..k], results[k];
      ParseAcceptsLast(jobs, results, n, encoder);
      ParseEntries(jobs, init, n, encoder);
      var prev := Parse(jobs, init, n, encoder).outcome.value;
      var response := Parse(jobs, results, n, encoder).outcome.value;
      AppendKeepsPrefix(prev, (last.0, EntryResult(last.0, Get(jobs, last.0).value, last.1, encoder)), response);
      forall i | 0 <= i < k
        ensures results[i].0 in Keys(jobs)
        ensures response[i] == (results[i].0, EntryResult(results[i].0, Get(jobs, results[i].0).value, results[i].1, encoder))
      {
        assert response[i] == prev[i] && init[i] == results[i];
      }
    }
  }

  /** A successful parse accepted its last entry after a successful parse of the others. */
  lemma {:induction false} ParseAcceptsLast(jobs: Jobs, results: Dict<ResultEntry>, n: nat, encoder: Encoder)
    requires |results| > 0 && Parse(jobs, results, n, encoder).outcome.Ok?
    ensures var init, last := results[..|results| - 1], results[|results| - 1];
      && Parse(jobs, init, n, encoder).outcome.Ok?
      && last.0 in Keys(jobs)
      && Parse(jobs, results, n, encoder).outcome.value
         == Parse(jobs, init, n, encoder).outcome.value + [(last.0, EntryResult(last.0, Get(jobs, last.0).value, last.1, encoder))]
  {
  }

  /** The pairs before an appended one are kept in place. */
  lemma {:induction false} AppendKeepsPrefix<T>(prev: seq<T>, x: T, s: seq<T>)
    requires s == prev + [x]
    ensures |s| == |prev| + 1 && s[|prev|] == x
    ensures forall i :: 0 <= i < |prev| ==> s[i] == prev[i]
  {
  }

  /** A result carries an error exactly when its entry does, and a falsy html becomes fallback markup. */
  lemma {:induction false} ParseErrorsAndFallbacks(jobs: Jobs, results: Dict<ResultEntry>, n: nat, encoder: Encoder, i: nat)
    requires Parse(jobs, results, n, encoder).outcome.Ok?
    requires i < |results|
    ensures var r := Parse(jobs, results, n, encoder).outcome.value[i].1;
      && (r.error.Some? <==> results[i].1.error.Some?)
      && r.error == results[i].1.error
      && (Falsy(results[i].1.html) ==> r.html == RenderBlankMarkup(results[i].0, r.job, true, encoder))
      && (!Falsy(results[i].1.html) ==> r.html == results[i].1.html.value)
  {
    ParseEntries(jobs, results, n, encoder);
  }

  /** The `on_error` calls of the whole reply, entry by entry in the reply's order. */
  function ErrorCalls(jobs: Jobs, results: seq<(string, ResultEntry)>, n: nat): seq<Event>
    requires forall i :: 0 <= i < |results| ==> results[i].0 in Keys(jobs)
    decreases |results|
  {
    if |results| == 0 then []
    else
      var last := results[|results| - 1];
      ErrorCalls(jobs, results[..|results| - 1], n) + EntryCalls(n, last.0, Get(jobs, last.0).value, last.1)
  }

  /** A successful parse calls `on_error` once per plugin for each entry with an error, with that job alone. */
  lemma {:induction false} ParseCalls(jobs: Jobs, results: Dict<ResultEntry>, n: nat, encoder: Encoder)
    requires Parse(jobs, results, n, encoder).outcome.Ok?
    ensures forall i :: 0 <= i < |results| ==> results[i].0 in Keys(jobs)
    ensures Parse(jobs, results, n, encoder).events == ErrorCalls(jobs, results, n)
    decreases |results|
  {
    ParseOkIff(jobs, results, n, encoder);
    if |results| > 0 {
      ParseStep(jobs, results, n, encoder);
      ParseCalls(jobs, results[..|results| - 1], n, encoder);
    }
  }

  /** Without entry errors, parsing calls nothing. */
  lemma {:induction false} ErrorCallsNone(jobs: Jobs, results: seq<(string, ResultEntry)>, n: nat)
    requires forall i :: 0 <= i < |results| ==> results[i].0 in Keys(jobs) && results[i].1.error.None?
    ensures ErrorCalls(jobs, results, n) == []
    decreases |results|
  {
    if |results| > 0 {
      ErrorCallsNone(jobs, results[..|results| - 1], n);
    }
  }

  /** The loop of `_parse_response` raising at entry `i`: the result of the whole parse. */
  lemma {:induction false} ParseRaisesAt(jobs: Jobs, results: Dict<ResultEntry>, n: nat, encoder: Encoder, i: nat)
    requires i < |results| && results[i].0 !in Keys(jobs)
    requires Parse(jobs, results[..i], n, encoder).outcome.Ok?
    ensures Parse(jobs, results, n, encoder) == Run(Raise(KeyError(results[i].0)), Parse(jobs, results[..i], n, encoder).events)
  {
    var prefix := results[..i + 1];
    assert prefix[..i] == results[..i] && prefix[i] == results[i];
    ParseRaisesLast(jobs, prefix, n, encoder);
    ParseStops(jobs, results, n, encoder, i + 1);
  }

  /** An unknown last identifier, after a successful parse of the others, raises `KeyError` for it. */
  lemma {:induction false} ParseRaisesLast(jobs: Jobs, results: Dict<ResultEntry>, n: nat, encoder: Encoder)
    requires |results| > 0 && results[|results| - 1].0 !in Keys(jobs)
    requires Parse(jobs, results[..|results| - 1], n, encoder).outcome.Ok?
    ensures Parse(jobs, results, n, encoder)
         == Run(Raise(KeyError(results[|results| - 1].0)), Parse(jobs, results[..|results| - 1], n, encoder).events)
  {
  }

  /** The loop of `_parse_response` accepting entry `i`: assigning its result extends the map. */
  lemma {:induction false} ParseExtends(jobs: Jobs, results: Dict<ResultEntry>, n: nat, encoder: Encoder, i: nat, response: Response)
    requires i < |results| && results[i].0 in Keys(jobs)
    requires Parse(jobs, results[..i], n, encoder).outcome == Ok(response)
    ensures var identifier, entry := results[i].0, results[i].1;
      var job := Get(jobs, identifier).value;
      Parse(jobs, results[..i + 1], n, encoder)
      == Run(Ok(Put(response, identifier, EntryResult(identifier, job, entry, encoder))),
             Parse(jobs, results[..i], n, encoder).events + EntryCalls(n, identifier, job, entry))
  {
    var prefix := results[..i + 1];
    assert prefix[..i] == results[..i];
    ParseStep(jobs, prefix, n, encoder);
    KeyNotBefore(results, i);
  }

  // ----- process_responses and the merge in submit -----

  /**
   * `process_responses` for group number `index` of the pending `jobs`: wait on
   * the future, then fall back for the whole group on a top-level error or a
   * failed transport (calling `on_error` with the group), or parse the reply
   * (calling `on_success` with the parsed map and the group). Reading a
   * missing top-level `error` key raises `KeyError`, which the `except` for
   * transport failures does not catch.
   */
  function Process(jobs: Jobs, group: Jobs, index: nat, outcome: FetchOutcome, n: nat, encoder: Encoder): Run<Response>
  {
    var waited := [Await(index)];
    match outcome
    case Failed(exceptionType, message, stack) =>
      var error := HypernovaError(exceptionType, message, stack);
      Run(Ok(CreateFallbackResponse(group, true, Some(error), encoder)), waited + Broadcast(n, OnError(error, group)))
    case Answered(reply) =>
      if reply.error.ErrorMissing? then
        Run(Raise(KeyError("error")), waited)
      else if reply.error.ErrorGiven? then
        Run(Ok(CreateFallbackResponse(group, true, Some(reply.error.value), encoder)), waited + Broadcast(n, OnError(reply.error.value, group)))
      else
        var parsed := ParseReply(jobs, reply, n, encoder);
        if parsed.outcome.Raise? then Run(parsed.outcome, waited + parsed.events)
        else Run(parsed.outcome, waited + parsed.events + Broadcast(n, OnSuccess(parsed.outcome.value, group)))
  }

  /** A failed transport or a top-level error makes every job of the group fall back, with the client-error script. */
  lemma {:induction false} ProcessFallsBack(jobs: Jobs, group: Jobs, index: nat, outcome: FetchOutcome, n: nat, encoder: Encoder)
    requires outcome.Failed? || outcome.reply.error.ErrorGiven?
    ensures var error := if outcome.Failed? then HypernovaError(outcome.exceptionType, outcome.message, outcome.stack)
                         else outcome.reply.error.value;
      && Process(jobs, group, index, outcome, n, encoder)
         == Run(Ok(CreateFallbackResponse(group, true, Some(error), encoder)), [Await(index)] + Broadcast(n, OnError(error, group)))
      && Keys(CreateFallbackResponse(group, true, Some(error), encoder)) == Keys(group)
  {
  }

  /** Otherwise the reply's results are parsed and `on_success` follows the per-entry `on_error` calls. */
  lemma {:induction false} ProcessParses(jobs: Jobs, group: Jobs, index: nat, reply: ServiceReply, n: nat, encoder: Encoder)
    requires reply.error.ErrorNull? && reply.results.Some?
    requires forall i :: 0 <= i < |reply.results.value| ==> reply.results.value[i].0 in Keys(jobs)
    ensures var parsed := Parse(jobs, reply.results.value, n, encoder);
      && parsed.outcome.Ok?
      && Process(jobs, group, index, Answered(reply), n, encoder)
         == Run(parsed.outcome, [Await(index)] + ErrorCalls(jobs, reply.results.value, n) + Broadcast(n, OnSuccess(parsed.outcome.value, group)))
  {
    ParseOkIff(jobs, reply.results.value, n, encoder);
    ParseCalls(jobs, reply.results.value, n, encoder);
  }

  /** A null `error` with a missing `results` key raises `KeyError` after the wait, and calls no plugin. */
  lemma {:induction false} ProcessMissingResults(jobs: Jobs, group: Jobs, index: nat, n: nat, encoder: Encoder)
    ensures Process(jobs, group, index, Answered(ServiceReply(ErrorNull, None)), n, encoder)
         == Run(Raise(KeyError("results")), [Await(index)])
  {
  }

  /** A missing top-level `error` key raises `KeyError` after the wait, whatever the results, and calls no plugin. */
  lemma {:induction false} ProcessMissingError(jobs: Jobs, group: Jobs, index: nat, results: Option<Dict<ResultEntry>>, n: nat, encoder: Encoder)
    ensures Process(jobs, group, index, Answered(ServiceReply(ErrorMissing, results)), n, encoder)
         == Run(Raise(KeyError("error")), [Await(index)])
  {
  }

  /** What `process_responses` gives for each group in turn, from the outcome of the group's request. */
  function Processed(jobs: Jobs, groups: seq<Jobs>, network: (nat, Jobs) -> FetchOutcome, n: nat, encoder: Encoder)
    : (runs: seq<Run<Response>>)
    ensures |runs| == |groups|
    ensures forall i :: 0 <= i < |groups| ==> runs[i] == Process(jobs, groups[i], i, network(i, groups[i]), n, encoder)
  {
    seq(|groups|, i requires 0 <= i < |groups| => Process(jobs, groups[i], i, network(i, groups[i]), n, encoder))
  }

  /**
   * The loop of `submit` over the groups' runs, in group order: each group's
   * map is merged by `update` into the response, and an exception ends the
   * loop, so the later groups are not waited on.
   */
  function Merge(runs: seq<Run<Response>>): Run<Response>
    decreases |runs|
  {
    if |runs| == 0 then Run(Ok([]), [])
    else
      var prev := Merge(runs[..|runs| - 1]);
      var current := runs[|runs| - 1];
      if prev.outcome.Raise? then prev
      else if current.outcome.Raise? then Run(current.outcome, prev.events + current.events)
      else Run(Ok(Update(prev.outcome.value, current.outcome.value)), prev.events + current.events)
  }

  /** The loop of `submit` over the pending groups and their requests' outcomes. */
  function ProcessAll(jobs: Jobs, groups: seq<Jobs>, network: (nat, Jobs) -> FetchOutcome, n: nat, encoder: Encoder): Run<Response>
  {
    Merge(Processed(jobs, groups, network, n, encoder))
  }

  /** Once a group has raised, the later groups change nothing. */
  lemma {:induction false} MergeStops(runs: seq<Run<Response>>, i: nat)
    requires i <= |runs|
    requires Merge(runs[..i]).outcome.Raise?
    ensures Merge(runs) == Merge(runs[..i])
    decreases |runs|
  {
    if i < |runs| {
      var init := runs[..|runs| - 1];
      assert init[..i] == runs[..i];
      MergeStops(init, i);
    } else {
      assert runs[..i] == runs;
    }
  }

  /** One turn of the loop of `submit`: group `i` is merged after the groups before it. */
  lemma {:induction false} MergeStep(runs: seq<Run<Response>>, i: nat)
    requires i < |runs|
    requires Merge(runs[..i]).outcome.Ok?
    ensures var prev := Merge(runs[..i]);
      Merge(runs[..i + 1])
      == if runs[i].outcome.Raise? then Run(runs[i].outcome, prev.events + runs[i].events)
         else Run(Ok(Update(prev.outcome.value, runs[i].outcome.value)), prev.events + runs[i].events)
  {
    assert runs[..i + 1][..i] == runs[..i];
  }

  /** No group's processing issues a request: it only waits. */
  predicate NoFetch(events: seq<Event>)
  {
    forall i :: 0 <= i < |events| ==> !events[i].Fetch?
  }

  lemma {:induction false} NoFetchConcat(a: seq<Event>, b: seq<Event>)
    ensures NoFetch(a + b) <==> NoFetch(a) && NoFetch(b)
  {
    if NoFetch(a + b) {
      forall i | 0 <= i < |b|
        ensures !b[i].Fetch?
      {
        assert (a + b)[|a| + i] == b[i];
      }
      forall i | 0 <= i < |a|
        ensures !a[i].Fetch?
      {
        assert (a + b)[i] == a[i];
      }
    }
  }

  lemma {:induction false} BroadcastNoFetch(n: nat, hook: Hook)
    ensures NoFetch(Broadcast(n, hook))
  {
  }

  lemma {:induction false} ParseNoFetch(jobs: Jobs, results: Dict<ResultEntry>, n: nat, encoder: Encoder)
    ensures NoFetch(Parse(jobs, results, n, encoder).events)
    decreases |results|
  {
    if |results| > 0 {
      var init := results[..|results| - 1];
      var last := results[|results| - 1];
      var prev := Parse(jobs, init, n, encoder);
      ParseStep(jobs, results, n, encoder);
      ParseNoFetch(jobs, init, n, encoder);
      if prev.outcome.Ok? && last.0 in Keys(jobs) {
        var calls := EntryCalls(n, last.0, Get(jobs, last.0).value, last.1);
        if last.1.error.Some? {
          BroadcastNoFetch(n, OnError(last.1.error.value, [(last.0, Get(jobs, last.0).value)]));
        }
        NoFetchConcat(prev.events, calls);
      }
    }
  }

  lemma {:induction false} ProcessNoFetch(jobs: Jobs, group: Jobs, index: nat, outcome: FetchOutcome, n: nat, encoder: Encoder)
    ensures NoFetch(Process(jobs, group, index, outcome, n, encoder).events)
  {
    var events := Process(jobs, group, index, outcome, n, encoder).events;
    var waited := [Await(index)];
    match outcome
    case Failed(exceptionType, message, stack) =>
      var error := HypernovaError(exceptionType, message, stack);
      BroadcastNoFetch(n, OnError(error, group));
      NoFetchConcat(waited, Broadcast(n, OnError(error, group)));
    case Answered(reply) =>
      if reply.error.ErrorMissing? {
        assert events == waited;
      } else if reply.error.ErrorGiven? {
        BroadcastNoFetch(n, OnError(reply.error.value, group));
        NoFetchConcat(waited, Broadcast(n, OnError(reply.error.value, group)));
      } else if reply.results.None? {
        assert events == waited;
      } else {
        var parsed := Parse(jobs, reply.results.value, n, encoder);
        ParseNoFetch(jobs, reply.results.value, n, encoder);
        NoFetchConcat(waited, parsed.events);
        if parsed.outcome.Ok? {
          BroadcastNoFetch(n, OnSuccess(parsed.outcome.value, group));
          NoFetchConcat(waited + parsed.events, Broadcast(n, OnSuccess(parsed.outcome.value, group)));
        }
      }
  }

  /** When no group's processing issues a request, neither does the loop over them. */
  lemma {:induction false} MergeNoFetch(runs: seq<Run<Response>>)
    requires forall i :: 0 <= i < |runs| ==> NoFetch(runs[i].events)
    ensures NoFetch(Merge(runs).events)
    decreases |runs|
  {
    if |runs| > 0 {
      var k := |runs| - 1;
      var init := runs[..k];
      assert forall i :: 0 <= i < k ==> init[i] == runs[i];
      MergeNoFetch(init);
      if Merge(init).outcome.Ok? {
        NoFetchConcat(Merge(init).events, runs[k].events);
      }
    }
  }

  lemma {:induction false} ProcessAllNoFetch(jobs: Jobs, groups: seq<Jobs>, network: (nat, Jobs) -> FetchOutcome, n: nat, encoder: Encoder)
    ensures NoFetch(ProcessAll(jobs, groups, network, n, encoder).events)
  {
    var runs := Processed(jobs, groups, network, n, encoder);
    forall i | 0 <= i < |runs|
      ensures NoFetch(runs[i].events)
    {
      ProcessNoFetch(jobs, groups[i], i, network(i, groups[i]), n, encoder);
    }
    MergeNoFetch(runs);
  }

  // ----- submit -----

  /** The headers of every batch request. */
  const FetchHeaders: map<string, seq<string>> := map["Content-Type" := ["application/json"]]

  /** The requests issued for the groups, one per group, in group order. */
  function Fetches(url: string, groups: seq<Jobs>): (events: seq<Event>)
    ensures |events| == |groups|
    ensures forall i :: 0 <= i < |groups| ==> events[i] == Fetch(url, FetchHeaders, "POST", CreateJobsPayload(groups[i]))
    decreases |groups|
  {
    if |groups| == 0 then []
    else Fetches(url, groups[..|groups| - 1]) + [Fetch(url, FetchHeaders, "POST", CreateJobsPayload(groups[|groups| - 1]))]
  }

  /** The requests for the first `i + 1` groups are those for the first `i`, then group `i`'s. */
  lemma {:induction false} FetchesStep(url: string, groups: seq<Jobs>, i: nat)
    requires i < |groups|
    ensures Fetches(url, groups[..i + 1]) == Fetches(url, groups[..i]) + [Fetch(url, FetchHeaders, "POST", CreateJobsPayload(groups[i]))]
  {
    assert groups[..i + 1][..i] == groups[..i];
  }

  /** The pending jobs after a submission, and what it returned or raised, with its calls. */
  datatype Submission = Submission(jobs: Jobs, run: Run<Response>)

  /**
   * What `submit` does with the plugins `ps` and the pending jobs: `prepare_request`
   * replaces the jobs; with no jobs, or when a plugin refuses, every job falls back
   * with the client-error script and nothing is sent; otherwise `will_send_request`,
   * one request per group, then the groups' outcomes merged in group order.
   * `after_response` is applied to the merged map unless an exception escaped.
   */
  function SubmitSpec(ps: seq<Plugin>, pending: Jobs, maxBatchSize: Option<int>, url: string,
                      network: (nat, Jobs) -> FetchOutcome, encoder: Encoder): Submission
  {
    var jobs := Prepare(ps, pending);
    if |jobs| == 0 then
      Submission(jobs, Run(Ok(After(ps, Update([], CreateFallbackResponse(jobs, true, None, encoder)))), []))
    else
      var asks := Broadcast(Asked(ps, jobs), Hook.ShouldSendRequest(jobs));
      if !AllSend(ps, jobs) then
        Submission(jobs, Run(Ok(After(ps, Update([], CreateFallbackResponse(jobs, true, None, encoder)))), asks))
      else
        var groups := JobGroups(jobs, maxBatchSize);
        var all := ProcessAll(jobs, groups, network, |ps|, encoder);
        var events := asks + Broadcast(|ps|, WillSendRequest(jobs)) + Fetches(url, groups) + all.events;
        if all.outcome.Raise? then Submission(jobs, Run(all.outcome, events))
        else Submission(jobs, Run(Ok(After(ps, all.outcome.value)), events))
  }

  /** `prepare_request` always runs first, and its result becomes the pending jobs. */
  lemma {:induction false} SubmitPrepares(ps: seq<Plugin>, pending: Jobs, maxBatchSize: Option<int>, url: string,
                       network: (nat, Jobs) -> FetchOutcome, encoder: Encoder)
    ensures SubmitSpec(ps, pending, maxBatchSize, url, network, encoder).jobs == Prepare(ps, pending)
  {
  }

  /** Without jobs no plugin is asked, nothing is sent, and `after_response` sees the empty map. */
  lemma {:induction false} SubmitWithoutJobs(ps: seq<Plugin>, pending: Jobs, maxBatchSize: Option<int>, url: string,
                          network: (nat, Jobs) -> FetchOutcome, encoder: Encoder)
    requires |Prepare(ps, pending)| == 0
    ensures SubmitSpec(ps, pending, maxBatchSize, url, network, encoder).run == Run(Ok(After(ps, [])), [])
  {
    var jobs := Prepare(ps, pending);
    UpdateEmpty(CreateFallbackResponse(jobs, true, None, encoder));
  }

  /**
   * When a plugin refuses, only `should_send_request` is called (up to the
   * refusal), nothing is sent, and every job falls back with the client-error
   * script and no error.
   */
  lemma {:induction false} SubmitDeclined(ps: seq<Plugin>, pending: Jobs, maxBatchSize: Option<int>, url: string,
                       network: (nat, Jobs) -> FetchOutcome, encoder: Encoder)
    requires |Prepare(ps, pending)| > 0 && !AllSend(ps, Prepare(ps, pending))
    ensures var jobs := Prepare(ps, pending);
      var run := SubmitSpec(ps, pending, maxBatchSize, url, network, encoder).run;
      && run.outcome == Ok(After(ps, CreateFallbackResponse(jobs, true, None, encoder)))
      && run.events == Broadcast(FirstRefusal(ps, jobs) + 1, Hook.ShouldSendRequest(jobs))
  {
    var jobs := Prepare(ps, pending);
    UpdateEmpty(CreateFallbackResponse(jobs, true, None, encoder));
    AskedRefused(ps, jobs);
  }

  /** How many requests a list of calls issues. */
  function FetchCount(events: seq<Event>): nat
    decreases |events|
  {
    if |events| == 0 then 0 else (if events[0].Fetch? then 1 else 0) + FetchCount(events[1..])
  }

  lemma {:induction false} FetchCountConcat(a: seq<Event>, b: seq<Event>)
    ensures FetchCount(a + b) == FetchCount(a) + FetchCount(b)
    decreases |a|
  {
    if |a| == 0 {
      assert a + b == b;
    } else {
      assert (a + b)[1..] == a[1..] + b;
      FetchCountConcat(a[1..], b);
    }
  }

  lemma {:induction false} FetchCountNone(events: seq<Event>)
    requires NoFetch(events)
    ensures FetchCount(events) == 0
    decreases |events|
  {
    if |events| > 0 {
      FetchCountNone(events[1..]);
    }
  }

  lemma {:induction false} FetchCountAll(events: seq<Event>)
    requires forall i :: 0 <= i < |events| ==> events[i].Fetch?
    ensures FetchCount(events) == |events|
    decreases |events|
  {
    if |events| > 0 {
      FetchCountAll(events[1..]);
    }
  }

  /**
   * When the request goes ahead, its calls are: the plugins asked, `will_send_request`
   * on every plugin, one request per group in group order, and then the waits
   * and hooks of the groups, which issue no request. So every request is
   * issued before the first wait.
   */
  lemma {:induction false} SubmitSendsThenWaits(ps: seq<Plugin>, pending: Jobs, maxBatchSize: Option<int>, url: string,
                             network: (nat, Jobs) -> FetchOutcome, encoder: Encoder)
    requires |Prepare(ps, pending)| > 0 && AllSend(ps, Prepare(ps, pending))
    ensures var jobs := Prepare(ps, pending);
      var groups := JobGroups(jobs, maxBatchSize);
      var events := SubmitSpec(ps, pending, maxBatchSize, url, network, encoder).run.events;
      var k := 2 * |ps|;
      && |events| >= k + |groups|
      && events[..|ps|] == Broadcast(|ps|, Hook.ShouldSendRequest(jobs))
      && events[|ps|..k] == Broadcast(|ps|, WillSendRequest(jobs))
      && events[k..k + |groups|] == Fetches(url, groups)
      && NoFetch(events[k + |groups|..])
  {
    var jobs := Prepare(ps, pending);
    var groups := JobGroups(jobs, maxBatchSize);
    var asks := Broadcast(|ps|, Hook.ShouldSendRequest(jobs));
    var will := Broadcast(|ps|, WillSendRequest(jobs));
    var all := ProcessAll(jobs, groups, network, |ps|, encoder);
    SubmitGoEvents(ps, pending, maxBatchSize, url, network, encoder);
    ProcessAllNoFetch(jobs, groups, network, |ps|, encoder);
    SendsThenWaitsShape(SubmitSpec(ps, pending, maxBatchSize, url, network, encoder).run.events,
                        asks, will, Fetches(url, groups), all.events);
  }

  /** A go-ahead asks every plugin, then calls `will_send_request`, sends every group and processes them. */
  lemma {:induction false} SubmitGoEvents(ps: seq<Plugin>, pending: Jobs, maxBatchSize: Option<int>, url: string,
                                          network: (nat, Jobs) -> FetchOutcome, encoder: Encoder)
    requires |Prepare(ps, pending)| > 0 && AllSend(ps, Prepare(ps, pending))
    ensures var jobs := Prepare(ps, pending);
      var groups := JobGroups(jobs, maxBatchSize);
      SubmitSpec(ps, pending, maxBatchSize, url, network, encoder).run.events
      == Broadcast(|ps|, Hook.ShouldSendRequest(jobs)) + Broadcast(|ps|, WillSendRequest(jobs))
         + Fetches(url, groups) + ProcessAll(jobs, groups, network, |ps|, encoder).events
  {
    AllSendIffNoRefusal(ps, Prepare(ps, pending));
  }

  /** The calls of a go-ahead cut at the boundaries of its four parts. */
  lemma {:induction false} SendsThenWaitsShape(events: seq<Event>, asks: seq<Event>, will: seq<Event>,
                                               fetches: seq<Event>, rest: seq<Event>)
    requires events == asks + will + fetches + rest && |asks| == |will| && NoFetch(rest)
    ensures var k := 2 * |asks|;
      && |events| >= k + |fetches|
      && events[..|asks|] == asks
      && events[|asks|..k] == will
      && events[k..k + |fetches|] == fetches
      && NoFetch(events[k + |fetches|..])
  {
    Slices(asks, will, fetches, rest);
  }

  /** When the request goes ahead, as many requests are issued as there are groups. */
  lemma {:induction false} SubmitFetchCount(ps: seq<Plugin>, pending: Jobs, maxBatchSize: Option<int>, url: string,
                         network: (nat, Jobs) -> FetchOutcome, encoder: Encoder)
    requires |Prepare(ps, pending)| > 0 && AllSend(ps, Prepare(ps, pending))
    ensures FetchCount(SubmitSpec(ps, pending, maxBatchSize, url, network, encoder).run.events)
         == |JobGroups(Prepare(ps, pending), maxBatchSize)|
  {
    var jobs := Prepare(ps, pending);
    var groups := JobGroups(jobs, maxBatchSize);
    var asks := Broadcast(|ps|, Hook.ShouldSendRequest(jobs));
    var will := Broadcast(|ps|, WillSendRequest(jobs));
    var all := ProcessAll(jobs, groups, network, |ps|, encoder);
    assert SubmitSpec(ps, pending, maxBatchSize, url, network, encoder).run.events
        == asks + will + Fetches(url, groups) + all.events by {
      AllSendIffNoRefusal(ps, jobs);
    }
    BroadcastNoFetch(|ps|, Hook.ShouldSendRequest(jobs));
    BroadcastNoFetch(|ps|, WillSendRequest(jobs));
    ProcessAllNoFetch(jobs, groups, network, |ps|, encoder);
    FetchesCount(asks, will, url, groups, all.events);
  }

  /** Calls made of two runs without requests, the requests for the groups, and calls without requests. */
  lemma {:induction false} FetchesCount(asks: seq<Event>, will: seq<Event>, url: string, groups: seq<Jobs>, rest: seq<Event>)
    requires NoFetch(asks) && NoFetch(will) && NoFetch(rest)
    ensures FetchCount(asks + will + Fetches(url, groups) + rest) == |groups|
  {
    var fetches := Fetches(url, groups);
    FetchCountNone(asks);
    FetchCountNone(will);
    FetchCountNone(rest);
    FetchCountAll(fetches);
    FetchCountConcat(asks, will);
    FetchCountConcat(asks + will, fetches);
    FetchCountConcat(asks + will + fetches, rest);
  }

  lemma {:induction false} Associative<T>(a: seq<T>, b: seq<T>, c: seq<T>)
    ensures a + b + c == a + (b + c)
  {
  }

  lemma {:induction false} AssociativeSends<T>(a: seq<T>, b: seq<T>, c: seq<T>, d: seq<T>, e: seq<T>)
    ensures a + b + c + d + e == a + (b + c + d + e)
  {
  }

  lemma {:induction false} Slices<T>(a: seq<T>, b: seq<T>, c: seq<T>, d: seq<T>)
    ensures var s := a + b + c + d;
      && s[..|a|] == a
      && s[|a|..|a| + |b|] == b
      && s[|a| + |b|..|a| + |b| + |c|] == c
      && s[|a| + |b| + |c|..] == d
  {
  }

  /** With a positive maximum there are `ceil(n / size)` requests. */
  lemma {:induction false} SubmitRequestCount(ps: seq<Plugin>, pending: Jobs, size: int, url: string,
                           network: (nat, Jobs) -> FetchOutcome, encoder: Encoder)
    requires |Prepare(ps, pending)| > 0 && AllSend(ps, Prepare(ps, pending))
    requires size > 0
    ensures var n := |Prepare(ps, pending)|;
      FetchCount(SubmitSpec(ps, pending, Some(size), url, network, encoder).run.events) == CeilDiv(n, size)
  {
    var jobs := Prepare(ps, pending);
    SubmitFetchCount(ps, pending, Some(size), url, network, encoder);
    assert JobGroups(jobs, Some(size)) == Chunked(jobs, size);
    ChunkedCount(jobs, size);
  }

  /** `response` holds, entry by entry, the fallback of the jobs `jobs` with the client-error script and some error. */
  predicate FellBack(response: Response, jobs: seq<(string, Job)>, encoder: Encoder)
  {
    && |response| == |jobs|
    && forall i :: 0 <= i < |jobs| ==>
         && response[i].0 == jobs[i].0
         && response[i].1.html == RenderBlankMarkup(jobs[i].0, jobs[i].1, true, encoder)
         && response[i].1.job == jobs[i].1
         && response[i].1.error.Some?
  }

  lemma {:induction false} FellBackConcat(a: Response, b: Response, ja: seq<(string, Job)>, jb: seq<(string, Job)>, encoder: Encoder)
    requires FellBack(a, ja, encoder) && FellBack(b, jb, encoder) && Distinct(a + b)
    ensures FellBack(a + b, ja + jb, encoder)
  {
    forall i | 0 <= i < |ja| + |jb|
      ensures (a + b)[i].0 == (ja + jb)[i].0
      ensures (a + b)[i].1.html == RenderBlankMarkup((ja + jb)[i].0, (ja + jb)[i].1, true, encoder)
      ensures (a + b)[i].1.job == (ja + jb)[i].1
      ensures (a + b)[i].1.error.Some?
    {
      if i < |ja| {
        assert (a + b)[i] == a[i] && (ja + jb)[i] == ja[i];
      } else {
        assert (a + b)[i] == b[i - |ja|] && (ja + jb)[i] == jb[i - |ja|];
      }
    }
  }

  lemma {:induction false} FellBackKeys(response: Response, jobs: seq<(string, Job)>, encoder: Encoder)
    requires FellBack(response, jobs, encoder)
    ensures Keys(response) == Keys(jobs)
  {
  }

  /** The parts of a dictionary written as a concatenation have disjoint keys. */
  lemma {:induction false} DistinctSplit<V>(a: seq<(string, V)>, b: seq<(string, V)>)
    requires Distinct(a + b)
    ensures Distinct(a) && Distinct(b)
    ensures forall k :: k in Keys(b) ==> k !in Keys(a)
  {
    var s := a + b;
    assert forall i :: 0 <= i < |a| ==> s[i] == a[i];
    assert forall i :: 0 <= i < |b| ==> s[|a| + i] == b[i];
    forall k | k in Keys(b)
      ensures k !in Keys(a)
    {
      var j :| 0 <= j < |b| && Keys(b)[j] == k;
      forall m | 0 <= m < |a|
        ensures Keys(a)[m] != k
      {
        assert s[m].0 != s[|a| + j].0;
      }
    }
  }

  /** When every group falls back, so does the merge of them all, in group order. */
  lemma {:induction false} MergeFellBack(runs: seq<Run<Response>>, groups: seq<Jobs>, encoder: Encoder)
    requires |runs| == |groups| && Distinct(Concat(groups))
    requires forall i :: 0 <= i < |runs| ==> runs[i].outcome.Ok? && FellBack(runs[i].outcome.value, groups[i], encoder)
    ensures Merge(runs).outcome.Ok?
    ensures FellBack(Merge(runs).outcome.value, Concat(groups), encoder)
    decreases |runs|
  {
    if |runs| > 0 {
      var k := |runs| - 1;
      var init, g := groups[..k], groups[k];
      var before := Concat(init);
      assert Concat(groups) == before + g by {
        assert groups == init + [g];
        ConcatAppend(init, g);
      }
      DistinctSplit(before, g);
      assert forall i :: 0 <= i < k ==> runs[..k][i] == runs[i] && init[i] == groups[i];
      MergeFellBack(runs[..k], init, encoder);
      MergeStep(runs, k);
      assert runs[..k + 1] == runs;
      MergeFellBackStep(Merge(runs[..k]).outcome.value, runs[k].outcome.value, before, g, encoder);
    }
  }

  /** Merging one more fallen-back group by `update` appends its fallback. */
  lemma {:induction false} MergeFellBackStep(prev: Response, last: Response, before: seq<(string, Job)>, g: seq<(string, Job)>, encoder: Encoder)
    requires FellBack(prev, before, encoder) && FellBack(last, g, encoder) && Distinct(before + g)
    ensures FellBack(Update(prev, last), before + g, encoder)
  {
    DistinctSplit(before, g);
    FellBackKeys(prev, before, encoder);
    FellBackKeys(last, g, encoder);
    UpdateDisjoint(prev, last);
    FellBackConcat(prev, last, before, g, encoder);
  }

  /** Every job of the groups falls back, with the client-error script and an error, when every transport fails. */
  lemma {:induction false} ProcessAllFailed(jobs: Jobs, groups: seq<Jobs>, network: (nat, Jobs) -> FetchOutcome, n: nat, encoder: Encoder)
    requires Distinct(Concat(groups))
    requires forall i :: 0 <= i < |groups| ==> network(i, groups[i]).Failed?
    ensures ProcessAll(jobs, groups, network, n, encoder).outcome.Ok?
    ensures FellBack(ProcessAll(jobs, groups, network, n, encoder).outcome.value, Concat(groups), encoder)
  {
    var runs := Processed(jobs, groups, network, n, encoder);
    forall i | 0 <= i < |runs|
      ensures runs[i].outcome.Ok? && FellBack(runs[i].outcome.value, groups[i], encoder)
    {
      var outcome := network(i, groups[i]);
      var error := HypernovaError(outcome.exceptionType, outcome.message, outcome.stack);
      ProcessFallsBack(jobs, groups[i], i, outcome, n, encoder);
      FallbackFellBack(groups[i], error, encoder);
    }
    MergeFellBack(runs, groups, encoder);
  }

  /** The fallback for a group with an error is exactly what `FellBack` describes. */
  lemma {:induction false} FallbackFellBack(group: Jobs, error: HypernovaError, encoder: Encoder)
    ensures FellBack(CreateFallbackResponse(group, true, Some(error), encoder), group, encoder)
  {
    var r := CreateFallbackResponse(group, true, Some(error), encoder);
    assert forall i :: 0 <= i < |group| ==> r[i].0 == Keys(r)[i] == Keys(group)[i] == group[i].0;
  }

  lemma {:induction false} JobGroupsConcat(jobs: Jobs, maxBatchSize: Option<int>)
    ensures Concat(JobGroups(jobs, maxBatchSize)) == jobs
  {
    if maxBatchSize.Some? && maxBatchSize.value > 0 {
      ChunkedConcat(jobs, maxBatchSize.value);
    } else {
      assert Concat([jobs]) == jobs + Concat([]);
    }
  }

  /**
   * When the request goes ahead and every group's transport fails, the
   * submission still returns: every pending job falls back, with the
   * client-error script, its job and an error, before `after_response`.
   */
  lemma {:induction false} SubmitAllFailed(ps: seq<Plugin>, pending: Jobs, maxBatchSize: Option<int>, url: string,
                        network: (nat, Jobs) -> FetchOutcome, encoder: Encoder)
    requires forall i, g :: network(i, g).Failed?
    requires |Prepare(ps, pending)| > 0 && AllSend(ps, Prepare(ps, pending))
    ensures var run := SubmitSpec(ps, pending, maxBatchSize, url, network, encoder).run;
      && run.outcome.Ok?
      && exists merged: Response :: run.outcome.value == After(ps, merged) && FellBack(merged, Prepare(ps, pending), encoder)
  {
    var jobs := Prepare(ps, pending);
    var groups := JobGroups(jobs, maxBatchSize);
    JobGroupsConcat(jobs, maxBatchSize);
    ProcessAllFailed(jobs, groups, network, |ps|, encoder);
    var all := ProcessAll(jobs, groups, network, |ps|, encoder);
    var merged := all.outcome.value;
    assert SubmitSpec(ps, pending, maxBatchSize, url, network, encoder).run.outcome == Ok(After(ps, merged));
  }

  // ----- the BatchRequest object -----

  /**
   * `BatchRequest`: the pending jobs of one request to the application, the
   * service's URL, the plugin controller and the optional maximum group size.
   * The JSON encoder is fixed when the object is built.
   */
  class BatchRequest {
    const batchUrl: string
    const controller: PluginController
    const maxBatchSize: Option<int>
    const encoder: Encoder
    var jobs: Jobs

    constructor (batchUrl: string, controller: PluginController, maxBatchSize: Option<int>, encoder: Encoder)
      ensures this.batchUrl == batchUrl && this.controller == controller
      ensures this.maxBatchSize == maxBatchSize && this.encoder == encoder
      ensures jobs == []
    {
      this.batchUrl := batchUrl;
      this.controller := controller;
      this.maxBatchSize := maxBatchSize;
      this.encoder := encoder;
      jobs := [];
    }

    /**
     * `render`: the view data goes through `get_view_data`, the job is stored
     * under `identifier` (a fresh UUID in the source, a parameter here) and a
     * token naming the identifier is returned.
     */
    method Render(name: string, data: Json, identifier: string) returns (token: RenderToken)
      modifies this
      ensures jobs == Put(old(jobs), identifier, Job(name, ViewData(controller.plugins, name, data), JNull))
      ensures token == RenderToken(identifier)
    {
      var viewData := controller.GetViewData(name, data);
      jobs := Put(jobs, identifier, Job(name, viewData, JNull));
      token := RenderToken(identifier);
    }

    /** `_parse_response`: one pass over `results`, raising `KeyError` on an identifier that is not pending. */
    method ParseResponse(reply: ServiceReply) returns (r: Result<Response>)
      modifies controller.log
      ensures var run := ParseReply(jobs, reply, |controller.plugins|, encoder);
        r == run.outcome && controller.log.events == old(controller.log.events) + run.events
    {
      if reply.results.None? {
        return Raise(KeyError("results"));
      }
      var results := reply.results.value;
      var n := |controller.plugins|;
      ghost var start := controller.log.events;
      var response: Response := [];
      var i := 0;
      while i < |results|
        invariant 0 <= i <= |results|
        invariant Parse(jobs, results[..i], n, encoder).outcome == Ok(response)
        invariant controller.log.events == start + Parse(jobs, results[..i], n, encoder).events
        decreases |results| - i
      {
        var identifier, entry := results[i].0, results[i].1;
        if identifier !in Keys(jobs) {
          ParseRaisesAt(jobs, results, n, encoder, i);
          return Raise(KeyError(identifier));
        }
        var job := Get(jobs, identifier).value;
        var result := ParseEntry(identifier, job, entry);
        ParseExtends(jobs, results, n, encoder, i, response);
        response := Put(response, identifier, result);
        Associative(start, Parse(jobs, results[..i], n, encoder).events, EntryCalls(n, identifier, job, entry));
        i := i + 1;
      }
      assert results[..i] == results;
      r := Ok(response);
    }

    /**
     * The body of the loop of `_parse_response` for an entry of a pending job:
     * `on_error` with the job alone when the entry has an error, then its
     * result, whose html is the blank markup with the client-error script when
     * the entry's html is falsy.
     */
    method ParseEntry(identifier: string, job: Job, entry: ResultEntry) returns (result: JobResult)
      modifies controller.log
      ensures result == EntryResult(identifier, job, entry, encoder)
      ensures controller.log.events == old(controller.log.events) + EntryCalls(|controller.plugins|, identifier, job, entry)
    {
      if entry.error.Some? {
        controller.OnError(entry.error.value, [(identifier, job)]);
      }
      var html: string;
      if Falsy(entry.html) {
        html := RenderBlankMarkup(identifier, job, true, encoder);
      } else {
        html := entry.html.value;
      }
      result := JobResult(entry.error, html, job);
    }

    /**
     * `process_responses` for group number `index`: the wait on its future,
     * whose outcome is `outcome`, then the fallback or the parse.
     */
    method ProcessResponses(index: nat, outcome: FetchOutcome, group: Jobs) returns (r: Result<Response>)
      modifies controller.log
      ensures var run := Process(jobs, group, index, outcome, |controller.plugins|, encoder);
        r == run.outcome && controller.log.events == old(controller.log.events) + run.events
    {
      ghost var start := controller.log.events;
      controller.log.Record(Await(index));
      match outcome
      case Failed(exceptionType, message, stack) =>
        var error := HypernovaError(exceptionType, message, stack);
        controller.OnError(error, group);
        Associative(start, [Await(index)], Broadcast(|controller.plugins|, OnError(error, group)));
        r := Ok(CreateFallbackResponse(group, true, Some(error), encoder));
      case Answered(reply) =>
        if reply.error.ErrorMissing? {
          r := Raise(KeyError("error"));
        } else if reply.error.ErrorGiven? {
          r := Ok(CreateFallbackResponse(group, true, Some(reply.error.value), encoder));
          controller.OnError(reply.error.value, group);
          Associative(start, [Await(index)], Broadcast(|controller.plugins|, OnError(reply.error.value, group)));
        } else {
          r := ParseResponse(reply);
          ghost var parsed := ParseReply(jobs, reply, |controller.plugins|, encoder);
          Associative(start, [Await(index)], parsed.events);
          if r.Ok? {
            controller.OnSuccess(r.value, group);
            Associative(start, [Await(index)] + parsed.events, Broadcast(|controller.plugins|, OnSuccess(r.value, group)));
          }
        }
    }

    /**
     * `submit`: prepare the jobs, then either fall back without sending or
     * issue every group's request before waiting on any, merge the groups'
     * maps in order, and hand the result to `after_response`. `network(i, g)`
     * is what waiting on the request for group number `i` gives.
     */
    method Submit(network: (nat, Jobs) -> FetchOutcome) returns (r: Result<Response>)
      modifies this, controller.log
      ensures var s := SubmitSpec(controller.plugins, old(jobs), maxBatchSize, batchUrl, network, encoder);
        && jobs == s.jobs
        && r == s.run.outcome
        && controller.log.events == old(controller.log.events) + s.run.events
    {
      ghost var start := controller.log.events;
      jobs := controller.PrepareRequest(jobs);
      var response: Response := [];
      var send := false;
      if |jobs| > 0 {
        send := controller.ShouldSendRequest(jobs);
      }
      ghost var asked := controller.log.events;
      if send {
        controller.WillSendRequest(jobs);
        ghost var willSend := controller.log.events;
        var groups := CreateJobGroups(jobs, maxBatchSize);
        var futures := SendAll(groups, network);
        ghost var fetched := controller.log.events;
        var merged := ProcessGroups(groups, futures, network);
        ghost var all := ProcessAll(jobs, groups, network, |controller.plugins|, encoder);
        AssociativeSends(start, asked[|start|..], willSend[|asked|..], fetched[|willSend|..], all.events);
        if merged.Raise? {
          return merged;
        }
        response := merged.value;
      } else {
        response := Update(response, CreateFallbackResponse(jobs, true, None, encoder));
      }
      var after := controller.AfterResponse(response);
      r := Ok(after);
    }

    /** The first loop of `submit`: one request per group, in group order, none waited on yet. */
    method SendAll(groups: seq<Jobs>, network: (nat, Jobs) -> FetchOutcome) returns (futures: seq<FetchOutcome>)
      modifies controller.log
      ensures |futures| == |groups|
      ensures forall j :: 0 <= j < |groups| ==> futures[j] == network(j, groups[j])
      ensures controller.log.events == old(controller.log.events) + Fetches(batchUrl, groups)
    {
      futures := [];
      var i := 0;
      while i < |groups|
        invariant 0 <= i <= |groups|
        invariant |futures| == i
        invariant forall j :: 0 <= j < i ==> futures[j] == network(j, groups[j])
        invariant controller.log.events == old(controller.log.events) + Fetches(batchUrl, groups[..i])
        decreases |groups| - i
      {
        controller.log.Record(Fetch(batchUrl, FetchHeaders, "POST", CreateJobsPayload(groups[i])));
        FetchesStep(batchUrl, groups, i);
        Associative(old(controller.log.events), Fetches(batchUrl, groups[..i]), [Fetch(batchUrl, FetchHeaders, "POST", CreateJobsPayload(groups[i]))]);
        ghost var prev := futures;
        futures := futures + [network(i, groups[i])];
        AppendKeepsPrefix(prev, network(i, groups[i]), futures);
        i := i + 1;
      }
      assert groups[..i] == groups;
    }

    /** The second loop of `submit`: each group's map merged by `update`, in group order. */
    method ProcessGroups(groups: seq<Jobs>, futures: seq<FetchOutcome>, network: (nat, Jobs) -> FetchOutcome)
      returns (r: Result<Response>)
      requires |futures| == |groups|
      requires forall j :: 0 <= j < |groups| ==> futures[j] == network(j, groups[j])
      modifies controller.log
      ensures var all := ProcessAll(jobs, groups, network, |controller.plugins|, encoder);
        r == all.outcome && controller.log.events == old(controller.log.events) + all.events
    {
      var n := |controller.plugins|;
      ghost var start := controller.log.events;
      ghost var runs := Processed(jobs, groups, network, n, encoder);
      var response: Response := [];
      var i := 0;
      while i < |groups|
        invariant 0 <= i <= |groups|
        invariant Merge(runs[..i]).outcome == Ok(response)
        invariant controller.log.events == start + Merge(runs[..i]).events
        decreases |groups| - i
      {
        var current := ProcessResponses(i, futures[i], groups[i]);
        MergeStep(runs, i);
        Associative(start, Merge(runs[..i]).events, runs[i].events);
        if current.Raise? {
          MergeStops(runs, i + 1);
          return current;
        }
        response := Update(response, current.value);
        i := i + 1;
      }
      assert runs[..i] == runs;
      r := Ok(response);
    }
  }
}
