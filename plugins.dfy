/**
 * `pyramid_hypernova/plugins.py`: the plugin hooks and the controller that
 * applies an ordered list of plugins. The reducers fold left over the list,
 * `should_send_request` is an `all` that stops at the first refusal, and the
 * event hooks call every plugin once, in list order, with the same arguments.
 */
module Plugins {

  import opened OrderedDict
  import opened Types
  import opened Runtime

  /**
   * A plugin, reduced to the hooks that return a value. Its event hooks
   * (`will_send_request`, `on_success`, `on_error`) return nothing; a call of
   * one of them is an entry of the controller's `Log`.
   */
  datatype Plugin = Plugin(
    getViewData: (string, Json) -> Json,
    prepareRequest: (Jobs, Jobs) -> Jobs,
    shouldSendRequest: Jobs -> bool,
    afterResponse: (Response, Response) -> Response)

  /** `BasePlugin`: every reducer returns its current value, and the predicate holds. */
  const BasePlugin: Plugin := Plugin(
    (viewName: string, data: Json) => data,
    (currentJobs: Jobs, originalJobs: Jobs) => currentJobs,
    (jobs: Jobs) => true,
    (currentResponse: Response, originalResponse: Response) => currentResponse)

  /** A plugin that behaves as `BasePlugin` on every argument. */
  ghost predicate Neutral(p: Plugin)
  {
    && (forall viewName, data :: p.getViewData(viewName, data) == data)
    && (forall current, original :: p.prepareRequest(current, original) == current)
    && (forall jobs :: p.shouldSendRequest(jobs))
    && (forall current, original :: p.afterResponse(current, original) == current)
  }

  lemma {:induction false} BasePluginNeutral()
    ensures Neutral(BasePlugin)
  {
  }

  /**
   * The reducer shape shared by the three folds: `current` threads through the
   * steps, one per plugin in list order, and every step receives the same
   * `fixed` argument (the view name, or the original jobs or response).
   */
  function Reduce<T, A>(steps: seq<(T, A) -> T>, current: T, fixed: A): T
    decreases |steps|
  {
    if |steps| == 0 then current
    else steps[|steps| - 1](Reduce(steps[..|steps| - 1], current, fixed), fixed)
  }

  /** The first step sees the input, and the rest of the fold sees its output. */
  lemma {:induction false} ReduceCons<T, A>(step: (T, A) -> T, steps: seq<(T, A) -> T>, current: T, fixed: A)
    ensures Reduce([step] + steps, current, fixed) == Reduce(steps, step(current, fixed), fixed)
    decreases |steps|
  {
    if |steps| > 0 {
      var all := [step] + steps;
      assert all[..|all| - 1] == [step] + steps[..|steps| - 1];
      ReduceCons(step, steps[..|steps| - 1], current, fixed);
    }
  }

  /** Folding over two lists one after the other is folding over their concatenation. */
  lemma {:induction false} ReduceAppend<T, A>(first: seq<(T, A) -> T>, second: seq<(T, A) -> T>, current: T, fixed: A)
    ensures Reduce(first + second, current, fixed) == Reduce(second, Reduce(first, current, fixed), fixed)
    decreases |second|
  {
    if |second| == 0 {
      assert first + second == first;
    } else {
      var all := first + second;
      assert all[..|all| - 1] == first + second[..|second| - 1];
      ReduceAppend(first, second[..|second| - 1], current, fixed);
    }
  }

  /** Steps that return their current value leave it unchanged. */
  lemma {:induction false} ReduceIdentity<T, A>(steps: seq<(T, A) -> T>, current: T, fixed: A)
    requires forall i, t :: 0 <= i < |steps| ==> steps[i](t, fixed) == t
    ensures Reduce(steps, current, fixed) == current
    decreases |steps|
  {
    if |steps| > 0 {
      ReduceIdentity(steps[..|steps| - 1], current, fixed);
      assert steps[|steps| - 1](current, fixed) == current;
    }
  }

  function ViewDataSteps(ps: seq<Plugin>): (steps: seq<(Json, string) -> Json>)
    ensures |steps| == |ps|
  {
    seq<(Json, string) -> Json>(|ps|, i requires 0 <= i < |ps| => (data: Json, viewName: string) => ps[i].getViewData(viewName, data))
  }

  function PrepareSteps(ps: seq<Plugin>): (steps: seq<(Jobs, Jobs) -> Jobs>)
    ensures |steps| == |ps|
  {
    seq<(Jobs, Jobs) -> Jobs>(|ps|, i requires 0 <= i < |ps| => ps[i].prepareRequest)
  }

  function AfterSteps(ps: seq<Plugin>): (steps: seq<(Response, Response) -> Response>)
    ensures |steps| == |ps|
  {
    seq<(Response, Response) -> Response>(|ps|, i requires 0 <= i < |ps| => ps[i].afterResponse)
  }

  /** What `get_view_data` of a controller over `ps` returns. */
  function ViewData(ps: seq<Plugin>, viewName: string, data: Json): Json
  {
    Reduce(ViewDataSteps(ps), data, viewName)
  }

  /** What `prepare_request` returns: the original jobs are the fixed argument. */
  function Prepare(ps: seq<Plugin>, jobs: Jobs): Jobs
  {
    Reduce(PrepareSteps(ps), jobs, jobs)
  }

  /** What `after_response` returns: the original response is the fixed argument. */
  function After(ps: seq<Plugin>, response: Response): Response
  {
    Reduce(AfterSteps(ps), response, response)
  }

  /** Plugin 0 receives the caller's data, and every later plugin its predecessor's output. */
  lemma {:induction false} ViewDataCons(p: Plugin, ps: seq<Plugin>, viewName: string, data: Json)
    ensures ViewData([p] + ps, viewName, data) == ViewData(ps, viewName, p.getViewData(viewName, data))
  {
    assert ViewDataSteps([p] + ps) == [ViewDataSteps([p])[0]] + ViewDataSteps(ps);
    ReduceCons(ViewDataSteps([p])[0], ViewDataSteps(ps), data, viewName);
  }

  /**
   * Plugin 0 receives the input as both current and original jobs; the rest
   * of the list receives the first plugin's output as current jobs and still
   * the input as original jobs.
   */
  lemma {:induction false} PrepareCons(p: Plugin, ps: seq<Plugin>, jobs: Jobs)
    ensures Prepare([p] + ps, jobs) == Reduce(PrepareSteps(ps), p.prepareRequest(jobs, jobs), jobs)
  {
    assert PrepareSteps([p] + ps) == [p.prepareRequest] + PrepareSteps(ps);
    ReduceCons(p.prepareRequest, PrepareSteps(ps), jobs, jobs);
  }

  /** The same reducer shape for responses. */
  lemma {:induction false} AfterCons(p: Plugin, ps: seq<Plugin>, response: Response)
    ensures After([p] + ps, response) == Reduce(AfterSteps(ps), p.afterResponse(response, response), response)
  {
    assert AfterSteps([p] + ps) == [p.afterResponse] + AfterSteps(ps);
    ReduceCons(p.afterResponse, AfterSteps(ps), response, response);
  }

  /** With no plugins every reducer is the identity. */
  lemma {:induction false} EmptyControllerIdentity(viewName: string, data: Json, jobs: Jobs, response: Response)
    ensures ViewData([], viewName, data) == data
    ensures Prepare([], jobs) == jobs
    ensures After([], response) == response
    ensures AllSend([], jobs)
  {
  }

  /** A controller over plugins that behave as `BasePlugin` is the identity on every reducer and says yes. */
  lemma {:induction false} NeutralControllerIdentity(ps: seq<Plugin>, viewName: string, data: Json, jobs: Jobs, response: Response)
    requires forall i :: 0 <= i < |ps| ==> Neutral(ps[i])
    ensures ViewData(ps, viewName, data) == data
    ensures Prepare(ps, jobs) == jobs
    ensures After(ps, response) == response
    ensures AllSend(ps, jobs)
  {
    forall i, t | 0 <= i < |ps|
      ensures ViewDataSteps(ps)[i](t, viewName) == t
    {
      assert Neutral(ps[i]);
    }
    forall i, t | 0 <= i < |ps|
      ensures PrepareSteps(ps)[i](t, jobs) == t
    {
      assert Neutral(ps[i]);
    }
    forall i, t | 0 <= i < |ps|
      ensures AfterSteps(ps)[i](t, response) == t
    {
      assert Neutral(ps[i]);
    }
    ReduceIdentity(ViewDataSteps(ps), data, viewName);
    ReduceIdentity(PrepareSteps(ps), jobs, jobs);
    ReduceIdentity(AfterSteps(ps), response, response);
  }

  /** `all(plugin.should_send_request(jobs) for plugin in plugins)`. */
  predicate AllSend(ps: seq<Plugin>, jobs: Jobs)
  {
    forall i :: 0 <= i < |ps| ==> ps[i].shouldSendRequest(jobs)
  }

  /** The position where `all` stops: the first plugin that says no, or the length of the list. */
  function FirstRefusal(ps: seq<Plugin>, jobs: Jobs): (k: nat)
    ensures k <= |ps|
    ensures forall i :: 0 <= i < k ==> ps[i].shouldSendRequest(jobs)
    ensures k < |ps| ==> !ps[k].shouldSendRequest(jobs)
    decreases |ps|
  {
    if |ps| == 0 then 0
    else if !ps[0].shouldSendRequest(jobs) then 0
    else 1 + FirstRefusal(ps[1..], jobs)
  }

  /** The request goes ahead exactly when no plugin refuses. */
  lemma {:induction false} AllSendIffNoRefusal(ps: seq<Plugin>, jobs: Jobs)
    ensures AllSend(ps, jobs) <==> FirstRefusal(ps, jobs) == |ps|
  {
  }

  /** How many plugins `all` asks before it has its answer. */
  function Asked(ps: seq<Plugin>, jobs: Jobs): (n: nat)
    ensures n <= |ps|
    ensures AllSend(ps, jobs) <==> n == |ps| && (n == 0 || ps[n - 1].shouldSendRequest(jobs))
  {
    var k := FirstRefusal(ps, jobs);
    if k == |ps| then k else k + 1
  }

  /** When a plugin refuses, `all` has asked every plugin up to and including the first refusal. */
  lemma {:induction false} AskedRefused(ps: seq<Plugin>, jobs: Jobs)
    requires !AllSend(ps, jobs)
    ensures Asked(ps, jobs) == FirstRefusal(ps, jobs) + 1
  {
    AllSendIffNoRefusal(ps, jobs);
  }

  /** The calls of one event hook on every plugin, in list order. */
  function Broadcast(n: nat, hook: Hook): (calls: seq<Event>)
    ensures |calls| == n
    ensures forall i :: 0 <= i < n ==> calls[i] == Called(i, hook)
  {
    if n == 0 then [] else Broadcast(n - 1, hook) + [Called(n - 1, hook)]
  }

  /** `PluginController`: applies `plugins` in order; event calls go to `log`. */
  class PluginController {
    const plugins: seq<Plugin>
    const log: Log

    constructor (plugins: seq<Plugin>, log: Log)
      ensures this.plugins == plugins && this.log == log
    {
      this.plugins := plugins;
      this.log := log;
    }

    method GetViewData(viewName: string, data: Json) returns (r: Json)
      ensures r == ViewData(plugins, viewName, data)
    {
      var steps := ViewDataSteps(plugins);
      r := data;
      var i := 0;
      while i < |plugins|
        invariant 0 <= i <= |plugins|
        invariant r == Reduce(steps[..i], data, viewName)
      {
        assert steps[..i + 1][..i] == steps[..i];
        r := plugins[i].getViewData(viewName, r);
        i := i + 1;
      }
      assert steps[..|plugins|] == steps;
    }

    method PrepareRequest(jobs: Jobs) returns (currentJobs: Jobs)
      ensures currentJobs == Prepare(plugins, jobs)
    {
      var steps := PrepareSteps(plugins);
      currentJobs := jobs;
      var originalJobs := jobs;
      var i := 0;
      while i < |plugins|
        invariant 0 <= i <= |plugins|
        invariant currentJobs == Reduce(steps[..i], jobs, originalJobs)
      {
        assert steps[..i + 1][..i] == steps[..i];
        currentJobs := plugins[i].prepareRequest(currentJobs, originalJobs);
        i := i + 1;
      }
      assert steps[..|plugins|] == steps;
    }

    /** Asks the plugins in order and stops at the first one that says no. */
    method ShouldSendRequest(jobs: Jobs) returns (send: bool)
      modifies log
      ensures send == AllSend(plugins, jobs)
      ensures log.events == old(log.events) + Broadcast(Asked(plugins, jobs), Hook.ShouldSendRequest(jobs))
    {
      send := true;
      var i := 0;
      while send && i < |plugins|
        invariant 0 <= i <= |plugins|
        invariant send ==> i <= FirstRefusal(plugins, jobs)
        invariant !send ==> i == FirstRefusal(plugins, jobs) + 1
        invariant log.events == old(log.events) + Broadcast(i, Hook.ShouldSendRequest(jobs))
      {
        log.Record(Called(i, Hook.ShouldSendRequest(jobs)));
        send := plugins[i].shouldSendRequest(jobs);
        i := i + 1;
      }
    }

    method WillSendRequest(jobs: Jobs)
      modifies log
      ensures log.events == old(log.events) + Broadcast(|plugins|, Hook.WillSendRequest(jobs))
    {
      var i := 0;
      while i < |plugins|
        invariant 0 <= i <= |plugins|
        invariant log.events == old(log.events) + Broadcast(i, Hook.WillSendRequest(jobs))
      {
        log.Record(Called(i, Hook.WillSendRequest(jobs)));
        i := i + 1;
      }
    }

    method AfterResponse(response: Response) returns (currentResponse: Response)
      ensures currentResponse == After(plugins, response)
    {
      var steps := AfterSteps(plugins);
      currentResponse := response;
      var originalResponse := response;
      var i := 0;
      while i < |plugins|
        invariant 0 <= i <= |plugins|
        invariant currentResponse == Reduce(steps[..i], response, originalResponse)
      {
        assert steps[..i + 1][..i] == steps[..i];
        currentResponse := plugins[i].afterResponse(currentResponse, originalResponse);
        i := i + 1;
      }
      assert steps[..|plugins|] == steps;
    }

    method OnSuccess(response: Response, jobs: Jobs)
      modifies log
      ensures log.events == old(log.events) + Broadcast(|plugins|, Hook.OnSuccess(response, jobs))
    {
      var i := 0;
      while i < |plugins|
        invariant 0 <= i <= |plugins|
        invariant log.events == old(log.events) + Broadcast(i, Hook.OnSuccess(response, jobs))
      {
        log.Record(Called(i, Hook.OnSuccess(response, jobs)));
        i := i + 1;
      }
    }

    method OnError(err: HypernovaError, jobs: Jobs)
      modifies log
      ensures log.events == old(log.events) + Broadcast(|plugins|, Hook.OnError(err, jobs))
    {
      var i := 0;
      while i < |plugins|
        invariant 0 <= i <= |plugins|
        invariant log.events == old(log.events) + Broadcast(i, Hook.OnError(err, jobs))
      {
        log.Record(Called(i, Hook.OnError(err, jobs)));
        i := i + 1;
      }
    }
  }
}
