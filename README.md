# pyramid-hypernova, modelled in Dafny

pyramid-hypernova is a Pyramid client for the Hypernova rendering service.
While a page is being built, each call to `BatchRequest.render` stores a job
(a component name, its data and a context) under a fresh identifier. It returns
a render token, an HTML comment naming that identifier, which the page embeds.
Once the page is built, `submit` runs the plugins' `prepare_request` reducer.
It then asks the plugins whether to send and splits the jobs into groups of at
most `max_batch_size`. It issues one POST per group, waits on the groups in
order and parses each reply into a map from identifier to `JobResult`. A
failed group falls back to *blank markup*: a placeholder `<div>` and a
`<script>` that carries the job's escaped data, so the component renders in
the browser instead. The two context managers then replace every token in the
page by its job's html. `HypernovaQuery` is a query object: it sends
one group synchronously or asynchronously and classifies the reply.

The model follows the package file by file:

- `types.dfy`: `Job`, `JobResult`, `HypernovaError`, a small JSON value type, the encoder as a total function `Json -> string`, and the exceptions that escape (`KeyError`, `AttributeError`) as a `Result`.
- `ordered_dict.dfy`: Python's insertion-ordered `dict` as a sequence of pairs with distinct keys. It provides `d[k] = v`, `d.get`, `d.update` and dict comprehensions.
- `strings.dfy`: `str.replace` (every non-overlapping occurrence, left to right), its relation to split/join, and decimal formatting of a status code.
- `runtime.dfy`: the objects the core changes. These are the log of plugin calls, requests and waits (a `Log` class), the `body` dictionary of the context managers, and the Pyramid request's `disable_hypernova_tween` attribute.
- `rendering.dfy`: `encode`, `render_blank_markup` and `RenderToken`. Each template is a list of literal `Text` pieces and `Field` replacement fields, and `Format` fills them as `str.format` does.
- `plugins.dfy`: `BasePlugin` and `PluginController`.
  - The three reducers are left folds over the plugin list.
  - `should_send_request` is an `all` that stops at the first refusal.
  - The event hooks call every plugin once, in order.
  - The controller's methods are loops, proved against the fold functions.
- `batch.dfy`: `create_fallback_response`, `create_jobs_payload`, `create_job_groups`, and the `BatchRequest` class. The class mutates its pending `jobs`, and its methods are loops proved against three specification functions:
  - `Parse`: the parse of one reply;
  - `Process`: the handling of one group's future;
  - `SubmitSpec`: the whole submission.
- `request.dfy`: `create_jobs_payload` with the context, the headers and transport chosen by `HypernovaQuery.send`, and the outcome classification of `HypernovaQuery.json`.
- `token_replacement.dfy` and `context_manager.dfy`: the two context managers. Each runs the caller's block, then one `submit`, then one `replace` per result in response order.

The network is an input. `network(i, group)` is what waiting on the future of
group number `i` gives: either the decoded reply or the `NetworkError` /
`ValueError` raised on the way. The transport of `HypernovaQuery.send` is a
function from the request it is handed to the reply. Every plugin hook that
returns nothing, every request issued and every wait is recorded, in order, as
an entry of the controller's `Log`. That lets the contracts state which hooks
run, in which order and with which arguments.

Three behaviours of the code, modelled as written:

- When there are no jobs, or a plugin declines, `submit` falls back with `throw_client_error` set to `True` (pyramid_hypernova/batch.py:170). The fallback markup therefore carries the client-error script.
- `should_send_request` uses a generator inside `all`, so it stops asking plugins after the first refusal (pyramid_hypernova/plugins.py:53).
- The payload of `batch.py` holds only `name` and `data` (pyramid_hypernova/batch.py:32-36). The payload of `request.py` also holds `context` (pyramid_hypernova/request.py:11-15). Each is modelled as written.

Where `batch.py` does not match the signatures it calls, the code as written raises `TypeError`. The model repairs these calls, so it does not follow the code there. The encoder is passed as tests/batch_test.py passes it, and `Job` gets the third field of pyramid_hypernova/types.py:

- `Job` is a namedtuple with three fields (pyramid_hypernova/types.py:9-16). `render` builds it from two (pyramid_hypernova/batch.py:66), so every `render` raises `TypeError` as written. The tests build two-field jobs too. The model follows pyramid_hypernova/types.py and stores `JNull` as the context.
- `render_blank_markup` requires a fourth argument, the JSON encoder (pyramid_hypernova/rendering.py:47). `create_fallback_response` and the parse of an entry without html pass three (pyramid_hypernova/batch.py:25, :91), so every fallback raises `TypeError` as written.
- `BatchRequest.__init__` takes no encoder (pyramid_hypernova/batch.py:56). The tests construct it with `json_encoder=`, and the model does the same: the encoder is a constructor argument and every fallback uses it.

## Model

| member | source | states |
|---|---|---|
| OrderedDict.Get | pyramid_hypernova/batch.py:78 | a lookup finds a value exactly when the key is present, and the value found is paired with that key |
| OrderedDict.GetAt | pyramid_hypernova/batch.py:78 | looking up the key at any position gives the value at that position |
| OrderedDict.IndexOf | pyramid_hypernova/batch.py:67 | the position of a present key holds that key, and no earlier position does |
| OrderedDict.Put | pyramid_hypernova/batch.py:67 | `d[k] = v` keeps the key order when `k` exists and appends `(k, v)` when it does not; afterwards `k` maps to `v` and every other key maps as before |
| OrderedDict.Update | pyramid_hypernova/batch.py:166 | `d.update(e)` has the keys of both; keys of `e` take their value from `e`, the others keep their value in `d` |
| OrderedDict.KeyNotBefore | pyramid_hypernova/batch.py:93 | the key at a position does not occur among the pairs before it |
| OrderedDict.UpdateDisjoint | pyramid_hypernova/batch.py:166 | updating with a dictionary of new keys appends its pairs in order |
| OrderedDict.UpdateEmpty | pyramid_hypernova/batch.py:170 | updating the empty dictionary gives the update itself, in its order |
| OrderedDict.MapValues | pyramid_hypernova/batch.py:33-36 | a dict comprehension over `items()` keeps the keys and their order and maps each value |
| OrderedDict.MapValuesGet | pyramid_hypernova/batch.py:33-36 | a lookup in the mapped dictionary is the mapped lookup in the original, and misses exactly when the original misses |
| Strings.Split | pyramid_hypernova/token_replacement.py:32 | the pieces of a string between the occurrences of a pattern are never an empty list |
| Strings.ReplaceAllIsJoinOfSplit | pyramid_hypernova/token_replacement.py:32 | `s.replace(pat, rep)` is the pieces between the occurrences of `pat` joined by `rep` |
| Strings.SplitJoinRoundTrip | pyramid_hypernova/token_replacement.py:32 | joining the pieces with the pattern itself gives the string back |
| Strings.SplitHeadIsPrefix | pyramid_hypernova/token_replacement.py:32 | the first piece is a prefix of the string |
| Strings.SplitPiecesAvoidPattern | pyramid_hypernova/token_replacement.py:32 | no piece contains the pattern, so every occurrence is replaced |
| Strings.ReplaceAllAbsent | pyramid_hypernova/token_replacement.py:32 | a string without the pattern comes back unchanged |
| Strings.ReplaceAllConcat | pyramid_hypernova/token_replacement.py:32 | `replace` works on each side of a boundary that no occurrence crosses |
| Strings.ReplaceCharConcat | pyramid_hypernova/rendering.py:44 | a one-character pattern is replaced on each side of any cut |
| Strings.NatToString | pyramid_hypernova/request.py:83-87 | a status code formats as a non-empty string of decimal digits |
| Strings.ParseNatToString | pyramid_hypernova/request.py:83-87 | reading the formatted digits back gives the number |
| Rendering.ReplaceChainIsEscape | pyramid_hypernova/rendering.py:44 | the two chained `replace` calls escape `&` as `&amp;` and `>` as `&gt;`, one character at a time |
| Rendering.EncodeIsEscape | pyramid_hypernova/rendering.py:39-44 | `encode` is the escaping of the encoder's text |
| Rendering.EncodeHasNoGt | pyramid_hypernova/rendering.py:41-44 | encoded data never contains `>`, so it cannot close the comment around it |
| Rendering.EncodeKeepsPlainText | pyramid_hypernova/rendering.py:41-44 | text without `&` and `>` is embedded unchanged, so `<` is not escaped |
| Rendering.UnescapeEncode | pyramid_hypernova/rendering.py:41-44 | resolving `&amp;` and `&gt;` in one pass gives back exactly the encoder's text |
| Rendering.StripNonWordFilters | pyramid_hypernova/rendering.py:49-50 | the key holds only word characters, each as often as in the name |
| Rendering.StripNonWordConcat | pyramid_hypernova/rendering.py:50 | stripping non-word characters works piece by piece |
| Rendering.StripNonWordKeepsWords | pyramid_hypernova/rendering.py:50 | a name made of word characters is its own key |
| Rendering.StripNonWordFileName | pyramid_hypernova/rendering.py:50 | a component file name `stem.ext` gives the key `stem + ext` |
| Rendering.BoundMonotone | pyramid_hypernova/rendering.py:52-61 | a template whose fields are among some names can be formatted with any larger set of names |
| Rendering.FormatIgnoresUnused | pyramid_hypernova/rendering.py:52-56 | `format` ignores a keyword the template does not use |
| Rendering.FormatStartsWithText | pyramid_hypernova/rendering.py:52-56 | a formatted template starts with its leading literal text |
| Rendering.RenderBlankMarkupPrefix | pyramid_hypernova/rendering.py:58-63 | the markup without the error script is a proper prefix of the markup with it |
| Rendering.FallbackErrorNonEmpty | pyramid_hypernova/rendering.py:22-36 | the error script is never empty |
| Rendering.RenderBlankMarkupNonEmpty | pyramid_hypernova/rendering.py:47-63 | fallback markup is never empty |
| Rendering.RenderBlankMarkupPlain | tests/rendering_test.py:38-50 | for a file name `stem.ext` and data whose text has no `&` or `>`, the markup is the template with key `stem + ext` and the text unchanged |
| Rendering.TokenIdentifierRoundTrip | pyramid_hypernova/rendering.py:78-83 | the token is the fixed prefix, the identifier and the fixed suffix, and the identifier can be read back from it |
| Rendering.TokenInjective | pyramid_hypernova/rendering.py:78-83 | distinct identifiers give distinct tokens |
| Plugins.BasePluginNeutral | pyramid_hypernova/plugins.py:100-174 | `BasePlugin` returns every reducer's current value and always agrees to send |
| Plugins.ReduceCons | pyramid_hypernova/plugins.py:39-43 | the first plugin sees the input and the rest of the fold sees its output |
| Plugins.ReduceAppend | pyramid_hypernova/plugins.py:39-43 | folding over two lists in turn is folding over their concatenation |
| Plugins.ReduceIdentity | pyramid_hypernova/plugins.py:39-43 | steps that return their current value leave it unchanged |
| Plugins.ViewDataCons | pyramid_hypernova/plugins.py:26-28 | plugin 0 gets the caller's data and every later plugin its predecessor's output |
| Plugins.PrepareCons | pyramid_hypernova/plugins.py:39-43 | plugin 0 gets the input as both current and original jobs; the rest get its output as current jobs and still the input as original jobs |
| Plugins.AfterCons | pyramid_hypernova/plugins.py:73-77 | the same reducer shape, for the response |
| Plugins.EmptyControllerIdentity | pyramid_hypernova/plugins.py:13-97 | with no plugins every reducer is the identity and the request goes ahead |
| Plugins.NeutralControllerIdentity | pyramid_hypernova/plugins.py:13-174 | a controller over plugins that behave as `BasePlugin` is the identity on every reducer and agrees to send |
| Plugins.FirstRefusal | pyramid_hypernova/plugins.py:53 | the position of the first plugin that says no, each plugin before it having said yes |
| Plugins.AllSendIffNoRefusal | pyramid_hypernova/plugins.py:53 | the request goes ahead exactly when no plugin refuses |
| Plugins.Asked | pyramid_hypernova/plugins.py:53 | the request goes ahead exactly when every plugin is asked and the last one asked says yes, or there are no plugins |
| Plugins.AskedRefused | pyramid_hypernova/plugins.py:53 | when a plugin refuses, exactly the plugins up to and including the first refusal are asked |
| Plugins.Broadcast | pyramid_hypernova/plugins.py:60-61 | an event hook is one call per plugin, in list order, with the same arguments |
| Plugins.PluginController.constructor | pyramid_hypernova/plugins.py:13-14 | the controller holds the plugin list and its log |
| Plugins.PluginController.GetViewData | pyramid_hypernova/plugins.py:16-28 | the loop returns the fold of `get_view_data` over the plugins |
| Plugins.PluginController.PrepareRequest | pyramid_hypernova/plugins.py:30-43 | the loop returns the fold of `prepare_request` with the original jobs fixed |
| Plugins.PluginController.ShouldSendRequest | pyramid_hypernova/plugins.py:45-53 | the answer is whether every plugin agrees, and the plugins asked are those up to the first refusal |
| Plugins.PluginController.WillSendRequest | pyramid_hypernova/plugins.py:55-61 | every plugin's `will_send_request` is called once, in order, with the jobs |
| Plugins.PluginController.AfterResponse | pyramid_hypernova/plugins.py:63-77 | the loop returns the fold of `after_response` with the original response fixed |
| Plugins.PluginController.OnSuccess | pyramid_hypernova/plugins.py:79-87 | every plugin's `on_success` is called once, in order, with the response and the jobs |
| Plugins.PluginController.OnError | pyramid_hypernova/plugins.py:89-97 | every plugin's `on_error` is called once, in order, with the error and the jobs |
| Batch.CreateFallbackResponse | pyramid_hypernova/batch.py:21-29 | same keys in the same order; each result has the given error, the job's blank markup and the job |
| Batch.FallbackGet | pyramid_hypernova/batch.py:21-29 | looking up an identifier finds a fallback exactly for a job, and it is that job's blank markup and error |
| Batch.CreateJobsPayload | pyramid_hypernova/batch.py:32-36 | same keys in the same order; each value is the job's name and data |
| Batch.ConcatAppend | pyramid_hypernova/batch.py:44-47 | the pairs of the groups plus one more group are the pairs so far followed by that group |
| Batch.JobGroupsUnbounded | pyramid_hypernova/batch.py:48-49 | without a positive maximum there is exactly one group, the whole job map |
| Batch.ChunkedConcat | pyramid_hypernova/batch.py:42-47 | the groups, one after the other, are the jobs: nothing lost, added or reordered |
| Batch.ChunkedSizes | pyramid_hypernova/batch.py:42-47 | every group is non-empty and holds at most the maximum, and all but the last exactly the maximum |
| Batch.ChunkedCount | tests/batch_test.py:191-197 | there are `ceil(n / size)` groups |
| Batch.ChunkedFiveByTwo | tests/batch_test.py:96-117 | five jobs by two give groups of sizes 2, 2 and 1 |
| Batch.ChunkedOne | tests/batch_test.py:96-117 | a maximum at least the number of jobs gives one group |
| Batch.CreateJobGroups | pyramid_hypernova/batch.py:39-51 | the loop appends exactly the chunks, or the whole map without a positive maximum |
| Batch.JobGroupsConcat | pyramid_hypernova/batch.py:39-51 | the groups together are the jobs, in order, whatever the maximum |
| Batch.Parse | pyramid_hypernova/batch.py:71-94 | a successful parse has exactly the reply's identifiers, in the reply's order |
| Batch.ParseStops | pyramid_hypernova/batch.py:77-78 | once the loop has raised, later entries change nothing |
| Batch.ParseOkIff | pyramid_hypernova/batch.py:78 | parsing succeeds exactly when every identifier of the reply is a pending job |
| Batch.ParseRaisesFirstUnknown | pyramid_hypernova/batch.py:78 | the `KeyError` names the first identifier of the reply that is not pending |
| Batch.ParseEntries | pyramid_hypernova/batch.py:77-93 | on success each entry gives, in order, its job's result with the entry's error and its html, or the blank markup with the client-error script when the html is falsy |
| Batch.ParseErrorsAndFallbacks | pyramid_hypernova/batch.py:80-93 | a result has an error exactly when its entry has one, a falsy html becomes blank markup with the script, and other html is kept |
| Batch.ParseCalls | pyramid_hypernova/batch.py:81-87 | a successful parse calls every plugin's `on_error` with the job alone for each entry with an error, in reply order |
| Batch.ErrorCallsNone | pyramid_hypernova/batch.py:81 | a reply without entry errors calls no plugin |
| Batch.ParseRaisesAt | pyramid_hypernova/batch.py:78 | an unknown identifier at position `i` raises `KeyError` for it, keeping the calls of the entries before it |
| Batch.ParseExtends | pyramid_hypernova/batch.py:89-93 | accepting entry `i` assigns its result into the map built so far |
| Batch.ProcessFallsBack | pyramid_hypernova/batch.py:109-136 | a failed transport or a top-level error: wait, then the whole group falls back with the script and that error, and `on_error` is called with the group |
| Batch.ProcessParses | pyramid_hypernova/batch.py:120-122 | with a null `error`, wait, parse (calling `on_error` per entry error), then call `on_success` with the parsed map and the group |
| Batch.ProcessMissingResults | pyramid_hypernova/batch.py:77 | a reply whose `error` is null and which has no `results` raises `KeyError('results')` after the wait, and calls no plugin |
| Batch.ProcessMissingError | pyramid_hypernova/batch.py:112 | a reply without the top-level `error` key raises `KeyError('error')` after the wait, whatever its results, and calls no plugin |
| Batch.MergeStops | pyramid_hypernova/batch.py:165-166 | once a group has raised, later groups change nothing |
| Batch.BroadcastNoFetch | pyramid_hypernova/plugins.py:86-97 | a hook broadcast issues no request |
| Batch.ParseNoFetch | pyramid_hypernova/batch.py:71-94 | parsing issues no request |
| Batch.ProcessNoFetch | pyramid_hypernova/batch.py:96-136 | processing a group waits but issues no request |
| Batch.MergeNoFetch | pyramid_hypernova/batch.py:165-166 | a loop over runs without requests issues none |
| Batch.ProcessAllNoFetch | pyramid_hypernova/batch.py:165-166 | the second loop of `submit` issues no request |
| Batch.Fetches | pyramid_hypernova/batch.py:152-163 | one POST per group, in group order, to the batch URL with JSON headers and the group's payload |
| Batch.SubmitPrepares | pyramid_hypernova/batch.py:143 | `prepare_request` always runs first, and its result becomes the pending jobs |
| Batch.SubmitWithoutJobs | pyramid_hypernova/batch.py:145-172 | without jobs no plugin is asked, nothing is sent, and `after_response` gets the empty map |
| Batch.SubmitDeclined | pyramid_hypernova/batch.py:147-172 | when a plugin refuses, only the plugins up to the refusal are asked, nothing is sent, and every job falls back with the script and no error |
| Batch.FetchCountConcat | pyramid_hypernova/batch.py:152-166 | the requests of two lists of calls add up |
| Batch.FetchCountNone | pyramid_hypernova/batch.py:165-166 | calls without requests count none |
| Batch.FetchCountAll | pyramid_hypernova/batch.py:152-163 | a list of requests counts its length |
| Batch.SubmitSendsThenWaits | pyramid_hypernova/batch.py:147-166 | when the request goes ahead the calls are: the plugins asked, `will_send_request` on each, one request per group in order, then only waits and hooks |
| Batch.SubmitFetchCount | pyramid_hypernova/batch.py:149-163 | when the request goes ahead, exactly one request per group is issued |
| Batch.FetchesCount | pyramid_hypernova/batch.py:147-166 | requests issued between calls that issue none number the groups |
| Batch.SubmitRequestCount | tests/batch_test.py:191-197 | with a positive maximum there are `ceil(n / size)` requests |
| Batch.FellBackConcat | pyramid_hypernova/batch.py:166 | fallbacks of two groups with disjoint keys together are the fallback of their jobs together |
| Batch.FellBackKeys | pyramid_hypernova/batch.py:21-29 | a fallback has the keys of its jobs, in order |
| Batch.MergeFellBack | pyramid_hypernova/batch.py:165-166 | when every group falls back, so does the merge, in group order |
| Batch.ProcessAllFailed | pyramid_hypernova/batch.py:124-134 | when every transport fails every job falls back, with the script and an error |
| Batch.FallbackFellBack | pyramid_hypernova/batch.py:134 | the fallback of a group with an error is one result per job, with the script and that error |
| Batch.SubmitAllFailed | pyramid_hypernova/batch.py:124-172 | when every transport fails `submit` still returns: `after_response` of a map where every pending job falls back |
| Batch.BatchRequest.constructor | pyramid_hypernova/batch.py:56-60 | the URL, controller and maximum are kept and no job is pending |
| Batch.BatchRequest.Render | pyramid_hypernova/batch.py:62-69 | the job, with the data passed through `get_view_data`, is assigned under the identifier, and the token names the identifier |
| Batch.BatchRequest.ParseResponse | pyramid_hypernova/batch.py:71-94 | the loop returns what `Parse` gives on the reply's results and records its calls |
| Batch.BatchRequest.ParseEntry | pyramid_hypernova/batch.py:80-93 | one entry: its `on_error` calls, then its result |
| Batch.BatchRequest.ProcessResponses | pyramid_hypernova/batch.py:96-136 | the wait, then `KeyError('error')` when the top-level key is missing, else the fallback or the parse, as `Process` states |
| Batch.BatchRequest.Submit | pyramid_hypernova/batch.py:138-173 | the pending jobs, the returned or raised outcome and the recorded calls are those of `SubmitSpec` |
| Batch.BatchRequest.SendAll | pyramid_hypernova/batch.py:150-163 | one request per group, in group order, with each group's future kept |
| Batch.BatchRequest.ProcessGroups | pyramid_hypernova/batch.py:165-166 | the groups' maps are merged in order, or the first exception escapes |
| Request.CreateJobsPayload | pyramid_hypernova/request.py:11-15 | same keys in the same order; each value is the job's name, data and context |
| Request.PayloadGet | pyramid_hypernova/request.py:11-15 | the payload has an entry exactly for each job, and it is that job's payload |
| Request.SendHeaders | pyramid_hypernova/request.py:47-48 | the headers sent always have `Content-Type: application/json`, overriding the caller's; every other header is the caller's |
| Request.AsyncHeadersRoundTrip | pyramid_hypernova/request.py:59 | the asynchronous headers have the same keys, each value a one-element list, and unwrapping gives the headers back |
| Request.ClassifySync | pyramid_hypernova/request.py:69-74 | synchronously, the query fails exactly on a 4xx or 5xx status, with the `HTTPError`'s text; otherwise the decoded body is returned |
| Request.ClassifyAsync | pyramid_hypernova/request.py:75-89 | asynchronously, it fails exactly on a network error or a status other than 200, with the error's text or a message naming status and body |
| Request.StatusMessageRecoverable | pyramid_hypernova/request.py:83-87 | the status and the body can be read back from the message of a status error |
| Request.HypernovaQuery.constructor | pyramid_hypernova/request.py:26-40 | the group, URL, encoder, mode and headers are kept, and nothing is sent yet |
| Request.HypernovaQuery.Outgoing | pyramid_hypernova/request.py:42-62 | the mode alone picks the transport: a `requests.post` exactly when synchronous, else a `fido.fetch` POST with wrapped headers |
| Request.HypernovaQuery.Send | pyramid_hypernova/request.py:42-62 | the request for the mode is handed to the transport and its reply stored |
| Request.HypernovaQuery.Json | pyramid_hypernova/request.py:64-90 | before `send` it is `NoResponse`, where the source raises `AttributeError`; after, it returns the classification of the stored reply |
| TokenReplacement.Token | pyramid_hypernova/token_replacement.py:30-31 | the token text of an identifier is never empty |
| TokenReplacement.ReplaceTokensStep | pyramid_hypernova/token_replacement.py:30-32 | each step replaces every occurrence of the result's token by its html, and nothing else |
| TokenReplacement.ReplaceTokensNoToken | pyramid_hypernova/token_replacement.py:30-32 | content without any of the response's tokens comes out unchanged |
| TokenReplacement.ReplaceTokensEmpty | pyramid_hypernova/token_replacement.py:24-32 | empty content stays empty whatever the response, so a block that writes nothing leaves `''` |
| TokenReplacement.TokenAngles | pyramid_hypernova/rendering.py:78-83 | the token of an angle-free identifier has its only `<` first and its only `>` last |
| TokenReplacement.ReplaceAroundToken | pyramid_hypernova/token_replacement.py:32 | replacing the token of one identifier leaves the token of another in place and works on each side of it |
| TokenReplacement.TokenSurvives | pyramid_hypernova/token_replacement.py:30-32 | a token whose identifier is not in the response stays in place through the whole loop |
| TokenReplacement.HypernovaTokenReplacement | pyramid_hypernova/token_replacement.py:24-32 | the body starts as `''` (or the caller's content); one `submit`; an exception escapes with the content untouched; otherwise each result's tokens are replaced, in order, and a block that writes nothing leaves `''` |
| ContextManager.HypernovaBatch | pyramid_hypernova/context_manager.py:23-34 | the body starts unset; one `submit`; an exception escapes with the flag unchanged; unset content with a non-empty response raises `AttributeError`; otherwise the tokens are replaced and `disable_hypernova_tween` is set |
| Runtime.Log.Record | pyramid_hypernova/plugins.py:60-61 | a call is appended to the log |

## Left out

- HTTP, `fido`'s futures and `requests`: a group's outcome and the synchronous or asynchronous reply are inputs. UTF-8 encoding of request bodies and `decode('UTF-8', 'ignore')` of reply bodies are not modelled: bodies are strings.
- JSON encoding: the encoder is a total function `Json -> string`, with no floats or complex numbers (testing/json_encoder.py is not part of this model). `response.json()` raising `ValueError` is part of the `Failed` outcome of a group's future, not a separate step. `HypernovaQuery.json` assumes the reply decodes.
- `batch.py` sends `json.dumps(create_jobs_payload(group))`. The model records the payload value in the request, not its bytes.
- `uuid.uuid4()` in `render`: the identifier is a parameter of `Render`.
- `traceback.format_tb`, `repr(type(e))` and `str(e)`: these make up the error of a failed transport and are its inputs (`exceptionType`, `message`, `stack`).
- `re.sub(r'\W', '', name)` keeps exactly the ASCII letters, digits and `_`. Python's Unicode word class is wider.
- `str.replace` with an empty pattern is not modelled (tokens are never empty).
- A reply entry missing `error` or `html`, or an error (top-level or per entry) missing `name`, `message` or `stack`, would raise `KeyError` in the source. The model's reply entries and errors always have these fields. A missing top-level `error` or `results` key is modelled.
- A `results` that is present but `null` would raise `AttributeError` at `response_json['results'].items()` (pyramid_hypernova/batch.py:76). The model's `results` is either missing or a dictionary, so this case is not modelled.
- The truthiness of a top-level `error` that is present but empty (`{}`, `""`) is not modelled: a present error is a `HypernovaError`.
- The truthiness of `should_send_request` answers and of `result['error']` is modelled as booleans and options.
- Plugins are values: the reducers are functions of their arguments, and the event hooks are recorded calls, not code with effects of its own.
- When a group raises, the source does not wait on the later groups. The model computes their outcomes too but never uses or records them.
- `requests`' `HTTPError` text is an input of the synchronous reply.
- The caller's `with` block is modelled only by what it leaves in `body['content']` (a string, or nothing); it cannot store a non-string.
- TokenReplacement.TokenSurvives: holds for identifiers without `<` or `>`. The `uuid4` strings `render` makes are of that kind, but the source does not demand it.
- Request.HypernovaQuery.Json: `json()` before `send()` is the `NoResponse` result, not an `AttributeError` escaping.
- `tweens.py`, the Pyramid tween that replaces tokens when neither context manager was used, is not part of this model, and neither is `setup.py`.
