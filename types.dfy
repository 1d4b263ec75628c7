/**
 * The records of `pyramid_hypernova/types.py` and the values they carry.
 * They have no behaviour of their own.
 */
module Types {

  import opened Wrappers
  import opened OrderedDict

  /** A JSON-serialisable value: the `data` and `context` of a job. */
  datatype Json =
    | JNull
    | JBool(b: bool)
    | JNumber(n: int)
    | JString(s: string)
    | JArray(items: seq<Json>)
    | JObject(members: seq<(string, Json)>)

  /** `json_encoder.encode`, injected by the application: any total function. */
  type Encoder = Json -> string

  /** One unit of server-side rendering work. */
  datatype Job = Job(name: string, data: Json, context: Json)

  datatype HypernovaError = HypernovaError(name: string, message: string, stack: seq<string>)

  /** The outcome for one job: real or fallback markup, and the error if any. */
  datatype JobResult = JobResult(error: Option<HypernovaError>, html: string, job: Job)

  /** Pending jobs, keyed by identifier, in insertion order. */
  type Jobs = Dict<Job>

  /** The per-identifier results of one submission. */
  type Response = Dict<JobResult>

  /** The Python exceptions that escape the core to its caller. */
  datatype Raised =
    | KeyError(key: string)
    | AttributeError(attribute: string)

  /** A computation that either returns a value or raises. */
  datatype Result<+T> = Ok(value: T) | Raise(error: Raised)
}
