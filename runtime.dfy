/**
 * The objects outside the core that it changes: the record of calls it makes
 * to plugins and to the network, the `body` dictionary that the two context
 * managers hand to their caller, and the Pyramid request.
 */
module Runtime {

  import opened Wrappers
  import opened OrderedDict
  import opened Types

  /** A plugin hook whose effect is a call, not a return value. */
  datatype Hook =
    | ShouldSendRequest(jobs: Jobs)
    | WillSendRequest(jobs: Jobs)
    | OnSuccess(response: Response, jobs: Jobs)
    | OnError(err: HypernovaError, jobs: Jobs)

  /** An observable call: a hook on the plugin at a position of the plugin list,
      an HTTP request being issued, or the wait for the future of a group. */
  datatype Event =
    | Called(plugin: nat, hook: Hook)
    | Fetch(url: string, headers: map<string, seq<string>>, httpMethod: string, payload: Dict<Json>)
    | Await(group: nat)

  /** The calls made so far, oldest first. */
  class Log {
    var events: seq<Event>

    constructor ()
      ensures events == []
    {
      events := [];
    }

    method Record(e: Event)
      modifies this
      ensures events == old(events) + [e]
    {
      events := events + [e];
    }
  }

  /** The `body` dictionary: its only key is `'content'`. */
  class Body {
    var content: Option<string>

    constructor (content: Option<string>)
      ensures this.content == content
    {
      this.content := content;
    }
  }

  /** The Pyramid request, reduced to the one attribute the core sets. */
  class Request {
    var disableHypernovaTween: bool

    constructor (disableHypernovaTween: bool)
      ensures this.disableHypernovaTween == disableHypernovaTween
    {
      this.disableHypernovaTween := disableHypernovaTween;
    }
  }
}
