/**
 * `pyramid_hypernova/context_manager.py`: `hypernova_batch`, the context
 * manager that hands out a body whose content starts unset, submits the batch
 * once the caller is done, replaces every token of each returned identifier
 * by its html, and then tells the tween that the replacement is done.
 */
module ContextManager {

  import opened Wrappers
  import opened Types
  import opened Strings
  import opened Rendering
  import opened Runtime
  import opened Batch
  import opened TokenReplacement

  /**
   * `hypernova_batch`: the body starts as `{'content': None}`; `written` is
   * what the caller's block stored in it, if anything. Then one `submit`,
   * then the replacement loop, then `request.disable_hypernova_tween = True`.
   * An exception from `submit`, or the `AttributeError` of calling `replace`
   * on unset content when the response is not empty, escapes before the flag
   * is set.
   */
  method HypernovaBatch(request: Request, batch: BatchRequest, written: Option<string>,
                        network: (nat, Jobs) -> FetchOutcome)
    returns (body: Body, r: Result<()>)
    modifies request, batch, batch.controller.log
    ensures fresh(body)
    ensures var s := SubmitSpec(batch.controller.plugins, old(batch.jobs), batch.maxBatchSize, batch.batchUrl, network, batch.encoder);
      && batch.jobs == s.jobs
      && batch.controller.log.events == old(batch.controller.log.events) + s.run.events
      && (s.run.outcome.Raise? ==>
            r == Raise(s.run.outcome.error) && body.content == written
            && request.disableHypernovaTween == old(request.disableHypernovaTween))
      && (s.run.outcome.Ok? && |s.run.outcome.value| > 0 && written.None? ==>
            r == Raise(AttributeError("replace")) && body.content == None
            && request.disableHypernovaTween == old(request.disableHypernovaTween))
      && (s.run.outcome.Ok? && |s.run.outcome.value| == 0 ==>
            r == Ok(()) && body.content == written && request.disableHypernovaTween)
      && (s.run.outcome.Ok? && written.Some? ==>
            r == Ok(()) && body.content == Some(ReplaceTokens(written.value, s.run.outcome.value))
            && request.disableHypernovaTween)
  {
    body := new Body(None);
    if written.Some? {
      body.content := written;
    }
    var submitted := batch.Submit(network);
    if submitted.Raise? {
      return body, Raise(submitted.error);
    }
    var response := submitted.value;
    var i := 0;
    while i < |response|
      invariant 0 <= i <= |response|
      invariant i == 0 ==> body.content == written
      invariant 0 < i ==> written.Some? && body.content == Some(ReplaceTokens(written.value, response[..i]))
      modifies body
      decreases |response| - i
    {
      var identifier, jobResult := response[i].0, response[i].1;
      var token := RenderToken(identifier);
      if body.content.None? {
        return body, Raise(AttributeError("replace"));
      }
      ghost var before := body.content.value;
      assert before == ReplaceTokens(written.value, response[..i]) by {
        if i == 0 {
          assert response[..0] == [];
        }
      }
      body.content := Some(ReplaceAll(body.content.value, token.Str(), jobResult.html));
      assert response[..i + 1][..i] == response[..i];
      i := i + 1;
    }
    if 0 < i {
      assert response[..i] == response;
    }
    request.disableHypernovaTween := true;
    r := Ok(());
  }
}
