/**
 * `pyramid_hypernova/token_replacement.py`: the context manager that hands
 * out a `body` dictionary, submits the batch once the caller is done, and
 * then replaces, for each result in the response's order, every token of its
 * identifier in `body['content']` by the result's html.
 */
module TokenReplacement {

  import opened Wrappers
  import opened OrderedDict
  import opened Types
  import opened Strings
  import opened Rendering
  import opened Runtime
  import opened Batch

  /** The token that `render` returned for `identifier`, as `str(token)` gives it. */
  function Token(identifier: string): (t: string)
    ensures |t| > 0
  {
    RenderToken(identifier).Str()
  }

  /**
   * The loop of the context manager: one `replace` per result, in the
   * response's order, each on the content the previous one left.
   */
  function ReplaceTokens(content: string, response: seq<(string, JobResult)>): string
    decreases |response|
  {
    if |response| == 0 then content
    else
      var last := response[|response| - 1];
      ReplaceAll(ReplaceTokens(content, response[..|response| - 1]), Token(last.0), last.1.html)
  }

  /**
   * Step `i` of the loop: the content it starts from is its pieces between
   * the occurrences of the token of result `i`, no piece holds that token,
   * and the step puts the result's html between the pieces. So every
   * occurrence of the token is replaced and nothing else changes.
   */
  lemma {:induction false} ReplaceTokensStep(content: string, response: seq<(string, JobResult)>, i: nat)
    requires i < |response|
    ensures var before, token := ReplaceTokens(content, response[..i]), Token(response[i].0);
      var pieces := Split(before, token);
      && Join(pieces, token) == before
      && (forall j :: 0 <= j < |pieces| ==> !Contains(pieces[j], token))
      && ReplaceTokens(content, response[..i + 1]) == Join(pieces, response[i].1.html)
  {
    var before, token := ReplaceTokens(content, response[..i]), Token(response[i].0);
    assert response[..i + 1][..i] == response[..i];
    SplitJoinRoundTrip(before, token);
    SplitPiecesAvoidPattern(before, token);
    ReplaceAllIsJoinOfSplit(before, token, response[i].1.html);
  }

  /** Content that holds none of the response's tokens comes out unchanged. */
  lemma {:induction false} ReplaceTokensNoToken(content: string, response: seq<(string, JobResult)>)
    requires forall i :: 0 <= i < |response| ==> !Contains(content, Token(response[i].0))
    ensures ReplaceTokens(content, response) == content
    decreases |response|
  {
    if |response| > 0 {
      var k := |response| - 1;
      assert forall i :: 0 <= i < k ==> response[..k][i] == response[i];
      ReplaceTokensNoToken(content, response[..k]);
      ReplaceAllAbsent(content, Token(response[k].0), response[k].1.html);
    }
  }

  /** Empty content holds no token, so it stays empty whatever the response. */
  lemma {:induction false} ReplaceTokensEmpty(response: seq<(string, JobResult)>)
    ensures ReplaceTokens("", response) == ""
  {
    forall i | 0 <= i < |response|
      ensures !Contains("", Token(response[i].0))
    {
      assert |Token(response[i].0)| > 0;
    }
    ReplaceTokensNoToken("", response);
  }

  /** No `<` and no `>`: true of the identifiers `render` makes, which are `uuid4` strings. */
  predicate AngleFree(s: string)
  {
    forall i :: 0 <= i < |s| ==> s[i] != '<' && s[i] != '>'
  }

  /** A token of an angle-free identifier has its only `<` first and its only `>` last. */
  lemma {:induction false} TokenAngles(identifier: string)
    requires AngleFree(identifier)
    ensures var t := Token(identifier);
      && t[0] == '<' && t[|t| - 1] == '>'
      && (forall i :: 0 < i < |t| ==> t[i] != '<')
      && (forall i :: 0 <= i < |t| - 1 ==> t[i] != '>')
  {
    var t := Token(identifier);
    var p, s := TokenPrefix, TokenSuffix;
    assert t == p + identifier + s;
    forall i | 0 <= i < |t|
      ensures 0 < i ==> t[i] != '<'
      ensures i < |t| - 1 ==> t[i] != '>'
    {
      if i < |p| {
        assert t[i] == p[i];
      } else if i < |p| + |identifier| {
        assert t[i] == identifier[i - |p|];
      } else {
        assert t[i] == s[i - |p| - |identifier|];
      }
    }
  }

  /**
   * Replacing the token of `y` leaves an occurrence of the token of another
   * angle-free identifier `x` in place and works on each side of it.
   */
  lemma {:induction false} ReplaceAroundToken(u: string, v: string, x: string, y: string, html: string)
    requires AngleFree(x) && AngleFree(y) && x != y
    ensures ReplaceAll(u + Token(x) + v, Token(y), html)
         == ReplaceAll(u, Token(y), html) + Token(x) + ReplaceAll(v, Token(y), html)
  {
    var tx, ty := Token(x), Token(y);
    TokenAngles(x);
    TokenAngles(y);
    // No occurrence of `ty` covers the `<` that starts `tx`, unless it starts there.
    forall k: nat | k < |u| && |u| < k + |ty|
      ensures !MatchAt(u + (tx + v), ty, k)
    {
      assert (u + (tx + v))[|u|] == '<';
      assert ty[|u| - k] != '<';
      if k + |ty| <= |u + (tx + v)| {
        assert (u + (tx + v))[k..k + |ty|][|u| - k] == (u + (tx + v))[|u|];
      }
    }
    assert NoStraddle(u, tx + v, ty);
    // No occurrence of `ty` covers the `>` that ends `tx`, unless it ends there.
    forall k: nat | k < |tx| && |tx| < k + |ty|
      ensures !MatchAt(tx + v, ty, k)
    {
      assert (tx + v)[|tx| - 1] == '>';
      assert ty[|tx| - 1 - k] != '>';
      if k + |ty| <= |tx + v| {
        assert (tx + v)[k..k + |ty|][|tx| - 1 - k] == (tx + v)[|tx| - 1];
      }
    }
    assert NoStraddle(tx, v, ty);
    // An occurrence of `ty` inside `tx` would start at its `<` and end at its `>`.
    forall k: nat | k <= |tx| && MatchAt(tx, ty, k)
      ensures false
    {
      assert tx[k] == ty[0];
      assert tx[k + |ty| - 1] == ty[|ty| - 1];
      assert tx[k..k + |ty|] == tx;
      TokenInjective(x, y);
    }
    ReplaceAllConcat(u, tx + v, ty, html);
    ReplaceAllConcat(tx, v, ty, html);
    ReplaceAllAbsent(tx, ty, html);
    assert u + tx + v == u + (tx + v);
  }

  /**
   * The token of an identifier that is not in the response stays in place
   * (identifiers being angle-free), and the replacement works on each side
   * of it.
   */
  lemma {:induction false} TokenSurvives(u: string, v: string, x: string, response: seq<(string, JobResult)>)
    requires AngleFree(x)
    requires forall i :: 0 <= i < |response| ==> AngleFree(response[i].0) && response[i].0 != x
    ensures ReplaceTokens(u + Token(x) + v, response)
         == ReplaceTokens(u, response) + Token(x) + ReplaceTokens(v, response)
    decreases |response|
  {
    if |response| > 0 {
      var k := |response| - 1;
      var init := response[..k];
      assert forall i :: 0 <= i < k ==> init[i] == response[i];
      TokenSurvives(u, v, x, init);
      ReplaceAroundToken(ReplaceTokens(u, init), ReplaceTokens(v, init), x, response[k].0, response[k].1.html);
    }
  }

  /**
   * `hypernova_token_replacement`: the body starts as `{'content': ''}`;
   * `written` is what the caller's block stored in it, if anything. Then one
   * `submit`, then the replacement loop. An exception from `submit` escapes
   * before any replacement.
   */
  method HypernovaTokenReplacement(batch: BatchRequest, written: Option<string>, network: (nat, Jobs) -> FetchOutcome)
    returns (body: Body, r: Result<()>)
    modifies batch, batch.controller.log
    ensures fresh(body)
    ensures var s := SubmitSpec(batch.controller.plugins, old(batch.jobs), batch.maxBatchSize, batch.batchUrl, network, batch.encoder);
      var content := if written.Some? then written.value else "";
      && batch.jobs == s.jobs
      && batch.controller.log.events == old(batch.controller.log.events) + s.run.events
      && (s.run.outcome.Raise? ==> r == Raise(s.run.outcome.error) && body.content == Some(content))
      && (s.run.outcome.Ok? ==> r == Ok(()) && body.content == Some(ReplaceTokens(content, s.run.outcome.value)))
      && (s.run.outcome.Ok? && written.None? ==> body.content == Some(""))
  {
    body := new Body(Some(""));
    if written.Some? {
      body.content := written;
    }
    var content := body.content.value;
    var submitted := batch.Submit(network);
    if submitted.Raise? {
      return body, Raise(submitted.error);
    }
    var response := submitted.value;
    var i := 0;
    while i < |response|
      invariant 0 <= i <= |response|
      invariant body.content == Some(ReplaceTokens(content, response[..i]))
      modifies body
      decreases |response| - i
    {
      var identifier, jobResult := response[i].0, response[i].1;
      var token := RenderToken(identifier);
      body.content := Some(ReplaceAll(body.content.value, token.Str(), jobResult.html));
      assert response[..i + 1][..i] == response[..i];
      i := i + 1;
    }
    assert response[..i] == response;
    ReplaceTokensEmpty(response);
    r := Ok(());
  }
}
