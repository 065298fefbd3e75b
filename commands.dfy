/** What an entity's command handler does to the outside world: the awaited
    RepelBridgeAPI calls in order, then `coordinator.async_request_refresh()`.
    Nothing in the handlers catches, so the first call that raises ends the
    handler: later calls and the refresh request never happen. */
module Commands {
  import opened Api
  import opened Calls

  /** One observable effect: a request sent to a host, or a refresh request
      to the coordinator of that host. */
  datatype Effect = Call(host: string, op: Operation) | RefreshRequest(host: string)

  function CallEffects(host: string, ops: seq<Operation>): (r: seq<Effect>)
    ensures |r| == |ops|
    ensures forall i :: 0 <= i < |ops| ==> r[i] == Call(host, ops[i])
  {
    if ops == [] then [] else [Call(host, ops[0])] + CallEffects(host, ops[1..])
  }

  /** The effects of a handler that awaits ops and then requests a refresh,
      when ok tells which calls return normally. */
  function CommandEffects(host: string, ops: seq<Operation>, ok: Operation -> bool): seq<Effect> {
    CallEffects(host, UntilFailure(ops, ok)) + (if AllOk(ops, ok) then [RefreshRequest(host)] else [])
  }

  /** A refresh is requested exactly when every call returned, and then only
      once, after all of the calls; the calls sent are the handler's calls in
      order, up to the first that raised. */
  lemma RefreshOnlyAfterSuccess(host: string, ops: seq<Operation>, ok: Operation -> bool)
    ensures var e := CommandEffects(host, ops, ok);
            && (RefreshRequest(host) in e <==> AllOk(ops, ok))
            && (AllOk(ops, ok) ==> e == CallEffects(host, ops) + [RefreshRequest(host)])
            && (forall i :: 0 <= i < |e| - 1 ==> e[i].Call?)
            && (!AllOk(ops, ok) ==> exists k :: 0 < k <= |ops| && e == CallEffects(host, ops[..k]) && !ok(ops[k - 1]))
  {
    var sent := UntilFailure(ops, ok);
    var e := CommandEffects(host, ops, ok);
    var calls := CallEffects(host, sent);
    if !AllOk(ops, ok) {
      assert e == calls;
      assert !AllOk(sent, ok);
      assert |sent| > 0 && !ok(sent[|sent| - 1]);
      assert ops[..|sent|] == sent;
    }
  }

  /** A handler whose first call is op: that call is sent, and the rest of
      the handler runs only if it returned. */
  lemma CommandEffectsCons(host: string, op: Operation, rest: seq<Operation>, ok: Operation -> bool)
    ensures CommandEffects(host, [op] + rest, ok) ==
            [Call(host, op)] + (if ok(op) then CommandEffects(host, rest, ok) else [])
    ensures AllOk([op] + rest, ok) <==> ok(op) && AllOk(rest, ok)
  {
    var xs := [op] + rest;
    assert xs[0] == op && xs[1..] == rest;
    if ok(op) && AllOk(rest, ok) {
      forall i | 0 <= i < |xs| ensures ok(xs[i]) {
        if i > 0 { assert xs[i] == rest[i - 1]; }
      }
    }
  }

  /** A handler with no calls left only requests the refresh. */
  lemma CommandEffectsNil(host: string, ok: Operation -> bool)
    ensures CommandEffects(host, [], ok) == [RefreshRequest(host)]
    ensures AllOk([], ok)
  {
  }

  /** The record of effects, appended to as handlers run. */
  class CommandLog {
    var effects: seq<Effect>

    constructor ()
      ensures effects == []
    {
      effects := [];
    }

    /** Awaits one API call; `success` is false when it raised. */
    method Send(host: string, op: Operation, ok: Operation -> bool) returns (success: bool)
      modifies this
      ensures effects == old(effects) + [Call(host, op)]
      ensures success == ok(op)
    {
      effects := effects + [Call(host, op)];
      success := ok(op);
    }

    /** Awaits a handler's last call and, if it returned, requests a refresh. */
    method SendThenRefresh(host: string, op: Operation, ok: Operation -> bool) returns (raised: bool)
      modifies this
      ensures effects == old(effects) + CommandEffects(host, [op], ok)
      ensures raised <==> !AllOk([op], ok)
    {
      CommandEffectsCons(host, op, [], ok);
      CommandEffectsNil(host, ok);
      assert [op] + [] == [op];
      var sent := Send(host, op, ok);
      if !sent {
        return true;
      }
      RequestRefresh(host);
      raised := false;
    }

    /** `await self.coordinator.async_request_refresh()`. */
    method RequestRefresh(host: string)
      modifies this
      ensures effects == old(effects) + [RefreshRequest(host)]
    {
      effects := effects + [RefreshRequest(host)];
    }
  }
}
