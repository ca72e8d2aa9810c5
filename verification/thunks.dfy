/**
 * The rejection values the client thunks compute from a failed request:
 * a JavaScript `||` chain over the server's message and the error's own text.
 */
module Thunks {
  import opened Common

  /**
   * A failed request as the thunks see it: `error.response.data.message`
   * (absent when there is no response), `error.message` and `error.toString()`.
   */
  datatype RequestError = RequestError(responseMessage: Option<string>, message: string, text: string)

  /** The outcome of a service call: the response data, or the error it threw. */
  datatype Call<T> = Answered(payload: T) | Failed(error: RequestError)

  /** The value of `xs[0] || xs[1] || ... || xs[|xs|-1]`: the first truthy operand, else the last. */
  function OrChain(xs: seq<Option<string>>): (r: Option<string>)
    requires |xs| > 0
    ensures r in xs
    ensures Truthy(r) <==> exists i :: 0 <= i < |xs| && Truthy(xs[i])
    ensures Truthy(r) ==> exists k :: 0 <= k < |xs| && xs[k] == r && forall j :: 0 <= j < k ==> !Truthy(xs[j])
    ensures !Truthy(r) ==> r == xs[|xs| - 1]
  {
    if |xs| == 1 then xs[0]
    else
      var rest := OrChain(xs[1..]);
      assert forall i :: 1 <= i < |xs| ==> xs[i] == xs[1..][i - 1];
      if Truthy(xs[0]) then xs[0]
      else
        assert Truthy(rest) ==> exists k :: 1 <= k < |xs| && xs[k] == rest && forall j :: 0 <= j < k ==> !Truthy(xs[j]) by {
          if Truthy(rest) {
            var k :| 0 <= k < |xs[1..]| && xs[1..][k] == rest && forall j :: 0 <= j < k ==> !Truthy(xs[1..][j]);
            assert xs[k + 1] == rest;
            forall j | 0 <= j < k + 1 ensures !Truthy(xs[j]) {
              if j > 0 { assert xs[j] == xs[1..][j - 1]; }
            }
          }
        }
        rest
  }

  /** `error.response?.data?.message || error.message`, used by the auth and chat thunks. */
  function RejectValue(e: RequestError): (r: string)
    ensures Truthy(e.responseMessage) ==> r == e.responseMessage.value
    ensures !Truthy(e.responseMessage) ==> r == e.message
  {
    OrChain([e.responseMessage, Some(e.message)]).value
  }

  /** The three-step chain of `fetchUsers`, ending in `error.toString()`. */
  function UsersRejectValue(e: RequestError): (r: string)
    ensures Truthy(e.responseMessage) ==> r == e.responseMessage.value
    ensures !Truthy(e.responseMessage) && e.message != "" ==> r == e.message
    ensures !Truthy(e.responseMessage) && e.message == "" ==> r == e.text
  {
    var chain := [e.responseMessage, Some(e.message), Some(e.text)];
    var r := OrChain(chain);
    assert e.message != "" ==> Truthy(chain[1]);
    r.value
  }

  /** The users chain only ever says more than the auth/chat chain: they agree whenever the latter is non-empty. */
  lemma UsersChainExtendsAuthChain(e: RequestError)
    ensures RejectValue(e) != "" ==> UsersRejectValue(e) == RejectValue(e)
    ensures RejectValue(e) == "" ==> UsersRejectValue(e) == e.text
  {
  }
}
