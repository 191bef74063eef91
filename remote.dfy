/**
 * The remote gateway as the plugin sees it: the JSON requests it posts, the decoded
 * replies, and the bounded retry of `call_gateway_endpoint`. The transport itself
 * (`wp_safe_remote_post`, `wp_remote_retrieve_*`, `json_decode`) is an oracle.
 */
module Remote {
  import opened Wrappers
  import opened Php

  const MaxConnectionTries := 4
  const RequestTimeout := 15
  const JsonContentType := "application/json"

  datatype Headers = Headers(contentType: string, apiKey: string, sandbox: string)

  /** The JSON bodies of the two endpoints. */
  datatype Payload =
    | CreatePayload(orderId: string, amount: int, name: string, phone: string, mail: string,
                    desc: string, callbackOrderId: string, reseller: string)
    | VerifyPayload(id: Value, orderId: string)

  datatype Request = Request(url: string, payload: Payload, headers: Headers, timeout: nat)

  /**
   * A decoded reply body. A field the reply lacks, including every field of a body
   * that did not decode, is None.
   */
  datatype Body = Body(
    id: Option<string>, link: Option<string>,
    errorCode: Option<string>, errorMessage: Option<string>,
    status: Option<int>, trackId: Option<string>, orderId: Option<string>, amount: Option<int>,
    cardNo: Option<string>, hashedCardNo: Option<string>, date: Option<string>)

  /** A transport error (`WP_Error`) or an HTTP reply with its status code. */
  datatype Response = TransportError(message: string) | Reply(code: int, body: Body)

  /** The answer the network gives to the n-th attempt (from 0) at sending a request. */
  type Transport = (Request, nat) -> Response

  /** The `X-SANDBOX` header: "false" exactly when the sandbox option is "no". */
  function SandboxHeader(sandbox: string): (h: string)
    ensures h == "false" <==> sandbox == "no"
    ensures h == "true" <==> sandbox != "no"
  {
    if sandbox == "no" then "false" else "true"
  }

  /** The headers both endpoints are called with. */
  function GatewayHeaders(apiKey: string, sandbox: string): Headers {
    Headers(JsonContentType, apiKey, SandboxHeader(sandbox))
  }

  /** The retry loop from attempt `k` on: the response it returns and the attempts made. */
  function RetryFrom(t: Transport, req: Request, k: nat): (Response, nat)
    requires k < MaxConnectionTries
    decreases MaxConnectionTries - k
  {
    if t(req, k).TransportError? && k + 1 < MaxConnectionTries then RetryFrom(t, req, k + 1)
    else (t(req, k), k + 1)
  }

  /** The outcome of one logical call: the returned response and the number of posts. */
  function Retry(t: Transport, req: Request): (Response, nat) {
    RetryFrom(t, req, 0)
  }

  /**
   * From attempt `k` on, the loop stops at the first response that is not a transport
   * error and returns it unchanged, or returns the error of the last allowed attempt.
   */
  lemma {:induction false} RetryFromStops(t: Transport, req: Request, k: nat)
    requires k < MaxConnectionTries
    ensures var (resp, n) := RetryFrom(t, req, k);
      && k < n <= MaxConnectionTries
      && resp == t(req, n - 1)
      && (forall j :: k <= j < n - 1 ==> t(req, j).TransportError?)
      && (resp.TransportError? ==> n == MaxConnectionTries)
    decreases MaxConnectionTries - k
  {
    if t(req, k).TransportError? && k + 1 < MaxConnectionTries {
      RetryFromStops(t, req, k + 1);
    }
  }

  /**
   * The retry bound: at most four posts; every post before the last one failed in
   * transport; the last response is returned as it came, and it is a transport error
   * only when all four attempts failed.
   */
  lemma RetryBound(t: Transport, req: Request)
    ensures var (resp, n) := Retry(t, req);
      && 1 <= n <= MaxConnectionTries
      && resp == t(req, n - 1)
      && (forall j :: 0 <= j < n - 1 ==> t(req, j).TransportError?)
      && (resp.TransportError? <==> forall j :: 0 <= j < MaxConnectionTries ==> t(req, j).TransportError?)
  {
    RetryFromStops(t, req, 0);
  }
}
