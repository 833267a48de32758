/** `checkOVHHealth` (ovh-health-check.ts): one probe request to the OVH endpoint,
    classified into a health record.  The token and the probe's outcome are inputs. */
module OvhHealthCheck {
  import opened Wrappers
  import opened Json
  import opened Text

  /** The probe: `fetch` threw, or a response arrived after `elapsed` ms; `body` is
      `None` when reading the response text throws. */
  datatype Probe = NetworkFailed | Answered(status: int, elapsed: int, body: Option<string>)

  /** `response.ok`. */
  predicate Ok(status: int) {
    200 <= status <= 299
  }

  datatype HealthError = TokenMissing | AuthenticationFailed | RateLimited | ApiError(status: int, text: string) | NetworkError

  /** The fixed message of an error; `None` for a network error, whose text comes from the
      runtime. */
  function Message(e: HealthError): (m: Option<string>)
    ensures m.None? <==> e.NetworkError?
    ensures e.ApiError? ==> m == Some("OVH API error: " + IntToString(e.status) + " - " + e.text)
  {
    match e
    case TokenMissing => Some("OVH_AI_ENDPOINTS_ACCESS_TOKEN not configured")
    case AuthenticationFailed => Some("OVH API authentication failed - invalid OVH_AI_ENDPOINTS_ACCESS_TOKEN")
    case RateLimited => Some("OVH API rate limit exceeded")
    case ApiError(status, text) => Some("OVH API error: " + IntToString(status) + " - " + text)
    case NetworkError => None
  }

  datatype Details = Details(tokenAvailable: bool, endpointReachable: bool, authenticationValid: bool,
                             responseTime: Option<int>)

  datatype Health = Health(isHealthy: bool, error: Option<HealthError>, details: Details)

  /** `checkOVHHealth`: the result record is built not healthy and then updated as the
      probe's outcome becomes known. */
  method CheckOvhHealth(token: Option<string>, probe: Probe) returns (h: Health)
    ensures h.details.tokenAvailable <==> Given(token)
    ensures !Given(token) ==> h == Health(false, Some(TokenMissing), Details(false, false, false, None))
    ensures h.isHealthy <==> Given(token) && probe.Answered? && Ok(probe.status)
    ensures h.isHealthy <==> h.error.None?
    ensures h.details.endpointReachable <==> Given(token) && probe.Answered?
    ensures h.details.responseTime.Some? <==> Given(token) && probe.Answered?
    ensures h.details.responseTime.Some? ==> h.details.responseTime.value == probe.elapsed
    ensures h.details.authenticationValid <==>
              Given(token) && probe.Answered? && (probe.status == 429 || Ok(probe.status))
    ensures Given(token) && probe.NetworkFailed? ==> h.error == Some(NetworkError)
    ensures Given(token) && probe.Answered? && probe.status == 401 ==> h.error == Some(AuthenticationFailed)
    ensures Given(token) && probe.Answered? && probe.status == 429 ==> h.error == Some(RateLimited)
    ensures Given(token) && probe.Answered? && probe.status !in {401, 429} && !Ok(probe.status) ==>
              h.error == (if probe.body.Some? then Some(ApiError(probe.status, probe.body.value)) else Some(NetworkError))
  {
    h := Health(false, None, Details(Given(token), false, false, None));
    if !Given(token) {
      return h.(error := Some(TokenMissing));
    }
    if probe.NetworkFailed? {
      return h.(error := Some(NetworkError));
    }
    h := h.(details := h.details.(responseTime := Some(probe.elapsed)));
    h := h.(details := h.details.(endpointReachable := true));
    if probe.status == 401 {
      h := h.(details := h.details.(authenticationValid := false));
      return h.(error := Some(AuthenticationFailed));
    }
    if probe.status == 429 {
      h := h.(details := h.details.(authenticationValid := true));
      return h.(error := Some(RateLimited));
    }
    if Ok(probe.status) {
      h := h.(details := h.details.(authenticationValid := true));
      h := h.(isHealthy := true);
      return h;
    }
    // reading the body can throw too; the catch then reports a network error on the
    // record already marked reachable
    if probe.body.None? {
      return h.(error := Some(NetworkError));
    }
    h := h.(error := Some(ApiError(probe.status, probe.body.value)));
  }
}
