/** Validation of the identity provider's responses (src/aws.rs): the OIDC
    client registration, the device authorization and the token. An SDK call is
    represented by its result: `Err(message)` for a failed call, `Ok(output)`
    with every optional field of the output as an `Option`. */
module Oidc {
  import opened Wrappers

  newtype int32 = x: int | -0x8000_0000 <= x < 0x8000_0000

  const TWO_TO_THE_64: nat := 0x1_0000_0000_0000_0000

  /** Rust's `as u64` on an `i32`: sign extension, then reinterpretation, so a
      negative value wraps around to a value near 2^64. */
  function AsU64(i: int32): (u: nat)
    ensures u < TWO_TO_THE_64
    ensures 0 <= i ==> u == i as int
    ensures i < 0 ==> u == i as int + TWO_TO_THE_64 && u >= TWO_TO_THE_64 - 0x8000_0000
  {
    if i < 0 then i as int + TWO_TO_THE_64 else i as int
  }

  // --- client registration -------------------------------------------------

  datatype RegisterClientOutput = RegisterClientOutput(clientId: Option<string>, clientSecret: Option<string>)

  datatype ClientRegistration = ClientRegistration(clientId: string, clientSecret: string)

  const CLIENT_NAME := "my-rust-sso-client"
  const CLIENT_TYPE := "public"

  /** `register_client` after the call: pass an SDK failure on, then demand
      `client_id` and `client_secret`, in that order. */
  function RegisterClient(response: Result<RegisterClientOutput>): (r: Result<ClientRegistration>)
    ensures response.Err? ==> r == Err(response.error)
    ensures r.Ok? <==> response.Ok? && response.value.clientId.Some? && response.value.clientSecret.Some?
    ensures r.Ok? ==> r.value == ClientRegistration(response.value.clientId.value, response.value.clientSecret.value)
    ensures response.Ok? && response.value.clientId.None? ==> r == Err("Missing client_id")
    ensures response.Ok? && response.value.clientId.Some? && response.value.clientSecret.None? ==>
      r == Err("Missing client_secret")
  {
    match response
    case Err(e) => Err(e)
    case Ok(out) =>
      if out.clientId.None? then Err("Missing client_id")
      else if out.clientSecret.None? then Err("Missing client_secret")
      else Ok(ClientRegistration(out.clientId.value, out.clientSecret.value))
  }

  // --- device authorization ------------------------------------------------

  datatype StartDeviceAuthorizationOutput = StartDeviceAuthorizationOutput(
    deviceCode: Option<string>,
    userCode: Option<string>,
    verificationUri: Option<string>,
    verificationUriComplete: Option<string>,
    interval: int32)

  datatype DeviceAuthorization = DeviceAuthorization(
    deviceCode: string,
    userCode: string,
    verificationUri: string,
    verificationUriComplete: string,
    interval: int32)

  /** The output carrying exactly the fields of `auth`. */
  function AsOutput(auth: DeviceAuthorization): StartDeviceAuthorizationOutput {
    StartDeviceAuthorizationOutput(Some(auth.deviceCode), Some(auth.userCode), Some(auth.verificationUri),
                                   Some(auth.verificationUriComplete), auth.interval)
  }

  /** `start_device_authorization` after the call: pass an SDK failure on, then
      demand the four codes and URIs in order, reporting the first one missing;
      the interval is passed through as the provider sent it. */
  function StartDeviceAuthorization(response: Result<StartDeviceAuthorizationOutput>): (r: Result<DeviceAuthorization>)
    ensures response.Err? ==> r == Err(response.error)
    ensures response.Ok? ==> var out := response.value;
      && (out.deviceCode.None? ==> r == Err("Missing device_code"))
      && (out.deviceCode.Some? && out.userCode.None? ==> r == Err("Missing user_code"))
      && (out.deviceCode.Some? && out.userCode.Some? && out.verificationUri.None? ==>
            r == Err("Missing verification_uri"))
      && (out.deviceCode.Some? && out.userCode.Some? && out.verificationUri.Some? && out.verificationUriComplete.None? ==>
            r == Err("Missing verification_uri_complete"))
    ensures r.Ok? ==> response == Ok(AsOutput(r.value))
  {
    match response
    case Err(e) => Err(e)
    case Ok(out) =>
      if out.deviceCode.None? then Err("Missing device_code")
      else if out.userCode.None? then Err("Missing user_code")
      else if out.verificationUri.None? then Err("Missing verification_uri")
      else if out.verificationUriComplete.None? then Err("Missing verification_uri_complete")
      else Ok(DeviceAuthorization(out.deviceCode.value, out.userCode.value, out.verificationUri.value,
                                  out.verificationUriComplete.value, out.interval))
  }

  /** A complete device authorization passes validation unchanged, interval included. */
  lemma StartDeviceAuthorizationComplete(auth: DeviceAuthorization)
    ensures StartDeviceAuthorization(Ok(AsOutput(auth))) == Ok(auth)
  {
  }

  // --- token ---------------------------------------------------------------

  /** The part of `CreateTokenOutput` the program reads. */
  datatype CreateTokenOutput = CreateTokenOutput(accessToken: Option<string>)

  const DEVICE_CODE_GRANT := "urn:ietf:params:oauth:grant-type:device_code"

  /** The fields of one `create_token` request. */
  datatype CreateTokenRequest = CreateTokenRequest(clientId: string, clientSecret: string, grantType: string, deviceCode: string)

  /** `extract_access_token`. */
  function ExtractAccessToken(output: CreateTokenOutput): (r: Result<string>)
    ensures r.Ok? <==> output.accessToken.Some?
    ensures r.Ok? ==> r.value == output.accessToken.value
    ensures r.Err? ==> r.error == "Missing access_token"
  {
    match output.accessToken
    case Some(t) => Ok(t)
    case None => Err("Missing access_token")
  }
}
