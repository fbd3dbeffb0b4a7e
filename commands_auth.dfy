/** Request validation of the slash-command bot: the same decision as the
    story bot's chat validator, for this deployment's project number. */
module CommandsAuth {

  import opened Wrappers
  import Auth

  const AUDIENCE := "362822420032"

  /** `is_request_valid(request)` */
  function IsRequestValid(header: Option<string>, verify: Auth.ChatVerifier): (valid: bool)
    ensures header.None? ==> !valid
    ensures header.Some? && ' ' !in header.value ==> !valid
    ensures valid <==>
      var token := Auth.BearerToken(header);
      && token.Some?
      && verify(token.value, AUDIENCE, Auth.PUBLIC_CERT_URL_PREFIX + Auth.CHAT_ISSUER).Ok?
      && Auth.IssuedBy(verify(token.value, AUDIENCE, Auth.PUBLIC_CERT_URL_PREFIX + Auth.CHAT_ISSUER).value, Auth.CHAT_ISSUER)
  {
    Auth.IsChatRequestValid(header, verify, AUDIENCE)
  }
}
