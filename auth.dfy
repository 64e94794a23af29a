/** `authenticateToken`: the Authorization header must be exactly
    `Bearer <API_TOKEN>`. The comparison is plain string equality: the scheme
    is case-sensitive and exactly one space separates it from the token (the
    credential layout of section 2.1 of RFC 6750, without its case-insensitive
    scheme). */
module Auth {
  import opened Common
  import opened Messages

  /** Calling `next()`, or answering 401 `{ erro: 'Acesso não autorizado' }`. */
  datatype Decision = CallNext | Reject(reply: Reply)

  /** The text a template literal gives `process.env.API_TOKEN`: the
      configured value, or "undefined" when it is unset. */
  function TokenText(apiToken: Option<string>): string
  {
    match apiToken
    case None => "undefined"
    case Some(t) => t
  }

  /** The middleware. `header` is `req.headers['authorization']`. */
  function Authenticate(header: Option<string>, apiToken: Option<string>): (d: Decision)
    ensures d == CallNext <==> header == Some("Bearer " + TokenText(apiToken))
    ensures d.Reject? ==> d.reply == Reply(401, AcessoNaoAutorizado)
  {
    if header.None? || header.value == "" || header.value != "Bearer " + TokenText(apiToken)
    then Reject(Reply(401, AcessoNaoAutorizado))
    else CallNext
  }

  /** A missing header is rejected, whatever the configuration. */
  lemma MissingHeaderRejected(apiToken: Option<string>)
    ensures Authenticate(None, apiToken) == Reject(Reply(401, AcessoNaoAutorizado))
  {
  }

  /** With API_TOKEN unset, the one header that passes is "Bearer undefined". */
  lemma UnsetTokenAcceptsLiteralUndefined(header: Option<string>)
    ensures Authenticate(header, None) == CallNext <==> header == Some("Bearer undefined")
  {
    assert "Bearer " + TokenText(None) == "Bearer undefined";
  }

  /** With API_TOKEN set to the empty string, "Bearer " alone passes. */
  lemma EmptyTokenAcceptsBareScheme()
    ensures Authenticate(Some("Bearer "), Some("")) == CallNext
  {
  }

  /** The scheme is compared case-sensitively and the separator is a single
      space: "bearer t" and "Bearer  t" are refused for any token t. */
  lemma SchemeIsExact(token: string)
    ensures Authenticate(Some("bearer " + token), Some(token)).Reject?
    ensures Authenticate(Some("Bearer  " + token), Some(token)).Reject?
  {
    assert ("bearer " + token)[0] != ("Bearer " + token)[0];
    assert |"Bearer  " + token| == |"Bearer " + token| + 1;
  }
}
