/**
 * The two route guards of `backend/server.js` (`adminAuth`, `clientAuth`).
 * Signature and expiry checking of the session token is foreign code: it is the
 * parameter `verify`, which yields the token's claims or `None` when the token
 * does not verify (bad signature, expired, malformed).
 */
module Auth {
  import opened Common
  import opened Text

  /** The payload of a session token. An administrator token carries only its kind;
      a client token also names the account. */
  datatype Claims = Claims(kind: string, id: int, email: string, name: string)

  /** What the client guard hands on to the route: the account named by the token. */
  datatype ClientIdentity = ClientIdentity(id: int, email: string, name: string)

  /** Payload signed at administrator login (`{ type: 'admin' }`). */
  function AdminClaims(): Claims
  {
    Claims("admin", 0, "", "")
  }

  /** Payload signed at client login and registration. */
  function ClientClaims(id: int, email: string, name: string): Claims
  {
    Claims("client", id, email, name)
  }

  /** The scheme the guards strip from the `Authorization` header. */
  const Scheme: string := "Bearer "

  /** `(authorization || '').replace('Bearer ', '')`; an absent header is `""`. Only the
      first occurrence of the scheme is cut, wherever it stands, so a header that starts
      with it yields the rest, and one that never contains it is taken whole as the token. */
  function BearerToken(header: string): (r: string)
    ensures Scheme <= header ==> r == header[|Scheme|..]
    ensures !Contains(header, Scheme) ==> r == header
    ensures |r| == |header| || |r| == |header| - |Scheme|
  {
    var r := ReplaceFirst(header, Scheme, "");
    if Scheme <= header then
      assert header == Scheme + header[|Scheme|..];
      ReplaceLeadingPattern(Scheme, header[|Scheme|..]);
      r
    else if !Contains(header, Scheme) then
      ReplaceAbsentPattern(header, Scheme);
      r
    else r
  }

  /** A header of the usual form yields exactly the token after the scheme. */
  lemma BearerTokenOfScheme(token: string)
    ensures BearerToken("Bearer " + token) == token
  {
    ReplaceLeadingPattern("Bearer ", token);
  }

  /** `adminAuth`: 401 without a token or with one that does not verify, 403 for a
      verified token of another kind, and through only for an administrator token. */
  function AdminGate(header: string, verify: string -> Option<Claims>): (r: Result<()>)
    ensures var t := BearerToken(header); (t == "" || verify(t).None?) ==> r == Err(Unauthorized)
    ensures var t := BearerToken(header);
      (t != "" && verify(t).Some? && verify(t).value.kind != "admin") ==> r == Err(Forbidden)
    ensures var t := BearerToken(header);
      r.Ok? <==> (t != "" && verify(t).Some? && verify(t).value.kind == "admin")
  {
    var token := BearerToken(header);
    if token == "" then Err(Unauthorized)
    else match verify(token)
      case None => Err(Unauthorized)
      case Some(d) => if d.kind != "admin" then Err(Forbidden) else Ok(())
  }

  /** `clientAuth`: the same checks for a client token, which then passes on the
      account the token names. */
  function ClientGate(header: string, verify: string -> Option<Claims>): (r: Result<ClientIdentity>)
    ensures var t := BearerToken(header); (t == "" || verify(t).None?) ==> r == Err(Unauthorized)
    ensures var t := BearerToken(header);
      (t != "" && verify(t).Some? && verify(t).value.kind != "client") ==> r == Err(Forbidden)
    ensures var t := BearerToken(header);
      r.Ok? <==> (t != "" && verify(t).Some? && verify(t).value.kind == "client")
    ensures r.Ok? ==> var d := verify(BearerToken(header)).value;
      r.value == ClientIdentity(d.id, d.email, d.name)
  {
    var token := BearerToken(header);
    if token == "" then Err(Unauthorized)
    else match verify(token)
      case None => Err(Unauthorized)
      case Some(d) => if d.kind != "client" then Err(Forbidden) else Ok(ClientIdentity(d.id, d.email, d.name))
  }

  /** A token issued at administrator login opens the administrator routes and is
      refused with 403 on client routes, provided the verifier returns what was signed. */
  lemma AdminTokenKinds(token: string, verify: string -> Option<Claims>)
    requires token != ""
    requires verify(token) == Some(AdminClaims())
    ensures AdminGate("Bearer " + token, verify) == Ok(())
    ensures ClientGate("Bearer " + token, verify) == Err(Forbidden)
  {
    BearerTokenOfScheme(token);
  }

  /** Symmetrically, a client token opens client routes with its own identity and is
      refused with 403 on administrator routes. */
  lemma ClientTokenKinds(token: string, verify: string -> Option<Claims>, id: int, email: string, name: string)
    requires token != ""
    requires verify(token) == Some(ClientClaims(id, email, name))
    ensures ClientGate("Bearer " + token, verify) == Ok(ClientIdentity(id, email, name))
    ensures AdminGate("Bearer " + token, verify) == Err(Forbidden)
  {
    BearerTokenOfScheme(token);
  }
}
