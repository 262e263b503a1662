/**
 * Building the request context: the `Authorization` header is turned into the
 * caller's identity `{ userId, firmId }`, or `null`. Token verification
 * (`jwt.verify` with the server's secret) is a parameter of the model: it
 * yields the decoded payload or fails.
 */
module RequestContext {
  import opened Wrappers
  import opened Strings

  /** `context.user`. */
  datatype ContextUser = ContextUser(userId: string, firmId: string)

  /** The claims the server signs into its tokens. */
  datatype TokenPayload = TokenPayload(userId: string, firmId: string)

  /** What `jwt.sign(payload, secret, { expiresIn })` is asked to produce. */
  datatype SignedToken = SignedToken(payload: TokenPayload, expiresIn: string)

  /** Tokens issued at login and at sign-up expire after seven days. */
  const TokenLifetime := "7d"

  const BearerPrefix := "Bearer "

  /** `(req.headers.authorization || '').replace('Bearer ', '')`. */
  function TokenOf(authorization: Option<string>): string {
    var header := if authorization.Some? then authorization.value else "";
    ReplaceFirst(header, BearerPrefix, "")
  }

  /** `createContext`: an empty token, or one that fails verification, gives no
      identity; nothing is thrown. */
  function CreateContext(authorization: Option<string>, verify: string -> Option<TokenPayload>): (user: Option<ContextUser>)
    ensures user.Some? <==> TokenOf(authorization) != "" && verify(TokenOf(authorization)).Some?
    ensures user.Some? ==>
      var payload := verify(TokenOf(authorization)).value;
      user.value.userId == payload.userId && user.value.firmId == payload.firmId
  {
    var token := TokenOf(authorization);
    if token == "" then None
    else
      match verify(token)
      case None => None
      case Some(decoded) => Some(ContextUser(decoded.userId, decoded.firmId))
  }

  /** A missing or empty header, and a header that is exactly the prefix, give no identity. */
  lemma NoTokenNoUser(verify: string -> Option<TokenPayload>)
    ensures CreateContext(None, verify) == None
    ensures CreateContext(Some(""), verify) == None
    ensures CreateContext(Some(BearerPrefix), verify) == None
  {
    assert OccursAt(BearerPrefix, BearerPrefix, 0);
    ReplaceFirstSpec(BearerPrefix, BearerPrefix);
    ReplaceFirstSpec("", BearerPrefix);
  }

  /** `"Bearer " + t` carries the token `t`. */
  lemma BearerHeader(t: string)
    ensures TokenOf(Some(BearerPrefix + t)) == t
  {
    var h := BearerPrefix + t;
    assert h[0..|BearerPrefix|] == BearerPrefix;
    assert OccursAt(h, BearerPrefix, 0);
    ReplaceFirstSpec(h, BearerPrefix);
    assert h[|BearerPrefix|..] == t;
  }

  /** A header without the prefix is used verbatim; the prefix is removed wherever
      it first occurs, not only at the start of the header. */
  lemma PrefixNotAnchored(header: string, i: nat)
    ensures (forall j :: !OccursAt(header, BearerPrefix, j)) ==> TokenOf(Some(header)) == header
    ensures OccursAt(header, BearerPrefix, i) && (forall j | 0 <= j < i :: !OccursAt(header, BearerPrefix, j)) ==>
      TokenOf(Some(header)) == header[..i] + header[i + |BearerPrefix|..]
  {
    ReplaceFirstSpec(header, BearerPrefix);
  }
}
