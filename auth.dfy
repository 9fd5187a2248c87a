/**
 * The `fetchUser` gate in front of the cart handlers. Signing and verifying
 * a JSON web token is a foreign library, so a token is modelled as opaque:
 * either one this server signed for a user id with its secret, or anything
 * else (tampered, malformed, signed with another secret).
 */
module Auth {
  import opened Outcomes

  type UserId = nat

  datatype Token = Signed(userId: UserId) | Unverifiable

  /** The token that signup and login hand out for a user. */
  function Issue(uid: UserId): Token
  {
    Signed(uid)
  }

  /** Reads the `auth-token` header: absent is rejected, unverifiable is rejected,
      a verified token yields the user id it carries. */
  function Authenticate(header: Option<Token>): (r: Result<UserId>)
    ensures header.None? ==> r == Err(MissingCredential)
    ensures header == Some(Unverifiable) ==> r == Err(InvalidCredential)
    ensures r.Ok? ==> header == Some(Issue(r.value))
  {
    match header
    case None => Err(MissingCredential)
    case Some(Signed(uid)) => Ok(uid)
    case Some(Unverifiable) => Err(InvalidCredential)
  }

  /** A token issued for a user authenticates as exactly that user. */
  lemma IssuedTokenAuthenticates(uid: UserId)
    ensures Authenticate(Some(Issue(uid))) == Ok(uid)
  {
  }
}
