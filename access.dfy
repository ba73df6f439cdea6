/**
 * Who may do what (src/middleware/auth.js and the ownership check that
 * src/controllers/campaignController.js and
 * src/controllers/analyticsController.js repeat before every campaign
 * operation): Bearer-header authentication, the admin check, and the
 * "admin or owner" check in which a missing resource is answered before
 * ownership is looked at.
 */
module Access {
  import opened Wrappers
  import opened Text

  type UserId = string

  /** `req.user`: the identity and role carried by a verified token. */
  datatype Principal = Principal(userId: UserId, role: string)

  predicate IsAdmin(p: Principal) {
    p.role == "admin"
  }

  /** The error answers of the access rules: 401, 403, 404, and an exception that reaches the error handler. */
  datatype Denial = Unauthorized | Forbidden | NotFound | ServerError

  function StatusCode(d: Denial): (code: nat)
    ensures 400 <= code < 600
  {
    match d
    case Unauthorized => 401
    case Forbidden => 403
    case NotFound => 404
    case ServerError => 500
  }

  // ---------------------------------------------------------------------
  // The ownership check of the controllers

  /**
   * The check in front of every campaign operation: `owner` is the owner
   * of the requested campaign, or None when there is no such campaign.
   * A missing campaign is answered first, so the answer does not depend on
   * who is asking; an existing one is open to administrators and to its owner.
   */
  function CampaignAccess(owner: Option<UserId>, p: Principal): (r: Option<Denial>)
    ensures owner.None? ==> r == Some(NotFound)
    ensures owner.Some? ==> (r.None? <==> IsAdmin(p) || owner.value == p.userId)
    ensures owner.Some? && r.Some? ==> r.value == Forbidden
  {
    if owner.None? then Some(NotFound)
    else if !IsAdmin(p) && owner.value != p.userId then Some(Forbidden)
    else None
  }

  /**
   * The check tells an outsider whether a campaign exists: asking for a
   * missing campaign gives 404, asking for someone else's gives 403.
   */
  lemma CampaignAccessRevealsExistence(owner: UserId, p: Principal)
    requires !IsAdmin(p) && owner != p.userId
    ensures CampaignAccess(None, p) != CampaignAccess(Some(owner), p)
    ensures StatusCode(CampaignAccess(None, p).value) == 404 && StatusCode(CampaignAccess(Some(owner), p).value) == 403
  {
  }

  // ---------------------------------------------------------------------
  // requireAdmin and requireOwnershipOrAdmin

  /** `requireAdmin`: passes exactly the role `'admin'`, anyone else gets 403. */
  function RequireAdmin(p: Principal): (r: Option<Denial>)
    ensures r.None? <==> IsAdmin(p)
    ensures r.Some? ==> r.value == Forbidden
  {
    if p.role != "admin" then Some(Forbidden) else None
  }

  /** A resource attached to the request: its fields, as strings (`toString()` of each value). */
  type Resource = map<string, string>

  /**
   * `requireOwnershipOrAdmin(field)`: 404 without a resource; otherwise the
   * owner field (default `'owner'`) is read before the role is looked at, so
   * a resource without that field makes `undefined.toString()` throw, even
   * for an administrator; then 403 unless owner or admin.
   */
  function RequireOwnershipOrAdmin(resource: Option<Resource>, field: Option<string>, p: Principal): (r: Option<Denial>)
    ensures resource.None? ==> r == Some(NotFound)
    ensures resource.Some? && field.GetOr("owner") !in resource.value ==> r == Some(ServerError)
    ensures resource.Some? && field.GetOr("owner") in resource.value ==>
      (r.None? <==> resource.value[field.GetOr("owner")] == p.userId || IsAdmin(p))
      && (r.Some? ==> r.value == Forbidden)
  {
    var f := field.GetOr("owner");
    if resource.None? then Some(NotFound)
    else if f !in resource.value then Some(ServerError)
    else
      var isOwner := resource.value[f] == p.userId;
      var isAdmin := p.role == "admin";
      if !isOwner && !isAdmin then Some(Forbidden) else None
  }

  /** With an `owner` field, the middleware decides exactly as the controllers' own check does. */
  lemma OwnershipMiddlewareAgrees(resource: Option<Resource>, p: Principal)
    requires resource.Some? ==> "owner" in resource.value
    ensures RequireOwnershipOrAdmin(resource, None, p)
      == CampaignAccess(if resource.Some? then Some(resource.value["owner"]) else None, p)
  {
  }

  // ---------------------------------------------------------------------
  // authenticate

  const BearerPrefix: string := "Bearer "

  /** The token of an `Authorization` header: the header minus its first 7 characters, when it starts with `"Bearer "`. */
  function BearerToken(header: Option<string>): (token: Option<string>)
    ensures token.Some? <==> header.Some? && StartsWith(header.value, BearerPrefix)
    ensures token.Some? ==> header.value == BearerPrefix + token.value
  {
    if header.None? || header.value == [] || !StartsWith(header.value, BearerPrefix) then None
    else
      assert header.value == header.value[..7] + header.value[7..];
      Some(header.value[7..])
  }

  /** A header built from a token gives that token back. */
  lemma BearerRoundTrip(token: string)
    ensures BearerToken(Some(BearerPrefix + token)) == Some(token)
  {
    assert (BearerPrefix + token)[..7] == BearerPrefix;
  }

  /** What a token verifies to: `verifyAccessToken` returns these claims or throws (None). */
  datatype Claims = Claims(userId: UserId, role: string)

  /** The part of a user record that authentication reads. */
  datatype Account = Account(isActive: bool)

  /**
   * The decision of `authenticate`: 401 without a Bearer header, when the
   * token does not verify, or when its user is missing or inactive;
   * otherwise the request's user is the token's user id and role.
   */
  function Authentication(header: Option<string>, verify: string -> Option<Claims>, accounts: map<UserId, Account>)
    : (r: Result<Principal, Denial>)
    ensures r.Failure? ==> r.error == Unauthorized
    ensures r.Success? <==>
      && BearerToken(header).Some?
      && verify(BearerToken(header).value).Some?
      && verify(BearerToken(header).value).value.userId in accounts
      && accounts[verify(BearerToken(header).value).value.userId].isActive
    ensures r.Success? ==>
      var claims := verify(BearerToken(header).value).value;
      r.value == Principal(claims.userId, claims.role)
  {
    match BearerToken(header)
    case None => Failure(Unauthorized)
    case Some(token) =>
      match verify(token)
      case None => Failure(Unauthorized)
      case Some(claims) =>
        if claims.userId !in accounts || !accounts[claims.userId].isActive then Failure(Unauthorized)
        else Success(Principal(claims.userId, claims.role))
  }

  /** No header, or one without the Bearer prefix, never authenticates, whatever the verifier accepts. */
  lemma NoBearerNoEntry(header: Option<string>, verify: string -> Option<Claims>, accounts: map<UserId, Account>)
    requires header.None? || !StartsWith(header.value, BearerPrefix)
    ensures Authentication(header, verify, accounts) == Failure(Unauthorized)
  {
  }

  /** An incoming request: its `Authorization` header and, once authenticated, `req.user`. */
  class Request {
    const authorization: Option<string>
    var user: Option<Principal>

    constructor (authorization: Option<string>)
      ensures this.authorization == authorization && user.None?
    {
      this.authorization := authorization;
      user := None;
    }

    /** `authenticate`: on success `req.user` is set and the next handler runs; on failure nothing changes. */
    method Authenticate(verify: string -> Option<Claims>, accounts: map<UserId, Account>) returns (r: Option<Denial>)
      modifies this
      ensures var decision := Authentication(authorization, verify, accounts);
        && (r.None? <==> decision.Success?)
        && (decision.Success? ==> user == Some(decision.value))
        && (decision.Failure? ==> r == Some(Unauthorized) && user == old(user))
    {
      var decision := Authentication(authorization, verify, accounts);
      if decision.Failure? {
        return Some(decision.error);
      }
      user := Some(decision.value);
      r := None;
    }
  }
}
