/**
 * AuthMiddleware.initialize (src/middleware/auth.middleware.ts): pick the token from the
 * `token` cookie or the Authorization header, verify it, and either answer 401, attach
 * the decoded payload to the request and call `next`, or do neither.  The JWT check is
 * the parameter `verify`: `None` when `jwt.verify` throws, otherwise the decoded payload.
 */
module Middleware {
  import opened Wrappers
  import opened Js
  import opened Http

  const NoTokenProvided := "No token provided"
  const InvalidOrExpired := "Invalid or expired token"
  const Bearer := "Bearer "

  /** A cookie or header value that `!value` lets through: present and not empty. */
  predicate Present(value: Option<string>) {
    value.Some? && value.value != ""
  }

  /**
   * The token to verify: a usable `token` cookie as it is, else the Authorization header
   * with its first "Bearer " removed; `None` when neither is usable.
   */
  function ExtractToken(cookie: Option<string>, authorization: Option<string>): (token: Option<string>)
    ensures Present(cookie) ==> token == cookie
    ensures token.None? <==> !Present(cookie) && !Present(authorization)
    ensures !Present(cookie) && Present(authorization) ==> token == Some(RemoveFirst(authorization.value, Bearer))
  {
    if Present(cookie) then cookie
    else if !Present(authorization) then None
    else Some(RemoveFirst(authorization.value, Bearer))
  }

  /**
   * Without a usable cookie, "Bearer t" yields `t`, and a header that never contains
   * "Bearer " is used verbatim.
   */
  lemma HeaderToken(cookie: Option<string>, t: string, header: string)
    requires !Present(cookie)
    ensures ExtractToken(cookie, Some(Bearer + t)) == Some(t)
    ensures header != [] && (forall j :: !OccursAt(header, Bearer, j)) ==> ExtractToken(cookie, Some(header)) == Some(header)
  {
    RemoveFirstOfPrefix(Bearer, t);
  }

  /** `decoded?.userId` is truthy. */
  predicate HasUserId(decoded: Json) {
    IsObject(decoded) && var id := Member(decoded, "userId"); id.Some? && Truthy(id.value)
  }

  /** What one call of the middleware does. */
  datatype Decision =
    /** `response.status(401).json(...)`, and nothing else */
    | Reject(reply: Reply)
    /** `request.user = user; next()` */
    | Proceed(user: Json)
    /** a verified token without a truthy `userId`: no response and no `next` */
    | Stall

  function Authenticate(cookie: Option<string>, authorization: Option<string>, verify: string -> Option<Json>): (d: Decision)
    ensures d.Reject? ==> d.reply.status == 401
    ensures d == Reject(Reply(401, Payload(Field("error", NoTokenProvided))))
        <==> !Present(cookie) && !Present(authorization)
    ensures d == Reject(Reply(401, Payload(Field("error", InvalidOrExpired))))
        <==> ExtractToken(cookie, authorization).Some? && verify(ExtractToken(cookie, authorization).value).None?
    ensures d.Proceed? <==>
        var token := ExtractToken(cookie, authorization);
        token.Some? && verify(token.value).Some? && HasUserId(verify(token.value).value)
    ensures d.Proceed? ==> verify(ExtractToken(cookie, authorization).value) == Some(d.user)
  {
    match ExtractToken(cookie, authorization)
    case None => Reject(Reply(401, Payload(Field("error", NoTokenProvided))))
    case Some(token) =>
      match verify(token)
      case None => Reject(Reply(401, Payload(Field("error", InvalidOrExpired))))
      case Some(decoded) => if HasUserId(decoded) then Proceed(decoded) else Stall
  }

  /** A usable cookie decides alone: the Authorization header is never consulted. */
  lemma CookieTakesPrecedence(cookie: Option<string>, header1: Option<string>, header2: Option<string>, verify: string -> Option<Json>)
    requires Present(cookie)
    ensures Authenticate(cookie, header1, verify) == Authenticate(cookie, header2, verify)
  {
  }

  /** The request and response of one call, as far as the middleware reads and writes them. */
  class Exchange {
    /** `request.cookies.token` */
    const cookie: Option<string>
    /** `request.headers['authorization']` */
    const authorization: Option<string>
    /** `request.user` */
    var user: Option<Json>
    /** the replies written to `response`, oldest first */
    var replies: seq<Reply>
    /** how many times `next` was called */
    var nextCalls: nat

    constructor (cookie: Option<string>, authorization: Option<string>)
      ensures this.cookie == cookie && this.authorization == authorization
      ensures user == None && replies == [] && nextCalls == 0
    {
      this.cookie := cookie;
      this.authorization := authorization;
      user, replies, nextCalls := None, [], 0;
    }
  }

  /**
   * initialize: performs the decision of `Authenticate` on the exchange; every path
   * writes at most one reply or calls `next` at most once, never both.
   */
  method Initialize(x: Exchange, verify: string -> Option<Json>)
    modifies x
    ensures |x.replies| + x.nextCalls <= |old(x.replies)| + old(x.nextCalls) + 1
    ensures match Authenticate(x.cookie, x.authorization, verify)
      case Reject(reply) =>
        x.replies == old(x.replies) + [reply] && x.nextCalls == old(x.nextCalls) && x.user == old(x.user)
      case Proceed(user) =>
        x.replies == old(x.replies) && x.nextCalls == old(x.nextCalls) + 1 && x.user == Some(user)
      case Stall =>
        x.replies == old(x.replies) && x.nextCalls == old(x.nextCalls) && x.user == old(x.user)
  {
    var token := x.cookie;
    if !Present(token) {
      var authToken := x.authorization;
      if !Present(authToken) {
        x.replies := x.replies + [Reply(401, Payload(Field("error", NoTokenProvided)))];
        return;
      }
      token := Some(RemoveFirst(authToken.value, Bearer));
    }
    var decoded := verify(token.value);
    if decoded.None? {
      x.replies := x.replies + [Reply(401, Payload(Field("error", InvalidOrExpired)))];
      return;
    }
    if HasUserId(decoded.value) {
      x.user := decoded;
      x.nextCalls := x.nextCalls + 1;
    }
  }
}
