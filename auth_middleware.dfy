/**
 * The `auth` middleware (CapstoneBackend/middlewares/auth.js): the token is
 * the second field of the `Authorization` header split on single spaces,
 * and a token the verifier accepts sets `req.user` and passes the request on.
 */
module AuthMiddleware {
  import opened Wrappers
  import opened Catalog
  import opened Store

  /** The error messages the routes send, word for word. */
  const NoTokenMessage := "No token provided, authorization denied"
  const BadTokenMessage := "Token is not valid"

  /**
   * A verified token's payload. A login token carries `id` and `role`; the
   * token issued after a session OTP carries only `id`, hence the option.
   */
  datatype Claims = Claims(id: Id, role: Option<Role>)

  predicate NoSpace(s: string) {
    forall k :: 0 <= k < |s| ==> s[k] != ' '
  }

  /** The index of the first space, or `|s|` when there is none. */
  function IndexOfSpace(s: string): (i: nat)
    ensures i <= |s|
    ensures i < |s| ==> s[i] == ' '
    ensures NoSpace(s[..i])
  {
    if s == [] then 0
    else if s[0] == ' ' then 0
    else
      var j := IndexOfSpace(s[1..]);
      assert s[..1 + j] == [s[0]] + s[1..][..j];
      1 + j
  }

  /** JavaScript's `s.split(' ')`: never empty, and no field holds a space. */
  function Split(s: string): (fields: seq<string>)
    ensures |fields| >= 1
    ensures forall k :: 0 <= k < |fields| ==> NoSpace(fields[k])
    decreases |s|
  {
    var i := IndexOfSpace(s);
    if i == |s| then [s] else [s[..i]] + Split(s[i + 1..])
  }

  /** `fields.join(' ')`. */
  function Join(fields: seq<string>): string {
    if |fields| <= 1 then (if fields == [] then "" else fields[0])
    else fields[0] + " " + Join(fields[1..])
  }

  /** Splitting loses nothing: joining the fields gives the header back. */
  lemma {:induction false} JoinSplit(s: string)
    ensures Join(Split(s)) == s
    decreases |s|
  {
    var i := IndexOfSpace(s);
    if i < |s| {
      JoinSplit(s[i + 1..]);
      assert s == s[..i] + " " + s[i + 1..];
    }
  }

  /** Past a space-free prefix, the first space is the first space of the rest. */
  lemma {:induction false} IndexOfSpaceOfNoSpace(a: string, rest: string)
    requires NoSpace(a)
    ensures IndexOfSpace(a + rest) == |a| + IndexOfSpace(rest)
  {
    if a == [] {
      assert a + rest == rest;
    } else {
      var s := a + rest;
      assert s[0] == a[0];
      assert s[1..] == a[1..] + rest;
      assert NoSpace(a[1..]) by {
        forall k | 0 <= k < |a[1..]| ensures a[1..][k] != ' ' {
          assert a[1..][k] == a[k + 1];
        }
      }
      IndexOfSpaceOfNoSpace(a[1..], rest);
    }
  }

  /** A field followed by a space is split off whole. */
  lemma SplitFirst(a: string, rest: string)
    requires NoSpace(a)
    ensures Split(a + " " + rest) == [a] + Split(rest)
  {
    var s := a + " " + rest;
    assert s == a + (" " + rest);
    IndexOfSpaceOfNoSpace(a, " " + rest);
    assert s[..|a|] == a;
    assert s[|a| + 1..] == rest;
  }

  /** And joining fields without spaces splits back into the same fields. */
  lemma {:induction false} SplitJoin(fields: seq<string>)
    requires |fields| >= 1
    requires forall k :: 0 <= k < |fields| ==> NoSpace(fields[k])
    ensures Split(Join(fields)) == fields
  {
    if |fields| == 1 {
      IndexOfSpaceOfNoSpace(fields[0], "");
      assert fields[0] + "" == fields[0];
    } else {
      var tail := fields[1..];
      assert Join(fields) == fields[0] + " " + Join(tail);
      SplitFirst(fields[0], Join(tail));
      assert forall k :: 0 <= k < |tail| ==> NoSpace(tail[k]) by {
        forall k | 0 <= k < |tail| ensures NoSpace(tail[k]) {
          assert tail[k] == fields[k + 1];
        }
      }
      SplitJoin(tail);
      assert fields == [fields[0]] + tail;
    }
  }

  /**
   * `req.headers.authorization && req.headers.authorization.split(' ')[1]`,
   * kept only when truthy: a missing or empty header, a header without a
   * space, or an empty second field give no token.
   */
  function BearerToken(authorization: Option<string>): (token: Option<string>)
    ensures token.Some? ==> authorization.Some? && token.value != "" && NoSpace(token.value)
  {
    if authorization.None? || authorization.value == "" then None
    else
      var fields := Split(authorization.value);
      if |fields| >= 2 && fields[1] != "" then Some(fields[1]) else None
  }

  /** Whatever the scheme word, the field after the first space is the token. */
  lemma {:induction false} TokenFollowsAnyScheme(scheme: string, token: string, rest: seq<string>)
    requires NoSpace(scheme) && NoSpace(token) && token != ""
    requires forall k :: 0 <= k < |rest| ==> NoSpace(rest[k])
    ensures BearerToken(Some(Join([scheme, token] + rest))) == Some(token)
  {
    var fields := [scheme, token] + rest;
    forall k | 0 <= k < |fields| ensures NoSpace(fields[k]) {
      if k >= 2 { assert fields[k] == rest[k - 2]; }
    }
    SplitJoin(fields);
    assert Join(fields) != "" by {
      assert Join(fields) == scheme + " " + Join(fields[1..]);
    }
  }

  /** A header with no space at all (`"Bearer"`, a bare token) gives no token. */
  lemma NoSpaceNoToken(authorization: string)
    requires NoSpace(authorization)
    ensures BearerToken(Some(authorization)) == None
  {
    IndexOfSpaceOfNoSpace(authorization, "");
    assert authorization + "" == authorization;
  }

  /** Two spaces after the scheme leave the second field empty: no token. */
  lemma DoubleSpaceNoToken(scheme: string, rest: string)
    requires NoSpace(scheme)
    ensures BearerToken(Some(scheme + "  " + rest)) == None
  {
    var h := scheme + "  " + rest;
    assert h == scheme + (" " + " " + rest);
    IndexOfSpaceOfNoSpace(scheme, " " + " " + rest);
    assert IndexOfSpace(h) == |scheme|;
    var after := h[|scheme| + 1..];
    assert after == " " + rest;
    assert IndexOfSpace(after) == 0;
    assert Split(after)[0] == "";
    assert Split(h) == [h[..|scheme|]] + Split(after);
  }

  /** What the middleware decides for one request. */
  datatype Outcome = NoToken | BadToken | Authenticated(claims: Claims)

  /**
   * The decision, with `jwt.verify` as a partial function from token text to
   * payload (`None` where it throws).
   */
  function Decide(authorization: Option<string>, verify: string -> Option<Claims>): (o: Outcome)
    ensures o.NoToken? <==> BearerToken(authorization).None?
    ensures o.BadToken? <==> BearerToken(authorization).Some? && verify(BearerToken(authorization).value).None?
    ensures o.Authenticated? <==> BearerToken(authorization).Some? && verify(BearerToken(authorization).value).Some?
    ensures o.Authenticated? ==> Some(o.claims) == verify(BearerToken(authorization).value)
  {
    match BearerToken(authorization)
    case None => NoToken
    case Some(token) =>
      match verify(token)
      case None => BadToken
      case Some(claims) => Authenticated(claims)
  }

  /** The reply the middleware sends itself, if any. */
  function Rejection(o: Outcome): (r: Option<Reply>)
    ensures r.None? <==> o.Authenticated?
    ensures o.NoToken? ==> r == Some(Fail(401, NoTokenMessage))
    ensures o.BadToken? ==> r == Some(Fail(401, BadTokenMessage))
  {
    match o
    case NoToken => Some(Fail(401, NoTokenMessage))
    case BadToken => Some(Fail(401, BadTokenMessage))
    case Authenticated(_) => None
  }

  /** The parts of an Express request the middleware reads and writes. */
  class Request {
    var authorization: Option<string>
    var user: Option<Claims>
    /** How many times the next handler has been called. */
    var nextCalls: nat

    constructor (authorization: Option<string>)
      ensures this.authorization == authorization && user == None && nextCalls == 0
    {
      this.authorization := authorization;
      user := None;
      nextCalls := 0;
    }
  }

  /**
   * `auth(req, res, next)`: rejects with 401 and leaves the request alone, or
   * sets `req.user` to the payload and calls `next` exactly once.
   */
  method Auth(req: Request, verify: string -> Option<Claims>) returns (reply: Option<Reply>)
    modifies req`user, req`nextCalls
    ensures reply == Rejection(Decide(req.authorization, verify))
    ensures reply.Some? ==> req.user == old(req.user) && req.nextCalls == old(req.nextCalls)
    ensures reply.None? ==> req.user == verify(BearerToken(req.authorization).value)
                            && req.nextCalls == old(req.nextCalls) + 1
  {
    var token := BearerToken(req.authorization);
    if token.None? {
      return Some(Fail(401, NoTokenMessage));
    }
    var decoded := verify(token.value);
    if decoded.None? {
      return Some(Fail(401, BadTokenMessage));
    }
    req.user := decoded;
    req.nextCalls := req.nextCalls + 1;
    reply := None;
  }
}
