/**
  The HTTP interceptor: it reads the 'authToken' preference and forwards
  each request to the next handler, with the raw token (no scheme prefix)
  as its Authorization header when the token is non-empty.
*/
module AuthInterceptor {
  import opened Wrappers
  import opened Storage
  import AuthGuard

  const AuthorizationHeader := "Authorization"

  /** The parts of an outgoing request the interceptor can see. */
  datatype HttpRequest = HttpRequest(verb: string, url: string, headers: map<string, string>, body: string)

  /** The request passed on: a clone with the header set when the token is truthy, else the same request. */
  function Forwarded(req: HttpRequest, token: Option<string>): (out: HttpRequest)
    ensures out.verb == req.verb && out.url == req.url && out.body == req.body
    ensures forall k :: k != AuthorizationHeader ==>
      (k in out.headers <==> k in req.headers) && (k in req.headers ==> out.headers[k] == req.headers[k])
    ensures AuthGuard.Truthy(token) ==> AuthorizationHeader in out.headers && out.headers[AuthorizationHeader] == token.value
    ensures !AuthGuard.Truthy(token) ==> out == req
  {
    if AuthGuard.Truthy(token) then req.(headers := req.headers[AuthorizationHeader := token.value]) else req
  }

  /** Intercepting twice with the same token forwards the same request as once. */
  lemma ForwardedIdempotent(req: HttpRequest, token: Option<string>)
    ensures Forwarded(Forwarded(req, token), token) == Forwarded(req, token)
  {
    if AuthGuard.Truthy(token) {
      var once := Forwarded(req, token);
      assert once.headers[AuthorizationHeader := token.value] == once.headers;
    }
  }

  /** The next handler in the chain, seen as the requests it receives. */
  class Handler {
    var received: seq<HttpRequest>

    constructor ()
      ensures received == []
    {
      received := [];
    }

    method Handle(req: HttpRequest)
      modifies this
      ensures received == old(received) + [req]
    {
      received := received + [req];
    }
  }

  /** `authInterceptor(req, next)`: exactly one request reaches `next`. */
  method Intercept(req: HttpRequest, prefs: Store, next: Handler)
    modifies next
    ensures next.received == old(next.received) + [Forwarded(req, prefs.Get(AuthGuard.TokenKey))]
  {
    var token := prefs.Get(AuthGuard.TokenKey);
    var authReq := req;
    if AuthGuard.Truthy(token) {
      authReq := req.(headers := req.headers[AuthorizationHeader := token.value]);
    }
    next.Handle(authReq);
  }
}
