/** The HTTP layer around Logout: the JWT middleware fills the request context, the handler
    reads the user id back out of it and calls the service. */
module AuthHandler {
  import opened Uuids
  import opened AuthProtocol
  import opened AuthService
  import opened Identity

  // What gin keeps per key; handlers must cope with values of other types.
  datatype Value = Text(text: string) | OtherValue

  const UNAUTHORIZED := 401
  const BAD_REQUEST := 400
  const INTERNAL_ERROR := 500
  const NO_CONTENT := 204

  class GinContext {
    const authorization: string      // "" when the header is missing
    var keys: map<string, Value>
    var aborted: bool
    var status: int

    constructor (authorization: string)
      ensures this.authorization == authorization && keys == map[] && !aborted && status == 0
    {
      this.authorization := authorization;
      this.keys, this.aborted, this.status := map[], false, 0;
    }
  }

  // JWTMiddleware: on success the user id and role are in the context, on failure it is 401.
  method JWTMiddleware(c: GinContext, wire: Wire, secret: string, now: int)
    requires !c.aborted
    modifies c
    ensures var claims := Authenticate(wire, c.authorization, secret, now);
            claims.Some? ==>
              && c.keys == old(c.keys)["userId" := Text(Uuids.Text(claims.value.sub))]
                                      ["role" := Text(claims.value.role)]
              && !c.aborted && c.status == old(c.status)
    // anything but the scheme and a validated token is refused
    ensures !("Bearer " <= c.authorization) || c.authorization == "Bearer "
            || Authenticate(wire, c.authorization, secret, now).None?
            ==> c.keys == old(c.keys) && c.aborted && c.status == 401
  {
    var token := ExtractBearer(c.authorization);
    if token == "" {
      c.status, c.aborted := UNAUTHORIZED, true;
      return;
    }
    var claims := ValidateText(wire, token, secret, now);
    if claims.None? {
      c.status, c.aborted := UNAUTHORIZED, true;
      return;
    }
    c.keys := c.keys["userId" := Text(Uuids.Text(claims.value.sub))];
    c.keys := c.keys["role" := Text(claims.value.role)];
  }

  // Logout: a refused request reaches no store; any other is answered 204, even when the
  // store call fails.
  method Logout(c: GinContext, svc: Service, rid: nat, turns: seq<Turn>)
    requires rid !in svc.requests && |turns| >= 1 && OthersOnly(turns, rid)
    modifies c, svc, svc.users, svc.tokens
    ensures "userId" !in old(c.keys) || old(c.keys)["userId"].OtherValue? ==>
              c.status == 500 && svc.View() == old(svc.View())
    ensures "userId" in old(c.keys) && old(c.keys)["userId"].Text? ==>
              var id := Parse(old(c.keys)["userId"].text);
              if id.None? then c.status == 400 && svc.View() == old(svc.View())
              else
                && c.status == 204
                && Took(Next(old(svc.View()), Start(rid, Flow.Logout(id.value))), svc.View(), rid, turns[..1])
  {
    if "userId" !in c.keys {
      c.status := INTERNAL_ERROR;
      return;
    }
    var raw := c.keys["userId"];
    if !raw.Text? {
      c.status := INTERNAL_ERROR;
      return;
    }
    var userID := Parse(raw.text);
    if userID.None? {
      c.status := BAD_REQUEST;
      return;
    }
    var _ := svc.Logout(rid, userID.value, turns);
    c.status := NO_CONTENT;
  }

  /** The protected route. With an accepted token the logout runs for the user the token
      names, and the answer is 204; otherwise it is 401 and no store is touched. */
  method LogoutRoute(c: GinContext, wire: Wire, svc: Service, rid: nat, turns: seq<Turn>)
    requires !c.aborted && rid !in svc.requests && |turns| >= 1 && OthersOnly(turns, rid)
    modifies c, svc, svc.users, svc.tokens
    ensures var claims := Authenticate(wire, c.authorization, svc.cfg.secret, old(svc.now));
            if claims.Some?
            then c.status == 204
                 && Took(Next(old(svc.View()), Start(rid, Flow.Logout(claims.value.sub))), svc.View(), rid, turns[..1])
            else c.status == 401 && svc.View() == old(svc.View())
  {
    JWTMiddleware(c, wire, svc.cfg.secret, svc.now);
    if c.aborted {
      return;
    }
    ghost var claims := Authenticate(wire, c.authorization, svc.cfg.secret, svc.now);
    ParseOfText(claims.value.sub);
    Logout(c, svc, rid, turns);
  }
}
