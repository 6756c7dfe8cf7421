/** The session table and the endpoints that drive it, in the shape of the source. */
module SessionStoreClass {
  import opened Wrappers
  import opened RefreshRotation

  class SessionStore {
    var sessions: seq<Session>
    var next: Token
    var now: int
    const life: nat

    function View(): State
      reads this
    {
      State(sessions, next, now, life)
    }

    constructor (life: nat)
      ensures View() == Run(life, []).state
    {
      this.life := life;
      sessions, next, now := [], 0, 0;
    }

    method CreateSessionRecord(user: nat, accessToken: Token, refreshToken: Token) returns (row: nat)
      modifies this`sessions
      ensures row == old(|sessions|)
      ensures sessions == old(sessions) + [Session(user, accessToken, refreshToken, true, now, now + life)]
    {
      row := |sessions|;
      sessions := sessions + [Session(user, accessToken, refreshToken, true, now, now + life)];
    }

    method IssueTokenPair(user: nat) returns (row: nat)
      modifies this
      ensures View() == Create(old(View()), user) && row == old(|sessions|)
    {
      var accessToken, refreshToken := next, next + 1;
      next := next + 2;
      row := CreateSessionRecord(user, accessToken, refreshToken);
    }

    method ConsumeRefreshSession(token: Token) returns (row: Option<nat>)
      modifies this`sessions
      ensures (View(), row) == Consume(old(View()), token)
    {
      var found := ByRefresh(sessions, token);
      if found.None? || !sessions[found.value].active {
        return None;
      }
      var k := found.value;
      if sessions[k].expiresAt < now {
        sessions := sessions[k := sessions[k].(active := false, lastActivity := now)];
        return None;
      }
      sessions := sessions[k := sessions[k].(active := false, lastActivity := now)];
      row := Some(k);
    }

    method RevokeAccessSession(token: Token) returns (revoked: bool)
      modifies this`sessions
      ensures (View(), revoked) == Revoke(old(View()), token)
    {
      var found := ByAccess(sessions, token);
      if found.None? || !sessions[found.value].active {
        return false;
      }
      var k := found.value;
      sessions := sessions[k := sessions[k].(active := false, lastActivity := now)];
      revoked := true;
    }

    method LogIn(user: nat, authenticated: bool) returns (answer: Answer)
      modifies this
      ensures (View(), answer) == Step(old(View()), Login(user, authenticated))
    {
      if !authenticated {
        return Unauthorized;
      }
      var row := IssueTokenPair(user);
      answer := Issued(row);
    }

    method RefreshToken(token: Token, jwt: Option<nat>, known: bool) returns (answer: Answer)
      modifies this
      ensures (View(), answer) == Step(old(View()), Refresh(token, jwt, known))
    {
      if jwt.None? {
        return Unauthorized;
      }
      var consumed := ConsumeRefreshSession(token);
      if consumed.None? {
        return Unauthorized;
      }
      if !known {
        return Unauthorized;
      }
      var row := IssueTokenPair(jwt.value);
      answer := Issued(row);
    }

    method LogOut(bearer: Option<Token>) returns (answer: Answer)
      modifies this
      ensures (View(), answer) == Step(old(View()), Logout(bearer))
    {
      var revoked := false;
      if bearer.Some? {
        revoked := RevokeAccessSession(bearer.value);
      }
      answer := LoggedOut(revoked);
    }
  }
}
