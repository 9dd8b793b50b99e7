/** Password login and 24-hour admin sessions (server/adminAuth.ts). The
    session table is a process-wide map updated in place; the clock and the
    random token are parameters. */
module AdminAuth {
  import opened Common

  /** 24 hours in milliseconds. */
  const SessionDuration: int := 24 * 60 * 60 * 1000

  /** The password used when the environment supplies none (or an empty one). */
  const DefaultPassword: string := "admin123"

  datatype Session = Session(createdAt: int, lastAccessed: int)

  /** A session has expired once strictly more than 24 hours have passed
      since it was created; last access plays no part. */
  predicate Expired(s: Session, now: int) {
    now - s.createdAt > SessionDuration
  }

  /** The map that cleanup leaves: the unexpired sessions, untouched. */
  function Unexpired(sessions: map<string, Session>, now: int): (r: map<string, Session>)
    ensures forall t :: t in r <==> t in sessions && !Expired(sessions[t], now)
    ensures forall t :: t in r ==> r[t] == sessions[t]
  {
    map t | t in sessions && !Expired(sessions[t], now) :: sessions[t]
  }

  /** What the Express middleware does with a request. */
  datatype AuthDecision = Unauthorized | Next

  /** The token the middleware looks at: the Authorization header with its
      first "Bearer " removed, or the adminToken cookie when the header is
      absent or leaves nothing. */
  function ExtractToken(authorization: Option<string>, cookie: Option<string>): (r: Option<string>)
  {
    var fromHeader := match authorization
      case Some(h) => ReplaceFirst(h, "Bearer ", "")
      case None => "";
    if fromHeader != "" then Some(fromHeader) else cookie
  }

  /** A bearer header carries its token through unchanged; without a usable
      header the cookie is taken as it is. */
  lemma ExtractTokenCases(t: string, cookie: Option<string>)
    ensures t != "" ==> ExtractToken(Some("Bearer " + t), cookie) == Some(t)
    ensures ExtractToken(Some("Bearer "), cookie) == cookie
    ensures ExtractToken(None, cookie) == cookie
  {
    StripLeadingPattern("Bearer ", t);
    StripLeadingPattern("Bearer ", "");
    assert "Bearer " + "" == "Bearer ";
  }

  class AdminAuthenticator {
    /** ADMIN_PASSWORD, or the default when that is unset or empty. */
    const password: string
    var sessions: map<string, Session>

    constructor (envPassword: Option<string>)
      ensures password == (if envPassword.Some? && envPassword.value != "" then envPassword.value else DefaultPassword)
      ensures sessions == map[]
    {
      password := if envPassword.Some? && envPassword.value != "" then envPassword.value else DefaultPassword;
      sessions := map[];
    }

    /** Opens a session under token (the random token is supplied by the
        caller) created and last accessed now. */
    method GenerateAdminToken(token: string, now: int) returns (r: string)
      modifies this
      ensures r == token
      ensures sessions == old(sessions)[token := Session(now, now)]
    {
      sessions := sessions[token := Session(now, now)];
      r := token;
    }

    /** Unknown token: false, nothing changes. Expired: the session is
        deleted and false. Otherwise true, and only lastAccessed moves. */
    method ValidateAdminToken(token: string, now: int) returns (valid: bool)
      modifies this
      ensures token !in old(sessions) ==> !valid && sessions == old(sessions)
      ensures token in old(sessions) && Expired(old(sessions)[token], now) ==>
        !valid && sessions == old(sessions) - {token}
      ensures token in old(sessions) && !Expired(old(sessions)[token], now) ==>
        valid && sessions == old(sessions)[token := old(sessions)[token].(lastAccessed := now)]
      ensures valid <==> token in old(sessions) && !Expired(old(sessions)[token], now)
    {
      if token !in sessions {
        return false;
      }
      var session := sessions[token];
      if now - session.createdAt > SessionDuration {
        sessions := sessions - {token};
        return false;
      }
      sessions := sessions[token := session.(lastAccessed := now)];
      valid := true;
    }

    /** The first pass of cleanup: the tokens of every expired session. */
    method CollectExpired(now: int) returns (toDelete: set<string>)
      ensures forall t :: t in toDelete <==> t in sessions && Expired(sessions[t], now)
    {
      toDelete := {};
      var pending := sessions.Keys;
      while pending != {}
        invariant pending <= sessions.Keys
        invariant forall t :: t in toDelete <==> t in sessions && t !in pending && Expired(sessions[t], now)
        decreases pending
      {
        var t :| t in pending;
        if now - sessions[t].createdAt > SessionDuration {
          toDelete := toDelete + {t};
        }
        pending := pending - {t};
      }
    }

    /** Deletes exactly the expired sessions and leaves the rest as they were. */
    method CleanupExpiredSessions(now: int)
      modifies this
      ensures sessions == Unexpired(old(sessions), now)
    {
      var toDelete := CollectExpired(now);
      var remaining := toDelete;
      while remaining != {}
        invariant remaining <= toDelete
        invariant sessions == old(sessions) - (toDelete - remaining)
        decreases remaining
      {
        var t :| t in remaining;
        sessions := sessions - {t};
        remaining := remaining - {t};
      }
      assert sessions == Unexpired(old(sessions), now);
    }

    /** A matching password opens a session and returns its token; any other
        password returns nothing and leaves the sessions alone. */
    method AuthenticateAdmin(attempt: string, freshToken: string, now: int) returns (r: Option<string>)
      modifies this
      ensures attempt == password ==> r == Some(freshToken) && sessions == old(sessions)[freshToken := Session(now, now)]
      ensures attempt != password ==> r == None && sessions == old(sessions)
    {
      if attempt == password {
        var token := GenerateAdminToken(freshToken, now);
        return Some(token);
      }
      return None;
    }

    /** The Express branch of requireAdminAuth: 401 unless the extracted
        token names a live session, in which case the request goes on. A
        non-empty token goes through validation, which deletes an expired
        session and refreshes a live one. */
    method RequireAdminAuth(authorization: Option<string>, cookie: Option<string>, now: int)
      returns (decision: AuthDecision)
      modifies this
      ensures var token := ExtractToken(authorization, cookie);
        decision == Next <==>
          token.Some? && token.value != "" && token.value in old(sessions)
          && !Expired(old(sessions)[token.value], now)
      ensures var token := ExtractToken(authorization, cookie);
        !(token.Some? && token.value != "") ==> sessions == old(sessions)
      ensures var token := ExtractToken(authorization, cookie);
        token.Some? && token.value != "" ==>
          sessions ==
            if token.value !in old(sessions) then old(sessions)
            else if Expired(old(sessions)[token.value], now) then old(sessions) - {token.value}
            else old(sessions)[token.value := old(sessions)[token.value].(lastAccessed := now)]
    {
      var token := ExtractToken(authorization, cookie);
      if token.None? || token.value == "" {
        return Unauthorized;
      }
      var valid := ValidateAdminToken(token.value, now);
      decision := if valid then Next else Unauthorized;
    }
  }

  /** Validation never extends a session: the expiry deadline of every
      surviving session is the one it was created with. */
  lemma ValidationKeepsCreation(sessions: map<string, Session>, token: string, now: int)
    requires token in sessions && !Expired(sessions[token], now)
    ensures var s' := sessions[token := sessions[token].(lastAccessed := now)];
      forall t :: t in s' ==> t in sessions && s'[t].createdAt == sessions[t].createdAt
  {
  }

  /** An expired session stays expired at every later time. */
  lemma ExpiryIsPermanent(s: Session, now: int, later: int)
    requires Expired(s, now) && now <= later
    ensures Expired(s, later)
  {
  }

  /** Exactly 24 hours after creation a session is still valid; one
      millisecond later it is not. */
  lemma ExpiryBoundary(s: Session)
    ensures !Expired(s, s.createdAt + SessionDuration)
    ensures Expired(s, s.createdAt + SessionDuration + 1)
  {
  }

  /** Cleanup is idempotent. */
  lemma CleanupIdempotent(sessions: map<string, Session>, now: int)
    ensures Unexpired(Unexpired(sessions, now), now) == Unexpired(sessions, now)
  {
  }
}
