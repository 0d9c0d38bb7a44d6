/** The bearer-token gate in front of authenticated routes, and the role gate. */
module AuthMiddleware {
  import opened Wrappers
  import opened Strings
  import opened Store

  /** What a middleware does with a request: pass it on with a principal, or answer it. */
  datatype Outcome = Next(user: Principal) | Reject(status: int, message: string)

  /**
   * The credential of an `Authorization` header: the second space-separated
   * segment, when the first is exactly `Bearer` and the second is not empty.
   */
  function BearerToken(header: Option<string>): (t: Option<string>)
    ensures t.Some? ==> t.value != "" && ' ' !in t.value
  {
    var parts := Split(OrEmpty(header), ' ');
    if parts[0] == "Bearer" && |parts| >= 2 && parts[1] != "" then Some(parts[1]) else None
  }

  /**
   * `authRequired`: 401 "Unauthorized" without a bearer credential, 401
   * "Invalid token" when verification fails, otherwise the decoded principal.
   */
  function AuthRequired(header: Option<string>, verify: string -> Option<Principal>): (r: Outcome)
    ensures r.Next? <==> BearerToken(header).Some? && verify(BearerToken(header).value).Some?
    ensures r.Next? ==> r.user == verify(BearerToken(header).value).value
    ensures r.Reject? ==> r.status == 401
    ensures BearerToken(header).None? ==> r == Reject(401, "Unauthorized")
    ensures BearerToken(header).Some? && verify(BearerToken(header).value).None? ==>
              r == Reject(401, "Invalid token")
  {
    match BearerToken(header)
    case None => Reject(401, "Unauthorized")
    case Some(token) =>
      match verify(token)
      case None => Reject(401, "Invalid token")
      case Some(p) => Next(p)
  }

  /**
   * A found credential is the text right after `Bearer `, up to the next
   * space or the end of the header.
   */
  lemma BearerTokenShape(header: Option<string>)
    requires BearerToken(header).Some?
    ensures header.Some?
    ensures var s, t := header.value, BearerToken(header).value;
            |s| >= 7 + |t| && s[..7] == "Bearer " && s[7..7 + |t|] == t &&
            (|s| == 7 + |t| || s[7 + |t|] == ' ')
  {
    var s := OrEmpty(header);
    var parts := Split(s, ' ');
    var t := parts[1];
    JoinSplit(s, ' ');
    assert s == "Bearer" + [' '] + Join(parts[1..], ' ');
    var tail := Join(parts[1..], ' ');
    if |parts| == 2 {
      assert tail == t;
    } else {
      assert parts[1..][1..] == parts[2..];
      assert tail == t + [' '] + Join(parts[2..], ' ');
    }
    assert s[7..7 + |t|] == tail[..|t|];
  }

  /** After `Bearer` and one space, the credential is whatever precedes the next space. */
  lemma BearerThen(x: string)
    ensures BearerToken(Some("Bearer" + [' '] + x)) ==
      (if Split(x, ' ')[0] != "" then Some(Split(x, ' ')[0]) else None)
  {
    assert ' ' !in "Bearer";
    SplitAt("Bearer", ' ', x);
  }

  /** Conversely, `Bearer <t>` followed by nothing or by a space yields `t`. */
  lemma BearerTokenOf(t: string, rest: string)
    requires t != "" && ' ' !in t
    requires rest == "" || rest[0] == ' '
    ensures BearerToken(Some("Bearer " + t + rest)) == Some(t)
  {
    assert "Bearer " + t + rest == "Bearer" + [' '] + (t + rest);
    BearerThen(t + rest);
    if rest == "" {
      assert t + rest == t;
      SplitNone(t, ' ');
    } else {
      assert t + rest == t + [' '] + rest[1..];
      SplitAt(t, ' ', rest[1..]);
    }
  }

  /** `Bearer` alone carries no credential. */
  lemma BearerAloneRejected(verify: string -> Option<Principal>)
    ensures AuthRequired(Some("Bearer"), verify) == Reject(401, "Unauthorized")
  {
    SplitNone("Bearer", ' ');
  }

  /** `Bearer` followed by two spaces carries an empty credential, which is rejected. */
  lemma DoubleSpaceRejected(rest: string, verify: string -> Option<Principal>)
    ensures AuthRequired(Some("Bearer  " + rest), verify) == Reject(401, "Unauthorized")
  {
    var x := [' '] + rest;
    assert "Bearer  " + rest == "Bearer" + [' '] + x;
    assert x == "" + [' '] + rest;
    SplitAt("", ' ', rest);
    BearerThen(x);
    assert BearerToken(Some("Bearer  " + rest)) == None;
  }

  /**
   * `requireRole(roles)`: 401 without a principal, 403 "Forbidden" when its
   * role is not listed, otherwise the request goes on.
   */
  function RequireRole(user: Option<Principal>, roles: seq<string>): (r: Outcome)
    ensures r.Next? <==> user.Some? && user.value.role in roles
    ensures r.Next? ==> r.user == user.value
    ensures user.None? ==> r == Reject(401, "Unauthorized")
    ensures user.Some? && user.value.role !in roles ==> r == Reject(403, "Forbidden")
  {
    if user.None? then Reject(401, "Unauthorized")
    else if user.value.role !in roles then Reject(403, "Forbidden")
    else Next(user.value)
  }

  /** The default, empty role list lets nobody through. */
  lemma EmptyRoleListForbids(user: Option<Principal>)
    ensures RequireRole(user, []).Reject?
  {
  }
}
