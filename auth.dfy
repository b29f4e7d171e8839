/** Request authentication (src/lib/auth.ts): the bearer-token parse, the
    two ways a token resolves to a user, the profile-completeness predicate
    and the decisions of the `requireAuth` and `requireAdmin` wrappers. The
    JWT check, the Supabase lookup and the users table are inputs. */
module Auth {
  import opened Common

  /** A row of the users table. */
  datatype User = User(
    id: nat,
    name: string,
    email: string,
    leetcodeUsername: string,
    github: string,
    linkedin: Option<string>,
    phoneNumber: Option<string>,
    role: string)

  /** The user a request acts as: the fixed identity of a manual admin token,
      or a users-table row together with its completeness flag. */
  datatype AuthUser =
    | ManualAdmin
    | Member(user: User, isProfileIncomplete: bool)
  {
    function Role(): string {
      if ManualAdmin? then "admin" else user.role
    }
  }

  /** The claims of an admin session token that verifies; `None` when the
      token does not verify (a `jwt.verify` that throws). */
  datatype Claims = Claims(role: Option<string>, manual: bool)

  /** What `supabase.auth.getUser(token)` reports. */
  datatype SupabaseReply = LookupError | NoUser | SignedIn(email: Option<string>)

  const ProfileRoute := "/api/users/profile"

  /** A profile is incomplete when there is no user, or a handle that is
      empty or still a `pending_` placeholder, a GitHub link that is empty
      or the placeholder `pending`, or no phone number or LinkedIn link. */
  predicate IsProfileIncomplete(user: Option<User>) {
    || user.None?
    || user.value.leetcodeUsername == ""
    || StartsWith(user.value.leetcodeUsername, "pending_")
    || user.value.github == ""
    || user.value.github == "pending"
    || !Truthy(user.value.phoneNumber)
    || !Truthy(user.value.linkedin)
  }

  /** A complete profile has every field filled with a real value. */
  lemma CompleteProfile(u: User)
    ensures !IsProfileIncomplete(Some(u)) <==>
              && u.leetcodeUsername != "" && !StartsWith(u.leetcodeUsername, "pending_")
              && u.github != "" && u.github != "pending"
              && u.phoneNumber.Some? && u.phoneNumber.value != ""
              && u.linkedin.Some? && u.linkedin.value != ""
  {
  }

  /** `authHeader.split(' ')[1]` for a header that starts with "Bearer ". */
  function Token(header: string): (t: string)
    requires StartsWith(header, "Bearer ")
    ensures ' ' !in t
    ensures StartsWith(header[7..], t)
    ensures 7 + |t| < |header| ==> header[7 + |t|] == ' '
  {
    Before(header[7..], ' ')
  }

  /** The token of "Bearer " followed by a token without spaces is that token. */
  lemma TokenOfBearer(t: string)
    requires ' ' !in t
    ensures StartsWith("Bearer " + t, "Bearer ") && Token("Bearer " + t) == t
  {
    assert ("Bearer " + t)[7..] == t;
    BeforeWhole(t, ' ');
  }

  /** ASCII lower-casing of an e-mail address. */
  function ToLower(s: string): (r: string)
    ensures |r| == |s|
    ensures forall k :: 0 <= k < |s| ==> r[k] == if 'A' <= s[k] <= 'Z' then (s[k] as int + 32) as char else s[k]
  {
    if s == [] then []
    else [if 'A' <= s[0] <= 'Z' then (s[0] as int + 32) as char else s[0]] + ToLower(s[1..])
  }

  /** `select ... where email = e limit 1`: the first row with that e-mail. */
  function FirstWithEmail(table: seq<User>, e: string): (r: Option<User>)
    ensures r.None? <==> forall i :: 0 <= i < |table| ==> table[i].email != e
    ensures r.Some? ==> exists i :: 0 <= i < |table| && table[i] == r.value && r.value.email == e
                                   && forall j :: 0 <= j < i ==> table[j].email != e
  {
    if table == [] then None
    else if table[0].email == e then Some(table[0])
    else
      var r := FirstWithEmail(table[1..], e);
      assert forall i :: 1 <= i < |table| ==> table[i] == table[1..][i - 1];
      if r.Some? then
        ghost var i :| 0 <= i < |table[1..]| && table[1..][i] == r.value && r.value.email == e
                       && forall j :: 0 <= j < i ==> table[1..][j].email != e;
        assert table[i + 1] == r.value;
        r
      else r
  }

  /** `getCurrentUser`: no header, or one not starting with "Bearer ", gives
      no user without any lookup; a token that verifies as a manual admin
      session gives the fixed admin identity; otherwise the Supabase user's
      lower-cased e-mail selects a row of the users table. */
  function GetCurrentUser(
    authHeader: Option<string>,
    verify: string -> Option<Claims>,
    supabase: string -> SupabaseReply,
    table: seq<User>): (r: Option<AuthUser>)
    ensures !(authHeader.Some? && StartsWith(authHeader.value, "Bearer ")) ==> r.None?
    ensures r == Some(ManualAdmin) <==>
              && authHeader.Some? && StartsWith(authHeader.value, "Bearer ")
              && var claims := verify(Token(authHeader.value));
                 claims.Some? && claims.value.role == Some("admin") && claims.value.manual
    ensures r.Some? && r.value.Member? ==>
              && r.value.user in table
              && r.value.isProfileIncomplete == IsProfileIncomplete(Some(r.value.user))
              && var reply := supabase(Token(authHeader.value));
                 reply.SignedIn? && reply.email.Some? && r.value.user.email == ToLower(reply.email.value)
    ensures authHeader.Some? && StartsWith(authHeader.value, "Bearer ") && r != Some(ManualAdmin) ==>
              var reply := supabase(Token(authHeader.value));
              && (r.Some? <==> reply.SignedIn? && reply.email.Some? && ToLower(reply.email.value) != "" &&
                               exists i :: 0 <= i < |table| && table[i].email == ToLower(reply.email.value))
              && (r.Some? ==> r.value.Member? && Some(r.value.user) == FirstWithEmail(table, ToLower(reply.email.value)))
  {
    if authHeader.None? || !StartsWith(authHeader.value, "Bearer ") then None
    else
      var token := Token(authHeader.value);
      var claims := verify(token);
      if claims.Some? && claims.value.role == Some("admin") && claims.value.manual then Some(ManualAdmin)
      else
        var reply := supabase(token);
        if !reply.SignedIn? then None
        else if reply.email.None? || ToLower(reply.email.value) == "" then None
        else
          var row := FirstWithEmail(table, ToLower(reply.email.value));
          if row.None? then None
          else Some(Member(row.value, IsProfileIncomplete(row)))
  }

  /** The outcome of a wrapper: an error response, or the handler runs. */
  datatype Gate = Reject(status: nat, error: string) | Proceed(user: AuthUser)

  /** `requireAuth`: 401 without a user, 403 for an incomplete profile
      anywhere but the profile route, otherwise the handler runs. */
  function RequireAuth(user: Option<AuthUser>, pathname: string): Gate {
    if user.None? then Reject(401, "Unauthorized")
    else if user.value.Member? && user.value.isProfileIncomplete && pathname != ProfileRoute then
      Reject(403, "Profile completion required")
    else Proceed(user.value)
  }

  /** `requireAdmin`: 403 without a user or for any role but admin. */
  function RequireAdmin(user: Option<AuthUser>): Gate {
    if user.None? || user.value.Role() != "admin" then Reject(403, "Admin access denied")
    else Proceed(user.value)
  }

  /** A request passes `requireAuth` exactly when it carries a user whose
      profile is complete, or it is the profile route itself. */
  lemma RequireAuthPasses(
    authHeader: Option<string>, verify: string -> Option<Claims>,
    supabase: string -> SupabaseReply, table: seq<User>, pathname: string)
    ensures var user := GetCurrentUser(authHeader, verify, supabase, table);
            var gate := RequireAuth(user, pathname);
            && (gate.Proceed? <==> user.Some? && (user.value.ManualAdmin? ||
                                                  !IsProfileIncomplete(Some(user.value.user)) ||
                                                  pathname == ProfileRoute))
            && (gate.Proceed? ==> gate.user == user.value)
            && (user.None? ==> gate == Reject(401, "Unauthorized"))
  {
  }

  /** `requireAdmin` lets through the manual admin and users-table rows
      whose role is admin, and nobody else. */
  lemma RequireAdminPasses(
    authHeader: Option<string>, verify: string -> Option<Claims>,
    supabase: string -> SupabaseReply, table: seq<User>)
    ensures var user := GetCurrentUser(authHeader, verify, supabase, table);
            RequireAdmin(user).Proceed? <==>
              user.Some? && (user.value.ManualAdmin? || user.value.user.role == "admin")
  {
  }

  /** A verified manual admin token passes both wrappers on every path,
      whatever the Supabase lookup and the users table say. */
  lemma ManualAdminPasses(
    t: string, verify: string -> Option<Claims>,
    supabase: string -> SupabaseReply, table: seq<User>, pathname: string)
    requires ' ' !in t
    requires verify(t) == Some(Claims(Some("admin"), true))
    ensures var user := GetCurrentUser(Some("Bearer " + t), verify, supabase, table);
            && user == Some(ManualAdmin)
            && RequireAuth(user, pathname) == Proceed(ManualAdmin)
            && RequireAdmin(user) == Proceed(ManualAdmin)
  {
    TokenOfBearer(t);
  }
}
