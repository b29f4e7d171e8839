/** The profile update route (src/app/api/users/profile/route.ts): the
    update payload built from the validated body, the GitHub and LinkedIn
    link normalisation, the phone clean-up, the write to the users table,
    the classification of a failed first stats sync, and the completeness
    flag of the response. Body validation and the stats sync are inputs. */
module Profile {
  import opened Common
  import Auth
  import LeetCode

  const GithubPrefix := "https://github.com/"
  const LinkedinPrefix := "https://linkedin.com/in/"

  /** A body field after validation: missing, `null`, or a string. */
  datatype Field = Absent | Null | Text(value: string)

  /** A present, non-empty string: what `if (field)` accepts. */
  predicate Given(f: Field) {
    f.Text? && f.value != ""
  }

  datatype ProfileRequest = ProfileRequest(
    name: Field, phoneNumber: Field, github: Field, linkedin: Field, leetcodeUsername: Field)

  /** A change to a nullable column: leave it, clear it, or set it. */
  datatype Change = Keep | Clear | Set(value: string)

  /** The columns the update writes; `None` and `Keep` leave a column alone. */
  datatype UpdatePayload = UpdatePayload(
    name: Option<string>,
    github: Option<string>,
    linkedin: Change,
    leetcodeUsername: Option<string>,
    phoneNumber: Change)

  /** A handle becomes a profile link: text starting with "http" is kept,
      anything else is appended to `prefix` with its first "@" removed. */
  function Link(prefix: string, handle: string): string {
    if StartsWith(handle, "http") then handle else prefix + RemoveFirst(handle, '@')
  }

  lemma PrefixStartsWithHttp(prefix: string, rest: string)
    requires StartsWith(prefix, "http")
    ensures StartsWith(prefix + rest, "http")
  {
    assert (prefix + rest)[..4] == prefix[..4];
  }

  /** A link is left as it is: normalising twice is normalising once, for
      both prefixes. */
  lemma LinkIdempotent(prefix: string, handle: string)
    requires prefix == GithubPrefix || prefix == LinkedinPrefix
    ensures Link(prefix, Link(prefix, handle)) == Link(prefix, handle)
  {
    assert StartsWith(prefix, "http");
    if !StartsWith(handle, "http") {
      PrefixStartsWithHttp(prefix, RemoveFirst(handle, '@'));
    }
  }

  /** A bare handle gets the prefix and loses only its first "@". */
  lemma LinkOfHandle(prefix: string, before: string, after: string)
    requires '@' !in before && !StartsWith(before + "@" + after, "http")
    ensures Link(prefix, before + "@" + after) == prefix + before + after
  {
    assert before + "@" + after == before + ['@'] + after;
    SplitJoin(before, '@', after);
  }

  /** A handle without "@" that is not a link is appended unchanged. */
  lemma LinkOfPlainHandle(prefix: string, handle: string)
    requires '@' !in handle && !StartsWith(handle, "http")
    ensures Link(prefix, handle) == prefix + handle
  {
  }

  /** A normalised GitHub link is never empty and never the "pending"
      placeholder, so it always counts as filled in. */
  lemma GithubLinkIsReal(handle: string)
    requires handle != ""
    ensures Link(GithubPrefix, handle) != "" && Link(GithubPrefix, handle) != "pending"
  {
    if !StartsWith(handle, "http") {
      PrefixStartsWithHttp(GithubPrefix, RemoveFirst(handle, '@'));
      assert Link(GithubPrefix, handle)[..4] == "http";
    } else {
      assert handle[..4][0] == 'h' != "pending"[0];
    }
  }

  /** `phone.replace(/\s/g, '')` keeps a number that has any character
      other than white space. */
  lemma {:induction false} PhoneKeepsDigits(phone: string, k: nat)
    requires k < |phone| && !IsJsSpace(phone[k])
    ensures RemoveSpaces(phone) != ""
  {
    if !IsJsSpace(phone[0]) {
    } else {
      PhoneKeepsDigits(phone[1..], k - 1);
    }
  }

  function ChangeOf(f: Field, value: string -> string): Change {
    if f.Absent? then Keep
    else if !Given(f) then Clear
    else Set(value(f.value))
  }

  /** The update a request asks for: name and handle only when non-empty;
      GitHub only when non-empty, as a link; LinkedIn cleared when empty or
      `null`, else a link; the phone cleared when empty or `null`, else
      without white space; a missing field is left alone. */
  function Payload(req: ProfileRequest): UpdatePayload {
    UpdatePayload(
      if Given(req.name) then Some(req.name.value) else None,
      if Given(req.github) then Some(Link(GithubPrefix, req.github.value)) else None,
      ChangeOf(req.linkedin, h => Link(LinkedinPrefix, h)),
      if Given(req.leetcodeUsername) then Some(req.leetcodeUsername.value) else None,
      ChangeOf(req.phoneNumber, RemoveSpaces))
  }

  /** The payload the route assembles field by field is `Payload(req)`. */
  method BuildUpdateData(req: ProfileRequest) returns (p: UpdatePayload)
    ensures p == Payload(req)
    ensures req.linkedin.Absent? ==> p.linkedin.Keep?
    ensures (req.linkedin.Null? || req.linkedin == Text("")) ==> p.linkedin.Clear?
    ensures Given(req.linkedin) ==> p.linkedin == Set(Link(LinkedinPrefix, req.linkedin.value))
    ensures req.phoneNumber.Absent? ==> p.phoneNumber.Keep?
    ensures (req.phoneNumber.Null? || req.phoneNumber == Text("")) ==> p.phoneNumber.Clear?
    ensures Given(req.phoneNumber) ==> p.phoneNumber == Set(RemoveSpaces(req.phoneNumber.value))
    ensures p.name == if Given(req.name) then Some(req.name.value) else None
    ensures p.leetcodeUsername == if Given(req.leetcodeUsername) then Some(req.leetcodeUsername.value) else None
    ensures p.github == if Given(req.github) then Some(Link(GithubPrefix, req.github.value)) else None
    ensures req.linkedin.Absent? ==> p.linkedin.Keep?
    ensures (req.linkedin.Null? || req.linkedin == Text("")) ==> p.linkedin.Clear?
    ensures Given(req.linkedin) ==> p.linkedin == Set(Link(LinkedinPrefix, req.linkedin.value))
    ensures req.phoneNumber.Absent? ==> p.phoneNumber.Keep?
    ensures (req.phoneNumber.Null? || req.phoneNumber == Text("")) ==> p.phoneNumber.Clear?
    ensures Given(req.phoneNumber) ==> p.phoneNumber == Set(RemoveSpaces(req.phoneNumber.value))
  {
    p := UpdatePayload(None, None, Keep, None, Keep);
    if Given(req.name) {
      p := p.(name := Some(req.name.value));
    }
    if Given(req.github) {
      var github := req.github.value;
      p := p.(github := Some(if StartsWith(github, "http") then github else GithubPrefix + RemoveFirst(github, '@')));
    }
    if !req.linkedin.Absent? {
      if !Given(req.linkedin) {
        p := p.(linkedin := Clear);
      } else {
        var linkedin := req.linkedin.value;
        p := p.(linkedin := Set(if StartsWith(linkedin, "http") then linkedin else LinkedinPrefix + RemoveFirst(linkedin, '@')));
      }
    }
    if Given(req.leetcodeUsername) {
      p := p.(leetcodeUsername := Some(req.leetcodeUsername.value));
    }
    if !req.phoneNumber.Absent? {
      p := p.(phoneNumber := if Given(req.phoneNumber) then Set(RemoveSpaces(req.phoneNumber.value)) else Clear);
    }
  }

  function ApplyChange(c: Change, current: Option<string>): Option<string> {
    match c
    case Keep => current
    case Clear => None
    case Set(v) => Some(v)
  }

  /** The row after `update users set ...`. */
  function Apply(u: Auth.User, p: UpdatePayload): Auth.User {
    u.(name := OrElse(p.name, u.name),
       github := OrElse(p.github, u.github),
       linkedin := ApplyChange(p.linkedin, u.linkedin),
       leetcodeUsername := OrElse(p.leetcodeUsername, u.leetcodeUsername),
       phoneNumber := ApplyChange(p.phoneNumber, u.phoneNumber))
  }

  /** A request that fills in every field with a real value completes the
      profile, whatever the row held before. */
  lemma FullUpdateCompletes(u: Auth.User, req: ProfileRequest, k: nat)
    requires Given(req.github) && Given(req.linkedin) && Given(req.leetcodeUsername)
    requires !StartsWith(req.leetcodeUsername.value, "pending_")
    requires req.phoneNumber.Text? && k < |req.phoneNumber.value| && !IsJsSpace(req.phoneNumber.value[k])
    ensures !Auth.IsProfileIncomplete(Some(Apply(u, Payload(req))))
  {
    GithubLinkIsReal(req.github.value);
    PhoneKeepsDigits(req.phoneNumber.value, k);
    var l := req.linkedin.value;
    if !StartsWith(l, "http") {
      assert |Link(LinkedinPrefix, l)| >= |LinkedinPrefix|;
    }
  }

  /** How the first stats sync after setting a handle can fail. */
  datatype SyncError =
    | LeetCodeFailure(message: string, code: string)
    | Thrown(error: Option<string>)

  /** A failed sync is reported as 400 when it is a LeetCode error or an
      error whose message says "not found" or "does not exist"; any other
      failure is ignored. */
  function SyncRejection(e: SyncError): (r: Option<(string, string)>)
    ensures r.Some? <==> e.LeetCodeFailure? ||
                         (e.Thrown? && e.error.Some? && (Contains(e.error.value, "not found") ||
                                                         Contains(e.error.value, "does not exist")))
  {
    match e
    case LeetCodeFailure(message, code) => Some((message, code))
    case Thrown(message) =>
      if message.Some? && (Contains(message.value, "not found") || Contains(message.value, "does not exist"))
      then Some((message.value, "LEETCODE_USER_NOT_FOUND"))
      else None
  }

  /** An unknown LeetCode handle makes the sync fail with a message that
      says "not found", so the update is answered with 400. */
  lemma UnknownHandleRejected(u: string)
    ensures SyncRejection(Thrown(Some(LeetCode.ErrorMessage(LeetCode.UserNotFound(u))))).Some?
  {
    var msg := LeetCode.ErrorMessage(LeetCode.UserNotFound(u));
    var i := |u| + 8;
    var head := "User \"" + u + "\" ";
    assert msg == head + "not found" + " on LeetCode. Please check the username is correct.";
    assert msg[i..i + 9] == "not found";
    assert OccursAt(msg, "not found", i);
  }

  datatype ProfileResponse =
    | Forbidden(message: string)
    | BadRequest(message: string, code: string)
    | NotFound
    | ServerError(message: string)
    | Updated(user: Auth.User, isProfileIncomplete: bool)

  /** What `validateRequest` makes of the body. */
  datatype Validation = Invalid(error: string) | Valid(data: ProfileRequest)

  /** The users table, keyed by id. */
  class UsersTable {
    var rows: map<nat, Auth.User>

    constructor (rows: map<nat, Auth.User>)
      ensures this.rows == rows
    {
      this.rows := rows;
    }

    /** The `PUT` handler behind `requireAuth`. `body` is the validation
        verdict, or the message of the error `req.json()` throws when the
        body is not JSON; `sync` is how the first stats sync failed, if it
        did (it runs only when a handle was sent). */
    method Put(user: Auth.AuthUser, body: Result<Validation, string>, sync: Option<SyncError>)
      returns (resp: ProfileResponse)
      modifies this
      ensures user.ManualAdmin? ==> resp.Forbidden? && rows == old(rows)
      ensures user.Member? && body.Failure? ==> resp == ServerError(body.error) && rows == old(rows)
      ensures user.Member? && body.Success? && body.value.Invalid? ==>
                resp == BadRequest(body.value.error, "VALIDATION_ERROR") && rows == old(rows)
      ensures user.Member? && body.Success? && body.value.Valid? && user.user.id !in old(rows) ==>
                resp == NotFound && rows == old(rows)
      ensures user.Member? && body.Success? && body.value.Valid? && user.user.id in old(rows) ==>
                var req := body.value.data;
                && rows == old(rows)[user.user.id := Apply(old(rows)[user.user.id], Payload(req))]
                && (Given(req.leetcodeUsername) && sync.Some? && SyncRejection(sync.value).Some? ==>
                      resp == BadRequest(SyncRejection(sync.value).value.0, SyncRejection(sync.value).value.1))
                && (!(Given(req.leetcodeUsername) && sync.Some? && SyncRejection(sync.value).Some?) ==>
                      && resp.Updated?
                      && resp.user == rows[user.user.id]
                      && resp.isProfileIncomplete == Auth.IsProfileIncomplete(Some(resp.user)))
      ensures resp.Updated? ==> (user.Member? && user.user.id in rows && resp.user == rows[user.user.id] &&
                                 resp.isProfileIncomplete == Auth.IsProfileIncomplete(Some(resp.user)))
    {
      if user.ManualAdmin? {
        return Forbidden("Manual admin cannot update profile");
      }
      if body.Failure? {
        return ServerError(body.error);
      }
      if body.value.Invalid? {
        return BadRequest(body.value.error, "VALIDATION_ERROR");
      }
      var req := body.value.data;
      var updateData := BuildUpdateData(req);
      var id := user.user.id;
      if id !in rows {
        return NotFound;
      }
      var updatedUser := Apply(rows[id], updateData);
      rows := rows[id := updatedUser];

      if Given(req.leetcodeUsername) && sync.Some? {
        var rejection := SyncRejection(sync.value);
        if rejection.Some? {
          return BadRequest(rejection.value.0, rejection.value.1);
        }
      }

      var isProfileIncomplete :=
        || updatedUser.leetcodeUsername == ""
        || StartsWith(updatedUser.leetcodeUsername, "pending_")
        || updatedUser.github == ""
        || updatedUser.github == "pending"
        || !Truthy(updatedUser.phoneNumber)
        || !Truthy(updatedUser.linkedin);
      resp := Updated(updatedUser, isProfileIncomplete);
    }
  }
}
