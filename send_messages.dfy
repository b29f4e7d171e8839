/** The admin broadcast of a custom message to chosen users
    (src/app/api/admin/send-messages/route.ts): the checks on the request,
    the selection of the users, and the loop that sends by e-mail, by
    WhatsApp or both and tallies what was sent and what failed. The
    transports are inputs: one outcome per user and channel. */
module SendMessages {
  import opened Common
  import Auth

  /** What a send reports. A send that throws counts as a failure with the
      thrown message, as the handler's `catch` blocks treat it. */
  datatype SendResult = Sent | Failed(error: string)

  /** The JSON body; `userIds` and `messageType` may be missing. */
  datatype MessagesBody = MessagesBody(
    userIds: Option<seq<nat>>,
    messageType: Option<string>,
    emailSubject: string,
    emailMessage: string,
    whatsappMessage: string)

  datatype Results = Results(
    emailsSent: nat,
    emailsFailed: nat,
    whatsappSent: nat,
    whatsappFailed: nat,
    errors: seq<string>)

  datatype Response =
    | Rejected(status: nat, error: string)
    | ServerError(message: string)
    | Completed(results: Results, totalUsers: nat)

  const NoResults := Results(0, 0, 0, 0, [])

  predicate EmailOn(messageType: Option<string>) {
    messageType == Some("email") || messageType == Some("both")
  }

  predicate WhatsAppOn(messageType: Option<string>) {
    messageType == Some("whatsapp") || messageType == Some("both")
  }

  /** `where id in (userIds)`: the rows whose id was asked for, in table order. */
  function Selected(table: seq<Auth.User>, ids: seq<nat>): (r: seq<Auth.User>)
    ensures |r| <= |table|
    ensures forall u :: u in r <==> u in table && u.id in ids
  {
    if table == [] then []
    else
      var rest := Selected(table[1..], ids);
      assert forall u :: u in table <==> u == table[0] || u in table[1..];
      if table[0].id in ids then [table[0]] + rest else rest
  }

  /** The e-mail half of an iteration, for "email" and "both": every
      failure adds an error naming the user. */
  function EmailStep(r: Results, u: Auth.User, messageType: Option<string>, e: SendResult): Results {
    if !EmailOn(messageType) then r
    else if e.Sent? then r.(emailsSent := r.emailsSent + 1)
    else r.(emailsFailed := r.emailsFailed + 1,
            errors := r.errors + ["Email failed for " + u.name + ": " + e.error])
  }

  /** The WhatsApp half, for "whatsapp" and "both": a user without a phone
      number counts as a failure, with its own error. */
  function WhatsAppStep(r: Results, u: Auth.User, messageType: Option<string>, w: SendResult): Results {
    if !WhatsAppOn(messageType) then r
    else if !Truthy(u.phoneNumber) then
      r.(whatsappFailed := r.whatsappFailed + 1,
         errors := r.errors + ["WhatsApp skipped for " + u.name + ": No phone number"])
    else if w.Sent? then r.(whatsappSent := r.whatsappSent + 1)
    else r.(whatsappFailed := r.whatsappFailed + 1,
            errors := r.errors + ["WhatsApp failed for " + u.name + ": " + w.error])
  }

  /** The results after the loop has visited every user of `users`;
      `email[i]` and `whatsapp[i]` are what sending to `users[i]` reports. */
  function Tally(users: seq<Auth.User>, messageType: Option<string>,
                 email: seq<SendResult>, whatsapp: seq<SendResult>): Results
    requires |email| == |users| && |whatsapp| == |users|
  {
    if users == [] then NoResults
    else
      var n := |users| - 1;
      var r := Tally(users[..n], messageType, email[..n], whatsapp[..n]);
      WhatsAppStep(EmailStep(r, users[n], messageType, email[n]), users[n], messageType, whatsapp[n])
  }

  /** One more iteration of the loop extends the tally by one step. */
  lemma TallyNext(users: seq<Auth.User>, messageType: Option<string>,
                  email: seq<SendResult>, whatsapp: seq<SendResult>, i: nat)
    requires |email| == |users| && |whatsapp| == |users| && i < |users|
    ensures Tally(users[..i + 1], messageType, email[..i + 1], whatsapp[..i + 1])
            == WhatsAppStep(EmailStep(Tally(users[..i], messageType, email[..i], whatsapp[..i]),
                                      users[i], messageType, email[i]),
                            users[i], messageType, whatsapp[i])
  {
    assert users[..i + 1][..i] == users[..i];
    assert email[..i + 1][..i] == email[..i];
    assert whatsapp[..i + 1][..i] == whatsapp[..i];
  }

  function CountSent(rs: seq<SendResult>): nat {
    if rs == [] then 0
    else CountSent(rs[..|rs| - 1]) + if rs[|rs| - 1].Sent? then 1 else 0
  }

  /** The users with a phone number whose WhatsApp send succeeded. */
  function CountPhoneSent(users: seq<Auth.User>, whatsapp: seq<SendResult>): nat
    requires |whatsapp| == |users|
  {
    if users == [] then 0
    else
      var n := |users| - 1;
      CountPhoneSent(users[..n], whatsapp[..n]) + if Truthy(users[n].phoneNumber) && whatsapp[n].Sent? then 1 else 0
  }

  /** For "email" and "both" every user is either sent or failed, the sent
      ones being those whose send succeeded; for any other type nothing
      counts. */
  lemma {:induction false} EmailCounts(users: seq<Auth.User>, messageType: Option<string>,
                                       email: seq<SendResult>, whatsapp: seq<SendResult>)
    requires |email| == |users| && |whatsapp| == |users|
    ensures var r := Tally(users, messageType, email, whatsapp);
            && r.emailsSent == (if EmailOn(messageType) then CountSent(email) else 0)
            && r.emailsSent + r.emailsFailed == (if EmailOn(messageType) then |users| else 0)
  {
    if users != [] {
      var n := |users| - 1;
      EmailCounts(users[..n], messageType, email[..n], whatsapp[..n]);
    }
  }

  /** For "whatsapp" and "both" every user is either sent or failed, a user
      without a phone number counting as failed; for any other type
      nothing counts. */
  lemma {:induction false} WhatsAppCounts(users: seq<Auth.User>, messageType: Option<string>,
                                          email: seq<SendResult>, whatsapp: seq<SendResult>)
    requires |email| == |users| && |whatsapp| == |users|
    ensures var r := Tally(users, messageType, email, whatsapp);
            && r.whatsappSent == (if WhatsAppOn(messageType) then CountPhoneSent(users, whatsapp) else 0)
            && r.whatsappSent + r.whatsappFailed == (if WhatsAppOn(messageType) then |users| else 0)
  {
    if users != [] {
      var n := |users| - 1;
      WhatsAppCounts(users[..n], messageType, email[..n], whatsapp[..n]);
    }
  }

  /** Every failure, and only a failure, adds exactly one error. */
  lemma {:induction false} ErrorCount(users: seq<Auth.User>, messageType: Option<string>,
                                      email: seq<SendResult>, whatsapp: seq<SendResult>)
    requires |email| == |users| && |whatsapp| == |users|
    ensures var r := Tally(users, messageType, email, whatsapp);
            |r.errors| == r.emailsFailed + r.whatsappFailed
  {
    if users != [] {
      var n := |users| - 1;
      ErrorCount(users[..n], messageType, email[..n], whatsapp[..n]);
    }
  }

  /** A message type other than "email", "whatsapp" or "both" sends
      nothing and reports nothing. */
  lemma OtherTypeSendsNothing(users: seq<Auth.User>, messageType: Option<string>,
                              email: seq<SendResult>, whatsapp: seq<SendResult>)
    requires |email| == |users| && |whatsapp| == |users|
    requires !EmailOn(messageType) && !WhatsAppOn(messageType)
    ensures Tally(users, messageType, email, whatsapp) == NoResults
  {
    EmailCounts(users, messageType, email, whatsapp);
    WhatsAppCounts(users, messageType, email, whatsapp);
    ErrorCount(users, messageType, email, whatsapp);
  }

  /** The e-mail half of the loop body. */
  method RecordEmail(r: Results, targetUser: Auth.User, messageType: Option<string>, e: SendResult)
    returns (results: Results)
    ensures results == EmailStep(r, targetUser, messageType, e)
  {
    results := r;
    if messageType == Some("email") || messageType == Some("both") {
      if e.Sent? {
        results := results.(emailsSent := results.emailsSent + 1);
      } else {
        results := results.(emailsFailed := results.emailsFailed + 1);
        results := results.(errors := results.errors + ["Email failed for " + targetUser.name + ": " + e.error]);
      }
    }
  }

  /** The WhatsApp half of the loop body. */
  method RecordWhatsApp(r: Results, targetUser: Auth.User, messageType: Option<string>, w: SendResult)
    returns (results: Results)
    ensures results == WhatsAppStep(r, targetUser, messageType, w)
  {
    results := r;
    var whatsappOn := messageType == Some("whatsapp") || messageType == Some("both");
    if whatsappOn && Truthy(targetUser.phoneNumber) {
      if w.Sent? {
        results := results.(whatsappSent := results.whatsappSent + 1);
      } else {
        results := results.(whatsappFailed := results.whatsappFailed + 1);
        results := results.(errors := results.errors + ["WhatsApp failed for " + targetUser.name + ": " + w.error]);
      }
    } else if whatsappOn && !Truthy(targetUser.phoneNumber) {
      results := results.(whatsappFailed := results.whatsappFailed + 1);
      results := results.(errors := results.errors + ["WhatsApp skipped for " + targetUser.name + ": No phone number"]);
    }
  }

  /** The `POST` handler behind `requireAdmin`; `body` is the parsed body,
      or the message of the error `req.json()` throws when it is not JSON. */
  method Post(body: Result<MessagesBody, string>, table: seq<Auth.User>,
              email: seq<SendResult>, whatsapp: seq<SendResult>) returns (resp: Response)
    requires body.Success? && body.value.userIds.Some? ==>
               |email| == |Selected(table, body.value.userIds.value)| &&
               |whatsapp| == |Selected(table, body.value.userIds.value)|
    ensures body.Failure? ==> resp == ServerError(body.error)
    ensures body.Success? && (body.value.userIds.None? || body.value.userIds.value == []) ==>
              resp == Rejected(400, "No users selected")
    ensures body.Success? && body.value.userIds.Some? && body.value.userIds.value != [] ==>
              var users := Selected(table, body.value.userIds.value);
              && (users == [] ==> resp == Rejected(400, "No valid users found"))
              && (users != [] ==> resp == Completed(Tally(users, body.value.messageType, email, whatsapp), |users|))
  {
    if body.Failure? {
      return ServerError(body.error);
    }
    var userIds := body.value.userIds;
    var messageType := body.value.messageType;
    if userIds.None? || |userIds.value| == 0 {
      return Rejected(400, "No users selected");
    }
    var users := Selected(table, userIds.value);
    if |users| == 0 {
      return Rejected(400, "No valid users found");
    }
    var results := NoResults;
    var i := 0;
    while i < |users|
      invariant 0 <= i <= |users|
      invariant results == Tally(users[..i], messageType, email[..i], whatsapp[..i])
    {
      var targetUser := users[i];
      results := RecordEmail(results, targetUser, messageType, email[i]);
      results := RecordWhatsApp(results, targetUser, messageType, whatsapp[i]);
      TallyNext(users, messageType, email, whatsapp, i);
      i := i + 1;
    }
    assert users[..i] == users && email[..i] == email && whatsapp[..i] == whatsapp;
    resp := Completed(results, |users|);
  }
}
