/** The admin broadcast of roasts (src/app/api/admin/send-roasts/route.ts):
    the channel switches read from the body, the recipients, and the loop
    that sends each recipient an e-mail and a WhatsApp message and tallies
    what was sent, what failed and who was skipped. The transports are
    inputs: one outcome per recipient and channel. */
module SendRoasts {
  import opened Common
  import Auth

  /** What a send reports; `error` is "" when the failure carries no message. */
  datatype SendResult = Sent | Failed(error: string)

  /** The JSON body; a missing switch is `None`. */
  datatype RoastsBody = RoastsBody(
    customEmailMessage: Option<string>,
    customWhatsAppMessage: Option<string>,
    sendEmail: Option<bool>,
    sendWhatsApp: Option<bool>)

  datatype Results = Results(
    emailsSent: nat,
    emailsFailed: nat,
    whatsappSent: nat,
    whatsappFailed: nat,
    whatsappSkipped: nat,
    errors: seq<string>)

  datatype Response = Response(
    results: Results, totalUsers: nat, customEmail: bool, customWhatsApp: bool)

  const NoResults := Results(0, 0, 0, 0, 0, [])

  /** The two switches; `None` is a body that is missing or not JSON. */
  function Switches(body: Option<RoastsBody>): (s: (bool, bool))
    ensures body.None? ==> s == (true, true)
    ensures body.Some? ==> ((s.0 <==> body.value.sendEmail != Some(false)) &&
                            (s.1 <==> body.value.sendWhatsApp != Some(false)))
  {
    if body.None? then (true, true)
    else (OrElse(body.value.sendEmail, true), OrElse(body.value.sendWhatsApp, true))
  }

  /** The users whose role is not admin, in table order. */
  function Recipients(table: seq<Auth.User>): (r: seq<Auth.User>)
    ensures |r| <= |table|
    ensures forall u :: u in r <==> u in table && u.role != "admin"
  {
    if table == [] then []
    else
      var rest := Recipients(table[1..]);
      assert forall u :: u in table <==> u == table[0] || u in table[1..];
      if table[0].role != "admin" then [table[0]] + rest else rest
  }

  /** `user.phoneNumber && user.phoneNumber.trim()`. */
  predicate HasPhone(u: Auth.User) {
    Truthy(u.phoneNumber) && Trim(u.phoneNumber.value) != ""
  }

  /** A recipient is skipped exactly when the phone number is missing or
      nothing but white space. */
  lemma HasPhoneIff(u: Auth.User)
    ensures !HasPhone(u) <==>
              u.phoneNumber.None? ||
              forall k :: 0 <= k < |u.phoneNumber.value| ==> IsJsSpace(u.phoneNumber.value[k])
  {
    if u.phoneNumber.Some? {
      TrimBlank(u.phoneNumber.value);
    }
  }

  /** The e-mail half of an iteration, when e-mail is on. A failure adds
      an error only when it carries a message. */
  function EmailStep(r: Results, u: Auth.User, emailOn: bool, e: SendResult): Results {
    if !emailOn then r
    else if e.Sent? then r.(emailsSent := r.emailsSent + 1)
    else r.(emailsFailed := r.emailsFailed + 1,
            errors := if e.error != "" then r.errors + ["Email to " + u.email + ": " + e.error] else r.errors)
  }

  /** The WhatsApp half of an iteration, when WhatsApp is on: a recipient
      without a phone number is skipped without a send. */
  function WhatsAppStep(r: Results, u: Auth.User, whatsappOn: bool, w: SendResult): Results {
    if !whatsappOn then r
    else if !HasPhone(u) then r.(whatsappSkipped := r.whatsappSkipped + 1)
    else if w.Sent? then r.(whatsappSent := r.whatsappSent + 1)
    else r.(whatsappFailed := r.whatsappFailed + 1,
            errors := if w.error != "" then r.errors + ["WhatsApp to " + u.phoneNumber.value + ": " + w.error] else r.errors)
  }

  /** The results after the loop has visited every user of `users`;
      `email[i]` and `whatsapp[i]` are what sending to `users[i]` reports. */
  function Tally(users: seq<Auth.User>, emailOn: bool, whatsappOn: bool,
                 email: seq<SendResult>, whatsapp: seq<SendResult>): Results
    requires |email| == |users| && |whatsapp| == |users|
  {
    if users == [] then NoResults
    else
      var n := |users| - 1;
      var r := Tally(users[..n], emailOn, whatsappOn, email[..n], whatsapp[..n]);
      WhatsAppStep(EmailStep(r, users[n], emailOn, email[n]), users[n], whatsappOn, whatsapp[n])
  }

  /** One more iteration of the loop extends the tally by one step. */
  lemma TallyNext(users: seq<Auth.User>, emailOn: bool, whatsappOn: bool,
                  email: seq<SendResult>, whatsapp: seq<SendResult>, i: nat)
    requires |email| == |users| && |whatsapp| == |users| && i < |users|
    ensures Tally(users[..i + 1], emailOn, whatsappOn, email[..i + 1], whatsapp[..i + 1])
            == WhatsAppStep(EmailStep(Tally(users[..i], emailOn, whatsappOn, email[..i], whatsapp[..i]),
                                      users[i], emailOn, email[i]),
                            users[i], whatsappOn, whatsapp[i])
  {
    assert users[..i + 1][..i] == users[..i];
    assert email[..i + 1][..i] == email[..i];
    assert whatsapp[..i + 1][..i] == whatsapp[..i];
  }

  function CountSent(rs: seq<SendResult>): nat {
    if rs == [] then 0
    else CountSent(rs[..|rs| - 1]) + if rs[|rs| - 1].Sent? then 1 else 0
  }

  function CountNoPhone(users: seq<Auth.User>): nat {
    if users == [] then 0
    else CountNoPhone(users[..|users| - 1]) + if HasPhone(users[|users| - 1]) then 0 else 1
  }

  /** The recipients with a phone number whose WhatsApp send succeeded. */
  function CountPhoneSent(users: seq<Auth.User>, whatsapp: seq<SendResult>): nat
    requires |whatsapp| == |users|
  {
    if users == [] then 0
    else
      var n := |users| - 1;
      CountPhoneSent(users[..n], whatsapp[..n]) + if HasPhone(users[n]) && whatsapp[n].Sent? then 1 else 0
  }

  /** Every failure carries a message. */
  predicate Explained(rs: seq<SendResult>) {
    forall i :: 0 <= i < |rs| ==> rs[i].Failed? ==> rs[i].error != ""
  }

  /** With e-mail on, every recipient is either sent or failed, and the
      sent ones are those whose send succeeded; with it off nothing counts. */
  lemma {:induction false} EmailCounts(users: seq<Auth.User>, emailOn: bool, whatsappOn: bool,
                                       email: seq<SendResult>, whatsapp: seq<SendResult>)
    requires |email| == |users| && |whatsapp| == |users|
    ensures var r := Tally(users, emailOn, whatsappOn, email, whatsapp);
            && r.emailsSent == (if emailOn then CountSent(email) else 0)
            && r.emailsSent + r.emailsFailed == (if emailOn then |users| else 0)
  {
    if users != [] {
      var n := |users| - 1;
      EmailCounts(users[..n], emailOn, whatsappOn, email[..n], whatsapp[..n]);
    }
  }

  /** With WhatsApp on, every recipient is sent, failed or skipped, the
      skipped ones are exactly those without a phone number and the sent
      ones those with a phone number whose send succeeded; with it off
      nothing counts. */
  lemma {:induction false} WhatsAppCounts(users: seq<Auth.User>, emailOn: bool, whatsappOn: bool,
                                          email: seq<SendResult>, whatsapp: seq<SendResult>)
    requires |email| == |users| && |whatsapp| == |users|
    ensures var r := Tally(users, emailOn, whatsappOn, email, whatsapp);
            && r.whatsappSkipped == (if whatsappOn then CountNoPhone(users) else 0)
            && r.whatsappSent == (if whatsappOn then CountPhoneSent(users, whatsapp) else 0)
            && r.whatsappSent + r.whatsappFailed + r.whatsappSkipped == (if whatsappOn then |users| else 0)
  {
    if users != [] {
      var n := |users| - 1;
      WhatsAppCounts(users[..n], emailOn, whatsappOn, email[..n], whatsapp[..n]);
    }
  }

  /** There is at most one error per failed send. */
  lemma {:induction false} ErrorBound(users: seq<Auth.User>, emailOn: bool, whatsappOn: bool,
                                      email: seq<SendResult>, whatsapp: seq<SendResult>)
    requires |email| == |users| && |whatsapp| == |users|
    ensures var r := Tally(users, emailOn, whatsappOn, email, whatsapp);
            |r.errors| <= r.emailsFailed + r.whatsappFailed
  {
    if users != [] {
      var n := |users| - 1;
      ErrorBound(users[..n], emailOn, whatsappOn, email[..n], whatsapp[..n]);
    }
  }

  lemma ExplainedPrefix(rs: seq<SendResult>, n: nat)
    requires Explained(rs) && n <= |rs|
    ensures Explained(rs[..n])
  {
  }

  /** When every failure carries a message there is exactly one error per
      failed send. */
  lemma {:induction false} ErrorCount(users: seq<Auth.User>, emailOn: bool, whatsappOn: bool,
                                      email: seq<SendResult>, whatsapp: seq<SendResult>)
    requires |email| == |users| && |whatsapp| == |users|
    requires Explained(email) && Explained(whatsapp)
    ensures var r := Tally(users, emailOn, whatsappOn, email, whatsapp);
            |r.errors| == r.emailsFailed + r.whatsappFailed
  {
    if users != [] {
      var n := |users| - 1;
      ExplainedPrefix(email, n);
      ExplainedPrefix(whatsapp, n);
      ErrorCount(users[..n], emailOn, whatsappOn, email[..n], whatsapp[..n]);
      assert email[n] == email[|email| - 1];
    }
  }

  /** The e-mail half of the loop body. */
  method RecordEmail(r: Results, user: Auth.User, shouldSendEmail: bool, e: SendResult)
    returns (results: Results)
    ensures results == EmailStep(r, user, shouldSendEmail, e)
  {
    results := r;
    if shouldSendEmail {
      if e.Sent? {
        results := results.(emailsSent := results.emailsSent + 1);
      } else {
        results := results.(emailsFailed := results.emailsFailed + 1);
        if e.error != "" {
          results := results.(errors := results.errors + ["Email to " + user.email + ": " + e.error]);
        }
      }
    }
  }

  /** The WhatsApp half of the loop body. */
  method RecordWhatsApp(r: Results, user: Auth.User, shouldSendWhatsApp: bool, w: SendResult)
    returns (results: Results)
    ensures results == WhatsAppStep(r, user, shouldSendWhatsApp, w)
  {
    if !shouldSendWhatsApp {
      results := r;
    } else if !HasPhone(user) {
      results := r.(whatsappSkipped := r.whatsappSkipped + 1);
    } else if w.Sent? {
      results := r.(whatsappSent := r.whatsappSent + 1);
    } else {
      var errors := r.errors;
      if w.error != "" {
        errors := errors + ["WhatsApp to " + user.phoneNumber.value + ": " + w.error];
      }
      results := r.(whatsappFailed := r.whatsappFailed + 1, errors := errors);
    }
  }

  /** The `POST` handler behind `requireAdmin`; `body` is `None` when the
      request carries no JSON body. */
  method Post(body: Option<RoastsBody>, table: seq<Auth.User>,
              email: seq<SendResult>, whatsapp: seq<SendResult>) returns (resp: Response)
    requires |email| == |Recipients(table)| && |whatsapp| == |Recipients(table)|
    ensures var (emailOn, whatsappOn) := Switches(body);
            resp.results == Tally(Recipients(table), emailOn, whatsappOn, email, whatsapp)
    ensures resp.totalUsers == |Recipients(table)|
    ensures resp.customEmail <==> body.Some? && Truthy(body.value.customEmailMessage)
    ensures resp.customWhatsApp <==> body.Some? && Truthy(body.value.customWhatsAppMessage)
  {
    var shouldSendEmail := true;
    var shouldSendWhatsApp := true;
    if body.Some? {
      shouldSendEmail := OrElse(body.value.sendEmail, true);
      shouldSendWhatsApp := OrElse(body.value.sendWhatsApp, true);
    }
    var allUsers := Recipients(table);
    var results := NoResults;
    var i := 0;
    while i < |allUsers|
      invariant 0 <= i <= |allUsers|
      invariant results == Tally(allUsers[..i], shouldSendEmail, shouldSendWhatsApp, email[..i], whatsapp[..i])
    {
      var user := allUsers[i];
      results := RecordEmail(results, user, shouldSendEmail, email[i]);
      results := RecordWhatsApp(results, user, shouldSendWhatsApp, whatsapp[i]);
      TallyNext(allUsers, shouldSendEmail, shouldSendWhatsApp, email, whatsapp, i);
      i := i + 1;
    }
    assert allUsers[..i] == allUsers && email[..i] == email && whatsapp[..i] == whatsapp;
    var customEmail := body.Some? && Truthy(body.value.customEmailMessage);
    var customWhatsApp := body.Some? && Truthy(body.value.customWhatsAppMessage);
    resp := Response(results, |allUsers|, customEmail, customWhatsApp);
  }
}
