/**
 * The weekly nudge batch behind `POST /api/weekly-nudges/send`: a bearer-token gate for the
 * scheduler, the lookup of the coach and of the opted-in clients, then one SMS per client,
 * in order, with an audit row in `nudges_sent` for each message that went out.
 */
module WeeklyNudges {
  import opened Wrappers
  import opened Text
  import opened Db
  import opened Sms

  // ---------------------------------------------------------------------------
  // The message
  // ---------------------------------------------------------------------------

  const NoOpenActions := "No open actions this week."
  const OpenActionsTail := " open action(s). Keep going!"
  const AutomatedPrefix := "[Automated Weekly] "

  /** `theme || 'Not set'`: a missing or empty theme reads as "Not set". */
  function ThemeText(theme: Option<string>): (r: string)
    ensures r != ""
    ensures theme.Some? && theme.value != "" ==> r == theme.value
  {
    if theme.Some? && theme.value != "" then theme.value else "Not set"
  }

  /** The closing sentence about the client's open actions. */
  function ActionsLine(count: nat): (r: string)
    ensures count == 0 ==> r == NoOpenActions
    ensures count > 0 ==> r == "You have " + NatToString(count) + OpenActionsTail
  {
    if count == 0 then NoOpenActions else "You have " + NatToString(count) + OpenActionsTail
  }

  /** The greeting and focus sentence every message opens with. */
  function Greeting(name: string, theme: Option<string>): string {
    "Hi " + name + (", your focus: " + ThemeText(theme) + ". ")
  }

  /** `buildWeeklyMessage`: the greeting, then the sentence about open actions. */
  function BuildWeeklyMessage(name: string, theme: Option<string>, count: nat): string {
    Greeting(name, theme) + ActionsLine(count)
  }

  /** A string opens with each of its prefixes, and with any string one of them opens with. */
  lemma PrefixOfConcat(p: string, a: string, b: string)
    requires p <= a
    ensures (a + b)[..|a|] == a && p <= a + b
  {
    assert (a + b)[..|a|] == a;
    assert (a + b)[..|p|] == a[..|p|];
  }

  /** Every message opens with the greeting naming the client and the focus, and goes on past it. */
  lemma MessageOpensWithGreeting(name: string, theme: Option<string>, count: nat)
    ensures var m := BuildWeeklyMessage(name, theme, count);
            |m| > |Greeting(name, theme)| && m[..|Greeting(name, theme)|] == Greeting(name, theme)
            && "Hi " + name <= m
  {
    var hi := "Hi " + name;
    var rest := ", your focus: " + ThemeText(theme) + ". ";
    var line := ActionsLine(count);
    PrefixOfConcat(hi, hi, rest);
    PrefixOfConcat(hi, hi + rest, line);
  }

  /** The message ends with "No open actions this week." exactly when there are none. */
  lemma NoOpenActionsIffZero(name: string, theme: Option<string>, count: nat)
    ensures var m := BuildWeeklyMessage(name, theme, count);
            |m| >= |NoOpenActions| && (m[|m| - |NoOpenActions|..] == NoOpenActions <==> count == 0)
  {
    var g := Greeting(name, theme);
    var line := ActionsLine(count);
    var m := g + line;
    assert m[|g|..] == line;
    if count > 0 {
      var head := "You have " + NatToString(count);
      assert line == head + OpenActionsTail;
      assert m[|m| - |NoOpenActions|..] == OpenActionsTail[2..] by {
        assert m == (g + head) + OpenActionsTail;
      }
      assert OpenActionsTail[2..][0] != NoOpenActions[0];
    } else {
      assert m[|m| - |NoOpenActions|..] == line;
    }
  }

  /** A missing theme and an empty theme give the same message. */
  lemma EmptyThemeIsNotSet(name: string, count: nat)
    ensures BuildWeeklyMessage(name, Some(""), count) == BuildWeeklyMessage(name, None, count)
    ensures ThemeText(None) == "Not set"
  {
    assert Greeting(name, Some("")) == Greeting(name, None);
  }

  /** The message determines the count: two counts give the same message only if they are equal. */
  lemma MessageDeterminesCount(name: string, theme: Option<string>, c1: nat, c2: nat)
    requires BuildWeeklyMessage(name, theme, c1) == BuildWeeklyMessage(name, theme, c2)
    ensures c1 == c2
  {
    var g := Greeting(name, theme);
    var l1 := ActionsLine(c1);
    var l2 := ActionsLine(c2);
    assert (g + l1)[|g|..] == l1;
    assert (g + l2)[|g|..] == l2;
    assert l1 == l2;
    if c1 > 0 && c2 > 0 {
      var n1 := NatToString(c1);
      var n2 := NatToString(c2);
      assert |n1| == |n2|;
      assert l1[9..9 + |n1|] == n1;
      assert l2[9..9 + |n2|] == n2;
      NatToStringInjective(c1, c2);
    }
  }

  // ---------------------------------------------------------------------------
  // The bearer-token gate (section 2.1 of RFC 6750)
  // ---------------------------------------------------------------------------

  datatype HttpError = HttpError(status: nat, error: string, message: string)

  const BearerPrefix := "Bearer "

  /**
   * The gate: an unset secret is a server error before the header is looked at; a missing header
   * or one without the `Bearer ` scheme, and a token other than the secret, are unauthorized.
   */
  function AuthorizeTrigger(header: Option<string>, secret: Option<string>): (r: Option<HttpError>)
    ensures !Present(secret) ==> r == Some(HttpError(500, "Server Configuration Error", "API not configured"))
    ensures r.Some? && Present(secret) ==> r.value.status == 401
  {
    if !Present(secret) then Some(HttpError(500, "Server Configuration Error", "API not configured"))
    else if header.None? || header.value == "" || !(|header.value| >= 7 && header.value[..7] == BearerPrefix)
    then Some(HttpError(401, "Unauthorized", "Missing authorization header"))
    else if header.value[7..] != secret.value then Some(HttpError(401, "Unauthorized", "Invalid API secret"))
    else None
  }

  /** The scheduler is let in exactly when it sends `Bearer ` followed by the configured secret. */
  lemma AuthorizedIff(header: Option<string>, secret: Option<string>)
    ensures AuthorizeTrigger(header, secret).None? <==> Present(secret) && header == Some(BearerPrefix + secret.value)
  {
    if Present(secret) && header == Some(BearerPrefix + secret.value) {
      assert header.value[..7] == BearerPrefix;
      assert header.value[7..] == secret.value;
    }
    if AuthorizeTrigger(header, secret).None? {
      assert header.value == header.value[..7] + header.value[7..];
    }
  }

  // ---------------------------------------------------------------------------
  // The send loop
  // ---------------------------------------------------------------------------

  /** One opted-in client as the route prepares it: contact data, latest theme, open action count. */
  datatype ClientData = ClientData(clientId: Id, name: string, phone: string, currentTheme: Option<string>, openActionsCount: nat)

  /** One entry of `results`. */
  datatype ResultEntry = Delivered(clientId: Id, sid: string) | NotDelivered(clientId: Id, error: string)

  function MessageFor(c: ClientData): string {
    BuildWeeklyMessage(c.name, c.currentTheme, c.openActionsCount)
  }

  /** The SMS for the `i`-th client; `twilio(i)` answers the `i`-th call. */
  function SmsOutcome(c: ClientData, i: nat, env: SmsEnv, twilio: nat -> TwilioRequest -> TwilioReply): SmsResult {
    SendSms(c.phone, MessageFor(c), env, twilio(i))
  }

  function EntryFor(c: ClientData, outcome: SmsResult): (e: ResultEntry)
    ensures e.clientId == c.clientId
    ensures e.Delivered? <==> outcome.SmsSent?
  {
    match outcome
    case SmsSent(sid) => Delivered(c.clientId, sid)
    case SmsFailed(error) => NotDelivered(c.clientId, error)
  }

  /** What `sendSms` returns for each client, in order. */
  function Outcomes(clients: seq<ClientData>, env: SmsEnv, twilio: nat -> TwilioRequest -> TwilioReply): (r: seq<SmsResult>)
    ensures |r| == |clients|
  {
    if clients == [] then []
    else Outcomes(clients[..|clients| - 1], env, twilio) + [SmsOutcome(clients[|clients| - 1], |clients| - 1, env, twilio)]
  }

  /** The `i`-th outcome is the `i`-th client's send, made as the `i`-th call. */
  lemma {:induction false} OutcomeAt(clients: seq<ClientData>, env: SmsEnv, twilio: nat -> TwilioRequest -> TwilioReply, i: nat)
    requires i < |clients|
    ensures Outcomes(clients, env, twilio)[i] == SmsOutcome(clients[i], i, env, twilio)
  {
    if i < |clients| - 1 {
      var init := clients[..|clients| - 1];
      assert init[i] == clients[i];
      OutcomeAt(init, env, twilio, i);
    }
  }

  /** The result entries of the first `n` clients, given what each send returned. */
  function EntriesOf(clients: seq<ClientData>, outcomes: seq<SmsResult>, n: nat): (r: seq<ResultEntry>)
    requires |outcomes| == |clients| && n <= |clients|
    ensures |r| == n
  {
    if n == 0 then [] else EntriesOf(clients, outcomes, n - 1) + [EntryFor(clients[n - 1], outcomes[n - 1])]
  }

  /** The `i`-th entry names the `i`-th client, and is a delivery exactly when that send returned a SID. */
  lemma {:induction false} EntryAt(clients: seq<ClientData>, outcomes: seq<SmsResult>, n: nat, i: nat)
    requires |outcomes| == |clients| && i < n <= |clients|
    ensures EntriesOf(clients, outcomes, n)[i] == EntryFor(clients[i], outcomes[i])
    ensures EntriesOf(clients, outcomes, n)[i].clientId == clients[i].clientId
    ensures EntriesOf(clients, outcomes, n)[i].Delivered? <==> outcomes[i].SmsSent?
  {
    if i < n - 1 {
      EntryAt(clients, outcomes, n - 1, i);
    }
  }

  /** The results of the batch: one entry per client, in the clients' order. */
  function Entries(clients: seq<ClientData>, env: SmsEnv, twilio: nat -> TwilioRequest -> TwilioReply): (r: seq<ResultEntry>)
    ensures |r| == |clients|
  {
    EntriesOf(clients, Outcomes(clients, env, twilio), |clients|)
  }

  /**
   * Each result names its client, and is a delivery with the provider's SID exactly when that
   * client's own send, made as the `i`-th call, returned one.
   */
  lemma ResultOfEachClient(clients: seq<ClientData>, env: SmsEnv, twilio: nat -> TwilioRequest -> TwilioReply, i: nat)
    requires i < |clients|
    ensures Entries(clients, env, twilio)[i].clientId == clients[i].clientId
    ensures Entries(clients, env, twilio)[i].Delivered? <==> SmsOutcome(clients[i], i, env, twilio).SmsSent?
    ensures Entries(clients, env, twilio)[i].Delivered? ==>
              Entries(clients, env, twilio)[i].sid == SmsOutcome(clients[i], i, env, twilio).sid
  {
    EntryAt(clients, Outcomes(clients, env, twilio), |clients|, i);
    OutcomeAt(clients, env, twilio, i);
  }

  function CountDelivered(rs: seq<ResultEntry>): nat {
    if rs == [] then 0 else CountDelivered(rs[..|rs| - 1]) + (if rs[|rs| - 1].Delivered? then 1 else 0)
  }

  function CountFailed(rs: seq<ResultEntry>): nat {
    if rs == [] then 0 else CountFailed(rs[..|rs| - 1]) + (if rs[|rs| - 1].NotDelivered? then 1 else 0)
  }

  /** Every result is counted exactly once: sent plus failed is the number of results. */
  lemma {:induction false} CountsAddUp(rs: seq<ResultEntry>)
    ensures CountDelivered(rs) + CountFailed(rs) == |rs|
  {
    if rs != [] {
      CountsAddUp(rs[..|rs| - 1]);
    }
  }

  /** The audit row logged for a delivered weekly message with body `message`. */
  function AuditRow(coachId: Id, c: ClientData, message: string): NudgeRow {
    NudgeRow(coachId, c.clientId, AutomatedPrefix + message)
  }

  /**
   * `messages` are the bodies `buildWeeklyMessage` gives the clients, in order. The trigger keeps
   * the text of a body out of reach until a particular one is named.
   */
  predicate AreMessages(messages: seq<string>, clients: seq<ClientData>) {
    && |messages| == |clients|
    && forall i {:trigger MessageFor(clients[i])} :: 0 <= i < |clients| ==> messages[i] == MessageFor(clients[i])
  }

  /** The body of each client's message, in order. */
  function Messages(clients: seq<ClientData>): (r: seq<string>)
    ensures AreMessages(r, clients)
  {
    seq(|clients|, i requires 0 <= i < |clients| => MessageFor(clients[i]))
  }

  /**
   * The audit rows of the first `n` clients: one for each send that returned a SID and whose
   * insert succeeded (`auditFails(i)` says the `i`-th insert failed), in order.
   */
  function AuditLog(coachId: Id, clients: seq<ClientData>, messages: seq<string>, outcomes: seq<SmsResult>,
                    auditFails: nat -> bool, n: nat): seq<NudgeRow>
    requires |messages| == |outcomes| == |clients| && n <= |clients|
  {
    if n == 0 then []
    else AuditLog(coachId, clients, messages, outcomes, auditFails, n - 1)
         + (if outcomes[n - 1].SmsSent? && !auditFails(n - 1) then [AuditRow(coachId, clients[n - 1], messages[n - 1])] else [])
  }

  /** One more client adds its entry to the results, to the matching count, and its row, if any, to the log. */
  lemma BatchStep(coachId: Id, clients: seq<ClientData>, messages: seq<string>, outcomes: seq<SmsResult>,
                  auditFails: nat -> bool, i: nat)
    requires |messages| == |outcomes| == |clients| && i < |clients|
    ensures EntriesOf(clients, outcomes, i + 1) == EntriesOf(clients, outcomes, i) + [EntryFor(clients[i], outcomes[i])]
    ensures CountDelivered(EntriesOf(clients, outcomes, i + 1))
            == CountDelivered(EntriesOf(clients, outcomes, i)) + (if outcomes[i].SmsSent? then 1 else 0)
    ensures CountFailed(EntriesOf(clients, outcomes, i + 1))
            == CountFailed(EntriesOf(clients, outcomes, i)) + (if outcomes[i].SmsSent? then 0 else 1)
    ensures AuditLog(coachId, clients, messages, outcomes, auditFails, i + 1)
            == AuditLog(coachId, clients, messages, outcomes, auditFails, i)
               + (if outcomes[i].SmsSent? && !auditFails(i) then [AuditRow(coachId, clients[i], messages[i])] else [])
  {
    var next := EntriesOf(clients, outcomes, i + 1);
    assert next[..i] == EntriesOf(clients, outcomes, i);
  }

  /** Audit rows are only ever written for delivered messages, at most one each. */
  lemma {:induction false} AuditRowsAtMostDeliveries(coachId: Id, clients: seq<ClientData>, messages: seq<string>,
                                                     outcomes: seq<SmsResult>, auditFails: nat -> bool, n: nat)
    requires |messages| == |outcomes| == |clients| && n <= |clients|
    ensures |AuditLog(coachId, clients, messages, outcomes, auditFails, n)| <= CountDelivered(EntriesOf(clients, outcomes, n))
  {
    if n > 0 {
      AuditRowsAtMostDeliveries(coachId, clients, messages, outcomes, auditFails, n - 1);
      BatchStep(coachId, clients, messages, outcomes, auditFails, n - 1);
    }
  }

  /** Every audit row is the weekly message, behind the automated prefix, of a client whose send returned a SID. */
  lemma {:induction false} AuditRowsOnlyForDelivered(coachId: Id, clients: seq<ClientData>, messages: seq<string>,
                                                     outcomes: seq<SmsResult>, auditFails: nat -> bool, n: nat)
    requires AreMessages(messages, clients) && |outcomes| == |clients| && n <= |clients|
    ensures forall row :: row in AuditLog(coachId, clients, messages, outcomes, auditFails, n) ==>
              exists i :: 0 <= i < n && outcomes[i].SmsSent? && row.coachId == coachId && row.clientId == clients[i].clientId
                          && row.messageText == AutomatedPrefix + MessageFor(clients[i])
  {
    if n > 0 {
      AuditRowsOnlyForDelivered(coachId, clients, messages, outcomes, auditFails, n - 1);
      assert messages[n - 1] == MessageFor(clients[n - 1]);
    }
  }

  /** When no audit insert fails, there is exactly one audit row per delivered message. */
  lemma {:induction false} AuditRowPerDelivery(coachId: Id, clients: seq<ClientData>, messages: seq<string>,
                                               outcomes: seq<SmsResult>, n: nat)
    requires |messages| == |outcomes| == |clients| && n <= |clients|
    ensures |AuditLog(coachId, clients, messages, outcomes, _ => false, n)| == CountDelivered(EntriesOf(clients, outcomes, n))
  {
    if n > 0 {
      AuditRowPerDelivery(coachId, clients, messages, outcomes, n - 1);
      BatchStep(coachId, clients, messages, outcomes, _ => false, n - 1);
    }
  }

  /**
   * `outcomes` are what the sends return, client by client. The trigger keeps the sends
   * themselves out of reach until a particular one is named.
   */
  predicate AreSendOutcomes(outcomes: seq<SmsResult>, clients: seq<ClientData>, env: SmsEnv,
                            twilio: nat -> TwilioRequest -> TwilioReply)
  {
    && |outcomes| == |clients|
    && forall i {:trigger SmsOutcome(clients[i], i, env, twilio)} ::
         0 <= i < |clients| ==> outcomes[i] == SmsOutcome(clients[i], i, env, twilio)
  }

  /** The outcomes of the batch are the sends, client by client. */
  lemma OutcomesAreSends(clients: seq<ClientData>, env: SmsEnv, twilio: nat -> TwilioRequest -> TwilioReply)
    ensures AreSendOutcomes(Outcomes(clients, env, twilio), clients, env, twilio)
  {
    forall i | 0 <= i < |clients|
      ensures Outcomes(clients, env, twilio)[i] == SmsOutcome(clients[i], i, env, twilio)
    {
      OutcomeAt(clients, env, twilio, i);
    }
  }

  /** `buildWeeklyMessage(...)`, then `sendSms(client.phone, body)`, for the `i`-th client. */
  method SendWeeklyMessage(clients: seq<ClientData>, i: nat, env: SmsEnv, twilio: nat -> TwilioRequest -> TwilioReply,
                           ghost messages: seq<string>, ghost outcomes: seq<SmsResult>)
    returns (body: string, smsResult: SmsResult)
    requires i < |clients| && AreMessages(messages, clients) && AreSendOutcomes(outcomes, clients, env, twilio)
    ensures body == messages[i] && smsResult == outcomes[i]
  {
    var client := clients[i];
    body := BuildWeeklyMessage(client.name, client.currentTheme, client.openActionsCount);
    smsResult := SendSms(client.phone, body, env, twilio(i));
    assert body == MessageFor(clients[i]);
    assert smsResult == SmsOutcome(clients[i], i, env, twilio);
  }

  /**
   * The loop of the route: for each client in order, build the message, send it, and on
   * success count it, log it (a failed log insert is only reported) and record the SID; on
   * failure count it and record the error. `messages` and `outcomes` name what the message
   * builder and the sends return.
   */
  method SendBatch(db: Store, coachId: Id, clients: seq<ClientData>, env: SmsEnv, twilio: nat -> TwilioRequest -> TwilioReply,
                   auditFails: nat -> bool, ghost messages: seq<string>, ghost outcomes: seq<SmsResult>)
    returns (sentCount: nat, failedCount: nat, results: seq<ResultEntry>)
    requires AreMessages(messages, clients) && AreSendOutcomes(outcomes, clients, env, twilio)
    modifies db`nudges
    ensures results == EntriesOf(clients, outcomes, |clients|)
    ensures sentCount == CountDelivered(results) && failedCount == CountFailed(results)
    ensures db.nudges == old(db.nudges) + AuditLog(coachId, clients, messages, outcomes, auditFails, |clients|)
  {
    sentCount, failedCount, results := 0, 0, [];
    ghost var start := db.nudges;
    ghost var logged: seq<NudgeRow> := [];
    var i := 0;
    while i < |clients|
      invariant 0 <= i <= |clients|
      invariant results == EntriesOf(clients, outcomes, i)
      invariant sentCount == CountDelivered(results) && failedCount == CountFailed(results)
      invariant logged == AuditLog(coachId, clients, messages, outcomes, auditFails, i)
      invariant db.nudges == start + logged
    {
      var client := clients[i];
      var body, smsResult := SendWeeklyMessage(clients, i, env, twilio, messages, outcomes);
      BatchStep(coachId, clients, messages, outcomes, auditFails, i);
      if smsResult.SmsSent? {
        if !auditFails(i) {
          db.nudges := db.nudges + [AuditRow(coachId, client, body)];
          logged := logged + [AuditRow(coachId, client, body)];
        }
        sentCount := sentCount + 1;
        results := results + [Delivered(client.clientId, smsResult.sid)];
      } else {
        failedCount := failedCount + 1;
        results := results + [NotDelivered(client.clientId, smsResult.error)];
      }
      i := i + 1;
    }
  }

  // ---------------------------------------------------------------------------
  // The route
  // ---------------------------------------------------------------------------

  /** The client ids the clients query selects: clients opted in to weekly nudges with a phone. */
  predicate Eligible(users: map<Id, UserRow>, settings: map<Id, SettingsRow>, id: Id) {
    id in users && users[id].role == Client && users[id].phone.Some?
    && id in settings && settings[id].receiveWeeklyNudge
  }

  /** The client's open weekly actions. */
  function OpenActions(actions: map<Id, ActionRow>, id: Id): set<Id> {
    set a | a in actions && actions[a].userId == id && !actions[a].isCompleted
  }

  /** The theme text the route reads: that of a theme of the client created last, or none. */
  predicate IsLatestTheme(themes: map<Id, ThemeRow>, id: Id, theme: Option<string>) {
    if theme.None? then forall t :: t in themes ==> themes[t].userId != id
    else exists t :: t in themes && themes[t].userId == id && themes[t].themeText == theme.value
                     && forall o :: o in themes && themes[o].userId == id ==> themes[o].createdAt <= themes[t].createdAt
  }

  /** What the route prepared for one client agrees with the store. */
  predicate PreparedFrom(db: Store, c: ClientData)
    reads db
  {
    && Eligible(db.users, db.settings, c.clientId)
    && c.name == db.users[c.clientId].name
    && c.phone == db.users[c.clientId].phone.value
    && c.openActionsCount == |OpenActions(db.actions, c.clientId)|
    && IsLatestTheme(db.themes, c.clientId, c.currentTheme)
  }

  datatype NudgeResponse =
    | Rejected(error: HttpError)
    | Summary(sentCount: nat, failedCount: nat, results: seq<ResultEntry>)

  const NoCoach := HttpError(500, "Configuration Error", "No coach found in system")
  const ClientsQueryFailed := HttpError(500, "Database Error", "Failed to fetch clients")

  /**
   * `POST`: the gate, the coach lookup (`coach`, any coach row, or none), the clients query
   * (`clients`, or none when it fails), then the batch. The summary's timestamp is left out.
   */
  method WeeklyNudgesPost(db: Store, header: Option<string>, secret: Option<string>, coach: Option<Id>,
                          clients: Option<seq<ClientData>>, env: SmsEnv,
                          twilio: nat -> TwilioRequest -> TwilioReply, auditFails: nat -> bool)
    returns (response: NudgeResponse)
    requires coach.Some? ==> coach.value in db.users && db.users[coach.value].role == Coach
    requires coach.None? ==> forall u :: u in db.users ==> db.users[u].role != Coach
    requires clients.Some? ==> forall i :: 0 <= i < |clients.value| ==> PreparedFrom(db, clients.value[i])
    modifies db
    ensures AuthorizeTrigger(header, secret).Some? ==> response == Rejected(AuthorizeTrigger(header, secret).value)
    ensures AuthorizeTrigger(header, secret).None? && coach.None? ==> response == Rejected(NoCoach)
    ensures AuthorizeTrigger(header, secret).None? && coach.Some? && clients.None? ==> response == Rejected(ClientsQueryFailed)
    ensures AuthorizeTrigger(header, secret).None? && coach.Some? && clients.Some? ==> response.Summary?
    ensures response.Rejected? ==> unchanged(db)
    ensures response.Summary? ==>
              && AuthorizeTrigger(header, secret).None? && coach.Some? && clients.Some?
              && response.results == Entries(clients.value, env, twilio)
              && response.sentCount + response.failedCount == |clients.value|
              && response.sentCount == CountDelivered(response.results)
              && db.nudges == old(db.nudges) + AuditLog(coach.value, clients.value, Messages(clients.value),
                                                        Outcomes(clients.value, env, twilio), auditFails, |clients.value|)
              && unchanged(db`users, db`themes, db`actions, db`settings, db`copy, db`caller)
  {
    var gate := AuthorizeTrigger(header, secret);
    if gate.Some? {
      return Rejected(gate.value);
    }
    if coach.None? {
      return Rejected(NoCoach);
    }
    if clients.None? {
      return Rejected(ClientsQueryFailed);
    }
    OutcomesAreSends(clients.value, env, twilio);
    var sent, failed, results := SendBatch(db, coach.value, clients.value, env, twilio, auditFails,
                                           Messages(clients.value), Outcomes(clients.value, env, twilio));
    CountsAddUp(results);
    response := Summary(sent, failed, results);
  }
}
