/**
 * The register endpoint: a per-client fixed-window rate limiter, the server-side
 * field checks, the normalised record it stores and the payload it forwards to the
 * spreadsheet web app.
 */
module Register {
  import opened Wrappers
  import opened Text
  import opened Types
  import opened Validation
  import opened Store
  import opened Sequences
  import Sheets

  // ---------------------------------------------------------------- rate limiting

  /** Requests allowed per client and window. */
  const RATE_LIMIT: nat := 5
  /** The window length: 15 minutes, in milliseconds. */
  const RATE_LIMIT_WINDOW: nat := 15 * 60 * 1000

  /** A client's count of requests in its current window, and when the window ends. */
  datatype Entry = Entry(count: nat, resetTime: nat)

  /** The answer to one request and the table after it. */
  datatype Decision = Decision(allowed: bool, table: map<string, Entry>)

  /** `checkRateLimit` as a function of the table it reads and writes. */
  function RateLimitStep(table: map<string, Entry>, ip: string, now: nat): (d: Decision)
    ensures d.table.Keys == table.Keys + {ip}
    ensures now <= d.table[ip].resetTime
    ensures !d.allowed ==> d.table == table
  {
    if ip !in table || now > table[ip].resetTime then
      Decision(true, table[ip := Entry(1, now + RATE_LIMIT_WINDOW)])
    else if table[ip].count >= RATE_LIMIT then
      Decision(false, table)
    else
      Decision(true, table[ip := table[ip].(count := table[ip].count + 1)])
  }

  /** Every stored count lies between 1 and the limit. */
  predicate CountsBounded(table: map<string, Entry>)
  {
    forall k :: k in table ==> 1 <= table[k].count <= RATE_LIMIT
  }

  /** The three cases of one step, and that only the caller's own entry can change. */
  lemma {:induction false} RateLimitStepCases(table: map<string, Entry>, ip: string, now: nat)
    ensures var d := RateLimitStep(table, ip, now);
      && (ip !in table || now > table[ip].resetTime ==>
            d.allowed && ip in d.table && d.table[ip] == Entry(1, now + RATE_LIMIT_WINDOW))
      && (ip in table && now <= table[ip].resetTime && table[ip].count >= RATE_LIMIT ==>
            !d.allowed && d.table == table)
      && (ip in table && now <= table[ip].resetTime && table[ip].count < RATE_LIMIT ==>
            d.allowed && ip in d.table
            && d.table[ip] == Entry(table[ip].count + 1, table[ip].resetTime))
      && (forall k :: k != ip ==> (k in d.table <==> k in table))
      && (forall k :: k != ip && k in table ==> d.table[k] == table[k])
  {
  }

  /** A request is refused exactly when its client has used up an unexpired window. */
  lemma {:induction false} RateLimitRefusal(table: map<string, Entry>, ip: string, now: nat)
    ensures !RateLimitStep(table, ip, now).allowed <==>
      ip in table && now <= table[ip].resetTime && table[ip].count >= RATE_LIMIT
  {
  }

  /** A step keeps every count between 1 and the limit. */
  lemma {:induction false} RateLimitStepBounded(table: map<string, Entry>, ip: string, now: nat)
    requires CountsBounded(table)
    ensures CountsBounded(RateLimitStep(table, ip, now).table)
  {
  }

  /** The answers to a series of requests from one client at the given times. */
  function Run(table: map<string, Entry>, ip: string, times: seq<nat>): (answers: seq<bool>)
    ensures |answers| == |times|
    decreases |times|
  {
    if times == [] then []
    else
      var d := RateLimitStep(table, ip, times[0]);
      [d.allowed] + Run(d.table, ip, times[1..])
  }

  /** Inside an open window that already counts `k` requests, request `i` is allowed iff `k + i` is under the limit. */
  lemma {:induction false} RunInsideWindow(table: map<string, Entry>, ip: string, times: seq<nat>)
    requires ip in table && 1 <= table[ip].count
    requires forall i :: 0 <= i < |times| ==> times[i] <= table[ip].resetTime
    ensures forall i :: 0 <= i < |times| ==> Run(table, ip, times)[i] == (table[ip].count + i < RATE_LIMIT)
  {
    if times != [] {
      var d := RateLimitStep(table, ip, times[0]);
      var k := table[ip].count;
      RunInsideWindow(d.table, ip, times[1..]);
      var rest := Run(d.table, ip, times[1..]);
      assert Run(table, ip, times) == [d.allowed] + rest;
      if k >= RATE_LIMIT {
        assert d.table == table;
      } else {
        assert d.table[ip].count == k + 1;
      }
    }
  }

  /**
   * Requests that all fall within one window opened by the first of them: the first
   * five are allowed and every later one is refused.
   */
  lemma {:induction false} RunFreshWindow(table: map<string, Entry>, ip: string, times: seq<nat>)
    requires |times| > 0
    requires ip !in table || times[0] > table[ip].resetTime
    requires forall i :: 0 <= i < |times| ==> times[i] <= times[0] + RATE_LIMIT_WINDOW
    ensures forall i :: 0 <= i < |times| ==> Run(table, ip, times)[i] == (i < RATE_LIMIT)
  {
    var d := RateLimitStep(table, ip, times[0]);
    RunInsideWindow(d.table, ip, times[1..]);
    assert Run(table, ip, times) == [true] + Run(d.table, ip, times[1..]);
  }

  /** Six requests at the same instant from a new client: five pass, the sixth is refused. */
  lemma {:induction false} SixthRequestRefused(table: map<string, Entry>, ip: string, now: nat)
    requires ip !in table
    ensures Run(table, ip, [now, now, now, now, now, now]) == [true, true, true, true, true, false]
  {
    RunFreshWindow(table, ip, [now, now, now, now, now, now]);
  }

  /** The process-wide table of rate-limit entries, keyed by client address. */
  class RateLimiter {
    var table: map<string, Entry>

    ghost predicate Valid()
      reads this
    {
      CountsBounded(table)
    }

    constructor ()
      ensures Valid() && table == map[]
    {
      table := map[];
    }

    /** `checkRateLimit(ip)` at time `now`. */
    method CheckRateLimit(ip: string, now: nat) returns (allowed: bool)
      requires Valid()
      modifies this
      ensures Valid()
      ensures allowed == RateLimitStep(old(table), ip, now).allowed
      ensures table == RateLimitStep(old(table), ip, now).table
    {
      if ip !in table || now > table[ip].resetTime {
        table := table[ip := Entry(1, now + RATE_LIMIT_WINDOW)];
        return true;
      }
      var entry := table[ip];
      if entry.count >= RATE_LIMIT {
        return false;
      }
      table := table[ip := entry.(count := entry.count + 1)];
      return true;
    }
  }

  // ---------------------------------------------------------------- field checks

  /** The client address: `x-forwarded-for`, else `x-real-ip`, else one shared key. */
  function ClientKey(forwardedFor: Option<string>, realIp: Option<string>): (key: string)
    ensures key != ""
    ensures forwardedFor.Some? && forwardedFor.value != "" ==> key == forwardedFor.value
    ensures forwardedFor.GetOr("") == "" && realIp.GetOr("") != "" ==> key == realIp.value
    ensures forwardedFor.GetOr("") == "" && realIp.GetOr("") == "" ==> key == "unknown"
  {
    if forwardedFor.Some? && forwardedFor.value != "" then forwardedFor.value
    else if realIp.Some? && realIp.value != "" then realIp.value
    else "unknown"
  }

  const MSG_TOO_MANY := "Too many requests. Please try again later."
  const MSG_REQUIRED := "Name and WhatsApp number are required"
  const MSG_MOBILE := "Please enter a valid 10-digit mobile number"
  const MSG_EMAIL := "Please enter a valid email address (e.g., user@gmail.com)"

  /** The outcome of the field checks: the digits-only number to store, or the error to send back. */
  datatype Verdict = Accepted(whatsapp: string) | Rejected(error: string)

  /**
   * The body checks in their order: presence of name and number, the number's
   * shape after dropping non-digits, then the optional e-mail address.
   */
  function CheckBody(body: RegistrationData): (v: Verdict)
    ensures v.Accepted? <==>
      && body.name != "" && body.whatsapp != ""
      && |DigitsOnly(body.whatsapp)| == 10 && '6' <= DigitsOnly(body.whatsapp)[0] <= '9'
      && (body.email.None? || AllSpace(body.email.value) || EmailMatches(body.email.value))
    ensures v.Accepted? ==> v.whatsapp == DigitsOnly(body.whatsapp) && IsMobile(v.whatsapp)
    ensures body.name == "" || body.whatsapp == "" ==> v == Rejected(MSG_REQUIRED)
  {
    if body.name == "" || body.whatsapp == "" then
      Rejected(MSG_REQUIRED)
    else
      var clean := DigitsOnly(body.whatsapp);
      if !IsMobile(clean) then
        Rejected(MSG_MOBILE)
      else if !EmailAcceptable(body.email) then
        Rejected(MSG_EMAIL)
      else
        Accepted(clean)
  }

  /** Name characters, age, children and the other optional fields play no part in the server's checks. */
  lemma {:induction false} CheckBodyIgnoresOtherFields(body: RegistrationData, name: string, age: Option<int>, children: Option<int>,
                                    contest: Contest, message: Option<string>)
    requires (name == "") == (body.name == "")
    ensures CheckBody(body.(name := name, age := age, numberOfChildren := children, contest := contest, message := message))
         == CheckBody(body)
  {
  }

  /** A well-formed ten-digit number is accepted and stored exactly as typed. */
  lemma {:induction false} ValidNumberKeptAsTyped(body: RegistrationData)
    requires body.name != "" && IsMobile(body.whatsapp) && EmailAcceptable(body.email)
    ensures CheckBody(body) == Accepted(body.whatsapp)
  {
  }

  /** Non-digit separators inside the number (spaces, dashes, brackets) make no difference. */
  lemma {:induction false} SeparatorsIgnored(body: RegistrationData, d1: string, sep: string, d2: string)
    requires AllDigits(d1) && AllDigits(d2) && d1 + d2 != []
    requires forall i :: 0 <= i < |sep| ==> !IsDigit(sep[i])
    ensures CheckBody(body.(whatsapp := d1 + sep + d2)) == CheckBody(body.(whatsapp := d1 + d2))
  {
    DigitsOnlyAppend(d1 + sep, d2);
    DigitsOnlyAppend(d1, sep);
    FilterKeepsNone(sep, IsDigit);
    assert DigitsOnly(d1 + sep + d2) == d1 + d2;
    assert DigitsOnly(d1 + d2) == d1 + d2;
    assert d1 + sep + d2 != [];
  }

  /** A number written with the +91 country code has twelve digits and is refused. */
  lemma {:induction false} CountryCodeRefused(body: RegistrationData, n: string)
    requires body.name != "" && IsMobile(n)
    ensures CheckBody(body.(whatsapp := "+91 " + n)) == Rejected(MSG_MOBILE)
  {
    DigitsOnlyAppend("+91 ", n);
    assert DigitsOnly("+91 ") == "91" by {
      assert "+91 " == "+" + "91" + " ";
      DigitsOnlyAppend("+" + "91", " ");
      DigitsOnlyAppend("+", "91");
      assert AllDigits("91");
    }
    assert |DigitsOnly("+91 " + n)| == 12;
  }

  // ---------------------------------------------------------------- what is stored and sent on

  /** The record `create` is given: the digits-only number and the client address. */
  function NewRegistration(body: RegistrationData, whatsapp: string, ip: string, id: string, createdAt: Timestamp): (r: Registration)
    ensures StoredWell([r]) <==> body.name != "" && IsMobile(whatsapp)
    ensures r.ipAddress == Some(ip) && r.whatsapp == whatsapp && r.contest == body.contest
  {
    var r := Registration(id, body.name, body.age, whatsapp, body.email, body.contest, body.message,
                          body.numberOfChildren, body.photoUrl, body.videoUrl, createdAt, Some(ip));
    assert [r][0] == r;
    r
  }

  /** The webhook body: the submitted fields with the digits-only number and a timestamp, but no id or address. */
  function WebhookPayload(body: RegistrationData, whatsapp: string, timestamp: string): (p: Sheets.Payload)
    ensures p.contest.Some? && ParseContest(p.contest.value) == Some(body.contest)
    ensures p.whatsapp == Some(whatsapp) && p.timestamp == Some(timestamp)
    ensures p.ipAddress.None? && p.id.None?
  {
    Sheets.Payload(Some(body.name), body.age, Some(whatsapp), body.email, Some(Key(body.contest)),
                   body.message, body.numberOfChildren, body.photoUrl, body.videoUrl,
                   Some(timestamp), None, None)
  }

  /** The sheet the web app files an accepted registration under, by contest. */
  lemma {:induction false} WebhookRouting(body: RegistrationData, whatsapp: string, timestamp: string)
    ensures var name := Sheets.SheetName(WebhookPayload(body, whatsapp, timestamp).contest);
      && (body.contest == SUPERMOM ==> name == Sheets.SuperMomSheet)
      && (body.contest == CUTESTBABY ==> name == Sheets.CutestBabySheet)
      && (body.contest == SENIORCITIZEN ==> name == Sheets.SeniorCitizensSheet)
      && (body.contest == GENERAL || body.contest == NONE ==> name == Sheets.GeneralJoinersSheet)
  {
  }

  /**
   * Rows the web app builds from this endpoint's payload carry the digits-only number,
   * and their address and registration-id cells are always blank.
   */
  lemma {:induction false} WebhookRowCells(body: RegistrationData, whatsapp: string, timestamp: string, now: string)
    requires timestamp != ""
    ensures var row := Sheets.RowData(WebhookPayload(body, whatsapp, timestamp), now);
      && row[0] == Sheets.DateCell(timestamp)
      && row[3] == Sheets.TextCell(whatsapp)
      && row[5] == Sheets.TextCell(Key(body.contest))
      && row[9] == Sheets.TextCell("")
      && row[10] == Sheets.TextCell("")
  {
    assert Key(body.contest) != "";
  }

  /** The HTTP outcome: 201 with the new id, or an error status with its message. */
  datatype Response = Created(id: string) | Failed(status: nat, error: string)

  /** Every stored record has a name, a normalised number and the client address. */
  predicate StoredWell(store: seq<Registration>)
  {
    forall i :: 0 <= i < |store| ==>
      store[i].name != "" && IsMobile(store[i].whatsapp) && store[i].ipAddress.Some?
  }

  /** The endpoint with the state it shares across requests: the limiter, the store and the webhook calls made. */
  class RegisterRoute {
    const limiter: RateLimiter
    var store: seq<Registration>
    var webhookCalls: seq<Sheets.Payload>

    ghost predicate Valid()
      reads this, limiter
    {
      limiter.Valid() && StoredWell(store)
    }

    constructor ()
      ensures Valid() && fresh(limiter)
      ensures limiter.table == map[] && store == [] && webhookCalls == []
    {
      limiter := new RateLimiter();
      store := [];
      webhookCalls := [];
    }

    /**
     * `POST`: the rate limit is charged first, so a request refused afterwards still
     * uses up a slot; a record is stored, and the webhook called when one is
     * configured, only for a body that passes every check. The store assigns `id`
     * and `createdAt`; `nowText` is the ISO text of the current time.
     */
    method Post(forwardedFor: Option<string>, realIp: Option<string>, body: RegistrationData, now: nat,
                id: string, createdAt: Timestamp, nowText: string, webhookConfigured: bool)
      returns (response: Response)
      requires Valid()
      modifies this, limiter
      ensures Valid()
      ensures var ip := ClientKey(forwardedFor, realIp);
              limiter.table == RateLimitStep(old(limiter.table), ip, now).table
      ensures var ip := ClientKey(forwardedFor, realIp);
              !RateLimitStep(old(limiter.table), ip, now).allowed ==>
                response == Failed(429, MSG_TOO_MANY)
                && store == old(store) && webhookCalls == old(webhookCalls)
      ensures var ip := ClientKey(forwardedFor, realIp);
              RateLimitStep(old(limiter.table), ip, now).allowed && CheckBody(body).Rejected? ==>
                response == Failed(400, CheckBody(body).error)
                && store == old(store) && webhookCalls == old(webhookCalls)
      ensures var ip := ClientKey(forwardedFor, realIp); var v := CheckBody(body);
              RateLimitStep(old(limiter.table), ip, now).allowed && v.Accepted? ==>
                && response == Created(id)
                && store == old(store) + [NewRegistration(body, v.whatsapp, ip, id, createdAt)]
                && webhookCalls == old(webhookCalls)
                     + (if webhookConfigured then [WebhookPayload(body, v.whatsapp, nowText)] else [])
    {
      var ip := ClientKey(forwardedFor, realIp);
      var allowed := limiter.CheckRateLimit(ip, now);
      if !allowed {
        return Failed(429, MSG_TOO_MANY);
      }
      var verdict := CheckBody(body);
      if verdict.Rejected? {
        return Failed(400, verdict.error);
      }
      store := store + [NewRegistration(body, verdict.whatsapp, ip, id, createdAt)];
      if webhookConfigured {
        webhookCalls := webhookCalls + [WebhookPayload(body, verdict.whatsapp, nowText)];
      }
      response := Created(id);
    }
  }
}
