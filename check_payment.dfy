/**
 * The payment check (supabase/functions/check-payment/index.ts): authenticate
 * the caller, find their Stripe checkout sessions, decide whether one of them
 * is a completed one-off payment, record the outcome in `subscribers` and
 * answer with it. Stripe, the auth service and the clock are parameters.
 */
module CheckPayment {
  import opened Wrappers
  import opened Lists

  /** `Date.now()` values, in milliseconds. */
  type Millis = int

  /** `365 * 24 * 60 * 60 * 1000`: the access a payment buys. */
  const YearMs: Millis := 365 * 24 * 60 * 60 * 1000

  /** The pattern occurs in `s` at position `i`. */
  predicate OccursAt(s: string, pattern: string, i: int) {
    0 <= i <= |s| - |pattern| && s[i..i + |pattern|] == pattern
  }

  /** `s.replace(pattern, replacement)` with a text pattern: only the first occurrence is replaced. */
  function ReplaceFirst(s: string, pattern: string, replacement: string): (r: string)
    requires |pattern| > 0
    ensures OccursAt(s, pattern, 0) ==> r == replacement + s[|pattern|..]
  {
    if |s| < |pattern| then s
    else if s[..|pattern|] == pattern then replacement + s[|pattern|..]
    else [s[0]] + ReplaceFirst(s[1..], pattern, replacement)
  }

  /** A text without the pattern is left as it is. */
  lemma {:induction false} ReplaceFirstAbsent(s: string, pattern: string, replacement: string)
    requires |pattern| > 0
    requires forall i :: !OccursAt(s, pattern, i)
    ensures ReplaceFirst(s, pattern, replacement) == s
  {
    if |s| >= |pattern| {
      assert !OccursAt(s, pattern, 0);
      forall i ensures !OccursAt(s[1..], pattern, i) {
        if OccursAt(s[1..], pattern, i) {
          assert s[1..][i..i + |pattern|] == s[i + 1..i + 1 + |pattern|];
          assert OccursAt(s, pattern, i + 1);
        }
      }
      ReplaceFirstAbsent(s[1..], pattern, replacement);
      assert s == [s[0]] + s[1..];
    }
  }

  /** `authHeader.replace("Bearer ", "")`. */
  function BearerToken(header: string): (token: string)
    ensures OccursAt(header, "Bearer ", 0) ==> token == header[7..]
    ensures !OccursAt(header, "Bearer ", 0) && |header| > 0 ==> token != [] && token[0] == header[0]
  {
    ReplaceFirst(header, "Bearer ", "")
  }

  /** The client sends `Bearer <token>`; the function recovers the token. */
  lemma BearerRoundTrip(token: string)
    ensures BearerToken("Bearer " + token) == token
  {
    var h := "Bearer " + token;
    assert h[..7] == "Bearer ";
    assert h[7..] == token;
  }

  /** What the auth service knows of a user. */
  datatype AuthUser = AuthUser(id: string, email: Option<string>)

  /** A signed-in caller with an e-mail address. */
  datatype Account = Account(id: string, email: string)

  /**
   * The checks before Stripe is called, in order: the secret key, the
   * Authorization header, the auth service's answer for the bearer token, and
   * the user's e-mail. Each failure carries the message the function throws.
   */
  function Authenticate(stripeKey: Option<string>, authHeader: Option<string>,
                        getUser: string -> Result<Option<AuthUser>>): (r: Result<Account>)
    ensures stripeKey.None? || stripeKey == Some("") ==> r == Err("STRIPE_SECRET_KEY is not set")
    ensures stripeKey.Some? && stripeKey != Some("") && (authHeader.None? || authHeader == Some("")) ==>
      r == Err("No authorization header provided")
    ensures r.Ok? ==> stripeKey.Some? && stripeKey.value != "" && authHeader.Some? && authHeader.value != ""
    ensures r.Ok? ==> getUser(BearerToken(authHeader.value)) == Ok(Some(AuthUser(r.value.id, Some(r.value.email))))
    ensures r.Ok? ==> r.value.email != ""
    ensures stripeKey.Some? && stripeKey.value != "" && authHeader.Some? && authHeader.value != "" ==>
      match getUser(BearerToken(authHeader.value))
      case Err(m) => r == Err("Authentication error: " + m)
      case Ok(None) => r == Err("User not authenticated or email not available")
      case Ok(Some(u)) =>
        if u.email.None? || u.email == Some("") then r == Err("User not authenticated or email not available")
        else r == Ok(Account(u.id, u.email.value))
  {
    if stripeKey.None? || stripeKey.value == "" then Err("STRIPE_SECRET_KEY is not set")
    else if authHeader.None? || authHeader.value == "" then Err("No authorization header provided")
    else
      match getUser(BearerToken(authHeader.value))
      case Err(m) => Err("Authentication error: " + m)
      case Ok(None) => Err("User not authenticated or email not available")
      case Ok(Some(u)) =>
        if u.email.None? || u.email.value == "" then Err("User not authenticated or email not available")
        else Ok(Account(u.id, u.email.value))
  }

  /** A Stripe checkout session, as far as the check reads it. */
  datatype CheckoutSession = CheckoutSession(
    id: string,
    payment_status: string,
    mode: string,
    customer_details_email: Option<string>,
    customer_email: Option<string>)

  /** The Stripe account: customers by e-mail, the latest sessions, and each customer's latest sessions, newest first. */
  datatype Stripe = Stripe(
    customersByEmail: string -> Result<seq<string>>,
    sessions: Result<seq<CheckoutSession>>,
    sessionsOf: string -> Result<seq<CheckoutSession>>)

  /** A list call with `limit: n`: at most the first `n` entries. */
  function Take<T>(s: seq<T>, n: nat): (r: seq<T>)
    ensures |r| <= n && |r| <= |s| && r == s[..|r|]
    ensures |s| <= n ==> r == s
  {
    if |s| <= n then s else s[..n]
  }

  /** A session counts as a successful payment: paid, and a one-off payment rather than a subscription. */
  predicate IsSuccess(s: CheckoutSession) {
    s.payment_status == "paid" && s.mode == "payment"
  }

  /** The sessions of a buyer with no customer record: matched by either e-mail field. */
  function ForEmail(email: string): CheckoutSession -> bool {
    (s: CheckoutSession) => s.customer_details_email == Some(email) || s.customer_email == Some(email)
  }

  /** `sessions.some(isSuccess)`. */
  function HasSuccessfulPayment(ss: seq<CheckoutSession>): (b: bool)
    ensures b <==> exists i :: 0 <= i < |ss| && IsSuccess(ss[i])
  {
    if ss == [] then false else IsSuccess(ss[0]) || HasSuccessfulPayment(ss[1..])
  }

  /** A successful payment made under the e-mail. */
  predicate PaidFor(email: string, s: CheckoutSession) {
    ForEmail(email)(s) && IsSuccess(s)
  }

  /** Without a customer record, the user pays iff one of the listed sessions under their e-mail is a successful payment. */
  lemma {:induction false} PaidByEmail(ss: seq<CheckoutSession>, email: string)
    ensures HasSuccessfulPayment(Filter(ss, ForEmail(email))) <==> exists i :: 0 <= i < |ss| && PaidFor(email, ss[i])
  {
    if ss != [] {
      var rest := ss[1..];
      PaidByEmail(rest, email);
      var r := Filter(rest, ForEmail(email));
      if ForEmail(email)(ss[0]) {
        assert Filter(ss, ForEmail(email)) == [ss[0]] + r;
        assert ([ss[0]] + r)[1..] == r;
      } else {
        assert Filter(ss, ForEmail(email)) == r;
      }
      if exists i :: 0 <= i < |ss| && PaidFor(email, ss[i]) {
        var i :| 0 <= i < |ss| && PaidFor(email, ss[i]);
        if i > 0 {
          assert rest[i - 1] == ss[i];
        }
      }
      if exists i :: 0 <= i < |rest| && PaidFor(email, rest[i]) {
        var i :| 0 <= i < |rest| && PaidFor(email, rest[i]);
        assert ss[i + 1] == rest[i];
      }
    }
  }

  /** The sessions the decision looks at, and the customer found, if any. */
  datatype Lookup = Lookup(customer: Option<string>, considered: seq<CheckoutSession>)

  /**
   * The Stripe queries: the first customer with the e-mail; with none, the
   * latest 100 sessions narrowed to the e-mail; with one, that customer's
   * latest 10 sessions. A failed call carries Stripe's message.
   */
  function FindSessions(email: string, stripe: Stripe): (r: Result<Lookup>)
    ensures r.Ok? ==> stripe.customersByEmail(email).Ok?
    ensures r.Ok? && r.value.customer.None? ==>
      && stripe.customersByEmail(email).value == []
      && stripe.sessions.Ok?
      && r.value.considered == Filter(Take(stripe.sessions.value, 100), ForEmail(email))
    ensures r.Ok? && r.value.customer.Some? ==>
      && |stripe.customersByEmail(email).value| > 0
      && r.value.customer.value == stripe.customersByEmail(email).value[0]
      && stripe.sessionsOf(r.value.customer.value).Ok?
      && r.value.considered == Take(stripe.sessionsOf(r.value.customer.value).value, 10)
    ensures r.Ok? && r.value.customer.None? ==> forall i :: 0 <= i < |r.value.considered| ==> ForEmail(email)(r.value.considered[i])
  {
    match stripe.customersByEmail(email)
    case Err(m) => Err(m)
    case Ok(customers) =>
      var first := Take(customers, 1);
      if first == [] then
        match stripe.sessions
        case Err(m) => Err(m)
        case Ok(all) => Ok(Lookup(None, Filter(Take(all, 100), ForEmail(email))))
      else
        match stripe.sessionsOf(first[0])
        case Err(m) => Err(m)
        case Ok(ss) => Ok(Lookup(Some(first[0]), Take(ss, 10)))
  }

  /** A JSON member that may be left out, be null, or hold a value. */
  datatype Field<+T> = Omitted | Null | Value(value: T)

  /** The JSON bodies the function answers with. */
  datatype Body =
    | Status(subscribed: bool, subscription_tier: Field<string>, subscription_end: Field<Millis>)
    | Failure(error: string)

  /** The CORS preflight answer, or a JSON answer with its status code. */
  datatype Response = Preflight | Json(status: int, body: Body)

  /** The `subscribers` row upserted, keyed by e-mail. */
  datatype SubscriberRow = SubscriberRow(
    email: string,
    user_id: string,
    stripe_customer_id: Option<string>,
    subscribed: bool,
    subscription_tier: Option<string>,
    subscription_end: Option<Millis>,
    updated_at: Millis)

  /**
   * The request handler. `now` stands for the clock; the answer and the
   * recorded row are returned rather than sent.
   */
  method Handle(method_: string, stripeKey: Option<string>, authHeader: Option<string>,
                getUser: string -> Result<Option<AuthUser>>, stripe: Stripe, now: Millis)
    returns (response: Response, upsert: Option<SubscriberRow>)
    ensures method_ == "OPTIONS" ==> response == Preflight && upsert.None?
    ensures method_ != "OPTIONS" && Authenticate(stripeKey, authHeader, getUser).Err? ==>
      response == Json(500, Failure(Authenticate(stripeKey, authHeader, getUser).message)) && upsert.None?
    ensures method_ != "OPTIONS" && Authenticate(stripeKey, authHeader, getUser).Ok? ==>
      var account := Authenticate(stripeKey, authHeader, getUser).value;
      var lookup := FindSessions(account.email, stripe);
      && (lookup.Err? ==> response == Json(500, Failure(lookup.message)) && upsert.None?)
      && (lookup.Ok? ==>
            var paid := HasSuccessfulPayment(lookup.value.considered);
            && response.Json? && response.status == 200 && response.body.Status?
            && response.body.subscribed == paid
            && upsert.Some?
            && upsert.value.email == account.email && upsert.value.user_id == account.id
            && upsert.value.subscribed == paid
            && upsert.value.stripe_customer_id == lookup.value.customer
            && upsert.value.updated_at == now
            && (paid ==>
                  && upsert.value.subscription_tier == Some("Premium")
                  && upsert.value.subscription_end == Some(now + YearMs)
                  && response.body.subscription_tier == Value("Premium")
                  && response.body.subscription_end == Value(now + YearMs))
            && (!paid ==> upsert.value.subscription_tier.None? && upsert.value.subscription_end.None?)
            && (!paid && lookup.value.customer.Some? ==> response.body.subscription_tier == Null && response.body.subscription_end == Null)
            && (!paid && lookup.value.customer.None? ==> response.body.subscription_tier == Omitted && response.body.subscription_end == Omitted))
  {
    if method_ == "OPTIONS" {
      return Preflight, None;
    }
    upsert := None;
    if stripeKey.None? || stripeKey.value == "" {
      return Json(500, Failure("STRIPE_SECRET_KEY is not set")), None;
    }
    if authHeader.None? || authHeader.value == "" {
      return Json(500, Failure("No authorization header provided")), None;
    }
    var token := BearerToken(authHeader.value);
    var userData := getUser(token);
    if userData.Err? {
      return Json(500, Failure("Authentication error: " + userData.message)), None;
    }
    if userData.value.None? || userData.value.value.email.None? || userData.value.value.email.value == "" {
      return Json(500, Failure("User not authenticated or email not available")), None;
    }
    var user := userData.value.value;
    var email := user.email.value;

    var customers := stripe.customersByEmail(email);
    if customers.Err? {
      return Json(500, Failure(customers.message)), None;
    }
    if Take(customers.value, 1) == [] {
      var allSessions := stripe.sessions;
      if allSessions.Err? {
        return Json(500, Failure(allSessions.message)), None;
      }
      var userSessions := Filter(Take(allSessions.value, 100), ForEmail(email));
      var hasSuccessfulPayment := HasSuccessfulPayment(userSessions);
      if hasSuccessfulPayment {
        upsert := Some(SubscriberRow(email, user.id, None, true, Some("Premium"), Some(now + YearMs), now));
        return Json(200, Status(true, Value("Premium"), Value(now + YearMs))), upsert;
      }
      upsert := Some(SubscriberRow(email, user.id, None, false, None, None, now));
      return Json(200, Status(false, Omitted, Omitted)), upsert;
    }

    var customerId := Take(customers.value, 1)[0];
    var sessions := stripe.sessionsOf(customerId);
    if sessions.Err? {
      return Json(500, Failure(sessions.message)), None;
    }
    var hasSuccessfulPayment := HasSuccessfulPayment(Take(sessions.value, 10));
    var subscriptionTier: Option<string> := None;
    var subscriptionEnd: Option<Millis> := None;
    if hasSuccessfulPayment {
      subscriptionTier := Some("Premium");
      subscriptionEnd := Some(now + YearMs);
    }
    upsert := Some(SubscriberRow(email, user.id, Some(customerId), hasSuccessfulPayment, subscriptionTier, subscriptionEnd, now));
    response := Json(200, Status(hasSuccessfulPayment,
                                 if subscriptionTier.Some? then Value(subscriptionTier.value) else Null,
                                 if subscriptionEnd.Some? then Value(subscriptionEnd.value) else Null));
  }
}
