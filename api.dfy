/** The HTTP client's policies: when a failed request is retried and after
    how long, what a 401 answer does to the stored session, and the session
    queries (`isLoggedIn`, `isAdmin`, `getCurrentUser`). */
module Api {
  import opened Common

  /** At most this many retries are meant to be made. */
  const MaxRetries := 3

  /** `config.retry` read as JavaScript does: missing and 0 are falsy. */
  predicate CounterSet(retry: Option<nat>) {
    retry.Some? && retry.value != 0
  }

  /** A failed request is given up as the interceptor is written: without a
      config, with an unset counter, with 3 or more retries made, or with a
      response below 500. `status` is `None` for a network error. */
  predicate GivesUpAsWritten(hasConfig: bool, retry: Option<nat>, status: Option<int>)
    ensures !CounterSet(retry) ==> GivesUpAsWritten(hasConfig, retry, status)
    ensures GivesUpAsWritten(hasConfig, retry, status) && hasConfig && CounterSet(retry) ==>
      retry.value >= MaxRetries || (status.Some? && status.value < 500)
  {
    || !hasConfig
    || !CounterSet(retry)
    || (retry.Some? && retry.value >= MaxRetries)
    || (status.Some? && status.value < 500)
  }

  /** The request's counter after a retry; the `: 1` branch is the first
      retry of a request that has none yet. */
  function NextCounter(retry: Option<nat>): (r: nat)
    ensures CounterSet(retry) ==> r == retry.value + 1
    ensures !CounterSet(retry) ==> r == 1
  {
    if CounterSet(retry) then retry.value + 1 else 1
  }

  /** As written, a request whose counter was never set is never retried,
      network error or 5xx alike, so the interceptor can never make a first
      retry: the `: 1` branch cannot be reached. */
  lemma NeverRetriedAsWritten(status: Option<int>)
    ensures GivesUpAsWritten(true, None, status)
    ensures GivesUpAsWritten(true, Some(0), status)
  {
  }

  /** The evidently intended test: give up without a config, after 3
      retries, or on a response below 500; network errors and 5xx answers
      are retried. */
  predicate GivesUp(hasConfig: bool, retry: Option<nat>, status: Option<int>)
    ensures hasConfig && retry.GetOr(0) < MaxRetries && (status.None? || status.value >= 500) ==>
      !GivesUp(hasConfig, retry, status)
    ensures !hasConfig || retry.GetOr(0) >= MaxRetries || (status.Some? && status.value < 500) ==>
      GivesUp(hasConfig, retry, status)
    ensures GivesUp(hasConfig, retry, status) ==> GivesUpAsWritten(hasConfig, retry, status)
  {
    || !hasConfig
    || (retry.Some? && retry.value >= MaxRetries)
    || (status.Some? && status.value < 500)
  }

  /** `Math.pow(2, retry) * 100`, in milliseconds. */
  function BackoffDelay(retry: nat): (r: nat)
    ensures r >= 100
    ensures retry > 0 ==> r == 2 * BackoffDelay(retry - 1)
  {
    if retry == 0 then 100 else 2 * BackoffDelay(retry - 1)
  }

  /** The number of retries made for a request whose attempts fail with
      `failures` in turn (a status, or `None` for a network error), starting
      from the counter `retry`. */
  function RetriesMade(retry: Option<nat>, failures: seq<Option<int>>): (n: nat)
    decreases |failures|
  {
    if |failures| == 0 || GivesUp(true, retry, failures[0]) then 0
    else 1 + RetriesMade(Some(NextCounter(retry)), failures[1..])
  }

  /** A fresh request is retried at most 3 times, whatever the failures. */
  lemma {:induction false} RetriesBounded(retry: Option<nat>, failures: seq<Option<int>>)
    requires retry.None? || retry.value <= MaxRetries
    ensures RetriesMade(retry, failures) <= MaxRetries - retry.GetOr(0)
    decreases |failures|
  {
    if |failures| > 0 && !GivesUp(true, retry, failures[0]) {
      RetriesBounded(Some(NextCounter(retry)), failures[1..]);
    }
  }

  /** A fresh request that keeps failing with network errors or 5xx
      answers is retried exactly 3 times. */
  lemma {:induction false} RetriesExhausted(retry: Option<nat>, failures: seq<Option<int>>)
    requires retry.None? || retry.value <= MaxRetries
    requires |failures| > MaxRetries - retry.GetOr(0)
    requires forall i | 0 <= i < |failures| :: failures[i].None? || failures[i].value >= 500
    ensures RetriesMade(retry, failures) == MaxRetries - retry.GetOr(0)
    decreases |failures|
  {
    if retry.GetOr(0) < MaxRetries {
      assert !GivesUp(true, retry, failures[0]);
      var rest := failures[1..];
      assert forall i | 0 <= i < |rest| :: rest[i] == failures[i + 1];
      RetriesExhausted(Some(NextCounter(retry)), rest);
    }
  }

  /** The request being retried; its counter is updated in place. */
  class RequestConfig {
    var url: string
    var httpMethod: string
    var retry: Option<nat>

    constructor (url: string, httpMethod: string)
      ensures this.url == url && this.httpMethod == httpMethod && retry.None?
    {
      this.url := url;
      this.httpMethod := httpMethod;
      retry := None;
    }
  }

  /** The retry interceptor, with the intended test: either the failure is
      passed on, or the counter is raised and the request is re-issued after
      the backoff delay. */
  method HandleFailure(config: RequestConfig?, status: Option<int>) returns (retried: bool, delay: nat)
    modifies config
    ensures retried <==> !GivesUp(config != null, if config == null then None else old(config.retry), status)
    ensures retried ==> config.retry == Some(NextCounter(old(config.retry))) && delay == BackoffDelay(config.retry.value)
    ensures retried ==> 1 <= config.retry.value <= MaxRetries
    ensures !retried && config != null ==> config.retry == old(config.retry)
    ensures config != null ==> config.url == old(config.url) && config.httpMethod == old(config.httpMethod)
  {
    if config == null || (config.retry.Some? && config.retry.value >= MaxRetries) || (status.Some? && status.value < 500) {
      return false, 0;
    }
    config.retry := Some(if CounterSet(config.retry) then config.retry.value + 1 else 1);
    delay := BackoffDelay(config.retry.value);
    retried := true;
  }

  /** The signed-in user as stored. */
  datatype User = User(name: Option<string>, email: Option<string>, role: Option<string>)

  /** What `JSON.parse` makes of the stored user text: a throw, `null`, or
      a user object. */
  datatype StoredJson = Unparseable | JsonNull | UserObject(user: User)

  /** A 401 on a POST to an '/orders' URL is the checkout's own business. */
  predicate IsCheckoutRequest(url: string, httpMethod: string) {
    Contains(url, "/orders") && httpMethod == "post"
  }

  /** The browser's storage of the session: the token and the user text. */
  class SessionStore {
    var token: Option<string>
    var user: Option<string>

    constructor (token: Option<string>, user: Option<string>)
      ensures this.token == token && this.user == user
    {
      this.token := token;
      this.user := user;
    }

    /** `isLoggedIn`: a token is stored (even an empty one). */
    predicate IsLoggedIn()
      reads this
      ensures token == Some("") ==> IsLoggedIn()
      ensures token.None? ==> !IsLoggedIn()
    {
      token.Some?
    }

    /** `getCurrentUser`: the stored user, or nothing when the text is
        missing, empty, unparseable or `null`. */
    function GetCurrentUser(parse: string -> StoredJson): (r: Option<User>)
      reads this
      ensures !Truthy(user) ==> r.None?
      ensures Truthy(user) && parse(user.value).UserObject? ==> r == Some(parse(user.value).user)
      ensures Truthy(user) && !parse(user.value).UserObject? ==> r.None?
    {
      if !Truthy(user) then None
      else match parse(user.value)
        case UserObject(u) => Some(u)
        case _ => None
    }

    /** `isAdmin`: false without a user text, when it does not parse or
        parses to `null`; otherwise whether the role is "admin". */
    predicate IsAdmin(parse: string -> StoredJson)
      reads this
      ensures !Truthy(user) ==> !IsAdmin(parse)
      ensures IsAdmin(parse) ==> parse(user.value).UserObject? && parse(user.value).user.role == Some("admin")
    {
      Truthy(user) && parse(user.value).UserObject? && parse(user.value).user.role == Some("admin")
    }

    /** Once the user text is removed there is no current user and no admin. */
    lemma SignedOutHasNoUser(parse: string -> StoredJson)
      requires user.None?
      ensures !IsAdmin(parse) && GetCurrentUser(parse).None?
    {
    }

    /** `isAdmin` asks exactly whether the current user is an admin. */
    lemma IsAdminIffCurrentUserAdmin(parse: string -> StoredJson)
      ensures IsAdmin(parse) <==> GetCurrentUser(parse).Some? && GetCurrentUser(parse).value.role == Some("admin")
    {
    }

    /** The 401 interceptor: for any request but a checkout POST, a 401
        removes the token and the user and sends the browser to '/login',
        unless it is on a checkout page. Any other answer changes nothing. */
    method HandleUnauthorized(status: Option<int>, url: string, httpMethod: string, pathname: string)
      returns (redirect: Option<string>)
      modifies this
      ensures status == Some(401) && !IsCheckoutRequest(url, httpMethod) ==>
        token.None? && user.None? && redirect == (if Contains(pathname, "/checkout") then None else Some("/login"))
      ensures !(status == Some(401) && !IsCheckoutRequest(url, httpMethod)) ==>
        token == old(token) && user == old(user) && redirect.None?
    {
      redirect := None;
      if status == Some(401) {
        var isCheckoutRoute := Contains(url, "/orders") && httpMethod == "post";
        if !isCheckoutRoute {
          token := None;
          user := None;
          if !Contains(pathname, "/checkout") {
            redirect := Some("/login");
          }
        }
      }
    }
  }
}
