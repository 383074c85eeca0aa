/** The browser's calls to the API route: the cached CSRF token and the retrying recursion around one POST. */
module ClientCalls {
  import opened Text
  import Retry

  const CLIENT_MAX_RETRIES := 2
  const CLIENT_RETRY_BASE_MS := 600

  // ---- the other side ----

  datatype Body<B> = Unreadable | NotJson | JsonNull | Json(errorCode: string, content: B)

  datatype PostAnswer<B> = Replied(status: nat, body: Body<B>) | Aborted | Failed

  datatype TokenAnswer = Token(token: Option<string>) | TokenFailed

  /** The answer to the POST of each attempt, and to each request for a token. */
  datatype World<!B> = World(post: nat -> PostAnswer<B>, csrf: nat -> TokenAnswer)

  datatype Reply<B> = Normalized(content: B) | ParseError(status: nat) | Timeout | NetworkError

  // ---- what one answer leads to ----

  predicate IsTransientStatus(status: nat) {
    status == 502 || status == 503 || status == 504
  }

  predicate RejectsToken<B>(a: PostAnswer<B>) {
    a.Replied? && a.status == 403 && a.body.Json? && a.body.errorCode == "CSRF_ERROR"
  }

  /** Answers that are repeated after a wait: no reply, an unreadable one, the JSON text `null`, or a transient status. */
  predicate IsRepeated<B>(a: PostAnswer<B>) {
    a.Failed? || (a.Replied? && (a.body.Unreadable? || a.body.JsonNull? || IsTransientStatus(a.status)))
  }

  function Wait(attempt: nat): nat {
    CLIENT_RETRY_BASE_MS * Retry.Pow2(attempt)
  }

  predicate Retries<B>(attempt: nat, a: PostAnswer<B>) {
    (IsRepeated(a) && attempt < CLIENT_MAX_RETRIES) || (RejectsToken(a) && attempt == 0)
  }

  function Final<B>(a: PostAnswer<B>): Reply<B> {
    match a
    case Aborted => Timeout
    case Failed => NetworkError
    case Replied(status, body) =>
      match body
      case Unreadable => NetworkError
      case NotJson => ParseError(status)
      case JsonNull => NetworkError
      case Json(_, content) => Normalized(content)
  }

  // ---- the token cache ----

  datatype Cache = Cache(token: Option<string>, fetches: nat)

  function TokenOf<B>(w: World<B>, c: Cache, forceRefresh: bool): string {
    if Truthy(c.token) && !forceRefresh then c.token.value else
    match w.csrf(c.fetches)
    case Token(t) => OrElse(t, "")
    case TokenFailed => ""
  }

  function CacheAfter<B>(w: World<B>, c: Cache, forceRefresh: bool): Cache {
    if Truthy(c.token) && !forceRefresh then c else
    match w.csrf(c.fetches)
    case Token(t) => Cache(t, c.fetches + 1)
    case TokenFailed => Cache(c.token, c.fetches + 1)
  }

  // ---- a whole call ----

  /** `tokens` holds the token of every POST that was made. */
  datatype Outcome<B> = Outcome(reply: Reply<B>, tokens: seq<string>, refreshes: nat, backoff: nat, cache: Cache)

  function Run<B>(w: World<B>, attempt: nat, c: Cache): Outcome<B>
    requires attempt <= CLIENT_MAX_RETRIES
    decreases CLIENT_MAX_RETRIES - attempt
  {
    var token, c1, a := TokenOf(w, c, false), CacheAfter(w, c, false), w.post(attempt);
    if !Retries(attempt, a) then Outcome(Final(a), [token], 0, 0, c1)
    else if IsRepeated(a) then
      var rest := Run(w, attempt + 1, c1);
      Outcome(rest.reply, [token] + rest.tokens, rest.refreshes, Wait(attempt) + rest.backoff, rest.cache)
    else
      var rest := Run(w, attempt + 1, CacheAfter(w, c1, true));
      Outcome(rest.reply, [token] + rest.tokens, rest.refreshes + 1, rest.backoff, rest.cache)
  }

  class Client {
    var csrfToken: Option<string>
    var fetches: nat

    constructor ()
      ensures csrfToken == None && fetches == 0
    {
      csrfToken, fetches := None, 0;
    }

    function State(): Cache
      reads this
    {
      Cache(csrfToken, fetches)
    }

    method GetCsrfToken<B>(w: World<B>, forceRefresh: bool) returns (token: string)
      modifies this
      ensures token == TokenOf(w, old(State()), forceRefresh)
      ensures State() == CacheAfter(w, old(State()), forceRefresh)
    {
      if Truthy(csrfToken) && !forceRefresh {
        return csrfToken.value;
      }
      var answer := w.csrf(fetches);
      fetches := fetches + 1;
      match answer {
        case Token(t) =>
          csrfToken := t;
          token := OrElse(csrfToken, "");
        case TokenFailed =>
          token := "";
      }
    }

    method CallSf<B>(w: World<B>, attempt: nat) returns (r: Outcome<B>)
      requires attempt <= CLIENT_MAX_RETRIES
      modifies this
      ensures r == Run(w, attempt, old(State())) && State() == r.cache
      decreases CLIENT_MAX_RETRIES - attempt
    {
      var token := GetCsrfToken(w, false);
      match w.post(attempt) {
        case Aborted =>
          return Outcome(Timeout, [token], 0, 0, State());
        case Failed =>
          r := RetryOrGiveUp(w, attempt, token);
        case Replied(status, body) =>
          if IsTransientStatus(status) && attempt < CLIENT_MAX_RETRIES {
            r := Again(w, attempt, token);
            return;
          }
          match body {
            case Unreadable => r := RetryOrGiveUp(w, attempt, token);
            case NotJson => r := Outcome(ParseError(status), [token], 0, 0, State());
            case JsonNull => r := RetryOrGiveUp(w, attempt, token);
            case Json(errorCode, content) =>
              if status == 403 && errorCode == "CSRF_ERROR" && attempt == 0 {
                var newToken := GetCsrfToken(w, true);
                var rest := CallSf(w, 1);
                return Outcome(rest.reply, [token] + rest.tokens, rest.refreshes + 1, rest.backoff, rest.cache);
              }
              r := Outcome(Normalized(content), [token], 0, 0, State());
          }
      }
    }

    /** The wait and the recursive call after a transient failure. */
    method Again<B>(w: World<B>, attempt: nat, token: string) returns (r: Outcome<B>)
      requires attempt < CLIENT_MAX_RETRIES
      modifies this
      ensures var rest := Run(w, attempt + 1, old(State()));
              r == Outcome(rest.reply, [token] + rest.tokens, rest.refreshes, Wait(attempt) + rest.backoff, rest.cache)
      ensures State() == r.cache
      decreases CLIENT_MAX_RETRIES - attempt, 0
    {
      var rest := CallSf(w, attempt + 1);
      r := Outcome(rest.reply, [token] + rest.tokens, rest.refreshes, Wait(attempt) + rest.backoff, rest.cache);
    }

    /** The handler of everything thrown but an abort. */
    method RetryOrGiveUp<B>(w: World<B>, attempt: nat, token: string) returns (r: Outcome<B>)
      requires attempt <= CLIENT_MAX_RETRIES
      modifies this
      ensures attempt == CLIENT_MAX_RETRIES ==>
                State() == old(State()) && r == Outcome(NetworkError, [token], 0, 0, State())
      ensures attempt < CLIENT_MAX_RETRIES ==>
                var rest := Run(w, attempt + 1, old(State()));
                State() == r.cache &&
                r == Outcome(rest.reply, [token] + rest.tokens, rest.refreshes, Wait(attempt) + rest.backoff, rest.cache)
      decreases CLIENT_MAX_RETRIES - attempt, 1
    {
      if attempt < CLIENT_MAX_RETRIES {
        r := Again(w, attempt, token);
      } else {
        r := Outcome(NetworkError, [token], 0, 0, State());
      }
    }
  }

  // ---- consequences ----

  /** Every POST but the last got an answer that is retried, and the reply is made of the last answer. */
  lemma {:induction false} LastAnswerDecides<B>(w: World<B>, attempt: nat, c: Cache)
    requires attempt <= CLIENT_MAX_RETRIES
    ensures var r := Run(w, attempt, c);
            && 1 <= |r.tokens| <= CLIENT_MAX_RETRIES + 1 - attempt
            && (forall i :: attempt <= i < attempt + |r.tokens| - 1 ==> Retries(i, w.post(i)))
            && !Retries(attempt + |r.tokens| - 1, w.post(attempt + |r.tokens| - 1))
            && r.reply == Final(w.post(attempt + |r.tokens| - 1))
    decreases CLIENT_MAX_RETRIES - attempt
  {
    if Retries(attempt, w.post(attempt)) {
      var c1 := CacheAfter(w, c, false);
      LastAnswerDecides(w, attempt + 1, if IsRepeated(w.post(attempt)) then c1 else CacheAfter(w, c1, true));
    }
  }

  /** The connection was lost, or the reply was unreadable or the text `null`, or its status was 502, 503 or 504. */
  predicate IsLost<B>(a: PostAnswer<B>) {
    || a.Failed?
    || (a.Replied? && (a.body.Unreadable? || a.body.JsonNull? || a.status == 502 || a.status == 503 || a.status == 504))
  }

  /**
   * Which answers are followed by another POST: a lost one, or a first one that rejects the token, while fewer than three were
   * made. The last one is what the caller is told: a timeout, a lost connection, a reply that cannot be parsed, or its content.
   */
  lemma ReplyIs<B>(w: World<B>, c: Cache)
    ensures var r, n := Run(w, 0, c), |Run(w, 0, c).tokens| - 1;
            var rejected := w.post(0).Replied? && w.post(0).status == 403 && w.post(0).body.Json? && w.post(0).body.errorCode == "CSRF_ERROR";
            && 0 <= n <= 2
            && (n > 0 ==> IsLost(w.post(0)) || rejected)
            && (n > 1 ==> IsLost(w.post(1)))
            && (n < 2 ==> !IsLost(w.post(n)))
            && (n == 0 ==> !rejected)
            && match w.post(n)
               case Aborted => r.reply == Timeout
               case Failed => r.reply == NetworkError
               case Replied(status, NotJson) => r.reply == ParseError(status)
               case Replied(_, Json(_, content)) => r.reply == Normalized(content)
               case Replied(_, _) => r.reply == NetworkError
  {
    LastAnswerDecides(w, 0, c);
  }

  /** The first POST carries the cached token, or else the one fetched for it, or none when that fails. */
  lemma FirstToken<B>(w: World<B>, c: Cache)
    ensures var token := Run(w, 0, c).tokens[0];
            if c.token.Some? && c.token.value != "" then token == c.token.value
            else match w.csrf(c.fetches)
                 case Token(t) => token == if t.Some? then t.value else ""
                 case TokenFailed => token == ""
  {
    LastAnswerDecides(w, 0, c);
    assert Run(w, 0, c).tokens[0] == TokenOf(w, c, false);
  }

  /** The waits double from attempt to attempt; a refreshed token costs the first one no wait. */
  lemma {:induction false} BackoffIs<B>(w: World<B>, attempt: nat, c: Cache)
    requires attempt <= CLIENT_MAX_RETRIES
    ensures var r := Run(w, attempt, c);
            && r.tokens != []
            && r.refreshes == (if attempt == 0 && RejectsToken(w.post(0)) then 1 else 0)
            && r.backoff == 600 * (Retry.Pow2(attempt + |r.tokens| - 1) - Retry.Pow2(attempt + r.refreshes))
    decreases CLIENT_MAX_RETRIES - attempt
  {
    if Retries(attempt, w.post(attempt)) {
      var c1 := CacheAfter(w, c, false);
      BackoffIs(w, attempt + 1, if IsRepeated(w.post(attempt)) then c1 else CacheAfter(w, c1, true));
    }
  }

  /**
   * A call makes at most three POSTs and one forced refresh and waits at most 1800 ms, 1200 ms when it refreshed; it
   * refreshes exactly when its first POST was rejected for its token.
   */
  lemma CallIsBounded<B>(w: World<B>, c: Cache)
    ensures var r := Run(w, 0, c);
            && 1 <= |r.tokens| <= 3
            && r.backoff <= 1800
            && r.refreshes == (if RejectsToken(w.post(0)) then 1 else 0)
            && (r.refreshes == 1 ==> r.backoff <= 1200)
  {
    LastAnswerDecides(w, 0, c);
    BackoffIs(w, 0, c);
    assert Retry.Pow2(0) == 1 && Retry.Pow2(1) == 2 && Retry.Pow2(2) == 4;
  }

  /** After a rejected token the next POST carries the new one; when the refresh failed, the rejected one again. */
  lemma TokenAfterRejection<B>(w: World<B>, c: Cache)
    requires RejectsToken(w.post(0))
    ensures var tokens, answer := Run(w, 0, c).tokens, w.csrf(CacheAfter(w, c, false).fetches);
            && |tokens| >= 2
            && (answer.Token? && Truthy(answer.token) ==> tokens[1] == answer.token.value)
            && (answer.TokenFailed? && tokens[0] != "" ==> tokens[1] == tokens[0])
  {
    var c1 := CacheAfter(w, c, false);
    var c2 := CacheAfter(w, c1, true);
    var rest := Run(w, 1, c2);
    assert rest.tokens[0] == TokenOf(w, c2, false);
    assert Run(w, 0, c).tokens == [TokenOf(w, c, false)] + rest.tokens;
  }

  /** A rejected token is forgiven only by the first attempt: after any retry it is the caller's failure. */
  lemma LateRejectionIsReturned<B>(w: World<B>, c: Cache)
    requires IsRepeated(w.post(0)) && RejectsToken(w.post(1))
    ensures var r := Run(w, 0, c);
            r.refreshes == 0 && |r.tokens| == 2 && r.reply == Normalized(w.post(1).body.content)
  {
    var rest := Run(w, 1, CacheAfter(w, c, false));
    assert rest.reply == Normalized(w.post(1).body.content);
  }

  /** The server's answer `null` counts as a lost connection: a call that keeps getting it is delivered three times. */
  lemma NullReplyIsRepeated<B>(w: World<B>, c: Cache)
    requires forall i: nat :: i < 3 ==> w.post(i) == Replied(200, JsonNull)
    ensures |Run(w, 0, c).tokens| == 3 && Run(w, 0, c).reply == NetworkError
  {
    LastAnswerDecides(w, 0, c);
  }
}
