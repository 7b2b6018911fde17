/** One URL's fetch: the redirect chain of an attempt and the retry loop around it. */
module AssetFetch {
  import opened Common
  import opened Digits

  type Body = seq<bv8>

  datatype Media = Pdf | Png | Jpeg

  datatype Outcome = Fetched | Cached | Uncached | Refused | Unreachable | Oversize | Gone | Retryable

  datatype Fetch = Fetch(outcome: Outcome, detail: string, attempts: nat, body: Option<Body>, media: Option<Media>)

  /** A URL after the allowlist rules: the target a request may open, or why not. */
  datatype Prepared = Target(target: string) | Barred(reason: string)

  /** What opening one target came to; `body` is what the server sends, `None` if the deadline cut it. */
  datatype Response =
    | OutOfTime
    | Failed(detail: string)
    | Unsendable
    | Reply(status: nat, location: string, body: Option<Body>)

  datatype Policy = Policy(maxBytes: nat, maxRedirects: nat, maxAttempts: nat, prepare: string -> Prepared)

  /**
   * The outside world as one URL's fetch meets it: the response to attempt n at hop h, the joining of a
   * redirect's location, and whether waiting after attempt n would pass the deadline.
   */
  datatype Site = Site(open: (string, nat, nat) -> Response, join: (string, string) -> Option<string>, late: nat -> bool)

  const REDIRECTS: set<nat> := {301, 302, 303, 307, 308}
  const GONE: set<nat> := {404, 410}
  const DEADLINE := "deadline exceeded"
  const PDF_SIGNATURE: Body := [0x25, 0x50, 0x44, 0x46, 0x2D]
  const PNG_SIGNATURE: Body := [0x89, 0x50, 0x4E, 0x47, 0x0D, 0x0A, 0x1A, 0x0A]
  const JPEG_SIGNATURE: Body := [0xFF, 0xD8, 0xFF]

  function Sniff(body: Body): Option<Media> {
    if PDF_SIGNATURE <= body then Some(Pdf)
    else if PNG_SIGNATURE <= body then Some(Png)
    else if JPEG_SIGNATURE <= body then Some(Jpeg)
    else None
  }

  function NoBody(outcome: Outcome, detail: string): Fetch {
    Fetch(outcome, detail, 0, None, None)
  }

  /** The `read(cap + 1)` rule: one byte more than the cap is enough to show oversize. */
  function ReadCapped(sent: Body, cap: nat): Body {
    if |sent| > cap then sent[..cap + 1] else sent
  }

  function Received(sent: Option<Body>, cap: nat): Fetch {
    if sent.None? then NoBody(Unreachable, DEADLINE)
    else
      var body := ReadCapped(sent.value, cap);
      if |body| > cap then NoBody(Oversize, "body over the size cap")
      else if Sniff(body).None? then NoBody(Refused, "unrecognized content")
      else Fetch(Fetched, "", 0, Some(body), Sniff(body))
  }

  function ByStatus(status: nat): Fetch {
    if status in GONE then NoBody(Gone, "status " + Decimal(status))
    else if status == 429 || 500 <= status <= 599 then NoBody(Retryable, "status " + Decimal(status))
    else NoBody(Unreachable, "status " + Decimal(status))
  }

  /** The rest of one attempt's redirect chain, from hop `hop` at `current`. */
  function ChainFrom(policy: Policy, site: Site, attempt: nat, current: Option<string>, hop: nat): Fetch
    requires hop <= policy.maxRedirects + 1
    decreases policy.maxRedirects + 1 - hop
  {
    if hop == policy.maxRedirects + 1 then NoBody(Refused, "too many redirects")
    else if current.None? then NoBody(Refused, "redirect target: malformed url")
    else match policy.prepare(current.value)
      case Barred(reason) => NoBody(Refused, if hop == 0 then reason else "redirect target: " + reason)
      case Target(target) =>
        match site.open(target, attempt, hop)
        case OutOfTime => NoBody(Unreachable, DEADLINE)
        case Failed(detail) => NoBody(Unreachable, detail)
        case Unsendable => NoBody(Refused, "malformed url")
        case Reply(status, location, body) =>
          if status in REDIRECTS then
            if location == "" then NoBody(Unreachable, "status " + Decimal(status) + " without location")
            else ChainFrom(policy, site, attempt, site.join(target, location), hop + 1)
          else if status == 200 then Received(body, policy.maxBytes)
          else ByStatus(status)
  }

  function AttemptOf(policy: Policy, site: Site, url: string, attempt: nat): Fetch {
    ChainFrom(policy, site, attempt, Some(url), 0)
  }

  /** The allowlist let this target through. */
  ghost predicate Cleared(policy: Policy, target: string) {
    exists url :: policy.prepare(url) == Target(target)
  }

  /** One attempt, listing every target it opened. */
  method Attempt(policy: Policy, site: Site, url: string, attempt: nat) returns (r: Fetch, visited: seq<string>)
    ensures r == AttemptOf(policy, site, url, attempt)
    ensures |visited| <= policy.maxRedirects + 1
    ensures forall t <- visited :: Cleared(policy, t)
  {
    var current: Option<string> := Some(url);
    visited := [];
    for hop := 0 to policy.maxRedirects + 1
      invariant |visited| <= hop
      invariant forall t <- visited :: Cleared(policy, t)
      invariant AttemptOf(policy, site, url, attempt) == ChainFrom(policy, site, attempt, current, hop)
    {
      if current.None? {
        return NoBody(Refused, "redirect target: malformed url"), visited;
      }
      match policy.prepare(current.value) {
        case Barred(reason) =>
          return NoBody(Refused, if hop == 0 then reason else "redirect target: " + reason), visited;
        case Target(target) =>
          visited := visited + [target];
          assert Cleared(policy, target);
          match site.open(target, attempt, hop) {
            case OutOfTime => return NoBody(Unreachable, DEADLINE), visited;
            case Failed(detail) => return NoBody(Unreachable, detail), visited;
            case Unsendable => return NoBody(Refused, "malformed url"), visited;
            case Reply(status, location, body) =>
              if status !in REDIRECTS {
                return if status == 200 then Received(body, policy.maxBytes) else ByStatus(status), visited;
              }
              if location == "" {
                return NoBody(Unreachable, "status " + Decimal(status) + " without location"), visited;
              }
              current := site.join(target, location);
          }
      }
    }
    r := NoBody(Refused, "too many redirects");
  }

  /** What a fetch may report: a body exactly when fetched, recognised, not empty and within the cap. */
  ghost predicate Sound(policy: Policy, f: Fetch) {
    && f.outcome !in {Cached, Uncached}
    && (f.outcome == Fetched <==> f.body.Some?)
    && (f.outcome == Fetched ==> 1 <= |f.body.value| <= policy.maxBytes && f.media == Sniff(f.body.value) && f.media.Some?)
    && (f.outcome != Fetched ==> f.media == None)
  }

  lemma {:induction false} ChainIsSound(policy: Policy, site: Site, attempt: nat, current: Option<string>, hop: nat)
    requires hop <= policy.maxRedirects + 1
    ensures Sound(policy, ChainFrom(policy, site, attempt, current, hop))
    decreases policy.maxRedirects + 1 - hop
  {
    if hop <= policy.maxRedirects && current.Some? && policy.prepare(current.value).Target? {
      var target := policy.prepare(current.value).target;
      var reply := site.open(target, attempt, hop);
      if reply.Reply? && reply.status in REDIRECTS && reply.location != "" {
        ChainIsSound(policy, site, attempt, site.join(target, reply.location), hop + 1);
      }
    }
  }

  lemma AttemptIsSound(policy: Policy, site: Site, url: string, attempt: nat)
    ensures Sound(policy, AttemptOf(policy, site, url, attempt))
  {
    ChainIsSound(policy, site, attempt, Some(url), 0);
  }

  /** The retry loop from attempt number `n` on. */
  function FetchFrom(policy: Policy, site: Site, url: string, n: nat): (f: Fetch)
    requires 1 <= n
    decreases policy.maxAttempts - n
  {
    var r := AttemptOf(policy, site, url, n);
    if r.outcome != Retryable then r.(attempts := n)
    else if n >= policy.maxAttempts then Fetch(Unreachable, r.detail, n, None, None)
    else if site.late(n) then Fetch(Unreachable, DEADLINE, n, None, None)
    else FetchFrom(policy, site, url, n + 1)
  }

  method FetchOne(policy: Policy, site: Site, url: string) returns (f: Fetch)
    ensures f == FetchFrom(policy, site, url, 1)
  {
    hide AttemptOf, ChainFrom;
    var attempt := 0;
    while true
      invariant attempt == 0 || attempt < policy.maxAttempts
      invariant FetchFrom(policy, site, url, 1) == FetchFrom(policy, site, url, attempt + 1)
      decreases policy.maxAttempts - attempt
    {
      attempt := attempt + 1;
      var r, _ := Attempt(policy, site, url, attempt);
      if r.outcome != Retryable {
        return r.(attempts := attempt);
      }
      if attempt >= policy.maxAttempts {
        return Fetch(Unreachable, r.detail, attempt, None, None);
      }
      if site.late(attempt) {
        return Fetch(Unreachable, DEADLINE, attempt, None, None);
      }
    }
  }

  /**
   * A fetch makes at least one and at most `maxAttempts` attempts; it moves on only from a retryable
   * answer with time left, ends with the first other answer, and never reports the internal marker.
   */
  lemma {:induction false} FetchIsBounded(policy: Policy, site: Site, url: string, n: nat)
    requires 1 <= n <= policy.maxAttempts
    ensures var f := FetchFrom(policy, site, url, n);
            && n <= f.attempts <= policy.maxAttempts
            && Sound(policy, f) && f.outcome != Retryable
            && (forall k :: n <= k < f.attempts ==> AttemptOf(policy, site, url, k).outcome == Retryable && !site.late(k))
            && (var last := AttemptOf(policy, site, url, f.attempts);
                if last.outcome != Retryable then f == last.(attempts := f.attempts)
                else f.outcome == Unreachable && (f.attempts == policy.maxAttempts || site.late(f.attempts)))
    decreases policy.maxAttempts - n
  {
    AttemptIsSound(policy, site, url, n);
    hide AttemptOf, ChainFrom;
    var r := AttemptOf(policy, site, url, n);
    if r.outcome == Retryable && n < policy.maxAttempts && !site.late(n) {
      FetchIsBounded(policy, site, url, n + 1);
    }
  }
}
