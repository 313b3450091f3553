/**
 * The per-account fetch protocol of `fetchReading` (utils/glucoseMonitor.ts:99-139): read,
 * and on an error that looks like an authentication problem, log in once and read once more.
 */
module AuthRetry {
  import opened LibreLink

  /** `p` occurs in `s` starting at index `i`. */
  ghost predicate OccursAt(s: string, p: string, i: int) {
    0 <= i && i + |p| <= |s| && s[i..i + |p|] == p
  }

  /** JavaScript's `s.includes(p)`: a case-sensitive substring scan. */
  function Includes(s: string, p: string): bool
    decreases |s|
  {
    if |p| > |s| then false
    else if s[..|p|] == p then true
    else Includes(s[1..], p)
  }

  /** The scan finds `p` exactly when `p` occurs somewhere in `s`. */
  lemma {:induction false} IncludesIffOccurs(s: string, p: string)
    ensures Includes(s, p) <==> exists i :: OccursAt(s, p, i)
    decreases |s|
  {
    if |p| > |s| {
      forall i ensures !OccursAt(s, p, i) { }
    } else if s[..|p|] == p {
      assert OccursAt(s, p, 0);
    } else {
      IncludesIffOccurs(s[1..], p);
      if Includes(s[1..], p) {
        var j :| OccursAt(s[1..], p, j);
        assert s[1..][j..j + |p|] == s[j + 1..j + 1 + |p|];
        assert OccursAt(s, p, j + 1);
      } else {
        forall i | OccursAt(s, p, i) ensures false {
          assert i != 0;
          assert s[1..][i - 1..i - 1 + |p|] == s[i..i + |p|];
          assert OccursAt(s[1..], p, i - 1);
        }
      }
    }
  }

  /** Every character of a found needle is a character of the haystack. */
  lemma IncludesChar(s: string, p: string, k: nat)
    requires k < |p| && Includes(s, p)
    ensures p[k] in s
  {
    IncludesIffOccurs(s, p);
    var i :| OccursAt(s, p, i);
    assert s[i + k] == s[i..i + |p|][k];
  }

  /** The auth-error test of utils/glucoseMonitor.ts:125, case-sensitive as written. */
  predicate IsAuthError(message: string) {
    Includes(message, "jwt") || Includes(message, "unauthorized") ||
    Includes(message, "token") || Includes(message, "401")
  }

  /** A message is classified as an auth error exactly when one of the four markers occurs in it. */
  lemma IsAuthErrorIffMarker(message: string)
    ensures IsAuthError(message) <==>
      exists i :: OccursAt(message, "jwt", i) || OccursAt(message, "unauthorized", i) ||
                  OccursAt(message, "token", i) || OccursAt(message, "401", i)
  {
    IncludesIffOccurs(message, "jwt");
    IncludesIffOccurs(message, "unauthorized");
    IncludesIffOccurs(message, "token");
    IncludesIffOccurs(message, "401");
  }

  /** The match is case-sensitive: a capitalised "Unauthorized" alone is not an auth error. */
  lemma CapitalisedUnauthorizedIsNotAuthError(m: string)
    requires m == "Unauthorized"
    ensures !IsAuthError(m)
  {
    assert |m| == 12 && m[0] == 'U';
    assert forall c :: c in m ==> c !in "j4k";
    NotIncludedWithoutChar(m, "jwt", 0);
    NotIncludedWithoutChar(m, "token", 2);
    NotIncludedWithoutChar(m, "401", 0);
    IncludesIffOccurs(m, "unauthorized");
    assert forall i :: !OccursAt(m, "unauthorized", i);
  }

  lemma NotIncludedWithoutChar(s: string, p: string, k: nat)
    requires k < |p| && p[k] !in s
    ensures !Includes(s, p)
  {
    if Includes(s, p) { IncludesChar(s, p, k); }
  }

  /** Axios-style status messages carry "401" and are classified as auth errors. */
  lemma StatusCode401IsAuthError(m: string)
    requires m == "Request failed with status code 401"
    ensures IsAuthError(m)
  {
    assert m[32..35] == "401";
    assert OccursAt(m, "401", 32);
    IncludesIffOccurs(m, "401");
  }

  /** The answers the client library gives, in call order, during one fetch. */
  datatype Api = Api(firstRead: ReadOutcome, login: LoginOutcome, retryRead: ReadOutcome)

  /** A call made on the client. */
  datatype Call = ReadCall | LoginCall

  /** What a fetch hands to the reading store: a reading to save, or an error message to save. */
  datatype Outcome = Success(reading: Reading) | Failure(message: string)

  datatype FetchResult = FetchResult(calls: seq<Call>, outcome: Outcome)

  /** The first read failed with an error the monitor answers by logging in. */
  predicate NeedsLogin(first: ReadOutcome) {
    first.ReadFailed? && IsAuthError(first.message)
  }

  /**
   * The fetch protocol: the calls made on the client, in order, and the outcome handed on.
   * A login happens exactly when the first read failed with an auth error, at most once, and
   * the read is retried exactly once after a successful login. Any other failure is handed on
   * with the message of the call that failed.
   */
  function Fetch(api: Api): (r: FetchResult)
    ensures r.calls == [ReadCall] <==> !NeedsLogin(api.firstRead)
    ensures r.calls == [ReadCall, LoginCall] <==> NeedsLogin(api.firstRead) && api.login.LoginFailed?
    ensures r.calls == [ReadCall, LoginCall, ReadCall] <==> NeedsLogin(api.firstRead) && api.login.LoggedIn?
    ensures multiset(r.calls)[LoginCall] <= 1 && multiset(r.calls)[ReadCall] <= 2
    ensures r.outcome.Success? <==>
      api.firstRead.Read? || (NeedsLogin(api.firstRead) && api.login.LoggedIn? && api.retryRead.Read?)
    ensures r.outcome.Success? ==>
      r.outcome.reading == (if api.firstRead.Read? then api.firstRead.reading else api.retryRead.reading)
    ensures api.firstRead.ReadFailed? && !NeedsLogin(api.firstRead) ==>
      r.outcome == Failure(api.firstRead.message)
    ensures NeedsLogin(api.firstRead) && api.login.LoginFailed? ==>
      r.outcome == Failure(api.login.message)
    ensures NeedsLogin(api.firstRead) && api.login.LoggedIn? && api.retryRead.ReadFailed? ==>
      r.outcome == Failure(api.retryRead.message)
  {
    match api.firstRead
    case Read(reading) => FetchResult([ReadCall], Success(reading))
    case ReadFailed(message) =>
      if !IsAuthError(message) then FetchResult([ReadCall], Failure(message))
      else
        match api.login
        case LoginFailed(loginMessage) => FetchResult([ReadCall, LoginCall], Failure(loginMessage))
        case LoggedIn =>
          match api.retryRead
          case Read(reading) => FetchResult([ReadCall, LoginCall, ReadCall], Success(reading))
          case ReadFailed(retryMessage) => FetchResult([ReadCall, LoginCall, ReadCall], Failure(retryMessage))
  }

  /** A read failing with a "401" message triggers exactly one login and exactly one more read. */
  lemma Read401LogsInOnceAndRetriesOnce(message: string, login: LoginOutcome, retry: ReadOutcome)
    requires Includes(message, "401")
    ensures var r := Fetch(Api(ReadFailed(message), login, retry));
      multiset(r.calls)[LoginCall] == 1 &&
      (login.LoggedIn? ==> multiset(r.calls)[ReadCall] == 2)
  {
  }

  /** Any other failure message is handed on unchanged, and no login is attempted. */
  lemma OtherErrorNoLogin(message: string, login: LoginOutcome, retry: ReadOutcome)
    requires !IsAuthError(message)
    ensures Fetch(Api(ReadFailed(message), login, retry)) == FetchResult([ReadCall], Failure(message))
  {
  }
}
