/**
 The sliding-window limiter of `SecurityMiddleware.dispatch` (backend/app/production.py), against a
 reference that keeps no buckets: it looks back over everything it ever admitted.
 */
module RateLimiter {

  /** The configured numbers are plain integers: zero or less is possible, and refuses everybody. */
  datatype Policy = Policy(limit: int, window: int)

  datatype Request = Request(client: string, at: real)

  /** The monotonic clock never runs backwards. */
  ghost predicate Monotone(log: seq<Request>) {
    forall i, j :: 0 <= i < j < |log| ==> log[i].at <= log[j].at
  }

  function Count(p: real -> bool, s: seq<real>): (n: nat)
    ensures n <= |s|
  {
    if s == [] then 0 else (if p(s[0]) then 1 else 0) + Count(p, s[1..])
  }

  function After(instant: real): real -> bool { x => instant < x }

  /** A set of instants that fits strictly inside the window, such as any half-open window. */
  ghost predicate Short(p: real -> bool, window: int) {
    forall x, y :: p(x) && p(y) ==> y - x < window as real
  }

  // ----- the reference -----

  /** When `client` was admitted: fewer than `limit` admissions in the window that ends now. */
  ghost function Admitted(policy: Policy, client: string, log: seq<Request>): seq<real> {
    if log == [] then []
    else Next(policy, client, Admitted(policy, client, log[..|log| - 1]), log[|log| - 1])
  }

  ghost function Next(policy: Policy, client: string, before: seq<real>, request: Request): seq<real> {
    if request.client == client && MayEnter(policy, before, request.at) then before + [request.at]
    else before
  }

  ghost predicate MayEnter(policy: Policy, before: seq<real>, now: real) {
    Count(After(now - policy.window as real), before) < policy.limit
  }

  // ----- what every run keeps -----

  ghost predicate Ascending(s: seq<real>) {
    forall i, j :: 0 <= i < j < |s| ==> s[i] <= s[j]
  }

  /** Any `limit` + 1 consecutive admissions span at least the window. */
  ghost predicate Spaced(policy: Policy, s: seq<real>) {
    forall i, j :: 0 <= i < |s| && j == i + policy.limit && 0 <= j < |s| ==> s[i] + policy.window as real <= s[j]
  }

  lemma {:induction false} CountFrom(instant: real, s: seq<real>, k: nat)
    requires forall i :: 0 <= i < k <= |s| ==> s[i] <= instant
    requires forall i :: k <= i < |s| ==> instant < s[i]
    requires k <= |s|
    ensures Count(After(instant), s) == |s| - k
  {
    if s != [] {
      CountFrom(instant, s[1..], if k == 0 then 0 else k - 1);
    }
  }

  lemma {:induction false} CountAtLeast(instant: real, s: seq<real>, k: nat)
    requires Ascending(s) && k < |s| && instant < s[k]
    ensures Count(After(instant), s) >= |s| - k
  {
    if k == 0 {
      CountFrom(instant, s, 0);
    } else {
      CountAtLeast(instant, s[1..], k - 1);
    }
  }

  lemma AdmissionKeepsSpacing(policy: Policy, before: seq<real>, now: real)
    requires Ascending(before) && Spaced(policy, before) && MayEnter(policy, before, now)
    requires forall i :: 0 <= i < |before| ==> before[i] <= now
    ensures Ascending(before + [now]) && Spaced(policy, before + [now])
  {
    var from := |before| - policy.limit;
    if 0 <= from && before[from] > now - policy.window as real {
      CountAtLeast(now - policy.window as real, before, from);
      assert false;
    }
  }

  /** Ascending, spaced, nothing from the future, and nothing at all under a limit of zero. */
  ghost predicate Sound(policy: Policy, s: seq<real>, log: seq<Request>) {
    && Ascending(s) && Spaced(policy, s)
    && (policy.limit <= 0 ==> s == [])
    && forall i :: 0 <= i < |s| ==> log != [] && s[i] <= log[|log| - 1].at
  }

  lemma {:induction false} AdmissionsAreSound(policy: Policy, client: string, log: seq<Request>)
    requires Monotone(log)
    ensures Sound(policy, Admitted(policy, client, log), log)
  {
    if log != [] {
      var rest, request := log[..|log| - 1], log[|log| - 1];
      var before := Admitted(policy, client, rest);
      AdmissionsAreSound(policy, client, rest);
      assert rest != [] ==> rest[|rest| - 1].at <= request.at;
      if request.client == client && MayEnter(policy, before, request.at) {
        AdmissionKeepsSpacing(policy, before, request.at);
      }
    }
  }

  lemma {:induction false} CountAtMost(instant: real, s: seq<real>, k: nat)
    requires Ascending(s) && k < |s| && s[k] <= instant
    ensures Count(After(instant), s) < |s| - k
  {
    if k == 0 {
      CountIsBounded(instant, s[1..]);
    } else {
      assert s[0] <= s[k];
      CountAtMost(instant, s[1..], k - 1);
    }
  }

  lemma CountIsBounded(instant: real, s: seq<real>)
    ensures Count(After(instant), s) <= |s|
  {
  }

  /** Room for one more: there are fewer than `limit`, or the `limit`-th last is a whole window old. */
  predicate HasRoom(policy: Policy, admitted: seq<real>, now: real) {
    && policy.limit > 0
    && (|admitted| < policy.limit || admitted[|admitted| - policy.limit] + policy.window as real <= now)
  }

  /** Counting the window asks the same as looking at the one admission `limit` places back. */
  lemma EntersWhereThereIsRoom(policy: Policy, admitted: seq<real>, now: real)
    requires Ascending(admitted)
    ensures MayEnter(policy, admitted, now) <==> HasRoom(policy, admitted, now)
  {
    var instant, k := now - policy.window as real, |admitted| - policy.limit;
    CountIsBounded(instant, admitted);
    if policy.limit > 0 && k >= 0 {
      if admitted[k] <= instant {
        CountAtMost(instant, admitted, k);
      } else {
        CountAtLeast(instant, admitted, k);
      }
    }
  }

  /** The reference, admission by admission: who asks is let in exactly where there is room. */
  lemma AdmissionRule(policy: Policy, client: string, log: seq<Request>, request: Request)
    requires Monotone(log)
    ensures
      var before := Admitted(policy, client, log);
      Admitted(policy, client, log + [request]) ==
      if request.client == client && HasRoom(policy, before, request.at) then before + [request.at] else before
  {
    assert (log + [request])[..|log|] == log;
    AdmissionsAreSound(policy, client, log);
    EntersWhereThereIsRoom(policy, Admitted(policy, client, log), request.at);
  }

  lemma {:induction false} CountPrefix(p: real -> bool, s: seq<real>, k: nat)
    requires forall i :: k <= i < |s| ==> !p(s[i])
    ensures Count(p, s) <= k
  {
    if s != [] {
      if k == 0 {
        CountPrefix(p, s[1..], 0);
      } else {
        CountPrefix(p, s[1..], k - 1);
      }
    }
  }

  lemma {:induction false} SpacedIsSparse(policy: Policy, p: real -> bool, s: seq<real>)
    requires Ascending(s) && Spaced(policy, s) && Short(p, policy.window) && policy.limit > 0
    ensures Count(p, s) <= policy.limit
  {
    if s != [] {
      if p(s[0]) {
        forall i | policy.limit <= i < |s| ensures !p(s[i]) {
          assert s[0] + policy.window as real <= s[policy.limit] <= s[i];
        }
        CountPrefix(p, s, policy.limit);
      } else {
        forall i, j | 0 <= i < |s[1..]| && j == i + policy.limit && 0 <= j < |s[1..]|
          ensures s[1..][i] + policy.window as real <= s[1..][j]
        {
          assert s[i + 1] + policy.window as real <= s[i + 1 + policy.limit];
        }
        SpacedIsSparse(policy, p, s[1..]);
      }
    }
  }

  /** In every run, no half-open window holds more than `limit` admissions of one client. */
  lemma NoWindowOverflows(policy: Policy, client: string, log: seq<Request>, p: real -> bool)
    requires Monotone(log) && Short(p, policy.window)
    ensures Count(p, Admitted(policy, client, log)) <= if policy.limit <= 0 then 0 else policy.limit
  {
    AdmissionsAreSound(policy, client, log);
    if policy.limit > 0 {
      SpacedIsSparse(policy, p, Admitted(policy, client, log));
    }
  }

  /** What a client asks for and gets is its own business. */
  lemma {:induction false} ClientsDoNotInterfere(policy: Policy, client: string, log: seq<Request>)
    ensures Admitted(policy, client, log) == Admitted(policy, client, Own(client, log))
  {
    if log != [] {
      var rest := log[..|log| - 1];
      ClientsDoNotInterfere(policy, client, rest);
      if log[|log| - 1].client == client {
        assert Own(client, log)[..|Own(client, log)| - 1] == Own(client, rest);
      }
    }
  }

  ghost function Own(client: string, log: seq<Request>): seq<Request> {
    if log == [] then []
    else
      var rest := Own(client, log[..|log| - 1]);
      if log[|log| - 1].client == client then rest + [log[|log| - 1]] else rest
  }

  // ----- the buckets -----

  /** The bucket is the end of the client's admissions; what it forgot is older than the horizon. */
  ghost predicate Kept(bucket: seq<real>, admitted: seq<real>, horizon: real) {
    && |bucket| <= |admitted|
    && bucket == admitted[|admitted| - |bucket|..]
    && forall i :: 0 <= i < |admitted| - |bucket| ==> admitted[i] <= horizon
  }

  /** The `popleft` loop. */
  method Forget(bucket: seq<real>, horizon: real) returns (kept: seq<real>)
    ensures Kept(kept, bucket, horizon) && (kept != [] ==> horizon < kept[0])
  {
    kept := bucket;
    while kept != [] && kept[0] <= horizon
      invariant Kept(kept, bucket, horizon)
      decreases |kept|
    {
      assert kept[0] == bucket[|bucket| - |kept|];
      kept := kept[1..];
    }
  }

  function Bucket(hits: map<string, seq<real>>, client: string): seq<real> {
    if client in hits then hits[client] else []
  }

  ghost function Horizon(policy: Policy, log: seq<Request>): real {
    if log == [] then 0.0 else log[|log| - 1].at - policy.window as real
  }

  /** A later horizon only lets a bucket forget more. */
  lemma StaysKept(bucket: seq<real>, admitted: seq<real>, horizon: real, later: real)
    requires Kept(bucket, admitted, horizon) && (admitted != [] ==> horizon <= later)
    ensures Kept(bucket, admitted, later)
  {
    forall i | 0 <= i < |admitted| - |bucket| ensures admitted[i] <= later {
      assert admitted[i] <= horizon;
    }
  }

  lemma KeptChains(kept: seq<real>, bucket: seq<real>, admitted: seq<real>, horizon: real)
    requires Kept(kept, bucket, horizon) && Kept(bucket, admitted, horizon)
    ensures Kept(kept, admitted, horizon)
  {
    var k := |admitted| - |bucket|;
    forall i | 0 <= i < |admitted| - |kept| ensures admitted[i] <= horizon {
      if k <= i { assert bucket[i - k] == admitted[i]; }
    }
  }

  lemma NewestKept(bucket: seq<real>, admitted: seq<real>, horizon: real, now: real)
    requires Kept(bucket, admitted, horizon)
    ensures Kept(bucket + [now], admitted + [now], horizon)
  {
    var k := |admitted| - |bucket|;
    assert (admitted + [now])[k..] == admitted[k..] + [now];
    forall i | 0 <= i < k ensures (admitted + [now])[i] <= horizon {
      assert (admitted + [now])[i] == admitted[i];
    }
  }

  /** Forgetting what is too old leaves exactly the admissions of the window. */
  lemma KeptIsRecent(kept: seq<real>, admitted: seq<real>, horizon: real)
    requires Ascending(admitted) && Kept(kept, admitted, horizon) && (kept != [] ==> horizon < kept[0])
    ensures |kept| == Count(After(horizon), admitted)
  {
    var k := |admitted| - |kept|;
    forall i | k <= i < |admitted| ensures horizon < admitted[i] {
      assert kept[0] == admitted[k] <= admitted[i];
    }
    CountFrom(horizon, admitted, k);
  }

  /** So the length of the pruned bucket decides as the reference does. */
  lemma BucketDecides(policy: Policy, client: string, admitted: seq<real>, horizon: real, bucket: seq<real>,
                      kept: seq<real>, now: real)
    requires Ascending(admitted) && Kept(bucket, admitted, horizon)
    requires admitted != [] ==> horizon <= now - policy.window as real
    requires Kept(kept, bucket, now - policy.window as real)
    requires kept != [] ==> now - policy.window as real < kept[0]
    ensures |kept| < policy.limit <==> MayEnter(policy, admitted, now)
    ensures Kept(if |kept| < policy.limit then kept + [now] else kept,
                 Next(policy, client, admitted, Request(client, now)), now - policy.window as real)
  {
    StaysKept(bucket, admitted, horizon, now - policy.window as real);
    KeptChains(kept, bucket, admitted, now - policy.window as real);
    KeptIsRecent(kept, admitted, now - policy.window as real);
    NewestKept(kept, admitted, now - policy.window as real, now);
  }

  lemma PastAdmissions(policy: Policy, client: string, log: seq<Request>, now: real)
    requires Monotone(log) && (log != [] ==> log[|log| - 1].at <= now)
    ensures Ascending(Admitted(policy, client, log))
    ensures Admitted(policy, client, log) != [] ==> Horizon(policy, log) <= now - policy.window as real
  {
    AdmissionsAreSound(policy, client, log);
  }

  /** The client's bucket and its admissions agree. */
  ghost predicate InStep(policy: Policy, hits: map<string, seq<real>>, log: seq<Request>, client: string) {
    Kept(Bucket(hits, client), Admitted(policy, client, log), Horizon(policy, log))
  }

  ghost predicate Consistent(policy: Policy, hits: map<string, seq<real>>, log: seq<Request>) {
    Monotone(log) && forall client :: InStep(policy, hits, log, client)
  }

  lemma InStepAfterwards(policy: Policy, hits: map<string, seq<real>>, log: seq<Request>, request: Request,
                         bucket: seq<real>, client: string)
    requires InStep(policy, hits, log, client) && (log != [] ==> log[|log| - 1].at <= request.at)
    requires Kept(bucket, Next(policy, request.client, Admitted(policy, request.client, log), request),
                  request.at - policy.window as real)
    ensures InStep(policy, hits[request.client := bucket], log + [request], client)
  {
    assert (log + [request])[..|log|] == log;
    if client != request.client {
      StaysKept(Bucket(hits, client), Admitted(policy, client, log), Horizon(policy, log),
                request.at - policy.window as real);
    }
  }

  lemma ClockMovesOn(log: seq<Request>, request: Request)
    requires Monotone(log) && (log != [] ==> log[|log| - 1].at <= request.at)
    ensures Monotone(log + [request])
  {
  }

  lemma OneMoreRequest(policy: Policy, log: seq<Request>, hits: map<string, seq<real>>, request: Request,
                       bucket: seq<real>)
    requires Consistent(policy, hits, log) && (log != [] ==> log[|log| - 1].at <= request.at)
    requires Kept(bucket, Next(policy, request.client, Admitted(policy, request.client, log), request),
                  request.at - policy.window as real)
    ensures Consistent(policy, hits[request.client := bucket], log + [request])
  {
    var hits', log' := hits[request.client := bucket], log + [request];
    ClockMovesOn(log, request);
    forall client ensures InStep(policy, hits', log', client) {
      assert InStep(policy, hits, log, client);
      InStepAfterwards(policy, hits, log, request, bucket, client);
    }
  }

  function Pushed(policy: Policy, kept: seq<real>, now: real): seq<real> {
    if |kept| < policy.limit then kept + [now] else kept
  }

  /** One request: the pruned bucket decides like the reference, and all stays in step. */
  lemma DispatchStep(policy: Policy, hits: map<string, seq<real>>, log: seq<Request>, request: Request, kept: seq<real>)
    requires Consistent(policy, hits, log) && (log != [] ==> log[|log| - 1].at <= request.at)
    requires Kept(kept, Bucket(hits, request.client), request.at - policy.window as real)
    requires kept != [] ==> request.at - policy.window as real < kept[0]
    ensures |kept| < policy.limit <==> MayEnter(policy, Admitted(policy, request.client, log), request.at)
    ensures Consistent(policy, hits[request.client := Pushed(policy, kept, request.at)], log + [request])
  {
    var admitted, horizon := Admitted(policy, request.client, log), Horizon(policy, log);
    var bucket, pushed := Bucket(hits, request.client), Pushed(policy, kept, request.at);
    assert Kept(bucket, admitted, horizon) by {
      assert InStep(policy, hits, log, request.client);
    }
    PastAdmissions(policy, request.client, log, request.at);
    BucketDecides(policy, request.client, admitted, horizon, bucket, kept, request.at);
    assert Kept(pushed, Next(policy, request.client, admitted, request), request.at - policy.window as real) by {
      assert request == Request(request.client, request.at);
    }
    OneMoreRequest(policy, log, hits, request, pushed);
  }

  class SecurityMiddleware {
    const policy: Policy
    var hits: map<string, seq<real>>
    ghost var log: seq<Request>

    ghost predicate Valid()
      reads this
    {
      Consistent(policy, hits, log)
    }

    constructor (policy: Policy)
      ensures Valid() && this.policy == policy && hits == map[] && log == []
    {
      this.policy := policy;
      hits := map[];
      log := [];
    }

    /** Answers as the reference does, although it has forgotten most of what it admitted. */
    method Dispatch(client: string, now: real) returns (admitted: bool)
      requires Valid() && (log != [] ==> log[|log| - 1].at <= now)
      modifies this
      ensures Valid() && log == old(log) + [Request(client, now)]
      ensures admitted <==> MayEnter(policy, Admitted(policy, client, old(log)), now)
      ensures admitted <==> HasRoom(policy, Admitted(policy, client, old(log)), now)
      ensures hits.Keys == old(hits).Keys + {client}
      ensures forall other :: other in old(hits) && other != client ==> hits[other] == old(hits)[other]
    {
      var bucket := Forget(Bucket(hits, client), now - policy.window as real);
      AdmissionsAreSound(policy, client, log);
      EntersWhereThereIsRoom(policy, Admitted(policy, client, log), now);
      DispatchStep(policy, hits, log, Request(client, now), bucket);
      admitted := |bucket| < policy.limit;
      if admitted {
        bucket := bucket + [now];
      }
      hits := hits[client := bucket];
      log := log + [Request(client, now)];
    }
  }
}
