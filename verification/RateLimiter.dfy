/** The per-address rate limiter of the request proxy, over every trace of requests. */
module RateLimiter {

  const WINDOW_MS := 60_000
  const MAX_REQUESTS := 100

  datatype Entry = Entry(count: nat, resetAt: int)

  type Counts = map<string, Entry>

  // ---- one request ----

  /** The entry of an address after a request of its own at time `now`. */
  function NextEntry(counts: Counts, ip: string, now: int): Entry {
    if ip !in counts || now >= counts[ip].resetAt then Entry(1, now + WINDOW_MS)
    else Entry(counts[ip].count + 1, counts[ip].resetAt)
  }

  class Limiter {
    var rateCounts: Counts

    constructor ()
      ensures rateCounts == map[]
    {
      rateCounts := map[];
    }

    method CheckRateLimit(ip: string, now: int) returns (ok: bool)
      modifies this
      ensures rateCounts == old(rateCounts)[ip := NextEntry(old(rateCounts), ip, now)]
      ensures ok == (NextEntry(old(rateCounts), ip, now).count <= MAX_REQUESTS)
    {
      if ip !in rateCounts || now >= rateCounts[ip].resetAt {
        rateCounts := rateCounts[ip := Entry(1, now + WINDOW_MS)];
        return true;
      }
      var entry := rateCounts[ip];
      entry := entry.(count := entry.count + 1);
      rateCounts := rateCounts[ip := entry];
      ok := entry.count <= MAX_REQUESTS;
    }

    /** Serving a whole trace from an empty limiter gives the answers of the specification below. */
    method Serve(trace: seq<Request>) returns (answers: seq<bool>)
      requires rateCounts == map[]
      modifies this
      ensures |answers| == |trace|
      ensures forall i :: 0 <= i < |trace| ==> answers[i] == Accepted(trace, i)
    {
      answers := [];
      for i := 0 to |trace|
        invariant |answers| == i
        invariant rateCounts == CountsAfter(trace[..i])
        invariant forall j :: 0 <= j < i ==> answers[j] == Accepted(trace, j)
      {
        assert trace[..i + 1][..i] == trace[..i];
        var ok := CheckRateLimit(trace[i].ip, trace[i].now);
        answers := answers + [ok];
      }
    }
  }

  // ---- traces ----

  datatype Request = Request(ip: string, now: int)

  function CountsAfter(trace: seq<Request>): Counts {
    if trace == [] then map[] else
    var n := |trace| - 1;
    var counts := CountsAfter(trace[..n]);
    counts[trace[n].ip := NextEntry(counts, trace[n].ip, trace[n].now)]
  }

  predicate Accepted(trace: seq<Request>, i: nat)
    requires i < |trace|
  {
    NextEntry(CountsAfter(trace[..i]), trace[i].ip, trace[i].now).count <= MAX_REQUESTS
  }

  predicate Clocked(trace: seq<Request>) {
    forall i, j :: 0 <= i < j < |trace| ==> trace[i].now <= trace[j].now
  }

  // ---- other addresses do not matter ----

  /** The times at which one address made its requests. */
  function TimesOf(trace: seq<Request>, ip: string): seq<int> {
    if trace == [] then [] else
    var n := |trace| - 1;
    if trace[n].ip == ip then TimesOf(trace[..n], ip) + [trace[n].now] else TimesOf(trace[..n], ip)
  }

  datatype Track = Fresh | Track(count: nat, start: int)

  /** The limiter as seen by a single address: the start of its window and the requests counted in it. */
  function TrackAfter(times: seq<int>): Track {
    if times == [] then Fresh else
    var n := |times| - 1;
    var t := TrackAfter(times[..n]);
    if t.Fresh? || times[n] >= t.start + WINDOW_MS then Track(1, times[n]) else Track(t.count + 1, t.start)
  }

  predicate Admitted(times: seq<int>)
    requires times != []
  {
    TrackAfter(times).count <= MAX_REQUESTS
  }

  lemma {:induction false} TrackIsEntry(trace: seq<Request>, ip: string)
    ensures var counts, t := CountsAfter(trace), TrackAfter(TimesOf(trace, ip));
            if ip in counts then t == Track(counts[ip].count, counts[ip].resetAt - WINDOW_MS) else t.Fresh?
  {
    if trace != [] {
      var n := |trace| - 1;
      TrackIsEntry(trace[..n], ip);
      if trace[n].ip == ip {
        var times := TimesOf(trace[..n], ip);
        assert TimesOf(trace, ip)[..|times|] == times;
      }
    }
  }

  /**
   * The answer to a request is a function of the times of that address's own requests: removing, adding or
   * moving the requests of other addresses changes nothing.
   */
  lemma AnswerDependsOnOwnTimes(trace: seq<Request>, i: nat)
    requires i < |trace|
    ensures Accepted(trace, i) <==> Admitted(TimesOf(trace[..i + 1], trace[i].ip))
  {
    assert trace[..i + 1][..i] == trace[..i];
    TrackIsEntry(trace[..i + 1], trace[i].ip);
  }

  // ---- how many are admitted ----

  predicate Monotone(times: seq<int>) {
    forall i, j :: 0 <= i < j < |times| ==> times[i] <= times[j]
  }

  /** The number of admitted requests at times in `[from, to)`. */
  function AdmittedIn(times: seq<int>, from: int, to: int): nat {
    if times == [] then 0 else
    var n := |times| - 1;
    AdmittedIn(times[..n], from, to) + if from <= times[n] < to && Admitted(times) then 1 else 0
  }

  function Counted(t: Track): nat {
    if t.Fresh? then 0 else if t.count <= MAX_REQUESTS then t.count else MAX_REQUESTS
  }

  lemma {:induction false} WindowIsPast(times: seq<int>)
    requires Monotone(times) && times != []
    ensures TrackAfter(times).Track? && TrackAfter(times).count >= 1
    ensures TrackAfter(times).start <= times[|times| - 1] < TrackAfter(times).start + WINDOW_MS
  {
    var n := |times| - 1;
    if n > 0 {
      WindowIsPast(times[..n]);
      assert times[n - 1] <= times[n];
    }
  }

  /**
   * What has been admitted, relative to the start of the current window: exactly the requests counted in it
   * from its start on, at most 99 more in the minute before it, and never the first of a window twice.
   */
  lemma {:induction false} AdmittedSince(times: seq<int>, from: int, to: int)
    requires Monotone(times) && times != []
    requires times[|times| - 1] < to
    ensures var t := TrackAfter(times);
            (from <= t.start ==> AdmittedIn(times, from, to) >= Counted(t)) &&
            (from == t.start ==> AdmittedIn(times, from, to) == Counted(t)) &&
            (from > t.start ==> AdmittedIn(times, from, to) <= Counted(t) - 1) &&
            (t.start - WINDOW_MS < from <= t.start ==> AdmittedIn(times, from, to) <= MAX_REQUESTS - 1 + Counted(t))
  {
    var n := |times| - 1;
    WindowIsPast(times);
    if n > 0 {
      assert times[n - 1] <= times[n];
      AdmittedSince(times[..n], from, to);
      var t, u := TrackAfter(times[..n]), TrackAfter(times);
      WindowIsPast(times[..n]);
      if u.start != t.start {
        AdmittedBefore(times[..n], from, to);
      }
    } else {
      assert times[..0] == [];
    }
  }

  lemma {:induction false} AdmittedBefore(times: seq<int>, from: int, to: int)
    requires Monotone(times)
    ensures times != [] && times[|times| - 1] < from ==> AdmittedIn(times, from, to) == 0
  {
    if times != [] {
      var n := |times| - 1;
      if n > 0 {
        assert times[n - 1] <= times[n];
      }
      AdmittedBefore(times[..n], from, to);
    }
  }

  /** At most 199 requests of an address are admitted in any half-open interval of one minute. */
  lemma {:induction false} AtMost199PerMinute(times: seq<int>, from: int)
    requires Monotone(times)
    ensures AdmittedIn(times, from, from + WINDOW_MS) <= 2 * MAX_REQUESTS - 1
  {
    if times != [] {
      var n := |times| - 1;
      if times[n] >= from + WINDOW_MS {
        AtMost199PerMinute(times[..n], from);
      } else {
        AdmittedSince(times, from, from + WINDOW_MS);
        WindowIsPast(times);
      }
    }
  }

  /** At most 100 are admitted in the window that the last request of any trace falls in. */
  lemma AtMost100PerWindow(times: seq<int>)
    requires Monotone(times) && times != []
    ensures var s := TrackAfter(times).start;
            s <= times[|times| - 1] < s + WINDOW_MS && AdmittedIn(times, s, s + WINDOW_MS) <= MAX_REQUESTS
  {
    var s := TrackAfter(times).start;
    WindowIsPast(times);
    AdmittedSince(times, s, s + WINDOW_MS);
  }

  /** A refusal means that 100 requests of the same address were admitted within the preceding minute. */
  lemma RefusedOnlyAfter100(times: seq<int>)
    requires Monotone(times) && times != [] && !Admitted(times)
    ensures var now := times[|times| - 1];
            AdmittedIn(times[..|times| - 1], now - WINDOW_MS + 1, now + 1) >= MAX_REQUESTS
  {
    var n := |times| - 1;
    var now := times[n];
    WindowIsPast(times);
    AdmittedSince(times, now - WINDOW_MS + 1, now + 1);
  }

  // ---- the same over whole traces ----

  function AcceptedIn(trace: seq<Request>, ip: string, from: int, to: int): nat {
    if trace == [] then 0 else
    var n := |trace| - 1;
    AcceptedIn(trace[..n], ip, from, to)
    + if trace[n].ip == ip && from <= trace[n].now < to && Accepted(trace, n) then 1 else 0
  }

  lemma {:induction false} AcceptedIsAdmitted(trace: seq<Request>, ip: string, from: int, to: int)
    ensures AcceptedIn(trace, ip, from, to) == AdmittedIn(TimesOf(trace, ip), from, to)
  {
    if trace != [] {
      var n := |trace| - 1;
      AcceptedIsAdmitted(trace[..n], ip, from, to);
      assert trace[..n + 1] == trace;
      if trace[n].ip == ip {
        AnswerDependsOnOwnTimes(trace, n);
        var times := TimesOf(trace[..n], ip);
        assert TimesOf(trace, ip)[..|times|] == times;
      }
    }
  }

  lemma {:induction false} TimesAreMonotone(trace: seq<Request>, ip: string)
    requires Clocked(trace)
    ensures Monotone(TimesOf(trace, ip))
    ensures trace != [] ==> forall i :: 0 <= i < |TimesOf(trace, ip)| ==> TimesOf(trace, ip)[i] <= trace[|trace| - 1].now
  {
    if trace != [] {
      var n := |trace| - 1;
      TimesAreMonotone(trace[..n], ip);
      if n > 0 {
        assert trace[n - 1].now <= trace[n].now;
      }
    }
  }

  /** Over every trace with a clock that never goes back: no address gets more than 199 requests through in any minute. */
  lemma TraceAtMost199PerMinute(trace: seq<Request>, ip: string, from: int)
    requires Clocked(trace)
    ensures AcceptedIn(trace, ip, from, from + WINDOW_MS) <= 2 * MAX_REQUESTS - 1
  {
    TimesAreMonotone(trace, ip);
    AcceptedIsAdmitted(trace, ip, from, from + WINDOW_MS);
    AtMost199PerMinute(TimesOf(trace, ip), from);
  }

  /** Over every such trace: an address is refused only if it got 100 requests through in the preceding minute. */
  lemma TraceRefusedOnlyAfter100(trace: seq<Request>, i: nat)
    requires Clocked(trace) && i < |trace| && !Accepted(trace, i)
    ensures AcceptedIn(trace[..i], trace[i].ip, trace[i].now - WINDOW_MS + 1, trace[i].now + 1) >= MAX_REQUESTS
  {
    var ip, times := trace[i].ip, TimesOf(trace[..i], trace[i].ip);
    assert trace[..i + 1][..i] == trace[..i];
    AnswerDependsOnOwnTimes(trace, i);
    TimesAreMonotone(trace[..i + 1], ip);
    assert TimesOf(trace[..i + 1], ip)[..|times|] == times;
    RefusedOnlyAfter100(TimesOf(trace[..i + 1], ip));
    AcceptedIsAdmitted(trace[..i], ip, trace[i].now - WINDOW_MS + 1, trace[i].now + 1);
  }

  // ---- the bound is reached ----

  function Burst(t: int, n: nat): seq<int> {
    seq(n, i => t)
  }

  lemma BurstSnoc(times: seq<int>, t: int, n: nat)
    requires n >= 1
    ensures var all := times + Burst(t, n); all[..|all| - 1] == times + Burst(t, n - 1) && all[|all| - 1] == t
  {
  }

  lemma {:induction false} BurstIsAdmitted(times: seq<int>, t: int, n: nat, from: int, to: int)
    requires from <= t < to
    requires TrackAfter(times).Track? ==> TrackAfter(times).start <= t
    requires var u := TrackAfter(times); n <= MAX_REQUESTS - (if u.Fresh? || t >= u.start + WINDOW_MS then 0 else Counted(u))
    requires n >= 1
    ensures AdmittedIn(times + Burst(t, n), from, to) == AdmittedIn(times, from, to) + n
    ensures var u := TrackAfter(times);
            TrackAfter(times + Burst(t, n)) == if u.Fresh? || t >= u.start + WINDOW_MS then Track(n, t) else Track(u.count + n, u.start)
  {
    BurstSnoc(times, t, n);
    if n > 1 {
      BurstIsAdmitted(times, t, n - 1, from, to);
    } else {
      assert times + Burst(t, 0) == times;
    }
  }

  /** A trace of one address. */
  function OneAddress(times: seq<int>, ip: string): (trace: seq<Request>)
    ensures |trace| == |times| && forall i :: 0 <= i < |trace| ==> trace[i] == Request(ip, times[i])
  {
    seq(|times|, i requires 0 <= i < |times| => Request(ip, times[i]))
  }

  lemma {:induction false} TimesOfOne(times: seq<int>, ip: string)
    ensures TimesOf(OneAddress(times, ip), ip) == times
  {
    if times != [] {
      var n := |times| - 1;
      TimesOfOne(times[..n], ip);
      assert OneAddress(times, ip)[..n] == OneAddress(times[..n], ip);
      assert times == times[..n] + [times[n]];
    }
  }

  /** One request, 99 more at the end of its window and 100 at the start of the next: 199 within one minute. */
  lemma BoundIsReached(ip: string) returns (trace: seq<Request>)
    ensures Clocked(trace) && AcceptedIn(trace, ip, 1, 1 + WINDOW_MS) == 2 * MAX_REQUESTS - 1
  {
    var times := BurstTimes();
    trace := OneAddress(times, ip);
    TimesOfOne(times, ip);
    AcceptedIsAdmitted(trace, ip, 1, 1 + WINDOW_MS);
  }

  lemma BurstTimes() returns (times: seq<int>)
    ensures Monotone(times) && AdmittedIn(times, 1, 1 + WINDOW_MS) == 2 * MAX_REQUESTS - 1
  {
    var t1 := [0];
    assert t1[..0] == [];
    BurstIsAdmitted(t1, 59_999, 99, 1, 60_001);
    var t2 := t1 + Burst(59_999, 99);
    BurstIsAdmitted(t2, 60_000, 100, 1, 60_001);
    times := t2 + Burst(60_000, 100);
  }
}
