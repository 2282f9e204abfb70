/** Sliding-window rate limiting: per chat, the times of the requests let
    through during the last RateLimitWindow seconds, at most RateLimitRequests
    of them. Time is an integer number of seconds. */
module RateLimiter {

  const RateLimitRequests := 10
  const RateLimitWindow := 60

  /** The timestamps still inside the window at `now`, in their order. */
  function Prune(ts: seq<int>, now: int): (r: seq<int>)
    ensures |r| <= |ts|
    ensures forall i :: 0 <= i < |r| ==> now - r[i] < RateLimitWindow
    ensures forall i :: 0 <= i < |r| ==> r[i] in ts
    ensures forall i :: 0 <= i < |ts| && now - ts[i] < RateLimitWindow ==> ts[i] in r
    ensures forall x :: multiset(r)[x] == if now - x < RateLimitWindow then multiset(ts)[x] else 0
  {
    if ts == [] then []
    else
      assert ts == [ts[0]] + ts[1..];
      if now - ts[0] < RateLimitWindow then [ts[0]] + Prune(ts[1..], now)
      else Prune(ts[1..], now)
  }

  /** Pruning keeps order: the pruned concatenation is the concatenation of
      the pruned parts. With `Prune([x], now)` being `[x]` or `[]` by the
      window test, this fixes the result for every list. */
  lemma {:induction false} PruneAppend(a: seq<int>, b: seq<int>, now: int)
    ensures Prune(a + b, now) == Prune(a, now) + Prune(b, now)
  {
    if a == [] {
      assert a + b == b;
    } else {
      assert (a + b)[0] == a[0] && (a + b)[1..] == a[1..] + b;
      PruneAppend(a[1..], b, now);
    }
  }

  predicate Sorted(ts: seq<int>) {
    forall i, j :: 0 <= i < j < |ts| ==> ts[i] <= ts[j]
  }

  lemma {:induction false} PruneSorted(ts: seq<int>, now: int)
    requires Sorted(ts)
    ensures Sorted(Prune(ts, now))
  {
    if ts != [] {
      assert Sorted(ts[1..]) by {
        forall i, j | 0 <= i < j < |ts[1..]| ensures ts[1..][i] <= ts[1..][j] {
          assert ts[1..][i] == ts[i + 1] && ts[1..][j] == ts[j + 1];
        }
      }
      PruneSorted(ts[1..], now);
      if now - ts[0] < RateLimitWindow {
        HeadThenSorted(ts[0], ts[1..], Prune(ts[1..], now));
      }
    }
  }

  /** An element no larger than any of a sorted sequence's, put in front,
      keeps it sorted. */
  lemma HeadThenSorted(x: int, ts: seq<int>, rest: seq<int>)
    requires forall i :: 0 <= i < |ts| ==> x <= ts[i]
    requires Sorted(rest) && forall i :: 0 <= i < |rest| ==> rest[i] in ts
    ensures Sorted([x] + rest)
  {
    var r := [x] + rest;
    forall i, j | 0 <= i < j < |r| ensures r[i] <= r[j] {
      assert r[j] == rest[j - 1];
      if i > 0 {
        assert r[i] == rest[i - 1];
      } else {
        assert rest[j - 1] in ts;
      }
    }
  }

  /** The outcome of one check: whether the request passes, the wait
      reported when it does not, and the chat's new timestamp list. */
  datatype Decision = Decision(allowed: bool, waitTime: int, kept: seq<int>)

  /** `check_rate_limit` for one chat's list: prune, then refuse with the time
      until the oldest entry leaves the window, or record `now` and pass. */
  function Check(ts: seq<int>, now: int): (d: Decision)
    ensures var p := Prune(ts, now);
      (d.allowed <==> |p| < RateLimitRequests)
      && (d.allowed ==> d.waitTime == 0 && d.kept == p + [now])
      && (!d.allowed ==> d.kept == p && d.waitTime == RateLimitWindow - (now - p[0]))
  {
    var p := Prune(ts, now);
    if |p| >= RateLimitRequests then Decision(false, RateLimitWindow - (now - p[0]), p)
    else Decision(true, 0, p + [now])
  }

  /** What a chat's list looks like when every call so far came at or
      before `clock`. */
  predicate WellFormed(ts: seq<int>, clock: int) {
    Sorted(ts) && |ts| <= RateLimitRequests && forall i :: 0 <= i < |ts| ==> ts[i] <= clock
  }

  /** With a clock that does not go backwards, each list stays sorted and
      within the request limit, and a refusal's wait lies in 1..window. */
  lemma CheckKeepsWellFormed(ts: seq<int>, clock: int, now: int)
    requires WellFormed(ts, clock) && clock <= now
    ensures WellFormed(Check(ts, now).kept, now)
    ensures 0 <= Check(ts, now).waitTime <= RateLimitWindow
    ensures !Check(ts, now).allowed ==> Check(ts, now).waitTime >= 1
  {
    var p := Prune(ts, now);
    PruneSorted(ts, now);
    forall i | 0 <= i < |p| ensures p[i] <= now {
      assert p[i] in ts;
    }
    if |p| < RateLimitRequests {
      assert Sorted(p + [now]);
    }
  }

  /** The global table of request timestamps, by chat id. */
  class Limiter {
    var data: map<int, seq<int>>

    constructor ()
      ensures data == map[]
    {
      data := map[];
    }

    function Recorded(chatId: int): seq<int>
      reads this
    {
      if chatId in data then data[chatId] else []
    }

    method CheckRateLimit(chatId: int, now: int) returns (allowed: bool, waitTime: int)
      modifies this
      ensures data == old(data)[chatId := Check(old(Recorded(chatId)), now).kept]
      ensures Decision(allowed, waitTime, data[chatId]) == Check(old(Recorded(chatId)), now)
    {
      if chatId !in data {
        data := data[chatId := []];
      }
      data := data[chatId := Prune(data[chatId], now)];
      if |data[chatId]| >= RateLimitRequests {
        var oldest := data[chatId][0];
        return false, RateLimitWindow - (now - oldest);
      }
      data := data[chatId := data[chatId] + [now]];
      return true, 0;
    }
  }
}
