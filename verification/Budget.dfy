/**
  Rolling budgets: at most `limit` grants in any window. The gateway's limiter
  (link/gateway.go) and the hourly budget of the triage engine (link/triage.go)
  keep only the recent stamps and filter them in place; the engine may also give
  its last grant back.
*/
module Budget {
  // The stamps that still count at `now`, in order.
  function Recent(stamps: seq<int>, now: int, window: int): seq<int> {
    if stamps == [] then []
    else
      var last := stamps[|stamps| - 1];
      Recent(stamps[..|stamps| - 1], now, window) + if now - last < window then [last] else []
  }

  predicate Ordered(s: seq<int>) {
    forall i, j :: 0 <= i <= j < |s| ==> s[i] <= s[j]
  }

  // No window holds more than `limit` of the grants.
  predicate Within(grants: seq<int>, limit: nat, window: int) {
    forall i, j :: 0 <= i <= j < |grants| && grants[j] - grants[i] < window ==> j - i < limit
  }

  // From the k-th on, and only from there, the stamps count at `now`.
  predicate CountsFrom(stamps: seq<int>, now: int, window: int, k: nat) {
    k <= |stamps| && forall i :: 0 <= i < |stamps| ==> (now - stamps[i] < window <==> k <= i)
  }

  // Of ordered stamps, the recent ones are the last ones.
  lemma {:induction false} RecentAreLast(stamps: seq<int>, now: int, window: int) returns (k: nat)
    requires Ordered(stamps)
    ensures CountsFrom(stamps, now, window, k)
  {
    if stamps == [] {
      k := 0;
    } else {
      var n := |stamps| - 1;
      if now - stamps[n] < window {
        k := RecentAreLast(stamps[..n], now, window);
        assert forall i :: 0 <= i < n ==> stamps[..n][i] == stamps[i];
      } else {
        k := n + 1;
      }
    }
  }

  lemma {:induction false} RecentIsSuffix(stamps: seq<int>, now: int, window: int, k: nat)
    requires CountsFrom(stamps, now, window, k)
    ensures Recent(stamps, now, window) == stamps[k..]
  {
    if stamps != [] {
      var n := |stamps| - 1;
      if k <= n {
        RecentIsSuffix(stamps[..n], now, window, k);
        assert stamps[k..] == stamps[..n][k..] + [stamps[n]];
      } else {
        RecentIsSuffix(stamps[..n], now, window, n);
      }
    }
  }

  // A window with room at `now` keeps the promise when it grants.
  lemma GrantKeepsWithin(grants: seq<int>, k: nat, now: int, limit: nat, window: int)
    requires Ordered(grants) && Within(grants, limit, window) && k <= |grants| && |grants| - k < limit
    requires forall i :: 0 <= i < |grants| ==> grants[i] <= now
    requires forall i :: 0 <= i < k ==> now - grants[i] >= window
    ensures Ordered(grants + [now]) && Within(grants + [now], limit, window)
  {
  }

  // The kept stamps are the last grants; all others had run out by `latest`.
  predicate Keeps(stamps: seq<int>, grants: seq<int>, limit: nat, window: int, latest: int) {
    && |stamps| <= limit && |stamps| <= |grants| && stamps == grants[|grants| - |stamps|..]
    && Ordered(grants) && Within(grants, limit, window)
    && (forall i :: 0 <= i < |grants| ==> grants[i] <= latest)
    && (forall i :: 0 <= i < |grants| - |stamps| ==> latest - grants[i] >= window)
  }

  lemma SuffixCounts(s: seq<int>, now: int, window: int, n: nat, k: nat)
    requires n <= |s| && CountsFrom(s, now, window, k) && forall i :: 0 <= i < n ==> now - s[i] >= window
    ensures n <= k && CountsFrom(s[n..], now, window, k - n)
  {
    assert k < |s| ==> now - s[k] < window;
  }

  lemma SuffixOfSuffix(s: seq<int>, n: nat, k: nat)
    requires n + k <= |s|
    ensures s[n..][k..] == s[n + k..]
  {
  }

  // Filtering by the clock keeps exactly the grants that still count.
  lemma FilterKeeps(stamps: seq<int>, grants: seq<int>, limit: nat, window: int, latest: int, now: int)
    requires Keeps(stamps, grants, limit, window, latest) && latest <= now
    ensures var rest := Recent(stamps, now, window);
      Keeps(rest, grants, limit, window, now) && CountsFrom(grants, now, window, |grants| - |rest|)
  {
    var n := |grants| - |stamps|;
    var k := RecentAreLast(grants, now, window);
    SuffixCounts(grants, now, window, n, k);
    RecentIsSuffix(stamps, now, window, k - n);
    SuffixOfSuffix(grants, n, k - n);
  }

  lemma AppendKeeps(stamps: seq<int>, grants: seq<int>, limit: nat, window: int, now: int)
    requires Keeps(stamps, grants, limit, window, now) && |stamps| < limit
    ensures Keeps(stamps + [now], grants + [now], limit, window, now)
  {
    GrantKeepsWithin(grants, |grants| - |stamps|, now, limit, window);
    assert (grants + [now])[|grants| - |stamps|..] == grants[|grants| - |stamps|..] + [now];
  }

  class Window {
    const limit: nat
    const window: int
    const buffer: array<int>
    var len: nat
    ghost var grants: seq<int>      // history: every grant not given back
    ghost var latest: int           // the last clock reading

    ghost predicate Valid()
      reads this, buffer
    {
      buffer.Length == limit && len <= limit && Keeps(buffer[..len], grants, limit, window, latest)
    }

    constructor (limit: nat, window: int)
      ensures Valid() && fresh(buffer) && this.limit == limit && this.window == window && grants == []
    {
      this.limit := limit;
      this.window := window;
      buffer := new int[limit];
      len, grants, latest := 0, [], 0;
    }

    // Filters the stamps in place.
    method Forget(now: int)
      requires len <= buffer.Length
      modifies this`len, buffer
      ensures len <= old(len) && buffer[..len] == Recent(old(buffer[..len]), now, window)
    {
      ghost var was := buffer[..len];
      var i, kept := 0, 0;
      while i < len
        invariant 0 <= kept <= i <= len == |was|
        invariant buffer[..kept] == Recent(was[..i], now, window)
        invariant forall j :: i <= j < len ==> buffer[j] == was[j]
      {
        assert was[..i + 1][..i] == was[..i];
        if now - buffer[i] < window {
          buffer[kept] := buffer[i];
          kept := kept + 1;
        }
        i := i + 1;
      }
      assert was[..i] == was;
      len := kept;
    }

    // After this the kept stamps are exactly the grants that still count.
    method Refresh(now: int)
      requires Valid() && latest <= now
      modifies this`len, this`latest, buffer
      ensures Valid() && latest == now && CountsFrom(grants, now, window, |grants| - len)
    {
      FilterKeeps(buffer[..len], grants, limit, window, latest, now);
      Forget(now);
      latest := now;
    }

    // Appends a grant to a window with room.
    method Append(now: int)
      requires Valid() && latest == now && len < limit
      modifies this`len, this`grants, buffer
      ensures Valid() && grants == old(grants) + [now]
    {
      AppendKeeps(buffer[..len], grants, limit, window, now);
      buffer[len] := now;
      assert buffer[..len + 1] == old(buffer[..len]) + [now];
      len := len + 1;
      grants := grants + [now];
    }

    // One turn of the limiter's loop, or a reservation. When refused, the oldest
    // kept stamp says how long to sleep.
    method TryTake(now: int) returns (granted: bool, delay: int)
      requires Valid() && latest <= now
      modifies this, buffer
      ensures Valid() && latest == now
      ensures granted ==> grants == old(grants) + [now]
      ensures !granted ==> grants == old(grants) && (limit > 0 ==> 0 < delay <= window)
      ensures !granted ==> |grants| >= limit && forall i :: |grants| - limit <= i < |grants| ==> now - grants[i] < window
      ensures !granted && limit > 0 ==> grants[|grants| - limit] + window == now + delay
    {
      Refresh(now);
      delay := 0;
      granted := len < limit;
      if granted {
        Append(now);
      } else if limit > 0 {
        assert buffer[..len][0] == grants[|grants| - len];
        delay := buffer[0] + window - now;
      }
    }

    // Gives the grant of this very reservation back.
    method GiveBack()
      requires Valid() && len > 0
      modifies this
      ensures Valid() && grants == old(grants)[..|old(grants)| - 1] && latest == old(latest)
    {
      assert buffer[..len - 1] == buffer[..len][..len - 1];
      len := len - 1;
      grants := grants[..|grants| - 1];
    }
  }

  // A refused caller that sleeps for the delay is granted, if nobody else was.
  lemma DelaySuffices(grants: seq<int>, limit: nat, window: int, now: int, delay: int)
    requires Ordered(grants) && 0 < limit <= |grants| && grants[|grants| - limit] + window == now + delay
    ensures |Recent(grants, now + delay, window)| < limit
  {
    var k := RecentAreLast(grants, now + delay, window);
    RecentIsSuffix(grants, now + delay, window, k);
    assert !(now + delay - grants[|grants| - limit] < window);
  }
}
