/** The gateway guard against READY storms: it counts READYs in a sliding window,
    filtering its list in place. */
module ReadyGuard {
  type Time = int

  const WINDOW: int := 600_000_000_000 // ten minutes, in nanoseconds
  const LIMIT: nat := 5

  /** The times of `s` after `cutoff`. */
  function Recent(s: seq<Time>, cutoff: Time): seq<Time> {
    if s == [] then []
    else Recent(s[..|s| - 1], cutoff) + if s[|s| - 1] > cutoff then [s[|s| - 1]] else []
  }

  class Guard {
    var seen: array<Time> // the backing array
    var len: nat
    var storm: bool

    ghost predicate Valid()
      reads this
    {
      len <= seen.Length
    }

    ghost function Seen(): seq<Time>
      requires Valid()
      reads this, seen
    {
      seen[..len]
    }

    constructor ()
      ensures Valid() && Seen() == [] && !storm && fresh(seen)
    {
      seen := new Time[0];
      len, storm := 0, false;
    }

    /** Keeps the recent times, moving them to the front of the same array. */
    method Filter(cutoff: Time)
      requires Valid()
      modifies this`len, seen
      ensures Valid() && Seen() == Recent(old(Seen()), cutoff)
    {
      ghost var all := seen[..len];
      var kept := 0;
      for i := 0 to len
        invariant kept <= i && len == old(len) <= seen.Length
        invariant seen[..kept] == Recent(all[..i], cutoff)
        invariant seen[i..len] == all[i..]
      {
        var t := seen[i];
        assert t == seen[i..len][0] == all[i];
        assert all[..i + 1][..i] == all[..i];
        assert seen[i + 1..len] == seen[i..len][1..];
        if t > cutoff {
          seen[kept] := t;
          assert seen[..kept + 1] == Recent(all[..i], cutoff) + [t];
          kept := kept + 1;
        }
      }
      assert all[..len] == all;
      len := kept;
    }

    /** Appends, in place while the array has room. */
    method Append(t: Time)
      requires Valid()
      modifies this`len, this`seen, seen
      ensures Valid() && Seen() == old(Seen()) + [t]
      ensures seen == old(seen) || fresh(seen)
    {
      if len < seen.Length {
        seen[len] := t;
      } else {
        var grown := new Time[2 * len + 1];
        for i := 0 to len
          invariant len == old(len) && seen == old(seen) && grown.Length == 2 * len + 1 && fresh(grown)
          invariant seen[..len] == old(seen[..len])
          invariant grown[..i] == seen[..i]
        {
          grown[i] := seen[i];
        }
        grown[len] := t;
        seen := grown;
      }
      len := len + 1;
      assert seen[..len] == seen[..len - 1] + [t];
    }

    method Admit(now: Time) returns (allowed: bool, tripped: bool)
      requires Valid()
      modifies this, seen
      ensures Valid() && Seen() == Recent(old(Seen()), now - WINDOW) + [now]
      ensures allowed == (|Seen()| <= LIMIT) && storm == !allowed
      ensures tripped == (!allowed && !old(storm))
      ensures seen == old(seen) || fresh(seen)
    {
      Filter(now - WINDOW);
      Append(now);
      if len <= LIMIT {
        storm := false;
        return true, false;
      }
      tripped := !storm;
      storm := true;
      allowed := false;
    }
  }

  // ---------------------------------------------------------------------------
  // Every run

  /** The list the guard holds after a run. */
  function SeenAfter(times: seq<Time>): seq<Time> {
    if times == [] then []
    else Recent(SeenAfter(times[..|times| - 1]), times[|times| - 1] - WINDOW) + [times[|times| - 1]]
  }

  /** The guard admits the last READY of a run. */
  predicate Admits(times: seq<Time>) {
    |SeenAfter(times)| <= LIMIT
  }

  predicate Nondecreasing(times: seq<Time>) {
    forall i, j :: 0 <= i <= j < |times| ==> times[i] <= times[j]
  }

  /** The `i`th READY is refused and the one before it was not. */
  predicate StormStarts(allowed: seq<bool>, i: nat)
    requires i < |allowed|
  {
    !allowed[i] && (i == 0 || allowed[i - 1])
  }

  /** A guard fed a run keeps exactly that list, admits and trips as said: a storm
      trips on its first refusal and on no other. */
  method Feed(times: seq<Time>) returns (allowed: seq<bool>, tripped: seq<bool>)
    ensures |allowed| == |times| == |tripped|
    ensures forall i :: 0 <= i < |times| ==> allowed[i] == Admits(times[..i + 1])
    ensures forall i :: 0 <= i < |times| ==> tripped[i] == StormStarts(allowed, i)
  {
    hide SeenAfter, StormStarts;
    var g := new Guard();
    allowed, tripped := [], [];
    NothingSeen();
    var n := 0;
    while n < |times|
      invariant n <= |times| && g.Valid() && fresh(g) && fresh(g.seen) && g.Seen() == SeenAfter(times[..n])
      invariant |allowed| == n == |tripped| && g.storm == (n > 0 && !allowed[n - 1])
      invariant forall i :: 0 <= i < n ==> allowed[i] == Admits(times[..i + 1])
      invariant forall i :: 0 <= i < n ==> tripped[i] == StormStarts(allowed, i)
    {
      SeenStep(times, n);
      var a, t := g.Admit(times[n]);
      StormsStay(allowed, a);
      allowed := allowed + [a];
      tripped := tripped + [t];
      n := n + 1;
    }
  }

  lemma NothingSeen()
    ensures SeenAfter([]) == []
    ensures forall cutoff :: Recent([], cutoff) == []
  {
  }

  lemma SeenStep(times: seq<Time>, n: nat)
    requires n < |times|
    ensures SeenAfter(times[..n + 1]) == Recent(SeenAfter(times[..n]), times[n] - WINDOW) + [times[n]]
  {
    assert times[..n + 1][..n] == times[..n];
  }

  lemma StormsStay(allowed: seq<bool>, a: bool)
    ensures forall i :: 0 <= i < |allowed| ==> StormStarts(allowed + [a], i) == StormStarts(allowed, i)
    ensures StormStarts(allowed + [a], |allowed|) == (!a && (allowed == [] || allowed[|allowed| - 1]))
  {
  }

  lemma {:induction false} RecentKeepsLast(s: seq<Time>, t: Time, cutoff: Time)
    ensures Recent(s + [t], cutoff) == Recent(s, cutoff) + if t > cutoff then [t] else []
  {
    assert (s + [t])[..|s|] == s;
  }

  lemma {:induction false} RecentOfRecent(s: seq<Time>, a: Time, b: Time)
    requires a <= b
    ensures Recent(Recent(s, a), b) == Recent(s, b)
  {
    if s != [] {
      var front := s[..|s| - 1];
      RecentOfRecent(front, a, b);
      if s[|s| - 1] > a {
        RecentKeepsLast(Recent(front, a), s[|s| - 1], b);
      } else {
        assert Recent(s, a) == Recent(front, a) && Recent(s, b) == Recent(front, b);
      }
    }
  }

  /** The list is exactly the READYs inside the window that ends now. */
  lemma {:induction false} SeenIsTheWindow(times: seq<Time>)
    requires Nondecreasing(times) && times != []
    ensures SeenAfter(times) == Recent(times, times[|times| - 1] - WINDOW)
  {
    hide SeenAfter, Recent;
    var n := |times| - 1;
    var (front, now) := (times[..n], times[n]);
    assert times == front + [now] && times[..n + 1] == times;
    SeenStep(times, n);
    RecentKeepsLast(front, now, now - WINDOW);
    if n == 0 {
      NothingSeen();
    } else {
      assert front[n - 1] == times[n - 1] <= times[n];
      SeenIsTheWindow(front);
      RecentOfRecent(front, front[n - 1] - WINDOW, now - WINDOW);
    }
  }

  /** Which READYs came after `cutoff`. */
  function Since(times: seq<Time>, cutoff: Time): set<nat> {
    set i: nat | i < |times| && times[i] > cutoff
  }

  lemma {:induction false} RecentCounts(s: seq<Time>, cutoff: Time)
    ensures |Recent(s, cutoff)| == |Since(s, cutoff)|
  {
    if s != [] {
      var n := |s| - 1;
      RecentCounts(s[..n], cutoff);
      assert Since(s, cutoff) == Since(s[..n], cutoff) + if s[n] > cutoff then {n} else {};
    }
  }

  /** A READY is admitted exactly if, with it, at most five came in the ten minutes
      that end now, refused ones counted. */
  lemma {:induction false} AdmitsIffFew(times: seq<Time>)
    requires Nondecreasing(times) && times != []
    ensures Admits(times) <==> |Since(times, times[|times| - 1] - WINDOW)| <= LIMIT
  {
    SeenIsTheWindow(times);
    RecentCounts(times, times[|times| - 1] - WINDOW);
  }

  /** How many READYs of the run fall in (t - WINDOW, t] and are admitted. */
  function AdmittedIn(times: seq<Time>, t: Time): nat {
    if times == [] then 0
    else
      var now := times[|times| - 1];
      AdmittedIn(times[..|times| - 1], t) + if t - WINDOW < now <= t && Admits(times) then 1 else 0
  }

  lemma {:induction false} AdmittedAreRecent(times: seq<Time>, t: Time, cutoff: Time)
    requires cutoff <= t - WINDOW
    ensures AdmittedIn(times, t) <= |Recent(times, cutoff)|
  {
    if times != [] {
      AdmittedAreRecent(times[..|times| - 1], t, cutoff);
    }
  }

  /** No ten-minute window has more than five admitted READYs. */
  lemma {:induction false} AtMostFivePerWindow(times: seq<Time>, t: Time)
    requires Nondecreasing(times)
    ensures AdmittedIn(times, t) <= LIMIT
  {
    hide SeenAfter, Recent;
    if times != [] {
      var now := times[|times| - 1];
      AtMostFivePerWindow(times[..|times| - 1], t);
      if t - WINDOW < now <= t && Admits(times) {
        SeenIsTheWindow(times);
        AdmittedAreRecent(times, t, now - WINDOW);
      }
    }
  }
}
