/** The real-time intelligence panel: a live alert feed and a social feed, each
    showing the newest six entries first, the timestamps of the alerts of the
    last minute, and a running count of social signals.
 */
module Intelligence {
  import Allocation

  /** Entries shown by each feed at most. */
  const FeedLimit: nat := 6

  /** Length of the alert-rate window, in milliseconds. */
  const WindowMs: int := 60000

  datatype Alert = Alert(text: string, location: string, severity: Allocation.Severity)

  /** The first `n` entries of `s`, or all of them if there are fewer. */
  function KeepFirst<T>(s: seq<T>, n: nat): (r: seq<T>)
    ensures |r| <= n && |r| <= |s| && r == s[..|r|]
    ensures |r| == (if |s| <= n then |s| else n)
    ensures |s| <= n ==> r == s
  {
    if |s| <= n then s else s[..n]
  }

  /** The feed after `item` is put in front: the new item is first, at most
      six entries remain, and entries are dropped only from the tail. */
  lemma FeedPush<T>(feed: seq<T>, item: T)
    ensures var r := KeepFirst([item] + feed, FeedLimit);
      && r[0] == item
      && |r| == (if |feed| < FeedLimit then |feed| + 1 else FeedLimit)
      && r[1..] == feed[..|r| - 1]
  {
  }

  /** Removes entries from the tail until at most `limit` are left. */
  method TrimToLimit<T>(s: seq<T>, limit: nat) returns (t: seq<T>)
    ensures t == KeepFirst(s, limit)
  {
    t := s;
    while |t| > limit
      invariant |t| <= |s| && t == s[..|t|]
      invariant |s| > limit ==> |t| >= limit
      invariant |s| <= limit ==> t == s
      decreases |t|
    {
      t := t[..|t| - 1];
    }
  }

  /** The timestamps of `s` no older than `cutoff`, in their original order. */
  function Recent(s: seq<int>, cutoff: int): (r: seq<int>)
    ensures |r| <= |s|
    ensures forall i :: 0 <= i < |r| ==> r[i] >= cutoff
  {
    if s == [] then []
    else (if s[0] >= cutoff then [s[0]] else []) + Recent(s[1..], cutoff)
  }

  /** A timestamp is kept exactly when it was present and is within the window. */
  lemma {:induction false} RecentMembers(s: seq<int>, cutoff: int, t: int)
    ensures t in Recent(s, cutoff) <==> t in s && t >= cutoff
  {
    if s != [] {
      RecentMembers(s[1..], cutoff, t);
      assert s == [s[0]] + s[1..];
    }
  }

  /** Filtering after an append is filtering before it, with the new timestamp
      placed last if it is within the window. */
  lemma {:induction false} RecentAppend(s: seq<int>, t: int, cutoff: int)
    ensures Recent(s + [t], cutoff) == Recent(s, cutoff) + (if t >= cutoff then [t] else [])
  {
    if s == [] {
      assert [t][1..] == [];
    } else {
      assert (s + [t])[1..] == s[1..] + [t];
      RecentAppend(s[1..], t, cutoff);
    }
  }

  class RealTimeFeed {
    var liveFeed: seq<Alert>
    var socialFeed: seq<string>
    var alertHistory: seq<int>
    var socialCount: int
    var hotspot: string

    constructor ()
      ensures liveFeed == [] && socialFeed == [] && alertHistory == [] && socialCount == 0 && hotspot == ""
    {
      liveFeed, socialFeed, alertHistory, socialCount, hotspot := [], [], [], 0, "";
    }

    /** Puts an alert at the front of the live feed, records its time `pushedAt`
        and keeps only the timestamps no older than a minute before `now` (the
        clock is read twice). Returns the alerts-per-minute rate. */
    method PushEmergencyAlert(text: string, location: string, severity: Allocation.Severity,
                              pushedAt: int, now: int) returns (rate: int)
      modifies this
      ensures liveFeed == KeepFirst([Alert(text, location, severity)] + old(liveFeed), FeedLimit)
      ensures alertHistory == Recent(old(alertHistory) + [pushedAt], now - WindowMs)
      ensures rate == |alertHistory|
      ensures hotspot == location
      ensures socialFeed == old(socialFeed) && socialCount == old(socialCount)
    {
      liveFeed := TrimToLimit([Alert(text, location, severity)] + liveFeed, FeedLimit);
      alertHistory := alertHistory + [pushedAt];
      var cutoff := now - WindowMs;
      alertHistory := Recent(alertHistory, cutoff);
      rate := |alertHistory|;
      hotspot := location;
    }

    /** Puts a social post at the front of the social feed and counts it. */
    method PushSocialSignal(text: string)
      modifies this
      ensures socialFeed == KeepFirst([text] + old(socialFeed), FeedLimit)
      ensures socialCount == old(socialCount) + 1
      ensures liveFeed == old(liveFeed) && alertHistory == old(alertHistory) && hotspot == old(hotspot)
    {
      socialFeed := TrimToLimit([text] + socialFeed, FeedLimit);
      socialCount := socialCount + 1;
    }
  }

  /** After an alert is pushed, the history holds exactly the old and new
      timestamps within the window, the new one last when the two clock readings
      are less than a minute apart. */
  lemma AlertHistoryAfterPush(history: seq<int>, pushedAt: int, now: int)
    ensures var h := Recent(history + [pushedAt], now - WindowMs);
      && (forall t :: t in h <==> (t in history || t == pushedAt) && t >= now - WindowMs)
      && (pushedAt >= now - WindowMs ==> |h| > 0 && h[|h| - 1] == pushedAt)
  {
    RecentAppend(history, pushedAt, now - WindowMs);
    forall t
      ensures t in Recent(history + [pushedAt], now - WindowMs)
              <==> (t in history || t == pushedAt) && t >= now - WindowMs
    {
      RecentMembers(history + [pushedAt], now - WindowMs, t);
    }
  }
}
