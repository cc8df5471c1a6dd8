/** The record-level parts of the dashboard's summary: the last-24-hours
    filter and the keys each frequency table is counted over. */
module Aggregation {
  import opened Records

  /** Length of the "last 24 hours" window in milliseconds. */
  const WindowMs := 86400000      // 24 * 60 * 60 * 1000

  /** `new Date(created_at) > new Date(now - 24h)`: strictly inside the
      window, so a record exactly 24 hours old is not counted. */
  predicate IsRecent(r: Submission, now: int)
    ensures IsRecent(r, now) <==> now - r.createdAt < WindowMs
  {
    r.createdAt > now - WindowMs
  }

  /** `data.filter(...)` with the window test. Every record of the window
      is kept as often as it occurs, and no other record is; only the
      number kept is ever shown, so their order is not stated. */
  function Recent(data: seq<Submission>, now: int): (kept: seq<Submission>)
    ensures |kept| <= |data|
    ensures forall r :: multiset(kept)[r] == if IsRecent(r, now) then multiset(data)[r] else 0
  {
    if data == [] then []
    else
      assert data == [data[0]] + data[1..];
      var rest := Recent(data[1..], now);
      if IsRecent(data[0], now) then [data[0]] + rest else rest
  }

  /** The window is a suffix of time: every record at least as new as one
      inside the window is kept by the filter. */
  lemma RecentIsUpwardClosed(data: seq<Submission>, now: int)
    ensures forall i, j ::
      (0 <= i < |data| && 0 <= j < |data| && IsRecent(data[i], now) &&
       data[j].createdAt >= data[i].createdAt) ==> data[j] in Recent(data, now)
  {
    forall j | 0 <= j < |data| && data[j].createdAt > now - WindowMs
      ensures data[j] in Recent(data, now)
    {
      assert data[j] in multiset(data);
      assert multiset(Recent(data, now))[data[j]] > 0;
    }
  }

  /** The key each record adds to the watch model table. */
  function ModelKeys(data: seq<Submission>): (ks: seq<string>)
    ensures |ks| == |data| && forall i :: 0 <= i < |data| ==> ks[i] == PropertyKey(data[i].watchModel)
  {
    seq(|data|, i requires 0 <= i < |data| => PropertyKey(data[i].watchModel))
  }

  /** The key each record adds to the feature table. */
  function FeatureKeys(data: seq<Submission>): (ks: seq<string>)
    ensures |ks| == |data| && forall i :: 0 <= i < |data| ==> ks[i] == PropertyKey(data[i].topFeature)
  {
    seq(|data|, i requires 0 <= i < |data| => PropertyKey(data[i].topFeature))
  }

  /** The key each record adds to the timeline table: its creation day as
      `toLocaleDateString` prints it, which depends on the browser's locale
      and time zone and is therefore a parameter. */
  function DayKeys(data: seq<Submission>, dayKey: int -> string): (ks: seq<string>)
    ensures |ks| == |data| && forall i :: 0 <= i < |data| ==> ks[i] == dayKey(data[i].createdAt)
  {
    seq(|data|, i requires 0 <= i < |data| => dayKey(data[i].createdAt))
  }
}
