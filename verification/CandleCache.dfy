/** The bounded candle cache against the full history of what it was told. */
module CandleCaches {
  import opened Domain

  const CAP: int := 500

  function CandleKey(symbol: string, timeframe: string): string {
    symbol + "|" + timeframe
  }

  /** Distinct symbol and timeframe pairs have distinct keys, provided no symbol contains the separator. */
  lemma KeySeparates(s: string, t: string, u: string, v: string)
    requires '|' !in s && '|' !in u && CandleKey(s, t) == CandleKey(u, v)
    ensures s == u && t == v
  {
    var k, l := CandleKey(s, t), CandleKey(u, v);
    assert k[|s|] == '|' && l[|u|] == '|';
    assert k[..|s|] == s && l[..|u|] == u;
    assert |s| == |u|;
    assert k[|s| + 1..] == t && l[|u| + 1..] == v;
  }

  // ---------------------------------------------------------------- the reference

  /** Everything accepted so far for one key, the last write of an open time winning. */
  type History = map<int, Candle>

  predicate Ascending(list: seq<Candle>) {
    forall i, j :: 0 <= i < j < |list| ==> list[i].openTime < list[j].openTime
  }

  function Times(list: seq<Candle>): set<int> {
    set i | 0 <= i < |list| :: list[i].openTime
  }

  /** `list` is the `n` most recent candles of the history, oldest first; all of it when it has no more than `n`. */
  ghost predicate Recent(list: seq<Candle>, h: History, n: int) {
    Ascending(list) && |list| <= n &&
    (forall i :: 0 <= i < |list| ==> list[i].openTime in h && h[list[i].openTime] == list[i]) &&
    (forall t :: t in h && t !in Times(list) ==> |list| == n && forall i :: 0 <= i < |list| ==> t < list[i].openTime)
  }

  lemma {:induction false} CountTimes(list: seq<Candle>)
    requires Ascending(list)
    ensures |Times(list)| == |list|
    decreases |list|
  {
    if list != [] {
      var rest, last := list[..|list| - 1], list[|list| - 1].openTime;
      CountTimes(rest);
      assert Times(list) == Times(rest) + {last} && last !in Times(rest);
    }
  }

  lemma {:induction false} SameTimesSameList(a: seq<Candle>, b: seq<Candle>, h: History, n: int)
    requires Recent(a, h, n) && Recent(b, h, n) && Times(a) == Times(b)
    ensures a == b
  {
    CountTimes(a);
    CountTimes(b);
    SameSorted(a, b);
    assert forall i :: 0 <= i < |a| ==> a[i] == h[a[i].openTime] && b[i] == h[b[i].openTime];
  }

  lemma {:induction false} SameSorted(a: seq<Candle>, b: seq<Candle>)
    requires Ascending(a) && Ascending(b) && |a| == |b| && Times(a) == Times(b)
    ensures forall i :: 0 <= i < |a| ==> a[i].openTime == b[i].openTime
    decreases |a|
  {
    if a != [] {
      var n := |a| - 1;
      assert a[n].openTime in Times(b) && b[n].openTime in Times(a);
      assert a[n].openTime == b[n].openTime;
      assert Times(a[..n]) == Times(a) - {a[n].openTime};
      assert Times(b[..n]) == Times(b) - {b[n].openTime};
      SameSorted(a[..n], b[..n]);
    }
  }

  lemma RecentWithin(a: seq<Candle>, b: seq<Candle>, h: History, n: int)
    requires Recent(a, h, n) && Recent(b, h, n)
    ensures Times(a) <= Times(b) || Times(b) <= Times(a)
  {
  }

  /** A history has only one list of its `n` most recent candles. */
  lemma RecentIsUnique(a: seq<Candle>, b: seq<Candle>, h: History, n: int)
    requires Recent(a, h, n) && Recent(b, h, n)
    ensures a == b
  {
    RecentWithin(a, b, h, n);
    CountTimes(a);
    CountTimes(b);
    if Times(a) != Times(b) {
      if Times(a) <= Times(b) {
        MissingMeansFull(a, b, h, n);
      } else {
        MissingMeansFull(b, a, h, n);
      }
    } else {
      SameTimesSameList(a, b, h, n);
    }
  }

  /** A list that misses a time another one has is itself full, so it cannot be the smaller of the two. */
  lemma MissingMeansFull(a: seq<Candle>, b: seq<Candle>, h: History, n: int)
    requires Recent(a, h, n) && Recent(b, h, n) && Times(a) <= Times(b)
    ensures Times(a) == Times(b)
  {
    CountTimes(a);
    CountTimes(b);
    assert Times(b) == Times(a) + (Times(b) - Times(a));
    assert forall t :: t in Times(b) ==> t in h;
  }

  // ---------------------------------------------------------------- one update

  function Put(list: seq<Candle>, idx: nat, c: Candle): seq<Candle>
    requires idx <= |list|
  {
    if idx < |list| && list[idx].openTime == c.openTime then list[idx := c] else list[..idx] + [c] + list[idx..]
  }

  function Trim(list: seq<Candle>): seq<Candle> {
    if |list| > CAP then list[|list| - CAP..] else list
  }

  /** Where a candle of open time `t` belongs: everything before is older, nothing after is. */
  predicate Splits(list: seq<Candle>, idx: int, t: int) {
    0 <= idx <= |list| &&
    (forall k :: 0 <= k < idx ==> list[k].openTime < t) && (forall k :: idx <= k < |list| ==> list[k].openTime >= t)
  }

  lemma InsertedAt(list: seq<Candle>, idx: nat, c: Candle)
    requires idx <= |list|
    ensures var out := list[..idx] + [c] + list[idx..];
            |out| == |list| + 1 && out[idx] == c && (forall i :: 0 <= i < idx ==> out[i] == list[i]) &&
            (forall i :: idx < i < |out| ==> out[i] == list[i - 1])
  {
  }

  lemma InsertedTimes(list: seq<Candle>, idx: nat, c: Candle)
    requires idx <= |list|
    ensures Times(list[..idx] + [c] + list[idx..]) == Times(list) + {c.openTime}
  {
    var out := list[..idx] + [c] + list[idx..];
    InsertedAt(list, idx, c);
    forall t | t in Times(list)
      ensures t in Times(out)
    {
      var i :| 0 <= i < |list| && list[i].openTime == t;
      assert out[if i < idx then i else i + 1].openTime == t;
    }
  }

  lemma PutSorted(list: seq<Candle>, idx: nat, c: Candle)
    requires Ascending(list) && Splits(list, idx, c.openTime)
    ensures Ascending(Put(list, idx, c)) && Times(Put(list, idx, c)) == Times(list) + {c.openTime}
  {
    var out := Put(list, idx, c);
    if idx < |list| && list[idx].openTime == c.openTime {
      assert forall i :: 0 <= i < |list| ==> out[i].openTime == list[i].openTime;
    } else {
      InsertedAt(list, idx, c);
      InsertedTimes(list, idx, c);
    }
  }

  lemma ReplaceShows(list: seq<Candle>, idx: nat, c: Candle, h: History)
    requires Recent(list, h, CAP) && idx < |list| && list[idx].openTime == c.openTime
    ensures Recent(list[idx := c], h[c.openTime := c], CAP)
  {
    var out := list[idx := c];
    assert forall i :: 0 <= i < |list| ==> out[i].openTime == list[i].openTime;
    assert Times(out) == Times(list);
  }

  /** After the write, every listed candle is what the new history says. */
  lemma PutBelongs(list: seq<Candle>, idx: nat, c: Candle, h: History, n: int)
    requires Recent(list, h, n) && Splits(list, idx, c.openTime)
    ensures forall x :: x in Put(list, idx, c) ==>
              x.openTime in h[c.openTime := c] && h[c.openTime := c][x.openTime] == x
  {
  }

  lemma InsertShows(list: seq<Candle>, idx: nat, c: Candle, h: History)
    requires Recent(list, h, CAP) && Splits(list, idx, c.openTime) &&
               (idx < |list| ==> list[idx].openTime != c.openTime) && |list| < CAP
    ensures Recent(Put(list, idx, c), h[c.openTime := c], CAP)
  {
    PutSorted(list, idx, c);
    PutBelongs(list, idx, c, h, CAP);
    var out := Put(list, idx, c);
    assert forall i :: 0 <= i < |out| ==> out[i] in out;
  }

  /** A candle older than everything in a full list changes nothing. */
  lemma TooOldShows(list: seq<Candle>, c: Candle, h: History)
    requires Recent(list, h, CAP) && Splits(list, 0, c.openTime) && |list| == CAP && list[0].openTime != c.openTime
    ensures Trim(Put(list, 0, c)) == list && Recent(list, h[c.openTime := c], CAP)
  {
  }

  /** A newer candle makes a full list one longer, without leaving anything out that it should show. */
  lemma InsertIntoFull(list: seq<Candle>, idx: nat, c: Candle, h: History)
    requires Recent(list, h, CAP) && Splits(list, idx, c.openTime) && |list| == CAP && idx > 0 &&
               (idx < |list| ==> list[idx].openTime != c.openTime)
    ensures Recent(Put(list, idx, c), h[c.openTime := c], CAP + 1)
  {
    var out, g := Put(list, idx, c), h[c.openTime := c];
    PutSorted(list, idx, c);
    PutBelongs(list, idx, c, h, CAP);
    assert out[0] == list[0] && forall i :: 0 <= i < |out| ==> out[i] in out;
    assert Times(list) <= Times(out);
    MissingIsOlder(list, out, c, h);
  }

  lemma MissingIsOlder(list: seq<Candle>, out: seq<Candle>, c: Candle, h: History)
    requires Recent(list, h, CAP) && Ascending(out) && |list| == CAP && out != [] && out[0] == list[0]
    requires Times(out) == Times(list) + {c.openTime}
    ensures forall t, i :: t in h[c.openTime := c] && t !in Times(out) && 0 <= i < |out| ==> t < out[i].openTime
  {
  }

  /** One accepted candle: the list shows the history that includes it. */
  lemma UpdateShows(list: seq<Candle>, idx: nat, c: Candle, h: History)
    requires Recent(list, h, CAP) && Splits(list, idx, c.openTime)
    ensures Recent(Trim(Put(list, idx, c)), h[c.openTime := c], CAP)
  {
    if idx < |list| && list[idx].openTime == c.openTime {
      ReplaceShows(list, idx, c, h);
    } else if |list| < CAP {
      InsertShows(list, idx, c, h);
    } else if idx == 0 {
      TooOldShows(list, c, h);
    } else {
      InsertIntoFull(list, idx, c, h);
      SuffixIsRecent(Put(list, idx, c), h[c.openTime := c], CAP + 1, CAP);
    }
  }

  /** A suffix of the shown list is the shorter horizon of the same history. */
  lemma SuffixIsRecent(list: seq<Candle>, h: History, n: int, m: int)
    requires Recent(list, h, n) && 0 < m <= |list|
    ensures Recent(list[|list| - m..], h, m)
  {
  }

  // ---------------------------------------------------------------- the cache

  class CandleCache {
    var candles: map<string, seq<Candle>>
    ghost var history: map<string, History>

    /** What every key holds is the last CAP candles of its history. */
    ghost predicate Valid()
      reads this
    {
      candles.Keys == history.Keys &&
      forall key :: key in candles ==> Recent(candles[key], history[key], CAP) && candles[key] != []
    }

    ghost function HistoryOf(key: string): History
      reads this
    {
      if key in history then history[key] else map[]
    }

    constructor ()
      ensures Valid() && history == map[]
    {
      candles, history := map[], map[];
    }

    /** The least index whose candle is not older than `t`, by bisection. */
    static method Search(list: seq<Candle>, t: int) returns (idx: nat)
      requires Ascending(list)
      ensures Splits(list, idx, t)
    {
      var lo, hi := 0, |list|;
      while lo < hi
        invariant 0 <= lo <= hi <= |list|
        invariant forall k :: 0 <= k < lo ==> list[k].openTime < t
        invariant forall k :: hi <= k < |list| ==> list[k].openTime >= t
      {
        var mid := (lo + hi) / 2;
        if list[mid].openTime >= t {
          hi := mid;
        } else {
          lo := mid + 1;
        }
      }
      idx := lo;
    }

    /** Adding or replacing one candle and trimming the oldest. */
    static method Place(list: seq<Candle>, candle: Candle, ghost h: History) returns (out: seq<Candle>)
      requires Recent(list, h, CAP)
      ensures Recent(out, h[candle.openTime := candle], CAP) && out != []
    {
      var idx := Search(list, candle.openTime);
      if idx < |list| && list[idx].openTime == candle.openTime {
        out := list[idx := candle];
      } else {
        out := list[..idx] + [candle] + list[idx..];
      }
      assert out == Put(list, idx, candle);
      if |out| > CAP {
        out := out[|out| - CAP..];
      }
      assert out == Trim(Put(list, idx, candle)) && out != [];
      UpdateShows(list, idx, candle, h);
    }

    /** A candle with a price of zero or below, or a volume below zero, is ignored. */
    method Update(symbol: string, timeframe: string, candle: Candle)
      requires Valid()
      modifies this
      ensures Valid()
      ensures var key := CandleKey(symbol, timeframe);
              history
              == if 0.0 < candle.open && 0.0 < candle.high && 0.0 < candle.low && 0.0 < candle.close &&
                    0.0 <= candle.volume
                 then old(history)[key := old(HistoryOf(key))[candle.openTime := candle]]
                 else old(history)
    {
      if candle.open <= 0.0 || candle.high <= 0.0 || candle.low <= 0.0 || candle.close <= 0.0 || candle.volume < 0.0 {
        return;
      }
      var key := CandleKey(symbol, timeframe);
      var list := if key in candles then candles[key] else [];
      list := Place(list, candle, HistoryOf(key));
      candles := candles[key := list];
      history := history[key := HistoryOf(key)[candle.openTime := candle]];
    }

    /** The most recent candles, `limit` of them, or everything held when `limit` is not positive. */
    method Get(symbol: string, timeframe: string, limit: int) returns (out: seq<Candle>)
      requires Valid()
      ensures var key := CandleKey(symbol, timeframe);
              Recent(out, HistoryOf(key), if 0 < limit < CAP then limit else CAP)
    {
      var key := CandleKey(symbol, timeframe);
      if key !in candles {
        return [];
      }
      var list := candles[key];
      if limit <= 0 || limit >= |list| {
        if 0 < limit < CAP {
          ShortListIsRecent(list, HistoryOf(key), limit);
        }
        return list;
      }
      SuffixIsRecent(list, HistoryOf(key), CAP, limit);
      return list[|list| - limit..];
    }
  }

  /** A list shorter than the cap holds everything, so any limit it fits in shows it whole. */
  lemma ShortListIsRecent(list: seq<Candle>, h: History, limit: int)
    requires Recent(list, h, CAP) && |list| <= limit < CAP
    ensures Recent(list, h, limit)
  {
  }
}
