/** `filterDataByRange` of src/screens/HistoryScreen.js: keep the readings
    whose date is at or after `now - hours * 60 * 60 * 1000`. */
module RangeFilter {
  import opened Values
  import opened Readings

  const MsPerHour: int := 60 * 60 * 1000

  /** The earliest instant of a range of `hours` hours ending at `now`. */
  function Cutoff(hours: int, now: int): (c: int)
    ensures c <= now <==> hours >= 0
    ensures now - c == hours * 3600000
  {
    now - hours * MsPerHour
  }

  /** The reading's date parses and is not earlier than the cutoff. An
      unparsable date compares as NaN, which is never at or after anything,
      so such a reading is never in a window. */
  predicate InWindow(r: Reading, cutoff: int) {
    r.timestamp.Some? && r.timestamp.value >= cutoff
  }

  /** `sub` is `s` with some elements deleted and the rest in their order. */
  ghost predicate IsSubsequence<T>(sub: seq<T>, s: seq<T>)
    decreases |s|
  {
    if sub == [] then true
    else if s == [] then false
    else (sub[0] == s[0] && IsSubsequence(sub[1..], s[1..])) || IsSubsequence(sub, s[1..])
  }

  /** The readings of `data` that lie in the window, every copy of each,
      in their original order. */
  function Keep(data: seq<Reading>, cutoff: int): (w: seq<Reading>)
    ensures forall r :: r in w <==> r in data && InWindow(r, cutoff)
    ensures forall r :: multiset(w)[r] == if InWindow(r, cutoff) then multiset(data)[r] else 0
    ensures IsSubsequence(w, data)
    ensures |w| <= |data|
  {
    if data == [] then []
    else
      assert data == [data[0]] + data[1..];
      if InWindow(data[0], cutoff) then [data[0]] + Keep(data[1..], cutoff)
      else Keep(data[1..], cutoff)
  }

  /** The window of `data` for a range of `hours` hours at instant `now`. */
  function FilterByRange(data: seq<Reading>, hours: int, now: int): (w: seq<Reading>)
    ensures forall r :: r in w ==> r.timestamp.Some? && r.timestamp.value >= now - hours * 3600000
    ensures forall r :: r in data && r.timestamp.Some? && r.timestamp.value >= now - hours * 3600000 ==> r in w
    ensures forall r :: multiset(w)[r] ==
                        (if r.timestamp.Some? && r.timestamp.value >= now - hours * 3600000
                         then multiset(data)[r] else 0)
    ensures IsSubsequence(w, data)
  {
    Keep(data, Cutoff(hours, now))
  }

  /** Filtering a window again with the same range and instant changes nothing. */
  lemma {:induction false} KeepIdempotent(data: seq<Reading>, cutoff: int)
    ensures Keep(Keep(data, cutoff), cutoff) == Keep(data, cutoff)
  {
    if data != [] {
      KeepIdempotent(data[1..], cutoff);
      if InWindow(data[0], cutoff) {
        var rest := Keep(data[1..], cutoff);
        assert ([data[0]] + rest)[1..] == rest;
      }
    }
  }

  /** A longer range at the same instant keeps at least what a shorter one
      keeps, copy for copy. */
  lemma WiderRangeKeepsMore(data: seq<Reading>, short: int, long: int, now: int)
    requires short <= long
    ensures forall r :: multiset(FilterByRange(data, short, now))[r] <= multiset(FilterByRange(data, long, now))[r]
  {
  }

  lemma FilterIdempotent(data: seq<Reading>, hours: int, now: int)
    ensures FilterByRange(FilterByRange(data, hours, now), hours, now) == FilterByRange(data, hours, now)
  {
    KeepIdempotent(data, Cutoff(hours, now));
  }

  /** Nothing is kept from readings that all lie outside the window. */
  lemma {:induction false} KeepNone(data: seq<Reading>, cutoff: int)
    requires forall i :: 0 <= i < |data| ==> !InWindow(data[i], cutoff)
    ensures Keep(data, cutoff) == []
  {
    if data != [] {
      KeepNone(data[1..], cutoff);
    }
  }

  /** Readings that all lie inside the window are all kept. */
  lemma {:induction false} KeepAll(data: seq<Reading>, cutoff: int)
    requires forall i :: 0 <= i < |data| ==> InWindow(data[i], cutoff)
    ensures Keep(data, cutoff) == data
  {
    if data != [] {
      KeepAll(data[1..], cutoff);
    }
  }

  /** On data kept newest first, a reading outside the window is followed
      only by readings outside it too. */
  lemma NothingAfterOld(data: seq<Reading>, cutoff: int)
    requires NewestFirst(data)
    requires data != [] && !InWindow(data[0], cutoff)
    ensures Keep(data, cutoff) == []
  {
    KeepNone(data, cutoff);
  }

  /** On data kept newest first the window is a contiguous slice: a prefix. */
  lemma {:induction false} WindowIsPrefix(data: seq<Reading>, hours: int, now: int)
    requires NewestFirst(data)
    ensures var w := FilterByRange(data, hours, now); w == data[..|w|]
  {
    PrefixOfSorted(data, Cutoff(hours, now));
  }

  lemma NewestFirstTail(data: seq<Reading>)
    requires data != [] && NewestFirst(data)
    ensures NewestFirst(data[1..])
  {
  }

  lemma {:induction false} PrefixOfSorted(data: seq<Reading>, cutoff: int)
    requires NewestFirst(data)
    ensures var w := Keep(data, cutoff); w == data[..|w|]
  {
    if data != [] {
      if InWindow(data[0], cutoff) {
        NewestFirstTail(data);
        PrefixOfSorted(data[1..], cutoff);
        assert Keep(data, cutoff) == [data[0]] + Keep(data[1..], cutoff);
        ConsPrefix(data, Keep(data[1..], cutoff));
      } else {
        NothingAfterOld(data, cutoff);
      }
    }
  }

  /** A prefix of the tail, with the head put back, is a prefix. */
  lemma ConsPrefix(data: seq<Reading>, rest: seq<Reading>)
    requires |rest| < |data| && rest == data[1..][..|rest|]
    ensures [data[0]] + rest == data[..1 + |rest|]
  {
    assert forall k :: 0 <= k < |rest| ==> rest[k] == data[k + 1];
  }
}
