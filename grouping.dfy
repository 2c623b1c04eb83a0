/** Grouping a time-ordered forecast into calendar days: the list of distinct
    date keys in first-seen order, and the samples that belong to one key.
    The date key of a sample is computed by `formatDate`, which the screen
    takes from the device's locale; here it is any function from timestamps
    to strings, and every property below holds for all of them. */
module DayGrouping {
  import opened Forecast

  /** No value occurs twice. */
  ghost predicate NoDuplicates<T>(s: seq<T>) {
    forall i, j :: 0 <= i < j < |s| ==> s[i] != s[j]
  }

  /** The elements of `s` in the order a JavaScript `Set` built from `s`
      enumerates them: each element is inserted in turn and appended only
      if it is not already present. */
  function Dedup<T(==,!new)>(s: seq<T>): (r: seq<T>)
    ensures NoDuplicates(r)
    ensures forall x :: x in r <==> x in s
    ensures |r| <= |s|
    decreases |s|
  {
    if s == [] then []
    else
      var t, e := s[..|s| - 1], s[|s| - 1];
      assert s == t + [e];
      var d := Dedup(t);
      if e in d then d else d + [e]
  }

  /** The position of the first occurrence of `x` in `s`. */
  function FirstIndex<T(==)>(s: seq<T>, x: T): (i: nat)
    requires x in s
    ensures i < |s| && s[i] == x
    ensures forall k :: 0 <= k < i ==> s[k] != x
    decreases |s|
  {
    var t := s[..|s| - 1];
    if x in t then FirstIndex(t, x) else |s| - 1
  }

  /** Appending an element does not move the first occurrence of a value
      that was already there. */
  lemma FirstIndexOfPrefix<T>(t: seq<T>, e: T, x: T)
    requires x in t
    ensures FirstIndex(t + [e], x) == FirstIndex(t, x)
  {
    assert (t + [e])[..|t|] == t;
  }

  /** `Dedup` lists values in the order of their first occurrence in `s`:
      one value comes before another in the result exactly when it first
      occurs earlier in the input. */
  lemma {:induction false} DedupFirstSeenOrder<T(!new)>(s: seq<T>)
    ensures forall i, j :: 0 <= i < |Dedup(s)| && 0 <= j < |Dedup(s)| ==>
              (i < j <==> FirstIndex(s, Dedup(s)[i]) < FirstIndex(s, Dedup(s)[j]))
  {
    if s != [] {
      var t, e := s[..|s| - 1], s[|s| - 1];
      assert s == t + [e];
      DedupFirstSeenOrder(t);
      var d, r := Dedup(t), Dedup(s);
      forall x | x in t
        ensures FirstIndex(s, x) == FirstIndex(t, x)
      {
        FirstIndexOfPrefix(t, e, x);
      }
      forall i, j | 0 <= i < |r| && 0 <= j < |r|
        ensures i < j <==> FirstIndex(s, r[i]) < FirstIndex(s, r[j])
      {
        if i < |d| && j < |d| {
          assert r[i] == d[i] && r[j] == d[j];
        } else if i < |d| {
          // r[j] is e, appended because it was new: its first index is |t|
          assert r[j] == e && e !in t;
          assert FirstIndex(s, r[i]) < |t|;
        } else if j < |d| {
          assert r[i] == e && e !in t;
          assert FirstIndex(s, r[j]) < |t|;
        } else {
          assert i == j;
        }
      }
    }
  }

  /** `Dedup` is the only duplicate-free sequence that holds exactly the
      values of `s` and lists them in first-seen order. */
  lemma {:induction false} DedupUnique<T(!new)>(s: seq<T>, r: seq<T>)
    requires NoDuplicates(r)
    requires forall x :: x in r <==> x in s
    requires forall i, j :: 0 <= i < j < |r| ==> FirstIndex(s, r[i]) < FirstIndex(s, r[j])
    ensures r == Dedup(s)
  {
    if s == [] {
      HeadIsMember(r);
    } else {
      var t, e := s[..|s| - 1], s[|s| - 1];
      assert s == t + [e];
      if e in t {
        FirstSeenOrderedDropRepeat(t, e, r);
        DedupUnique(t, r);
      } else {
        NewValueComesLast(t, e, r);
        DropNewValue(t, e, r);
        var r' := r[..|r| - 1];
        assert forall i, j :: 0 <= i < j < |r'| ==> r'[i] == r[i] && r'[j] == r[j];
        DedupUnique(t, r');
      }
    }
  }

  /** A non-empty sequence has a member. Called where `r` is known to have
      no member, so the index cannot be written inline there without being
      checked under contradictory facts. */
  lemma HeadIsMember<T>(r: seq<T>)
    ensures r != [] ==> r[0] in r
  {
  }

  /** Appending a value already present changes neither the values nor the
      first-seen order. */
  lemma FirstSeenOrderedDropRepeat<T(!new)>(t: seq<T>, e: T, r: seq<T>)
    requires e in t
    requires forall x :: x in r <==> x in t + [e]
    requires forall i, j :: 0 <= i < j < |r| ==> FirstIndex(t + [e], r[i]) < FirstIndex(t + [e], r[j])
    ensures forall x :: x in r <==> x in t
    ensures forall i, j :: 0 <= i < j < |r| ==> FirstIndex(t, r[i]) < FirstIndex(t, r[j])
  {
    forall x ensures x in r <==> x in t {
      assert x in t + [e] <==> x in t || x == e;
    }
    forall i, j | 0 <= i < j < |r|
      ensures FirstIndex(t, r[i]) < FirstIndex(t, r[j])
    {
      FirstIndexOfPrefix(t, e, r[i]);
      FirstIndexOfPrefix(t, e, r[j]);
    }
  }

  /** Appending a new value: it first occurs last, so in a first-seen
      ordering of the values it comes last. */
  lemma NewValueComesLast<T(!new)>(t: seq<T>, e: T, r: seq<T>)
    requires e !in t
    requires forall x :: x in r <==> x in t + [e]
    requires forall i, j :: 0 <= i < j < |r| ==> FirstIndex(t + [e], r[i]) < FirstIndex(t + [e], r[j])
    ensures r != [] && r[|r| - 1] == e
  {
    var s := t + [e];
    assert s[..|t|] == t;
    assert FirstIndex(s, e) == |t|;
    assert e in s && e in r;
    var last := |r| - 1;
    var k :| 0 <= k < |r| && r[k] == e;
    // nothing first occurs later than e, so nothing can follow e in r
    assert FirstIndex(s, r[last]) <= FirstIndex(s, r[k]);
    assert k == last;
  }

  /** What precedes the new value in a first-seen ordering is a first-seen
      ordering of the values before it. */
  lemma DropNewValue<T(!new)>(t: seq<T>, e: T, r: seq<T>)
    requires e !in t
    requires r != [] && r[|r| - 1] == e
    requires NoDuplicates(r)
    requires forall x :: x in r <==> x in t + [e]
    requires forall i, j :: 0 <= i < j < |r| ==> FirstIndex(t + [e], r[i]) < FirstIndex(t + [e], r[j])
    ensures r == r[..|r| - 1] + [e]
    ensures forall x :: x in r[..|r| - 1] <==> x in t
    ensures forall i, j :: 0 <= i < j < |r| - 1 ==> FirstIndex(t, r[i]) < FirstIndex(t, r[j])
  {
    var r' := r[..|r| - 1];
    assert r == r' + [e];
    forall x ensures x in r' <==> x in t {
      assert x in t + [e] <==> x in t || x == e;
      assert x in r <==> x in r' || x == e;
    }
    forall i, j | 0 <= i < j < |r| - 1
      ensures FirstIndex(t, r[i]) < FirstIndex(t, r[j])
    {
      FirstIndexOfPrefix(t, e, r[i]);
      FirstIndexOfPrefix(t, e, r[j]);
    }
  }

  /** The date key of every sample, in sample order
      (`list.map(item => formatDate(item.dt))`). */
  function DateKeys(list: seq<Sample>, formatDate: int -> string): seq<string> {
    seq(|list|, j requires 0 <= j < |list| => formatDate(list[j].dt))
  }

  /** The distinct calendar days of a forecast, as the screen computes them
      with `[...new Set(list.map(item => formatDate(item.dt)))]`: no day
      twice, every sample's day present, no day that no sample has, and at
      least one day as soon as there is one sample. */
  function UniqueDates(list: seq<Sample>, formatDate: int -> string): (u: seq<string>)
    ensures NoDuplicates(u)
    ensures forall j :: 0 <= j < |list| ==> formatDate(list[j].dt) in u
    ensures forall d :: d in u ==> exists j :: 0 <= j < |list| && formatDate(list[j].dt) == d
    ensures |u| <= |list|
    ensures list != [] ==> |u| >= 1
  {
    var keys := DateKeys(list, formatDate);
    assert forall j :: 0 <= j < |list| ==> keys[j] == formatDate(list[j].dt);
    var u := Dedup(keys);
    assert list != [] ==> keys[0] in u;
    u
  }

  /** The days are listed in the order in which the forecast first reaches
      them: day `i` precedes day `j` exactly when the first sample of day
      `i` precedes the first sample of day `j`. */
  lemma UniqueDatesFirstSeenOrder(list: seq<Sample>, formatDate: int -> string)
    ensures var u := UniqueDates(list, formatDate);
            forall i, j :: 0 <= i < |u| && 0 <= j < |u| ==>
              (i < j <==> FirstIndex(DateKeys(list, formatDate), u[i])
                          < FirstIndex(DateKeys(list, formatDate), u[j]))
  {
    DedupFirstSeenOrder(DateKeys(list, formatDate));
  }

  /** The samples of one day, in forecast order
      (`list.filter(item => formatDate(item.dt) === date)`). */
  function SelectedDay(list: seq<Sample>, formatDate: int -> string, date: string): (r: seq<Sample>)
    ensures |r| <= |list|
    ensures forall x :: x in r ==> x in list && formatDate(x.dt) == date
    decreases |list|
  {
    if list == [] then []
    else
      var rest, last := list[..|list| - 1], list[|list| - 1];
      assert list == rest + [last];
      var kept := SelectedDay(rest, formatDate, date);
      if formatDate(last.dt) == date then kept + [last] else kept
  }

  /** The positions of the samples of one day, ascending: a reference for
      what the day filter must keep. */
  ghost function MatchingIndices(list: seq<Sample>, formatDate: int -> string, date: string): (idx: seq<nat>)
    ensures forall k :: 0 <= k < |idx| ==> idx[k] < |list|
    ensures forall k, m :: 0 <= k < m < |idx| ==> idx[k] < idx[m]
    ensures forall j: nat :: j in idx <==> j < |list| && formatDate(list[j].dt) == date
    decreases |list|
  {
    if list == [] then []
    else
      var rest := list[..|list| - 1];
      var before := MatchingIndices(rest, formatDate, date);
      if formatDate(list[|list| - 1].dt) == date then before + [|list| - 1] else before
  }

  /** The day filter keeps exactly the samples at the matching positions,
      in their original order: its k-th sample is the sample at the k-th
      matching position. */
  lemma {:induction false} SelectedDayIsMatchingSubsequence(list: seq<Sample>, formatDate: int -> string, date: string)
    ensures var r, idx := SelectedDay(list, formatDate, date), MatchingIndices(list, formatDate, date);
            |r| == |idx| && forall k :: 0 <= k < |r| ==> r[k] == list[idx[k]]
  {
    if list != [] {
      var rest := list[..|list| - 1];
      SelectedDayIsMatchingSubsequence(rest, formatDate, date);
      var r, idx := SelectedDay(list, formatDate, date), MatchingIndices(list, formatDate, date);
      var r0, idx0 := SelectedDay(rest, formatDate, date), MatchingIndices(rest, formatDate, date);
      forall k | 0 <= k < |r0|
        ensures r[k] == list[idx[k]]
      {
        assert r[k] == r0[k] && idx[k] == idx0[k];
        assert rest[idx0[k]] == list[idx0[k]];
      }
    }
  }

  /** Every listed day has at least one sample: the day was taken from some
      sample, and the filter keeps that sample. */
  lemma SelectedDayNonEmpty(list: seq<Sample>, formatDate: int -> string, day: nat)
    requires day < |UniqueDates(list, formatDate)|
    ensures SelectedDay(list, formatDate, UniqueDates(list, formatDate)[day]) != []
  {
    var date := UniqueDates(list, formatDate)[day];
    assert date in UniqueDates(list, formatDate);
    var j :| 0 <= j < |list| && formatDate(list[j].dt) == date;
    assert j in MatchingIndices(list, formatDate, date);
    SelectedDayIsMatchingSubsequence(list, formatDate, date);
  }

  /** The days partition the forecast: every sample position is kept by the
      filter of exactly one listed day. */
  lemma SampleOnExactlyOneDay(list: seq<Sample>, formatDate: int -> string, j: nat)
    requires j < |list|
    ensures var u := UniqueDates(list, formatDate);
            exists k :: 0 <= k < |u| && j in MatchingIndices(list, formatDate, u[k])
    ensures var u := UniqueDates(list, formatDate);
            forall k, m ::
              (0 <= k < |u| && 0 <= m < |u| &&
               j in MatchingIndices(list, formatDate, u[k]) &&
               j in MatchingIndices(list, formatDate, u[m])) ==> k == m
  {
    var u := UniqueDates(list, formatDate);
    var d := formatDate(list[j].dt);
    var k :| 0 <= k < |u| && u[k] == d;
    assert j in MatchingIndices(list, formatDate, u[k]);
  }
}
