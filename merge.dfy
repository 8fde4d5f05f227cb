/** The merge step of `Ticker.update_data` (ticker.py): drop the stored rows dated
    today when the stored series already reaches today, append the freshly fetched
    rows, and drop later rows whose date was already seen (pandas `drop_duplicates`
    with its default `keep='first'`). */
module Merge {
  import opened Outcome
  import opened Series

  /** The dates present in a series. */
  function Dates(s: seq<Bar>): (ds: set<int>)
    ensures forall i :: 0 <= i < |s| ==> s[i].date in ds
  {
    if s == [] then {} else Dates(s[..|s| - 1]) + {s[|s| - 1].date}
  }

  /** Every date of the set comes from some row. */
  lemma {:induction false} DatesFromRows(s: seq<Bar>, d: int)
    requires d in Dates(s)
    ensures exists i :: 0 <= i < |s| && s[i].date == d
  {
    var init := s[..|s| - 1];
    if d != s[|s| - 1].date {
      DatesFromRows(init, d);
      var i :| 0 <= i < |init| && init[i].date == d;
      assert s[i] == init[i];
    }
  }

  lemma DatesAppend(a: seq<Bar>, b: seq<Bar>)
    ensures Dates(a + b) == Dates(a) + Dates(b)
  {
    forall d | d in Dates(a + b) ensures d in Dates(a) + Dates(b) {
      DatesFromRows(a + b, d);
      var i :| 0 <= i < |a + b| && (a + b)[i].date == d;
      if i < |a| { assert a[i] == (a + b)[i]; } else { assert b[i - |a|] == (a + b)[i]; }
    }
    forall d | d in Dates(a) + Dates(b) ensures d in Dates(a + b) {
      if d in Dates(a) {
        DatesFromRows(a, d);
        var i :| 0 <= i < |a| && a[i].date == d;
        assert (a + b)[i] == a[i];
      } else {
        DatesFromRows(b, d);
        var i :| 0 <= i < |b| && b[i].date == d;
        assert (a + b)[|a| + i] == b[i];
      }
    }
  }

  /** `df['Date'].max()`: no value (NaT) for an empty frame. */
  function MaxDate(s: seq<Bar>): (m: Option<int>)
    ensures m.None? <==> s == []
    ensures m.Some? ==> m.value in Dates(s) && forall i :: 0 <= i < |s| ==> s[i].date <= m.value
  {
    if s == [] then None
    else
      var init := s[..|s| - 1];
      var last := s[|s| - 1].date;
      assert forall i :: 0 <= i < |init| ==> init[i] == s[i];
      match MaxDate(init)
      case None => Some(last)
      case Some(m) => Some(if last > m then last else m)
  }

  /** `df[df['Date'] != d]`: the rows not dated `d`, in their order. */
  function WithoutDate(s: seq<Bar>, d: int): (r: seq<Bar>)
    ensures forall x :: x in r <==> x in s && x.date != d
  {
    if s == [] then []
    else
      var prev := WithoutDate(s[..|s| - 1], d);
      assert forall x :: x in s <==> x in s[..|s| - 1] || x == s[|s| - 1];
      if s[|s| - 1].date != d then prev + [s[|s| - 1]] else prev
  }

  /** The positions of the rows not dated `d`, in increasing order. */
  function OtherDatePositions(s: seq<Bar>, d: int): (ps: seq<nat>)
    ensures forall k :: 0 <= k < |ps| ==> ps[k] < |s| && s[ps[k]].date != d
    ensures forall k, l :: 0 <= k < l < |ps| ==> ps[k] < ps[l]
    ensures forall i :: 0 <= i < |s| && s[i].date != d ==> i in ps
  {
    if s == [] then []
    else
      var n := |s| - 1;
      var prev := OtherDatePositions(s[..n], d);
      if s[n].date != d then prev + [n] else prev
  }

  /** The filter keeps exactly the rows not dated `d`, in their original order. */
  lemma {:induction false} WithoutDatePositions(s: seq<Bar>, d: int)
    ensures |WithoutDate(s, d)| == |OtherDatePositions(s, d)|
    ensures forall k :: 0 <= k < |WithoutDate(s, d)| ==> WithoutDate(s, d)[k] == s[OtherDatePositions(s, d)[k]]
  {
    if s != [] {
      var n := |s| - 1;
      var init := s[..n];
      WithoutDatePositions(init, d);
      var kept, ps := WithoutDate(init, d), OtherDatePositions(init, d);
      forall k | 0 <= k < |kept| ensures kept[k] == s[ps[k]] {
        assert init[ps[k]] == s[ps[k]];
      }
      if s[n].date != d {
        assert WithoutDate(s, d) == kept + [s[n]];
        assert OtherDatePositions(s, d) == ps + [n];
      } else {
        assert WithoutDate(s, d) == kept;
        assert OtherDatePositions(s, d) == ps;
      }
    }
  }

  /** The stored frame before the fetched rows are appended. */
  function DropToday(stored: seq<Bar>, today: int): (r: seq<Bar>)
    ensures MaxDate(stored) == Some(today) ==> today !in Dates(r)
    ensures MaxDate(stored) == Some(today) ==> forall x :: x in r <==> x in stored && x.date != today
    ensures MaxDate(stored) != Some(today) ==> r == stored
  {
    if MaxDate(stored) == Some(today) then
      var r := WithoutDate(stored, today);
      assert today !in Dates(r) by {
        if today in Dates(r) {
          DatesFromRows(r, today);
        }
      }
      r
    else stored
  }

  /** When today's rows are dropped, the stored rows that stay keep their relative
      order: row `k` of the result is stored row `ps[k]`, for increasing `ps`. */
  lemma DropTodayOrder(stored: seq<Bar>, today: int)
    ensures MaxDate(stored) == Some(today) ==>
      |DropToday(stored, today)| == |OtherDatePositions(stored, today)|
    ensures MaxDate(stored) == Some(today) ==>
      forall k :: 0 <= k < |DropToday(stored, today)| ==>
        DropToday(stored, today)[k] == stored[OtherDatePositions(stored, today)[k]]
  {
    WithoutDatePositions(stored, today);
  }

  /** `drop_duplicates(subset=['Date'])`: a row survives when no earlier row has
      its date. */
  function KeepFirst(s: seq<Bar>): (r: seq<Bar>)
    ensures |r| <= |s|
  {
    if s == [] then []
    else
      var init := s[..|s| - 1];
      if s[|s| - 1].date in Dates(init) then KeepFirst(init) else KeepFirst(init) + [s[|s| - 1]]
  }

  /** Row `i` is the first row of `s` with its date. */
  predicate IsFirst(s: seq<Bar>, i: nat)
    requires i < |s|
  {
    forall j :: 0 <= j < i ==> s[j].date != s[i].date
  }

  /** The positions of the first row of each date, in increasing order. */
  function FirstPositions(s: seq<Bar>): (ps: seq<nat>)
    ensures forall k :: 0 <= k < |ps| ==> ps[k] < |s| && IsFirst(s, ps[k])
    ensures forall k, l :: 0 <= k < l < |ps| ==> ps[k] < ps[l]
    ensures forall i :: 0 <= i < |s| && IsFirst(s, i) ==> i in ps
  {
    if s == [] then []
    else
      var n := |s| - 1;
      var init := s[..n];
      var prev := FirstPositions(init);
      assert forall i :: 0 <= i < n ==> (IsFirst(s, i) <==> IsFirst(init, i)) by {
        forall i | 0 <= i < n ensures IsFirst(s, i) <==> IsFirst(init, i) {
          IsFirstPrefix(s, n, i);
        }
      }
      if IsFirst(s, n) then prev + [n] else prev
  }

  /** Whether a row is the first of its date depends only on the rows up to it. */
  lemma IsFirstPrefix(s: seq<Bar>, n: nat, i: nat)
    requires i < n <= |s|
    ensures IsFirst(s, i) <==> IsFirst(s[..n], i)
  {
    assert forall j :: 0 <= j <= i ==> s[..n][j] == s[j];
  }

  /** Deduplication keeps every date. */
  lemma {:induction false} KeepFirstDates(s: seq<Bar>)
    ensures Dates(KeepFirst(s)) == Dates(s)
  {
    if s != [] {
      var init := s[..|s| - 1];
      var last := s[|s| - 1];
      KeepFirstDates(init);
      DatesAppend(KeepFirst(init), [last]);
      DatesAppend(init, [last]);
      assert init + [last] == s;
    }
  }

  /** The last row is the first of its date exactly when no earlier row has it. */
  lemma LastIsFirst(s: seq<Bar>)
    requires |s| > 0
    ensures IsFirst(s, |s| - 1) <==> s[|s| - 1].date !in Dates(s[..|s| - 1])
  {
    var init := s[..|s| - 1];
    if s[|s| - 1].date in Dates(init) {
      DatesFromRows(init, s[|s| - 1].date);
    }
  }

  /** The characterisation of the deduplication: the kept rows are exactly the first
      row of each date, in their original order. */
  lemma {:induction false} KeepFirstPositions(s: seq<Bar>)
    ensures |KeepFirst(s)| == |FirstPositions(s)|
    ensures forall k :: 0 <= k < |KeepFirst(s)| ==> KeepFirst(s)[k] == s[FirstPositions(s)[k]]
  {
    if s != [] {
      var n := |s| - 1;
      var init := s[..n];
      KeepFirstPositions(init);
      LastIsFirst(s);
      var kept, ps := KeepFirst(init), FirstPositions(init);
      forall k | 0 <= k < |kept| ensures kept[k] == s[ps[k]] {
        assert init[ps[k]] == s[ps[k]];
      }
      if IsFirst(s, n) {
        assert KeepFirst(s) == kept + [s[n]];
        assert FirstPositions(s) == ps + [n];
      } else {
        assert KeepFirst(s) == kept;
        assert FirstPositions(s) == ps;
      }
    }
  }

  /** Appending rows never disturbs the rows already kept: the deduplication of a
      prefix is a prefix of the deduplication. */
  lemma {:induction false} KeepFirstPrefix(a: seq<Bar>, b: seq<Bar>)
    ensures KeepFirst(a) <= KeepFirst(a + b)
    decreases |b|
  {
    if b != [] {
      var init := b[..|b| - 1];
      KeepFirstPrefix(a, init);
      assert (a + b)[..|a + b| - 1] == a + init;
    } else {
      assert a + b == a;
    }
  }

  /** No two rows of the deduplicated series share a date. */
  lemma {:induction false} KeepFirstDistinct(s: seq<Bar>)
    ensures forall k, l :: 0 <= k < l < |KeepFirst(s)| ==> KeepFirst(s)[k].date != KeepFirst(s)[l].date
  {
    if s != [] {
      var init := s[..|s| - 1];
      var last := s[|s| - 1];
      KeepFirstDistinct(init);
      if last.date !in Dates(init) {
        var kept := KeepFirst(init);
        KeepFirstDates(init);
        assert forall k :: 0 <= k < |kept| ==> kept[k].date != last.date;
        assert KeepFirst(s) == kept + [last];
      }
    }
  }

  /** `update_data`'s frame work, step by step; `today` and the fetched rows are
      parameters (the clock and the download are not part of the model). */
  method UpdateData(stored: seq<Bar>, fetched: seq<Bar>, today: int) returns (merged: seq<Bar>)
    ensures merged == KeepFirst(DropToday(stored, today) + fetched)
  {
    var frame := stored;
    if MaxDate(stored) == Some(today) {
      frame := FilterDate(stored, today);
    }
    merged := DropDuplicates(frame + fetched);
  }

  /** `df[df['Date'] != d]`, row by row. */
  method FilterDate(s: seq<Bar>, d: int) returns (frame: seq<Bar>)
    ensures frame == WithoutDate(s, d)
  {
    frame := [];
    for i := 0 to |s|
      invariant frame == WithoutDate(s[..i], d)
    {
      assert s[..i + 1][..i] == s[..i];
      if s[i].date != d {
        frame := frame + [s[i]];
      }
    }
    assert s[..|s|] == s;
  }

  /** `drop_duplicates(subset=['Date'])`, row by row, with the set of dates seen. */
  method DropDuplicates(s: seq<Bar>) returns (kept: seq<Bar>)
    ensures kept == KeepFirst(s)
  {
    kept := [];
    var seen: set<int> := {};
    for j := 0 to |s|
      invariant kept == KeepFirst(s[..j])
      invariant seen == Dates(s[..j])
    {
      assert s[..j + 1][..j] == s[..j];
      if s[j].date !in seen {
        kept := kept + [s[j]];
        seen := seen + {s[j].date};
      }
    }
    assert s[..|s|] == s;
  }

  /** What the merge promises: no two rows share a date, every date of the trimmed
      stored frame or of the fetched rows is present and no other, for a date in
      both the stored row is kept (the first occurrence wins), and the merged frame
      begins with the trimmed stored frame's rows in their stored order (with
      `KeepFirstPositions` and `DropTodayOrder`, these are stored rows at increasing
      positions). */
  lemma UpdateDataSpec(stored: seq<Bar>, fetched: seq<Bar>, today: int)
    ensures var merged := KeepFirst(DropToday(stored, today) + fetched);
      && (forall k, l :: 0 <= k < l < |merged| ==> merged[k].date != merged[l].date)
      && Dates(merged) == Dates(DropToday(stored, today)) + Dates(fetched)
      && (forall x :: x in merged && x.date in Dates(DropToday(stored, today)) ==> x in DropToday(stored, today))
      && KeepFirst(DropToday(stored, today)) <= merged
  {
    var frame := DropToday(stored, today);
    var combined := frame + fetched;
    var merged := KeepFirst(combined);
    KeepFirstPrefix(frame, fetched);
    KeepFirstDistinct(combined);
    KeepFirstDates(combined);
    DatesAppend(frame, fetched);
    KeepFirstPrefersFront(frame, fetched);
  }

  /** For a date present in the front part, the deduplication keeps a row of the
      front part. */
  lemma KeepFirstPrefersFront(a: seq<Bar>, b: seq<Bar>)
    ensures forall x :: x in KeepFirst(a + b) && x.date in Dates(a) ==> x in a
  {
    var combined := a + b;
    var merged := KeepFirst(combined);
    KeepFirstPositions(combined);
    forall x | x in merged && x.date in Dates(a) ensures x in a {
      var k :| 0 <= k < |merged| && merged[k] == x;
      var p := FirstPositions(combined)[k];
      assert combined[p] == x && IsFirst(combined, p);
      DatesFromRows(a, x.date);
      var i :| 0 <= i < |a| && a[i].date == x.date;
      assert combined[i] == a[i];
      assert p <= i;
      assert combined[p] == a[p];
    }
  }

  /** Dates strictly increasing from row to row. */
  predicate Increasing(s: seq<Bar>)
  {
    forall i, j :: 0 <= i < j < |s| ==> s[i].date < s[j].date
  }

  /** A stored row dated after a fetched row that is not stored yet (a gap in the
      stored history) is left in front of it: the merge as written need not be in
      date order. */
  lemma UpdateDataUnsortedExample()
    ensures var old10 := Bar(10, 1.0, 1.0, 1.0, 1.0, 1.0, 100);
      var new8 := Bar(8, 2.0, 2.0, 2.0, 2.0, 2.0, 200);
      var merged := KeepFirst(DropToday([old10], 12) + [new8]);
      merged == [old10, new8] && !Increasing(merged)
  {
    var old10 := Bar(10, 1.0, 1.0, 1.0, 1.0, 1.0, 100);
    var new8 := Bar(8, 2.0, 2.0, 2.0, 2.0, 2.0, 200);
    var combined := DropToday([old10], 12) + [new8];
    assert combined == [old10, new8];
    assert combined[..1] == [old10];
    assert combined[..1][..0] == [];
    assert KeepFirst([old10]) == [old10];
  }

  /** Places a row in front of the first row with a later or equal date. */
  function InsertByDate(x: Bar, s: seq<Bar>): (r: seq<Bar>)
    ensures |r| == |s| + 1
    ensures multiset(r) == multiset(s) + multiset{x}
  {
    if s == [] || x.date <= s[0].date then [x] + s
    else
      assert s == [s[0]] + s[1..];
      [s[0]] + InsertByDate(x, s[1..])
  }

  /** A row dated before the head of an increasing series extends it. */
  lemma ConsIncreasing(a: Bar, s: seq<Bar>)
    requires Increasing(s)
    requires s == [] || a.date < s[0].date
    ensures Increasing([a] + s)
  {
    var r := [a] + s;
    forall i, j | 0 <= i < j < |r| ensures r[i].date < r[j].date {
      if i == 0 && j > 1 {
        assert r[j] == s[j - 1];
      }
    }
  }

  /** Inserting a row with a new date into an increasing series keeps it
      increasing. */
  lemma {:induction false} InsertByDateIncreasing(x: Bar, s: seq<Bar>)
    requires Increasing(s)
    requires forall y :: y in s ==> y.date != x.date
    ensures Increasing(InsertByDate(x, s))
  {
    if s == [] || x.date <= s[0].date {
      ConsIncreasing(x, s);
    } else {
      var tail := s[1..];
      assert forall y :: y in tail ==> y in s;
      InsertByDateIncreasing(x, tail);
      var rest := InsertByDate(x, tail);
      assert rest[0] == x || rest[0] == tail[0];
      ConsIncreasing(s[0], rest);
    }
  }

  /** Insertion sort by date. */
  function SortByDate(s: seq<Bar>): (r: seq<Bar>)
    ensures multiset(r) == multiset(s)
  {
    if s == [] then []
    else
      assert s == [s[0]] + s[1..];
      InsertByDate(s[0], SortByDate(s[1..]))
  }

  /** Rows with pairwise different dates come out strictly increasing. */
  lemma {:induction false} SortByDateIncreasing(s: seq<Bar>)
    requires forall k, l :: 0 <= k < l < |s| ==> s[k].date != s[l].date
    ensures Increasing(SortByDate(s))
  {
    if s != [] {
      var rest := s[1..];
      forall k, l | 0 <= k < l < |rest| ensures rest[k].date != rest[l].date {
        assert rest[k] == s[k + 1] && rest[l] == s[l + 1];
      }
      SortByDateIncreasing(rest);
      forall y | y in SortByDate(rest) ensures y.date != s[0].date {
        assert y in multiset(SortByDate(rest));
        assert y in multiset(rest);
        var k :| 0 <= k < |rest| && rest[k] == y;
        assert s[k + 1] == y;
      }
      InsertByDateIncreasing(s[0], SortByDate(rest));
    }
  }

  /** The merge with the date order the stored series is meant to keep: the rows of
      `UpdateData`, sorted by date. */
  function SortedMerge(stored: seq<Bar>, fetched: seq<Bar>, today: int): (r: seq<Bar>)
    ensures multiset(r) == multiset(KeepFirst(DropToday(stored, today) + fetched))
  {
    SortByDate(KeepFirst(DropToday(stored, today) + fetched))
  }

  /** The dates of the sorted merge are strictly increasing; with the contract of
      `SortedMerge`, it holds exactly the rows of the merge as written. */
  lemma SortedMergeSpec(stored: seq<Bar>, fetched: seq<Bar>, today: int)
    ensures Increasing(SortedMerge(stored, fetched, today))
  {
    var combined := DropToday(stored, today) + fetched;
    KeepFirstDistinct(combined);
    SortByDateIncreasing(KeepFirst(combined));
  }
}
