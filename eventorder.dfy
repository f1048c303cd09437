/** The order `get_events_by_time_range` returns events in: ascending by
    the start text, compared as Python compares strings (code point by code
    point, a prefix first), keeping the server's order among equal starts,
    as Python's stable `list.sort` does. */
module EventOrder {

  import opened EventModel

  /** `a <= b` on strings: lexicographic by code point. */
  predicate LexLe(a: string, b: string)
    decreases |a|
  {
    |a| == 0 || (|b| > 0 && (a[0] < b[0] || (a[0] == b[0] && LexLe(a[1..], b[1..]))))
  }

  lemma {:induction false} LexReflexive(a: string)
    ensures LexLe(a, a)
    decreases |a|
  {
    if |a| > 0 {
      LexReflexive(a[1..]);
    }
  }

  lemma {:induction false} LexTotal(a: string, b: string)
    ensures LexLe(a, b) || LexLe(b, a)
    decreases |a|
  {
    if |a| > 0 && |b| > 0 && a[0] == b[0] {
      LexTotal(a[1..], b[1..]);
    }
  }

  lemma {:induction false} LexTransitive(a: string, b: string, c: string)
    requires LexLe(a, b) && LexLe(b, c)
    ensures LexLe(a, c)
    decreases |a|
  {
    if |a| > 0 && a[0] == b[0] && b[0] == c[0] {
      LexTransitive(a[1..], b[1..], c[1..]);
    }
  }

  /** Two different strings are never each `<=` the other. */
  lemma {:induction false} LexAntisymmetric(a: string, b: string)
    requires LexLe(a, b) && LexLe(b, a)
    ensures a == b
    decreases |a|
  {
    if |a| > 0 {
      LexAntisymmetric(a[1..], b[1..]);
      assert a == [a[0]] + a[1..] && b == [b[0]] + b[1..];
    }
  }

  /** Ascending by start, every pair compared. */
  predicate SortedByStart(s: seq<Event>) {
    forall i, j :: 0 <= i < j < |s| ==> LexLe(s[i].start, s[j].start)
  }

  /** `x` placed after the trailing events whose start is not greater than
      its own, as a stable insertion places a later element. */
  function InsertByStart(t: seq<Event>, x: Event): seq<Event>
    decreases |t|
  {
    if |t| == 0 then [x]
    else if LexLe(t[|t| - 1].start, x.start) then t + [x]
    else InsertByStart(t[..|t| - 1], x) + [t[|t| - 1]]
  }

  /** `events.sort(key=start)`: the events inserted one after another. */
  function SortByStart(s: seq<Event>): seq<Event>
    decreases |s|
  {
    if |s| == 0 then [] else InsertByStart(SortByStart(s[..|s| - 1]), s[|s| - 1])
  }

  /** The events that start at `k`, in order. */
  function WithStart(s: seq<Event>, k: string): seq<Event>
    decreases |s|
  {
    if |s| == 0 then []
    else WithStart(s[..|s| - 1], k) + (if s[|s| - 1].start == k then [s[|s| - 1]] else [])
  }

  lemma {:induction false} WithStartConcat(a: seq<Event>, b: seq<Event>, k: string)
    ensures WithStart(a + b, k) == WithStart(a, k) + WithStart(b, k)
    decreases |b|
  {
    if |b| > 0 {
      assert (a + b)[..|a + b| - 1] == a + b[..|b| - 1];
      WithStartConcat(a, b[..|b| - 1], k);
    } else {
      assert a + b == a;
    }
  }

  lemma {:induction false} InsertPermutes(t: seq<Event>, x: Event)
    ensures multiset(InsertByStart(t, x)) == multiset(t) + multiset{x}
    decreases |t|
  {
    if |t| > 0 && !LexLe(t[|t| - 1].start, x.start) {
      InsertPermutes(t[..|t| - 1], x);
      assert t == t[..|t| - 1] + [t[|t| - 1]];
    }
  }

  lemma {:induction false} InsertSorted(t: seq<Event>, x: Event)
    requires SortedByStart(t)
    ensures SortedByStart(InsertByStart(t, x))
    decreases |t|
  {
    if |t| > 0 {
      var last := t[|t| - 1];
      if LexLe(last.start, x.start) {
        forall i | 0 <= i < |t|
          ensures LexLe(t[i].start, x.start)
        {
          if i < |t| - 1 {
            LexTransitive(t[i].start, last.start, x.start);
          }
        }
      } else {
        var init := t[..|t| - 1];
        LexTotal(last.start, x.start);
        InsertSorted(init, x);
        InsertPermutes(init, x);
        var u := InsertByStart(init, x);
        forall i | 0 <= i < |u|
          ensures LexLe(u[i].start, last.start)
        {
          assert u[i] in multiset(u);
          if u[i] != x {
            assert u[i] in multiset(init);
          }
        }
      }
    }
  }

  /** Inserting keeps every start's events in their order, the new one last. */
  lemma {:induction false} InsertStable(t: seq<Event>, x: Event, k: string)
    ensures WithStart(InsertByStart(t, x), k) == WithStart(t, k) + WithStart([x], k)
    decreases |t|
  {
    if |t| == 0 {
      assert WithStart([x], k) == WithStart([], k) + (if x.start == k then [x] else []);
    } else {
      var init, last := t[..|t| - 1], t[|t| - 1];
      assert t == init + [last];
      if LexLe(last.start, x.start) {
        WithStartConcat(t, [x], k);
      } else {
        InsertStable(init, x, k);
        WithStartConcat(InsertByStart(init, x), [last], k);
        WithStartConcat(init, [last], k);
        LexReflexive(x.start);
        assert WithStart([last], k) == [] || WithStart([x], k) == [] by {
          assert WithStart([last], k) == WithStart([], k) + (if last.start == k then [last] else []);
          assert WithStart([x], k) == WithStart([], k) + (if x.start == k then [x] else []);
        }
      }
    }
  }

  /** The sorted list is ascending by start. */
  lemma {:induction false} SortIsSorted(s: seq<Event>)
    ensures SortedByStart(SortByStart(s))
    decreases |s|
  {
    if |s| > 0 {
      SortIsSorted(s[..|s| - 1]);
      InsertSorted(SortByStart(s[..|s| - 1]), s[|s| - 1]);
    }
  }

  /** The sorted list holds exactly the events it was given. */
  lemma {:induction false} SortPermutes(s: seq<Event>)
    ensures multiset(SortByStart(s)) == multiset(s)
    decreases |s|
  {
    if |s| > 0 {
      var init, last := s[..|s| - 1], s[|s| - 1];
      SortPermutes(init);
      InsertPermutes(SortByStart(init), last);
      LastSplit(s);
    }
  }

  /** A non-empty sequence holds its front and its last element. */
  lemma LastSplit<T>(s: seq<T>)
    requires |s| > 0
    ensures multiset(s) == multiset(s[..|s| - 1]) + multiset{s[|s| - 1]}
  {
    assert s == s[..|s| - 1] + [s[|s| - 1]];
  }

  /** The sort is stable: the events sharing a start keep their order. */
  lemma {:induction false} SortIsStable(s: seq<Event>, k: string)
    ensures WithStart(SortByStart(s), k) == WithStart(s, k)
    decreases |s|
  {
    if |s| > 0 {
      var init, last := s[..|s| - 1], s[|s| - 1];
      SortIsStable(init, k);
      InsertStable(SortByStart(init), last, k);
      assert WithStart([last], k) == WithStart([], k) + (if last.start == k then [last] else []);
    }
  }

  /** The events with the smallest start come first. */
  lemma SortedFirstIsEarliest(s: seq<Event>, e: Event)
    requires e in s
    ensures SortByStart(s) != [] && LexLe(SortByStart(s)[0].start, e.start)
  {
    SortPermutes(s);
    SortIsSorted(s);
    var r := SortByStart(s);
    assert e in multiset(r);
    var j :| 0 <= j < |r| && r[j] == e;
    if j > 0 {
      assert LexLe(r[0].start, r[j].start);
    } else {
      LexReflexive(e.start);
    }
  }

  /** The sort, one insertion per event, as the list is read. */
  method SortEvents(events: seq<Event>) returns (sorted: seq<Event>)
    ensures sorted == SortByStart(events)
  {
    sorted := [];
    for i := 0 to |events|
      invariant sorted == SortByStart(events[..i])
    {
      assert events[..i + 1][..i] == events[..i];
      sorted := InsertByStart(sorted, events[i]);
    }
    assert events[..|events|] == events;
  }
}
