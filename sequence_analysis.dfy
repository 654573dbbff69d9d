/**
 * `Sequence` of src/lib.rs: the stable sort by start time, the sweep that computes the
 * normalisation divisor (as written, and as evidently intended), and the per-instrument
 * list of frequency ids.
 */
module SequenceAnalysis {
  import opened Wrappers
  import opened Errors
  import opened Sequencer

  function Max(a: nat, b: nat): nat
  {
    if a >= b then a else b
  }

  // ---------------------------------------------------------------- sorting

  ghost predicate SortedByStart(ns: seq<Note>)
  {
    forall i, j :: 0 <= i < j < |ns| ==> ns[i].startAt <= ns[j].startAt
  }

  /** The notes of `ns` that start at `t`, in their order in `ns`. */
  function StartingAt(ns: seq<Note>, t: real): seq<Note>
  {
    if ns == [] then []
    else (if ns[0].startAt == t then [ns[0]] else []) + StartingAt(ns[1..], t)
  }

  /** Puts `n` in front of the first note that does not start before it. */
  function InsertByStart(n: Note, ns: seq<Note>): (r: seq<Note>)
    ensures |r| == |ns| + 1
  {
    if ns == [] || n.startAt <= ns[0].startAt then [n] + ns
    else [ns[0]] + InsertByStart(n, ns[1..])
  }

  /** A stable sort by `startAt`; it stands for `Vec::sort_by` with `partial_cmp` on the start times. */
  function SortByStart(ns: seq<Note>): (r: seq<Note>)
    ensures |r| == |ns|
  {
    if ns == [] then [] else InsertByStart(ns[0], SortByStart(ns[1..]))
  }

  lemma StartingAtCons(n: Note, ns: seq<Note>, t: real)
    ensures StartingAt([n] + ns, t) == (if n.startAt == t then [n] else []) + StartingAt(ns, t)
  {
    assert ([n] + ns)[1..] == ns;
  }

  lemma {:induction false} InsertByStartPermutes(n: Note, ns: seq<Note>)
    ensures multiset(InsertByStart(n, ns)) == multiset([n] + ns)
  {
    if ns != [] && n.startAt > ns[0].startAt {
      var tail := ns[1..];
      InsertByStartPermutes(n, tail);
      assert InsertByStart(n, ns) == [ns[0]] + InsertByStart(n, tail);
      assert [n] + ns == [n] + [ns[0]] + tail;
      assert ns == [ns[0]] + tail;
    }
  }

  lemma {:induction false} InsertByStartSorted(n: Note, ns: seq<Note>)
    requires SortedByStart(ns)
    ensures SortedByStart(InsertByStart(n, ns))
  {
    if ns != [] && n.startAt > ns[0].startAt {
      var tail := ns[1..];
      InsertByStartSorted(n, tail);
      InsertByStartPermutes(n, tail);
      var rest := InsertByStart(n, tail);
      assert InsertByStart(n, ns) == [ns[0]] + rest;
      forall j | 0 <= j < |rest|
        ensures ns[0].startAt <= rest[j].startAt
      {
        assert rest[j] in multiset([n] + tail);
        if rest[j] != n {
          assert rest[j] in tail;
        }
      }
    }
  }

  lemma {:induction false} InsertByStartStable(n: Note, ns: seq<Note>, t: real)
    ensures StartingAt(InsertByStart(n, ns), t) == StartingAt([n] + ns, t)
  {
    if ns != [] && n.startAt > ns[0].startAt {
      var tail := ns[1..];
      assert ns == [ns[0]] + tail;
      InsertByStartStable(n, tail, t);
      var rest := InsertByStart(n, tail);
      assert InsertByStart(n, ns) == [ns[0]] + rest;
      StartingAtCons(ns[0], rest, t);
      StartingAtCons(n, tail, t);
      StartingAtCons(n, ns, t);
      StartingAtCons(ns[0], tail, t);
    }
  }

  /**
   * Sorting by start time gives an ascending order, a permutation, and keeps notes with
   * the same start time in their original order (stability).
   */
  lemma {:induction false} SortByStartCorrect(ns: seq<Note>)
    ensures SortedByStart(SortByStart(ns))
    ensures multiset(SortByStart(ns)) == multiset(ns)
    ensures forall t :: StartingAt(SortByStart(ns), t) == StartingAt(ns, t)
  {
    if ns != [] {
      var tail := ns[1..];
      assert ns == [ns[0]] + tail;
      SortByStartCorrect(tail);
      InsertByStartSorted(ns[0], SortByStart(tail));
      InsertByStartPermutes(ns[0], SortByStart(tail));
      forall t
        ensures StartingAt(SortByStart(ns), t) == StartingAt(ns, t)
      {
        InsertByStartStable(ns[0], SortByStart(tail), t);
        StartingAtCons(ns[0], SortByStart(tail), t);
        StartingAtCons(ns[0], tail, t);
      }
    }
  }

  // ------------------------------------------- the sweep of calc_max_notes_at_once, as written

  /** Positions, ascending, of the working-list notes that `current` starts strictly after. */
  function StaleIndices(current: Note, working: seq<Note>): (r: seq<nat>)
    ensures |r| <= |working|
  {
    if working == [] then []
    else
      var last := |working| - 1;
      StaleIndices(current, working[..last]) + (if current.startAt > working[last].endAt then [last] else [])
  }

  /**
   * The recorded positions are exactly those of the working notes that end strictly before
   * `current` starts (a note ending exactly at that start is kept), in ascending order.
   */
  lemma {:induction false} StaleIndicesCharacterized(current: Note, working: seq<Note>)
    ensures forall k :: 0 <= k < |StaleIndices(current, working)| ==>
      StaleIndices(current, working)[k] < |working| && current.startAt > working[StaleIndices(current, working)[k]].endAt
    ensures forall i :: 0 <= i < |working| && current.startAt > working[i].endAt ==> i in StaleIndices(current, working)
    ensures forall a, b :: 0 <= a < b < |StaleIndices(current, working)| ==>
      StaleIndices(current, working)[a] < StaleIndices(current, working)[b]
  {
    if working != [] {
      var last := |working| - 1;
      StaleIndicesCharacterized(current, working[..last]);
    }
  }

  /** `Vec::remove` of each index in turn, each applied to the list as the previous removals left it. */
  function RemoveEach(working: seq<Note>, indices: seq<nat>): (r: Result<seq<Note>, Panic>)
    ensures r.Ok? ==> |r.value| + |indices| == |working|
    ensures r.Err? ==> r.error.IndexOutOfBounds?
  {
    if indices == [] then Ok(working)
    else if indices[0] < |working| then
      RemoveEach(working[..indices[0]] + working[indices[0] + 1..], indices[1..])
    else Err(IndexOutOfBounds(indices[0], |working|))
  }

  /**
   * One pass over the time-sorted notes: drop from the working list the notes the current one
   * starts after (by the positions recorded before any removal), push the current note, keep
   * the largest working-list length.
   */
  function Sweep(ns: seq<Note>, working: seq<Note>, peak: nat): (r: Result<nat, Panic>)
    ensures r.Err? ==> r.error.IndexOutOfBounds?
    decreases |ns|
  {
    if ns == [] then Ok(peak)
    else
      match RemoveEach(working, StaleIndices(ns[0], working))
      case Err(p) => Err(p)
      case Ok(kept) => Sweep(ns[1..], kept + [ns[0]], Max(peak, |kept| + 1))
  }

  /** The result of `calc_max_notes_at_once` on the notes `ns`. */
  function MaxNotesAtOnce(ns: seq<Note>): (r: Result<nat, Panic>)
    ensures ns == [] ==> r == Ok(0)
    ensures r.Err? ==> r.error.IndexOutOfBounds?
  {
    if ns == [] then Ok(0) else Sweep(SortByStart(ns), [], 1)
  }

  lemma {:induction false} SweepBounds(ns: seq<Note>, working: seq<Note>, peak: nat)
    requires Sweep(ns, working, peak).Ok?
    ensures peak <= Sweep(ns, working, peak).value <= Max(peak, |working| + |ns|)
    decreases |ns|
  {
    if ns != [] {
      var kept := RemoveEach(working, StaleIndices(ns[0], working)).value;
      SweepBounds(ns[1..], kept + [ns[0]], Max(peak, |kept| + 1));
    }
  }

  /** No notes give 0; otherwise a sweep that does not panic gives at least 1 and at most the number of notes. */
  lemma MaxNotesAtOnceBounds(ns: seq<Note>)
    ensures ns == [] ==> MaxNotesAtOnce(ns) == Ok(0)
    ensures ns != [] && MaxNotesAtOnce(ns).Ok? ==> 1 <= MaxNotesAtOnce(ns).value <= |ns|
  {
    if ns != [] && MaxNotesAtOnce(ns).Ok? {
            SweepBounds(SortByStart(ns), [], 1);
    }
  }

  // --------------------------------------------------- the sweep as evidently intended

  /** The notes of `working` that `t` has not passed (`t <= endAt`), in order. */
  function Live(working: seq<Note>, t: real): seq<Note>
  {
    if working == [] then []
    else (if working[0].endAt >= t then [working[0]] else []) + Live(working[1..], t)
  }

  lemma {:induction false} LiveLength(working: seq<Note>, t: real)
    ensures |Live(working, t)| <= |working|
  {
    if working != [] {
      LiveLength(working[1..], t);
    }
  }

  lemma {:induction false} LiveConcat(a: seq<Note>, b: seq<Note>, t: real)
    ensures Live(a + b, t) == Live(a, t) + Live(b, t)
  {
    if a != [] {
      assert (a + b)[0] == a[0];
      assert (a + b)[1..] == a[1..] + b;
      LiveConcat(a[1..], b, t);
      var head := if a[0].endAt >= t then [a[0]] else [];
      assert Live(a + b, t) == head + Live(a[1..] + b, t);
      assert head + (Live(a[1..], t) + Live(b, t)) == (head + Live(a[1..], t)) + Live(b, t);
    } else {
      assert a + b == b;
    }
  }

  lemma {:induction false} LiveLive(a: seq<Note>, t1: real, t2: real)
    requires t1 <= t2
    ensures Live(Live(a, t1), t2) == Live(a, t2)
  {
    if a != [] {
      LiveLive(a[1..], t1, t2);
      var head := if a[0].endAt >= t1 then [a[0]] else [];
      LiveConcat(head, Live(a[1..], t1), t2);
    }
  }

  /** The sweep with every stale note dropped (a `retain`) instead of the shifted removals. */
  function SweepIntended(ns: seq<Note>, working: seq<Note>, peak: nat): (r: nat)
    ensures peak <= r <= Max(peak, |working| + |ns|)
    decreases |ns|
  {
    if ns == [] then peak
    else
      var w := Live(working, ns[0].startAt) + [ns[0]];
      LiveLength(working, ns[0].startAt);
      SweepIntended(ns[1..], w, Max(peak, |w|))
  }

  /** The normalisation divisor as evidently intended: 0 exactly for no notes, else between 1 and the count. */
  function MaxNotesAtOnceIntended(ns: seq<Note>): (r: nat)
    ensures r == 0 <==> ns == []
    ensures ns != [] ==> 1 <= r <= |ns|
  {
        if ns == [] then 0 else SweepIntended(SortByStart(ns), [], 1)
  }

  /** How many notes of `s` sound when note `i` starts: note `i` and every earlier note not yet ended. */
  function ConcurrentAt(s: seq<Note>, i: nat): nat
    requires i < |s|
  {
    |Live(s[..i], s[i].startAt)| + 1
  }

  /** The largest `ConcurrentAt` over all notes of `s` (0 for none). */
  function PeakConcurrency(s: seq<Note>): nat
  {
    if s == [] then 0 else Max(PeakConcurrency(s[..|s| - 1]), ConcurrentAt(s, |s| - 1))
  }

  lemma {:induction false} SweepIntendedFrom(s: seq<Note>, i: nat)
    requires SortedByStart(s)
    requires 1 <= i <= |s|
    ensures SweepIntended(s[i..], Live(s[..i - 1], s[i - 1].startAt) + [s[i - 1]], PeakConcurrency(s[..i]))
         == PeakConcurrency(s)
    decreases |s| - i
  {
    if i == |s| {
      assert s[..i] == s;
    } else {
      var w := Live(s[..i - 1], s[i - 1].startAt) + [s[i - 1]];
      var t := s[i].startAt;
      calc {
        Live(w, t);
        { LiveConcat(Live(s[..i - 1], s[i - 1].startAt), [s[i - 1]], t); }
        Live(Live(s[..i - 1], s[i - 1].startAt), t) + Live([s[i - 1]], t);
        { LiveLive(s[..i - 1], s[i - 1].startAt, t); }
        Live(s[..i - 1], t) + Live([s[i - 1]], t);
        { LiveConcat(s[..i - 1], [s[i - 1]], t); assert s[..i - 1] + [s[i - 1]] == s[..i]; }
        Live(s[..i], t);
      }
      var prefix := s[..i + 1];
      assert prefix[..|prefix| - 1] == s[..i];
      assert ConcurrentAt(prefix, i) == ConcurrentAt(s, i);
      assert PeakConcurrency(prefix) == Max(PeakConcurrency(s[..i]), ConcurrentAt(s, i));
      assert s[i..][1..] == s[i + 1..];
      SweepIntendedFrom(s, i + 1);
    }
  }

  /** The intended sweep computes the peak concurrency of the time-sorted notes. */
  lemma MaxNotesAtOnceIntendedIsPeak(ns: seq<Note>)
    ensures MaxNotesAtOnceIntended(ns) == PeakConcurrency(SortByStart(ns))
  {
    if ns != [] {
      var s := SortByStart(ns);
      SortByStartCorrect(ns);
            assert s[..1][..0] == [];
      assert PeakConcurrency(s[..1]) == 1;
      assert s[..0] == [];
      SweepIntendedFrom(s, 1);
    }
  }

  lemma {:induction false} LiveAll(a: seq<Note>, t: real)
    requires forall k :: 0 <= k < |a| ==> a[k].endAt >= t
    ensures Live(a, t) == a
  {
    if a != [] {
      LiveAll(a[1..], t);
    }
  }

  lemma {:induction false} LiveNone(a: seq<Note>, t: real)
    requires forall k :: 0 <= k < |a| ==> a[k].endAt < t
    ensures Live(a, t) == []
  {
    if a != [] {
      LiveNone(a[1..], t);
    }
  }

  /** N notes with one common start and end (end not before start) give the divisor N. */
  lemma MaxNotesAtOnceIntendedSimultaneous(ns: seq<Note>)
    requires ns != []
    requires ns[0].startAt <= ns[0].endAt
    requires forall k :: 0 <= k < |ns| ==> ns[k].startAt == ns[0].startAt && ns[k].endAt == ns[0].endAt
    ensures MaxNotesAtOnceIntended(ns) == |ns|
  {
    var s := SortByStart(ns);
    SortByStartCorrect(ns);
        forall k | 0 <= k < |s|
      ensures s[k].startAt == ns[0].startAt && s[k].endAt == ns[0].endAt
    {
      assert s[k] in multiset(ns);
    }
    var last := |s| - 1;
    LiveAll(s[..last], s[last].startAt);
    assert ConcurrentAt(s, last) == |s|;
    MaxNotesAtOnceIntendedIsPeak(ns);
  }

  lemma {:induction false} PeakConcurrencyOfDisjoint(s: seq<Note>)
    requires forall i, j :: 0 <= i < j < |s| ==> s[i].endAt < s[j].startAt
    ensures s != [] ==> PeakConcurrency(s) == 1
  {
    if s != [] {
      var last := |s| - 1;
      assert s[..last][..] == s[..last];
      PeakConcurrencyOfDisjoint(s[..last]);
      LiveNone(s[..last], s[last].startAt);
    }
  }

  /** Time-ordered notes each ending before the next one starts give the divisor 1. */
  lemma MaxNotesAtOnceIntendedDisjoint(ns: seq<Note>)
    requires ns != []
    requires SortedByStart(ns)
    requires forall i, j :: 0 <= i < j < |ns| ==> ns[i].endAt < ns[j].startAt
    ensures MaxNotesAtOnceIntended(ns) == 1
  {
    SortedIsFixed(ns);
    MaxNotesAtOnceIntendedIsPeak(ns);
    PeakConcurrencyOfDisjoint(ns);
  }

  /** Sorting notes that are already in time order leaves them as they are. */
  lemma {:induction false} SortedIsFixed(ns: seq<Note>)
    requires SortedByStart(ns)
    ensures SortByStart(ns) == ns
  {
    if ns != [] {
      SortedIsFixed(ns[1..]);
    }
  }

  /** Every note ends no earlier than it starts. */
  ghost predicate StartsBeforeEnd(ns: seq<Note>)
  {
    forall k :: 0 <= k < |ns| ==> ns[k].startAt <= ns[k].endAt
  }

  /** No two notes of `ns` (by position) share any instant, in whatever order they are listed. */
  ghost predicate NonOverlapping(ns: seq<Note>)
  {
    forall i, j :: 0 <= i < |ns| && 0 <= j < |ns| && i != j ==>
      ns[i].endAt < ns[j].startAt || ns[j].endAt < ns[i].startAt
  }

  lemma {:induction false} NoDuplicatesCount<T>(b: seq<T>, x: T)
    requires NoDuplicates(b)
    ensures multiset(b)[x] <= 1
  {
    if b != [] {
      var tail := b[1..];
      assert b == [b[0]] + tail;
      assert NoDuplicates(tail) by {
        forall i, j | 0 <= i < j < |tail| ensures tail[i] != tail[j] {
          assert tail[i] == b[i + 1] && tail[j] == b[j + 1];
        }
      }
      NoDuplicatesCount(tail, x);
      if x == b[0] {
        assert x !in tail by {
          forall k | 0 <= k < |tail| ensures tail[k] != x {
            assert tail[k] == b[k + 1];
          }
        }
      }
    }
  }

  /** A permutation of a list without duplicates has none either. */
  lemma NoDuplicatesPermuted<T>(a: seq<T>, b: seq<T>)
    requires multiset(a) == multiset(b) && NoDuplicates(b)
    ensures NoDuplicates(a)
  {
    forall i, j | 0 <= i < j < |a|
      ensures a[i] != a[j]
    {
      assert a == a[..j] + a[j..];
      assert a[i] in a[..j];
      assert a[j..][0] == a[j];
      assert multiset(a)[a[j]] == multiset(a[..j])[a[j]] + multiset(a[j..])[a[j]];
      NoDuplicatesCount(b, a[j]);
    }
  }

  /** Sorting non-overlapping notes puts each one before the start of every later one. */
  lemma SortByStartOfNonOverlapping(ns: seq<Note>)
    requires StartsBeforeEnd(ns) && NonOverlapping(ns)
    ensures forall i, j :: 0 <= i < j < |SortByStart(ns)| ==> SortByStart(ns)[i].endAt < SortByStart(ns)[j].startAt
  {
    var s := SortByStart(ns);
    SortByStartCorrect(ns);
    assert NoDuplicates(ns);
    NoDuplicatesPermuted(s, ns);
    forall i, j | 0 <= i < j < |s|
      ensures s[i].endAt < s[j].startAt
    {
      assert s[i] in multiset(ns) && s[j] in multiset(ns);
      var a :| 0 <= a < |ns| && ns[a] == s[i];
      var b :| 0 <= b < |ns| && ns[b] == s[j];
    }
  }

  /** Non-overlapping notes, listed in any order, give the divisor 1. */
  lemma MaxNotesAtOnceIntendedNonOverlapping(ns: seq<Note>)
    requires ns != []
    requires StartsBeforeEnd(ns) && NonOverlapping(ns)
    ensures MaxNotesAtOnceIntended(ns) == 1
  {
    SortByStartOfNonOverlapping(ns);
    MaxNotesAtOnceIntendedIsPeak(ns);
    PeakConcurrencyOfDisjoint(SortByStart(ns));
  }

  /** No working note has ended before `current` starts, so no position is recorded. */
  lemma {:induction false} StaleIndicesNone(current: Note, working: seq<Note>)
    requires forall k :: 0 <= k < |working| ==> current.startAt <= working[k].endAt
    ensures StaleIndices(current, working) == []
  {
    if working != [] {
      StaleIndicesNone(current, working[..|working| - 1]);
    }
  }

  lemma {:induction false} SweepSimultaneous(ns: seq<Note>, working: seq<Note>, peak: nat, t: real, e: real)
    requires t <= e
    requires forall k :: 0 <= k < |ns| ==> ns[k].startAt == t && ns[k].endAt == e
    requires forall k :: 0 <= k < |working| ==> working[k].endAt == e
    requires |working| <= peak
    ensures Sweep(ns, working, peak) == Ok(Max(peak, |working| + |ns|))
    decreases |ns|
  {
    if ns != [] {
      StaleIndicesNone(ns[0], working);
      SweepStep(ns, working, peak, working);
      SweepSimultaneous(ns[1..], working + [ns[0]], Max(peak, |working| + 1), t, e);
    }
  }

  /** As written too, N notes with one common start and end (end not before start) give N. */
  lemma MaxNotesAtOnceSimultaneous(ns: seq<Note>)
    requires ns != []
    requires ns[0].startAt <= ns[0].endAt
    requires forall k :: 0 <= k < |ns| ==> ns[k].startAt == ns[0].startAt && ns[k].endAt == ns[0].endAt
    ensures MaxNotesAtOnce(ns) == Ok(|ns|)
  {
    var s := SortByStart(ns);
    SortByStartCorrect(ns);
    forall k | 0 <= k < |s|
      ensures s[k].startAt == ns[0].startAt && s[k].endAt == ns[0].endAt
    {
      assert s[k] in multiset(ns);
    }
    SweepSimultaneous(s, [], 1, ns[0].startAt, ns[0].endAt);
  }

  /** After a note that ends before all of `s` starts, the as-written sweep keeps one note at a time. */
  lemma {:induction false} SweepDisjoint(s: seq<Note>, prev: Note)
    requires forall i, j :: 0 <= i < j < |s| ==> s[i].endAt < s[j].startAt
    requires forall k :: 0 <= k < |s| ==> prev.endAt < s[k].startAt
    ensures Sweep(s, [prev], 1) == Ok(1)
    decreases |s|
  {
    if s != [] {
      assert [prev][..0] == [];
      assert StaleIndices(s[0], [prev]) == [0];
      assert [prev][..0] + [prev][1..] == [] && [0][1..] == [];
      assert RemoveEach([prev], [0]) == Ok([]);
      SweepStep(s, [prev], 1, []);
      assert [] + [s[0]] == [s[0]];
      SweepDisjoint(s[1..], s[0]);
    }
  }

  /** As written too, non-overlapping notes in any order give 1: each step removes the one earlier note. */
  lemma MaxNotesAtOnceNonOverlapping(ns: seq<Note>)
    requires ns != []
    requires StartsBeforeEnd(ns) && NonOverlapping(ns)
    ensures MaxNotesAtOnce(ns) == Ok(1)
  {
    var s := SortByStart(ns);
    SortByStartOfNonOverlapping(ns);
    assert forall i, j :: 0 <= i < j < |s| ==> s[i].endAt < s[j].startAt;
    assert StaleIndices(s[0], []) == [];
    SweepStep(s, [], 1, []);
    assert [] + [s[0]] == [s[0]];
    var rest := s[1..];
    forall i, j | 0 <= i < j < |rest|
      ensures rest[i].endAt < rest[j].startAt
    {
      assert rest[i] == s[i + 1] && rest[j] == s[j + 1];
    }
    forall k | 0 <= k < |rest|
      ensures s[0].endAt < rest[k].startAt
    {
      assert rest[k] == s[k + 1] && 0 < k + 1 < |s|;
    }
    SweepDisjoint(rest, s[0]);
  }

  // ------------------------------------------------ what the shifted removals do

  /**
   * Two notes that overlap, then a note that starts after both have ended (for instance
   * [0, 1], [0, 1] and [2, 3]): the third note records positions 0 and 1 as stale; once
   * position 0 is removed only one note is left, so removing position 1 panics.
   */
  lemma StaleRemovalPanics(a: Note, b: Note, c: Note)
    requires a.startAt <= b.startAt <= c.startAt
    requires b.startAt <= a.endAt
    requires c.startAt > a.endAt && c.startAt > b.endAt
    ensures MaxNotesAtOnce([a, b, c]) == Err(IndexOutOfBounds(1, 1))
  {
    var ns := [a, b, c];
    SortedThree(a, b, c);
    MaxNotesAtOnceSorted(ns);
    assert ns[0..] == ns;
    UndercountA(ns, 0);
    UndercountB(a, ns, 1);
    PanicStep(a, b, ns, 2);
  }

  /** At `c`, positions 0 and 1 are stale; once position 0 is removed, position 1 is past the end. */
  lemma PanicStep(a: Note, b: Note, ns: seq<Note>, k: nat)
    requires k < |ns| && ns[k].startAt > a.endAt && ns[k].startAt > b.endAt
    ensures Sweep(ns[k..], [a, b], 2) == Err(IndexOutOfBounds(1, 1))
  {
    var c := ns[k];
    assert ns[k..][0] == c;
    assert [a, b][..1] == [a] && [a][..0] == [];
    assert StaleIndices(c, [a]) == [0];
    assert StaleIndices(c, [a, b]) == [0, 1];
    assert [a, b][..0] + [a, b][1..] == [b];
    assert RemoveEach([a, b], [0, 1]) == RemoveEach([b], [1]);
  }

  lemma SortedThree(a: Note, b: Note, c: Note)
    requires a.startAt <= b.startAt <= c.startAt
    ensures SortedByStart([a, b, c])
  {
  }

  /** On notes already in time order, `calc_max_notes_at_once` sweeps them as they are. */
  lemma MaxNotesAtOnceSorted(ns: seq<Note>)
    requires ns != [] && SortedByStart(ns)
    ensures MaxNotesAtOnce(ns) == Sweep(ns, [], 1)
  {
    SortedIsFixed(ns);
  }

  /** Likewise for the intended sweep. */
  lemma MaxNotesAtOnceIntendedSorted(ns: seq<Note>)
    requires ns != [] && SortedByStart(ns)
    ensures MaxNotesAtOnceIntended(ns) == SweepIntended(ns, [], 1)
  {
    SortedIsFixed(ns);
  }

  /** Six notes whose start times do not decrease are in time order. */
  lemma SortedSix(a: Note, b: Note, c: Note, d: Note, e: Note, f: Note)
    requires a.startAt <= b.startAt <= c.startAt <= d.startAt <= e.startAt <= f.startAt
    ensures SortedByStart([a, b, c, d, e, f])
  {
  }

  /** On the same notes the intended sweep does not panic and counts the two overlapping notes. */
  lemma StaleRemovalIntended(a: Note, b: Note, c: Note)
    requires a.startAt <= b.startAt <= c.startAt
    requires b.startAt <= a.endAt
    requires c.startAt > a.endAt && c.startAt > b.endAt
    ensures MaxNotesAtOnceIntended([a, b, c]) == 2
  {
    var ns := [a, b, c];
    SortedThree(a, b, c);
    MaxNotesAtOnceIntendedSorted(ns);
    assert ns[1..] == [b, c] && ns[1..][1..] == [c] && [c][1..] == [];
    assert Live([], a.startAt) + [a] == [a];
    assert SweepIntended(ns, [], 1) == SweepIntended([b, c], [a], 1);
    assert [a][1..] == [];
    assert Live([a], b.startAt) == [a];
    assert SweepIntended([b, c], [a], 1) == SweepIntended([c], [a, b], 2);
    assert [a, b][1..] == [b];
    assert Live([b], c.startAt) == [];
    assert Live([a, b], c.startAt) == [];
  }

  /** The shape of six time-sorted notes on which the shifted removal drops a note that still sounds. */
  ghost predicate DropsLiveNote(a: Note, b: Note, c: Note, d: Note, e: Note, f: Note)
  {
    && a.startAt <= b.startAt <= c.startAt <= d.startAt <= e.startAt <= f.startAt
    && b.startAt <= a.endAt && c.startAt <= a.endAt && c.startAt <= b.endAt
    && d.startAt > a.endAt && d.startAt > b.endAt
    && f.startAt <= c.endAt && f.startAt <= d.endAt && f.startAt <= e.endAt
  }

  /**
   * For instance [0, 1], [0, 1], [0, 10], [2, 10], [2, 10], [2, 10]: at the fourth note positions
   * 0 and 1 are stale, but after removing position 0 the second removal hits the third note, which
   * still sounds, and leaves the stale second one. Four notes sound from time 2 on, yet the sweep
   * reports 3.
   */
  lemma StaleRemovalUndercounts(a: Note, b: Note, c: Note, d: Note, e: Note, f: Note)
    requires DropsLiveNote(a, b, c, d, e, f)
    ensures MaxNotesAtOnce([a, b, c, d, e, f]) == Ok(3)
  {
    var ns := [a, b, c, d, e, f];
    SortedSix(a, b, c, d, e, f);
    MaxNotesAtOnceSorted(ns);
    assert ns[0..] == ns;
    UndercountFirstThree(ns);
    UndercountLastThree(ns);
  }

  lemma UndercountFirstThree(ns: seq<Note>)
    requires |ns| >= 3
    requires ns[1].startAt <= ns[0].endAt && ns[2].startAt <= ns[0].endAt && ns[2].startAt <= ns[1].endAt
    ensures Sweep(ns[0..], [], 1) == Sweep(ns[3..], ns[..3], 3)
  {
    UndercountA(ns, 0);
    UndercountB(ns[0], ns, 1);
    UndercountC(ns[0], ns[1], ns, 2);
    assert ns[..3] == [ns[0], ns[1], ns[2]];
  }

  lemma UndercountLastThree(ns: seq<Note>)
    requires |ns| == 6 && DropsLiveNote(ns[0], ns[1], ns[2], ns[3], ns[4], ns[5])
    ensures Sweep(ns[3..], ns[..3], 3) == Ok(3)
  {
    assert ns[..3] == [ns[0], ns[1], ns[2]];
    UndercountD(ns[0], ns[1], ns[2], ns, 3);
    UndercountE(ns[1], ns[3], ns, 4);
    UndercountF(ns[3], ns[4], ns, 5);
  }

  /** The first note: nothing to remove. */
  lemma UndercountA(ns: seq<Note>, k: nat)
    requires k < |ns|
    ensures Sweep(ns[k..], [], 1) == Sweep(ns[k + 1..], [ns[k]], 1)
  {
    assert StaleIndices(ns[k], []) == [];
    SweepStepAt(ns, k, [], 1, []);
    assert [] + [ns[k]] == [ns[k]];
  }

  lemma UndercountB(a: Note, ns: seq<Note>, k: nat)
    requires k < |ns| && ns[k].startAt <= a.endAt
    ensures Sweep(ns[k..], [a], 1) == Sweep(ns[k + 1..], [a, ns[k]], 2)
  {
    assert [a][..0] == [];
    assert StaleIndices(ns[k], [a]) == [];
    SweepStepAt(ns, k, [a], 1, [a]);
    assert [a] + [ns[k]] == [a, ns[k]];
  }

  lemma UndercountC(a: Note, b: Note, ns: seq<Note>, k: nat)
    requires k < |ns| && ns[k].startAt <= a.endAt && ns[k].startAt <= b.endAt
    ensures Sweep(ns[k..], [a, b], 2) == Sweep(ns[k + 1..], [a, b, ns[k]], 3)
  {
    assert [a, b][..1] == [a] && [a][..0] == [];
    assert StaleIndices(ns[k], [a]) == [];
    assert StaleIndices(ns[k], [a, b]) == [];
    SweepStepAt(ns, k, [a, b], 2, [a, b]);
    assert [a, b] + [ns[k]] == [a, b, ns[k]];
  }

  /** Positions 0 and 1 are stale; after the first removal, position 1 holds `c`. */
  lemma UndercountD(a: Note, b: Note, c: Note, ns: seq<Note>, k: nat)
    requires k < |ns| && ns[k].startAt > a.endAt && ns[k].startAt > b.endAt && ns[k].startAt <= c.endAt
    ensures Sweep(ns[k..], [a, b, c], 3) == Sweep(ns[k + 1..], [b, ns[k]], 3)
  {
    var d := ns[k];
    assert [a, b, c][..2] == [a, b] && [a, b][..1] == [a] && [a][..0] == [];
    assert StaleIndices(d, [a]) == [0];
    assert StaleIndices(d, [a, b]) == [0, 1];
    assert StaleIndices(d, [a, b, c]) == [0, 1];
    assert [a, b, c][..0] + [a, b, c][1..] == [b, c];
    assert [b, c][..1] + [b, c][2..] == [b];
    assert RemoveEach([b], []) == Ok([b]);
    assert RemoveEach([b, c], [1]) == Ok([b]);
    assert RemoveEach([a, b, c], [0, 1]) == Ok([b]);
    SweepStepAt(ns, k, [a, b, c], 3, [b]);
    assert [b] + [d] == [b, d];
  }

  lemma UndercountE(b: Note, d: Note, ns: seq<Note>, k: nat)
    requires k < |ns| && ns[k].startAt > b.endAt && ns[k].startAt <= d.endAt
    ensures Sweep(ns[k..], [b, d], 3) == Sweep(ns[k + 1..], [d, ns[k]], 3)
  {
    var e := ns[k];
    assert [b, d][..1] == [b] && [b][..0] == [];
    assert StaleIndices(e, [b]) == [0];
    assert StaleIndices(e, [b, d]) == [0];
    assert [b, d][..0] + [b, d][1..] == [d];
    assert RemoveEach([d], []) == Ok([d]);
    assert RemoveEach([b, d], [0]) == Ok([d]);
    SweepStepAt(ns, k, [b, d], 3, [d]);
    assert [d] + [e] == [d, e];
  }

  lemma UndercountF(d: Note, e: Note, ns: seq<Note>, k: nat)
    requires k == |ns| - 1 && ns[k].startAt <= d.endAt && ns[k].startAt <= e.endAt
    ensures Sweep(ns[k..], [d, e], 3) == Ok(3)
  {
    assert [d, e][..1] == [d] && [d][..0] == [];
    assert StaleIndices(ns[k], [d]) == [];
    assert StaleIndices(ns[k], [d, e]) == [];
    SweepStepAt(ns, k, [d, e], 3, [d, e]);
    assert ns[k + 1..] == [];
  }

  /** One step of the sweep over the suffix of `ns` from position `k`. */
  lemma SweepStepAt(ns: seq<Note>, k: nat, working: seq<Note>, peak: nat, kept: seq<Note>)
    requires k < |ns|
    requires RemoveEach(working, StaleIndices(ns[k], working)) == Ok(kept)
    ensures Sweep(ns[k..], working, peak) == Sweep(ns[k + 1..], kept + [ns[k]], Max(peak, |kept| + 1))
  {
    assert ns[k..][0] == ns[k] && ns[k..][1..] == ns[k + 1..];
    SweepStep(ns[k..], working, peak, kept);
  }

  lemma SweepUnfold(ns: seq<Note>, working: seq<Note>, peak: nat)
    requires ns != []
    ensures Sweep(ns, working, peak) ==
      match RemoveEach(working, StaleIndices(ns[0], working))
      case Err(p) => Err(p)
      case Ok(kept) => Sweep(ns[1..], kept + [ns[0]], Max(peak, |kept| + 1))
  {
  }

  lemma SweepStep(ns: seq<Note>, working: seq<Note>, peak: nat, kept: seq<Note>)
    requires ns != []
    requires RemoveEach(working, StaleIndices(ns[0], working)) == Ok(kept)
    ensures Sweep(ns, working, peak) == Sweep(ns[1..], kept + [ns[0]], Max(peak, |kept| + 1))
  {
  }

  /** On the same notes the intended sweep reports the four notes that sound together. */
  lemma StaleRemovalUndercountsIntended(a: Note, b: Note, c: Note, d: Note, e: Note, f: Note)
    requires DropsLiveNote(a, b, c, d, e, f)
    ensures MaxNotesAtOnceIntended([a, b, c, d, e, f]) == 4
  {
    var ns := [a, b, c, d, e, f];
    SortedSix(a, b, c, d, e, f);
    MaxNotesAtOnceIntendedSorted(ns);
    IntendedFirstThree(a, b, c, [d, e, f]);
    assert ns == [a, b, c] + [d, e, f];
    IntendedLastThree(a, b, c, d, e, f);
  }

  lemma IntendedFirstThree(a: Note, b: Note, c: Note, rest: seq<Note>)
    requires a.startAt <= b.startAt <= c.startAt
    requires b.startAt <= a.endAt && c.startAt <= a.endAt && c.startAt <= b.endAt
    ensures SweepIntended([a, b, c] + rest, [], 1) == SweepIntended(rest, [a, b, c], 3)
  {
    var ns := [a, b, c] + rest;
    SweepIntendedStep(ns, [], 1);
    assert Live([], a.startAt) + [a] == [a];
    assert ns[1..] == [b, c] + rest;
    SweepIntendedStep([b, c] + rest, [a], 1);
    assert [a][1..] == [];
    assert Live([a], b.startAt) == [a];
    assert [a] + [b] == [a, b];
    assert ([b, c] + rest)[1..] == [c] + rest;
    SweepIntendedStep([c] + rest, [a, b], 2);
    assert [a, b][1..] == [b];
    assert Live([b], c.startAt) == [b];
    assert Live([a, b], c.startAt) == [a, b];
    assert [a, b] + [c] == [a, b, c];
    assert ([c] + rest)[1..] == rest;
  }

  lemma IntendedLastThree(a: Note, b: Note, c: Note, d: Note, e: Note, f: Note)
    requires DropsLiveNote(a, b, c, d, e, f)
    ensures SweepIntended([d, e, f], [a, b, c], 3) == 4
  {
    IntendedFourth(a, b, c, d, [e, f]);
    assert [d, e, f] == [d] + [e, f];
    IntendedFifth(c, d, e, [f]);
    assert [e, f] == [e] + [f];
    IntendedSixth(c, d, e, f);
  }

  lemma IntendedFourth(a: Note, b: Note, c: Note, d: Note, rest: seq<Note>)
    requires d.startAt > a.endAt && d.startAt > b.endAt && d.startAt <= c.endAt
    ensures SweepIntended([d] + rest, [a, b, c], 3) == SweepIntended(rest, [c, d], 3)
  {
    SweepIntendedStep([d] + rest, [a, b, c], 3);
    assert [a, b, c][1..] == [b, c] && [b, c][1..] == [c] && [c][1..] == [];
    assert Live([c], d.startAt) == [c];
    assert Live([b, c], d.startAt) == [c];
    assert Live([a, b, c], d.startAt) == [c];
    assert [c] + [d] == [c, d];
    assert ([d] + rest)[1..] == rest;
  }

  lemma IntendedFifth(c: Note, d: Note, e: Note, rest: seq<Note>)
    requires e.startAt <= c.endAt && e.startAt <= d.endAt
    ensures SweepIntended([e] + rest, [c, d], 3) == SweepIntended(rest, [c, d, e], 3)
  {
    SweepIntendedStep([e] + rest, [c, d], 3);
    assert [c, d][1..] == [d] && [d][1..] == [];
    assert Live([d], e.startAt) == [d];
    assert Live([c, d], e.startAt) == [c, d];
    assert [c, d] + [e] == [c, d, e];
    assert ([e] + rest)[1..] == rest;
  }

  lemma IntendedSixth(c: Note, d: Note, e: Note, f: Note)
    requires f.startAt <= c.endAt && f.startAt <= d.endAt && f.startAt <= e.endAt
    ensures SweepIntended([f], [c, d, e], 3) == 4
  {
    SweepIntendedStep([f], [c, d, e], 3);
    assert [c, d, e][1..] == [d, e] && [d, e][1..] == [e] && [e][1..] == [];
    assert Live([e], f.startAt) == [e];
    assert Live([d, e], f.startAt) == [d, e];
    assert Live([c, d, e], f.startAt) == [c, d, e];
    assert [c, d, e] + [f] == [c, d, e, f];
    assert [f][1..] == [];
  }

  lemma SweepIntendedStep(ns: seq<Note>, working: seq<Note>, peak: nat)
    requires ns != []
    ensures SweepIntended(ns, working, peak)
         == SweepIntended(ns[1..], Live(working, ns[0].startAt) + [ns[0]], Max(peak, |Live(working, ns[0].startAt)| + 1))
  {
  }

  // ----------------------------------------- frequencies used by each instrument

  /** The instrument ids occurring in `ns`. */
  function InstrumentIds(ns: seq<Note>): set<nat>
  {
    set i | 0 <= i < |ns| :: ns[i].instrumentId
  }

  /** The frequency ids of instrument `id` in `ns`, each once, in order of first occurrence. */
  function UsedFrequencies(ns: seq<Note>, id: nat): (r: seq<nat>)
    ensures |r| <= |ns|
  {
    if ns == [] then []
    else
      var seen := UsedFrequencies(ns[..|ns| - 1], id);
      var last := ns[|ns| - 1];
      if last.instrumentId == id && last.frequency !in seen then seen + [last.frequency] else seen
  }

  ghost predicate NoDuplicates<T>(s: seq<T>)
  {
    forall i, j :: 0 <= i < j < |s| ==> s[i] != s[j]
  }

  /** What `list_frequencies_for_instruments` returns for the notes `ns`. */
  function FrequenciesByInstrument(ns: seq<Note>): (r: map<nat, seq<nat>>)
    ensures r.Keys == InstrumentIds(ns)
  {
    map id | id in InstrumentIds(ns) :: UsedFrequencies(ns, id)
  }

  /** The list of `id` holds exactly the frequency ids of its notes, with no duplicates. */
  lemma {:induction false} UsedFrequenciesCharacterized(ns: seq<Note>, id: nat)
    ensures NoDuplicates(UsedFrequencies(ns, id))
    ensures forall f :: f in UsedFrequencies(ns, id) <==>
      exists i :: 0 <= i < |ns| && ns[i].instrumentId == id && ns[i].frequency == f
  {
    if ns != [] {
      var prefix := ns[..|ns| - 1];
      UsedFrequenciesCharacterized(prefix, id);
      forall f
        ensures f in UsedFrequencies(ns, id) <==>
          exists i :: 0 <= i < |ns| && ns[i].instrumentId == id && ns[i].frequency == f
      {
        if exists i :: 0 <= i < |ns| && ns[i].instrumentId == id && ns[i].frequency == f {
          var i :| 0 <= i < |ns| && ns[i].instrumentId == id && ns[i].frequency == f;
          if i < |ns| - 1 {
            assert prefix[i] == ns[i];
          }
        }
      }
    }
  }

  /** Lists only grow at the end as notes are added: ids stay in order of first occurrence. */
  lemma {:induction false} UsedFrequenciesPrefix(ns: seq<Note>, k: nat, id: nat)
    requires k <= |ns|
    ensures UsedFrequencies(ns[..k], id) <= UsedFrequencies(ns, id)
    decreases |ns|
  {
    if k < |ns| {
      var prefix := ns[..|ns| - 1];
      assert prefix[..k] == ns[..k];
      UsedFrequenciesPrefix(prefix, k, id);
    } else {
      assert ns[..k] == ns;
    }
  }

  /** Every instrument that occurs in the notes has a non-empty list, holding each of its notes' frequencies. */
  lemma FrequenciesByInstrumentCovers(ns: seq<Note>)
    ensures FrequenciesByInstrument(ns).Keys == InstrumentIds(ns)
    ensures forall i :: 0 <= i < |ns| ==> ns[i].frequency in FrequenciesByInstrument(ns)[ns[i].instrumentId]
    ensures forall id :: id in FrequenciesByInstrument(ns) ==>
      FrequenciesByInstrument(ns)[id] != [] && NoDuplicates(FrequenciesByInstrument(ns)[id])
  {
    forall i | 0 <= i < |ns|
      ensures ns[i].frequency in FrequenciesByInstrument(ns)[ns[i].instrumentId]
    {
      UsedFrequenciesCharacterized(ns, ns[i].instrumentId);
    }
    forall id | id in FrequenciesByInstrument(ns)
      ensures FrequenciesByInstrument(ns)[id] != [] && NoDuplicates(FrequenciesByInstrument(ns)[id])
    {
      UsedFrequenciesCharacterized(ns, id);
      var i :| 0 <= i < |ns| && ns[i].instrumentId == id;
      assert ns[i].frequency in UsedFrequencies(ns, id);
    }
  }

  /** The first inner loop of `calc_max_notes_at_once`: positions of the notes `current` starts after. */
  method CollectStale(current: Note, notesToCompare: seq<Note>) returns (toDelete: seq<nat>)
    ensures toDelete == StaleIndices(current, notesToCompare)
    ensures forall i :: 0 <= i < |notesToCompare| ==>
      (i in toDelete <==> current.startAt > notesToCompare[i].endAt)
  {
    toDelete := [];
    var currentIndex := 0;
    while currentIndex < |notesToCompare|
      invariant currentIndex <= |notesToCompare|
      invariant toDelete == StaleIndices(current, notesToCompare[..currentIndex])
    {
      assert notesToCompare[..currentIndex + 1][..currentIndex] == notesToCompare[..currentIndex];
      if current.startAt > notesToCompare[currentIndex].endAt {
        toDelete := toDelete + [currentIndex];
      }
      currentIndex := currentIndex + 1;
    }
    assert notesToCompare[..currentIndex] == notesToCompare;
    StaleIndicesCharacterized(current, notesToCompare);
  }

  /** The second inner loop: `Vec::remove` at each recorded position in turn, panicking past the end. */
  method RemoveStale(notesToCompare: seq<Note>, toDelete: seq<nat>) returns (r: Result<seq<Note>, Panic>)
    ensures r == RemoveEach(notesToCompare, toDelete)
  {
    var working := notesToCompare;
    var k := 0;
    while k < |toDelete|
      invariant k <= |toDelete|
      invariant RemoveEach(working, toDelete[k..]) == RemoveEach(notesToCompare, toDelete)
    {
      var index := toDelete[k];
      if index >= |working| {
        return Err(IndexOutOfBounds(index, |working|));
      }
      working := working[..index] + working[index + 1..];
      assert toDelete[k..][1..] == toDelete[k + 1..];
      k := k + 1;
    }
    return Ok(working);
  }

  /** The loop of `calc_max_notes_at_once` over the sorted notes: the as-written sweep, its panic included. */
  method SweepNotes(sorted: seq<Note>) returns (r: Result<nat, Panic>)
    ensures r == Sweep(sorted, [], 1)
  {
    var maxNotesAtOnce: nat := 1;
    var notesToCompare: seq<Note> := [];
    for i := 0 to |sorted|
      invariant Sweep(sorted[i..], notesToCompare, maxNotesAtOnce) == Sweep(sorted, [], 1)
    {
      var current := sorted[i];
      var toDelete := CollectStale(current, notesToCompare);
      var kept := RemoveStale(notesToCompare, toDelete);
      assert sorted[i..][0] == current && sorted[i..][1..] == sorted[i + 1..];
      if kept.Err? {
        SweepUnfold(sorted[i..], notesToCompare, maxNotesAtOnce);
        return Err(kept.error);
      }
      SweepStep(sorted[i..], notesToCompare, maxNotesAtOnce, kept.value);
      notesToCompare := kept.value + [current];
      maxNotesAtOnce := Max(maxNotesAtOnce, |notesToCompare|);
    }
    return Ok(maxNotesAtOnce);
  }

  // ------------------------------------------------------------ the Sequence

  class Sequence {
    var notes: seq<Note>
    var loopInfo: seq<LoopInfo>

    constructor (notes: seq<Note>, loopInfo: seq<LoopInfo>)
      ensures this.notes == notes && this.loopInfo == loopInfo
    {
      this.notes := notes;
      this.loopInfo := loopInfo;
    }

    /** `sort_by_time`: a stable sort of the notes by start time. */
    method SortByTime()
      modifies this`notes
      ensures notes == SortByStart(old(notes))
      ensures SortedByStart(notes) && multiset(notes) == multiset(old(notes))
      ensures forall t :: StartingAt(notes, t) == StartingAt(old(notes), t)
    {
      SortByStartCorrect(notes);
      notes := SortByStart(notes);
    }

    /** `calc_max_notes_at_once`, with its removals by positions recorded before any removal. */
    method CalcMaxNotesAtOnce() returns (r: Result<nat, Panic>)
      modifies this`notes
      ensures notes == SortByStart(old(notes))
      ensures r == MaxNotesAtOnce(old(notes))
    {
      if |notes| == 0 {
        return Ok(0);
      }
      SortByTime();
      r := SweepNotes(notes);
    }

    /** `list_frequencies_for_instruments`: instrument id to its frequency ids, each once, in order of first use. */
    method ListFrequenciesForInstruments() returns (r: map<nat, seq<nat>>)
      ensures r == FrequenciesByInstrument(notes)
    {
      r := map[];
      for i := 0 to |notes|
        invariant r == FrequenciesByInstrument(notes[..i])
      {
        var note := notes[i];
        var frequencies := if note.instrumentId in r then r[note.instrumentId] else [];
        if note.frequency !in frequencies {
          frequencies := frequencies + [note.frequency];
        }
        ListStep(notes, i);
        r := r[note.instrumentId := frequencies];
      }
      assert notes[..|notes|] == notes;
    }
  }

  lemma ListStep(ns: seq<Note>, i: nat)
    requires i < |ns|
    ensures var before := FrequenciesByInstrument(ns[..i]);
            var n := ns[i];
            var prior := if n.instrumentId in before then before[n.instrumentId] else [];
            FrequenciesByInstrument(ns[..i + 1])
              == before[n.instrumentId := if n.frequency in prior then prior else prior + [n.frequency]]
  {
    var p, q := ns[..i], ns[..i + 1];
    assert q[..|q| - 1] == p && q[|q| - 1] == ns[i];
    InstrumentIdsLast(q);
    if ns[i].instrumentId !in InstrumentIds(p) {
      UsedFrequenciesOfAbsent(p, ns[i].instrumentId);
    }
  }

  /** The ids of a non-empty list: those of all but its last note, plus the last note's. */
  lemma InstrumentIdsLast(q: seq<Note>)
    requires q != []
    ensures InstrumentIds(q) == InstrumentIds(q[..|q| - 1]) + {q[|q| - 1].instrumentId}
  {
    var p, i := q[..|q| - 1], |q| - 1;
    forall id | id in InstrumentIds(q) ensures id in InstrumentIds(p) + {q[i].instrumentId} {
      var j :| 0 <= j < |q| && q[j].instrumentId == id;
      if j < i { assert p[j] == q[j]; }
    }
    forall id | id in InstrumentIds(p) ensures id in InstrumentIds(q) {
      var j :| 0 <= j < |p| && p[j].instrumentId == id;
      assert q[j] == p[j];
    }
  }

  lemma {:induction false} UsedFrequenciesOfAbsent(ns: seq<Note>, id: nat)
    requires id !in InstrumentIds(ns)
    ensures UsedFrequencies(ns, id) == []
  {
    if ns != [] {
      var prefix := ns[..|ns| - 1];
      assert InstrumentIds(prefix) <= InstrumentIds(ns) by {
        forall x | x in InstrumentIds(prefix) ensures x in InstrumentIds(ns) {
          var j :| 0 <= j < |prefix| && prefix[j].instrumentId == x;
          assert ns[j] == prefix[j];
        }
      }
      UsedFrequenciesOfAbsent(prefix, id);
      assert ns[|ns| - 1].instrumentId in InstrumentIds(ns);
    }
  }
}
