/**
 * The chart side of the ledger: running totals, the series plotted for
 * each selected player over the last sessions, and the ranking of players
 * by how often they attended.
 */
module Series {

  import opened JsNumbers
  import opened Seqs
  import opened Ledger

  /* ---------------------------------------------------------------- */
  /* accumulate                                                        */
  /* ---------------------------------------------------------------- */

  /** The running totals of `a`: entry `i` is the sum of the first `i + 1` values. */
  function Cumulative(a: seq<Num>): seq<Num>
  {
    seq(|a|, i requires 0 <= i < |a| => Sum(a[..i + 1]))
  }

  /** `accumulate(a)`: one closure carries the running sum through the map. */
  method Accumulate(a: seq<Num>) returns (r: seq<Num>)
    ensures |r| == |a|
    ensures forall i :: 0 <= i < |a| ==> r[i] == Sum(a[..i + 1])
    ensures r == Cumulative(a)
  {
    var sum := Fin(0.0);
    r := [];
    var i := 0;
    while i < |a|
      invariant 0 <= i <= |a| && |r| == i
      invariant sum == Sum(a[..i])
      invariant forall k :: 0 <= k < i ==> r[k] == Sum(a[..k + 1])
    {
      assert a[..i + 1][..i] == a[..i];
      sum := Add(sum, a[i]);
      r := r + [sum];
      i := i + 1;
    }
  }

  /** The first running total is the first value, and each later one adds its value to the one before. */
  lemma CumulativeSteps(a: seq<Num>, i: nat)
    requires i < |a|
    ensures Cumulative(a)[0] == a[0]
    ensures 0 < i ==> Cumulative(a)[i] == Add(Cumulative(a)[i - 1], a[i])
  {
    assert a[..1][..0] == [];
    assert Sum(a[..1]) == Add(Fin(0.0), a[0]);
    if a[0].Fin? {
      assert Add(Fin(0.0), a[0]) == Fin(0.0 + a[0].v);
    }
    assert a[..i + 1][..i] == a[..i];
  }

  /* ---------------------------------------------------------------- */
  /* getDatasets                                                       */
  /* ---------------------------------------------------------------- */

  /** One line of the chart, `{label, data}`; `name` is the source's `label`. */
  datatype Dataset = Dataset(name: string, data: seq<Num>)

  /**
   * What `sessionsByPeople[p]` holds after the loop over `ss`: for each
   * session, one value per occurrence of `p` in `peopleSet` (`k` of them),
   * the net of `p` or 0 when `p` did not play.
   */
  function Column(ss: seq<Session>, p: string, k: nat): (c: seq<Num>)
    ensures |c| == k * |ss|
  {
    if ss == [] then [] else Column(ss[..|ss| - 1], p, k) + Repeat(NetIn(ss[|ss| - 1], p), k)
  }

  /** The series `getDatasets` plots for `p`: running totals over the last `n` values of its column. */
  function SeriesOf(ss: seq<Session>, peopleSet: seq<string>, p: string, n: int): seq<Num>
  {
    Cumulative(SliceFromEnd(Column(ss, p, Occ(peopleSet, p)), n))
  }

  /** `getDatasets(sessions, peopleSet, n)` */
  method GetDatasets(sessions: seq<Session>, peopleSet: seq<string>, n: int) returns (ds: seq<Dataset>)
    ensures ds == Datasets(sessions, peopleSet, n)
  {
    var byPerson: map<string, seq<Num>> := map[];
    for i := 0 to |peopleSet|
      invariant forall q :: q in byPerson <==> q in peopleSet[..i]
      invariant forall q :: q in byPerson ==> byPerson[q] == []
    {
      byPerson := byPerson[peopleSet[i] := []];
    }
    assert peopleSet[..|peopleSet|] == peopleSet;
    for i := 0 to |sessions|
      invariant forall q :: q in byPerson <==> q in peopleSet
      invariant forall q :: q in byPerson ==> byPerson[q] == Column(sessions[..i], q, Occ(peopleSet, q))
    {
      byPerson := PushSession(byPerson, sessions[..i], sessions[i], peopleSet);
      assert sessions[..i + 1][..i] == sessions[..i];
    }
    assert sessions[..|sessions|] == sessions;
    ds := Plot(byPerson, sessions, peopleSet, n);
  }

  /** Each name of `names`, in order, with its series. */
  function Label(names: seq<string>, series: string -> seq<Num>): (ds: seq<Dataset>)
    ensures |ds| == |names|
    ensures forall i :: 0 <= i < |names| ==> ds[i] == Dataset(names[i], series(names[i]))
  {
    seq(|names|, i requires 0 <= i < |names| => Dataset(names[i], series(names[i])))
  }

  lemma LabelSnoc(names: seq<string>, series: string -> seq<Num>, i: int)
    requires 0 <= i < |names|
    ensures Label(names[..i + 1], series) == Label(names[..i], series) + [Dataset(names[i], series(names[i]))]
  {
  }

  /** The datasets `getDatasets` returns: one per entry of `peopleSet`, in order, each with its series. */
  function Datasets(ss: seq<Session>, peopleSet: seq<string>, n: int): seq<Dataset>
  {
    Label(peopleSet, p => SeriesOf(ss, peopleSet, p, n))
  }

  /** The last loop of `getDatasets`: one dataset per name, the running totals of the last `n` values. */
  method Plot(byPerson: map<string, seq<Num>>, sessions: seq<Session>, peopleSet: seq<string>, n: int)
    returns (ds: seq<Dataset>)
    requires forall q :: q in peopleSet ==> q in byPerson && byPerson[q] == Column(sessions, q, Occ(peopleSet, q))
    ensures ds == Datasets(sessions, peopleSet, n)
  {
    ghost var series := p => SeriesOf(sessions, peopleSet, p, n);
    ds := [];
    for i := 0 to |peopleSet|
      invariant ds == Label(peopleSet[..i], series)
    {
      var p := peopleSet[i];
      var data := Accumulate(SliceFromEnd(byPerson[p], n));
      assert data == series(p);
      LabelSnoc(peopleSet, series, i);
      ds := ds + [Dataset(p, data)];
    }
    assert peopleSet[..|peopleSet|] == peopleSet;
  }

  /** The inner loop of `getDatasets` for one session: each name of `peopleSet` pushes one value. */
  method PushSession(byPerson: map<string, seq<Num>>, before: seq<Session>, s: Session, peopleSet: seq<string>)
    returns (next: map<string, seq<Num>>)
    requires forall q :: q in byPerson <==> q in peopleSet
    requires forall q :: q in byPerson ==> byPerson[q] == Column(before, q, Occ(peopleSet, q))
    ensures forall q :: q in next <==> q in peopleSet
    ensures forall q :: q in next ==> next[q] == Column(before + [s], q, Occ(peopleSet, q))
  {
    next := byPerson;
    for j := 0 to |peopleSet|
      invariant forall q :: q in next <==> q in peopleSet
      invariant forall q :: q in next ==> next[q] == byPerson[q] + Repeat(NetIn(s, q), Occ(peopleSet[..j], q))
    {
      var p := peopleSet[j];
      var net := NetIn(s, p);
      PushOne(peopleSet, j, NetIn(s, p));
      next := next[p := next[p] + [net]];
    }
    assert peopleSet[..|peopleSet|] == peopleSet;
    forall q | q in next
      ensures next[q] == Column(before + [s], q, Occ(peopleSet, q))
    {
      ColumnSnoc(before, s, q, Occ(peopleSet, q));
    }
  }

  lemma ColumnSnoc(before: seq<Session>, s: Session, p: string, k: nat)
    ensures Column(before + [s], p, k) == Column(before, p, k) + Repeat(NetIn(s, p), k)
  {
    assert (before + [s])[..|before|] == before;
  }

  /** Pushing the value for `peopleSet[j]` adds one copy to its pending run and none to any other name's. */
  lemma PushOne(peopleSet: seq<string>, j: nat, x: Num)
    requires j < |peopleSet|
    ensures Repeat(x, Occ(peopleSet[..j], peopleSet[j])) + [x] == Repeat(x, Occ(peopleSet[..j + 1], peopleSet[j]))
    ensures forall q :: q != peopleSet[j] ==> Occ(peopleSet[..j + 1], q) == Occ(peopleSet[..j], q)
  {
    assert peopleSet[..j + 1][..j] == peopleSet[..j];
  }

  /** Played sessions contribute their net, absent ones 0, one value per session when the name is selected once. */
  lemma {:induction false} ColumnAt(ss: seq<Session>, p: string, i: nat)
    requires i < |ss|
    ensures Column(ss, p, 1)[i] == NetIn(ss[i], p)
  {
    if i < |ss| - 1 {
      ColumnAt(ss[..|ss| - 1], p, i);
    }
  }

  lemma {:induction false} ColumnConcat(a: seq<Session>, b: seq<Session>, p: string, k: nat)
    ensures Column(a + b, p, k) == Column(a, p, k) + Column(b, p, k)
  {
    if b != [] {
      assert (a + b)[..|a + b| - 1] == a + b[..|b| - 1];
      ColumnConcat(a, b[..|b| - 1], p, k);
    } else {
      assert a + b == a;
    }
  }

  /**
   * The window is cut before the totals are taken: for a name selected
   * once, the last `n` values of its column are the column of the last `n`
   * sessions, so the plotted total starts again at the first session of the
   * window.
   */
  lemma WindowThenColumn(ss: seq<Session>, p: string, n: int)
    ensures SliceFromEnd(Column(ss, p, 1), n) == Column(SliceFromEnd(ss, n), p, 1)
  {
    var w := SliceFromEnd(ss, n);
    var c := Column(ss, p, 1);
    var m := |ss| - |w|;
    assert ss == ss[..m] + w;
    ColumnConcat(ss[..m], w, p, 1);
    assert SliceFromEnd(c, n) == c[m..];
  }

  /**
   * The shape of a plotted series for a name selected once and `n >= 1`:
   * `min(n, |sessions|)` points, the first the net of the first session of
   * the window (0 if absent), each later one the previous total plus that
   * session's net.
   */
  lemma SeriesShape(ss: seq<Session>, peopleSet: seq<string>, p: string, n: int, j: nat)
    requires n >= 1 && Occ(peopleSet, p) == 1
    ensures var d := SeriesOf(ss, peopleSet, p, n);
      |d| == (if n < |ss| then n else |ss|)
    ensures var d := SeriesOf(ss, peopleSet, p, n); var w := SliceFromEnd(ss, n);
      |d| >= 1 ==> d[0] == NetIn(w[0], p)
    ensures var d := SeriesOf(ss, peopleSet, p, n); var w := SliceFromEnd(ss, n);
      0 < j < |d| ==> d[j] == Add(d[j - 1], NetIn(w[j], p))
  {
    var w := SliceFromEnd(ss, n);
    WindowThenColumn(ss, p, n);
    var c := Column(w, p, 1);
    if 1 <= |c| {
      var i := if j < |c| then j else 0;
      CumulativeSteps(c, i);
      ColumnAt(w, p, 0);
      ColumnAt(w, p, i);
    }
  }

  /* ---------------------------------------------------------------- */
  /* getPeopleFromLastNSessions                                        */
  /* ---------------------------------------------------------------- */

  /** How many times `p` is visited by the loops over the sessions of `w`: its attendance count. */
  function Visits(w: seq<Session>, p: string): nat
  {
    Occ(Flatten(w), p)
  }

  /**
   * The counting loops of `getPeopleFromLastNSessions` over the window:
   * `order` is the key order of the `people` object (first visit first)
   * and `counts` its values.
   */
  method CountVisits(w: seq<Session>) returns (order: seq<string>, counts: map<string, nat>)
    ensures order == Dedup(Flatten(w))
    ensures forall p :: p in counts <==> p in order
    ensures forall p :: p in counts ==> counts[p] == Visits(w, p)
  {
    order := [];
    counts := map[];
    for i := 0 to |w|
      invariant Tally(order, counts, Flatten(w[..i]))
    {
      order, counts := CountNames(order, counts, Flatten(w[..i]), Names(w[i].people));
      assert w[..i + 1][..i] == w[..i];
    }
    assert w[..|w|] == w;
  }

  /** `order` and `counts` are the keys, in insertion order, and the values of the `people` object after `visited`. */
  ghost predicate Tally(order: seq<string>, counts: map<string, nat>, visited: seq<string>)
  {
    && order == Dedup(visited)
    && (forall p :: p in counts <==> p in order)
    && (forall p :: p in counts ==> counts[p] == Occ(visited, p))
  }

  /** The inner loop, over the keys of one session. */
  method CountNames(order: seq<string>, counts: map<string, nat>, ghost seen: seq<string>, names: seq<string>)
    returns (order': seq<string>, counts': map<string, nat>)
    requires Tally(order, counts, seen)
    ensures Tally(order', counts', seen + names)
  {
    order', counts' := order, counts;
    ghost var visited := seen;
    for j := 0 to |names|
      invariant visited == seen + names[..j]
      invariant Tally(order', counts', visited)
    {
      var p := names[j];
      if p in counts' {
        TallyKnown(order', counts', visited, p);
        counts' := counts'[p := counts'[p] + 1];
      } else {
        TallyNew(order', counts', visited, p);
        order' := order' + [p];
        counts' := counts'[p := 1];
      }
      visited := visited + [p];
      assert names[..j + 1] == names[..j] + [p];
    }
    assert names[..|names|] == names;
  }

  /** Visiting a known key raises its count and leaves the key order alone. */
  lemma TallyKnown(order: seq<string>, counts: map<string, nat>, visited: seq<string>, p: string)
    requires Tally(order, counts, visited) && p in counts
    ensures Tally(order, counts[p := counts[p] + 1], visited + [p])
  {
    VisitOne(visited, p);
    assert p in visited;
    var c := counts[p := counts[p] + 1];
    forall q | q in c
      ensures c[q] == Occ(visited + [p], q)
    {
      if q == p {
        assert c[q] == Occ(visited, p) + 1;
      } else {
        assert c[q] == counts[q];
      }
    }
  }

  /** Visiting a new key adds it at the end of the key order with count 1. */
  lemma TallyNew(order: seq<string>, counts: map<string, nat>, visited: seq<string>, p: string)
    requires Tally(order, counts, visited) && p !in counts
    ensures Tally(order + [p], counts[p := 1], visited + [p])
  {
    VisitOne(visited, p);
    OccPositive(visited, p);
    var c := counts[p := 1];
    forall q | q in c
      ensures c[q] == Occ(visited + [p], q)
    {
    }
  }

  /** Visiting one more name: it joins the key order if new, and only its count goes up. */
  lemma VisitOne(seen: seq<string>, p: string)
    ensures Dedup(seen + [p]) == if p in seen then Dedup(seen) else Dedup(seen) + [p]
    ensures Occ(seen + [p], p) == Occ(seen, p) + 1
    ensures forall q :: q != p ==> Occ(seen + [p], q) == Occ(seen, q)
  {
    assert (seen + [p])[..|seen|] == seen;
  }

  /** Counts never increase along `s`. */
  predicate Descending(s: seq<(string, nat)>)
  {
    forall a, b :: 0 <= a < b < |s| ==> s[a].1 >= s[b].1
  }

  /** Entries with equal counts appear in `s` in the order they have in `entries`. */
  predicate Stable(s: seq<(string, nat)>, entries: seq<(string, nat)>)
  {
    forall a, b :: 0 <= a < b < |s| && s[a].1 == s[b].1 && s[a] in entries && s[b] in entries ==>
      IndexOf(entries, s[a]) < IndexOf(entries, s[b])
  }

  /**
   * `Object.entries(people).sort((a, b) => b[1] - a[1])`: the entries by
   * descending count, ties in their original order (the sort is stable).
   * A stable sort has only one possible result, so inserting each entry
   * after every entry whose count is at least its own yields it.
   */
  method SortByCount(entries: seq<(string, nat)>) returns (sorted: seq<(string, nat)>)
    requires Distinct(entries)
    ensures |sorted| == |entries| && Distinct(sorted)
    ensures forall e :: e in sorted <==> e in entries
    ensures Descending(sorted)
    ensures Stable(sorted, entries)
  {
    sorted := [];
    for i := 0 to |entries|
      invariant |sorted| == i && Distinct(sorted)
      invariant forall e :: e in sorted <==> e in entries[..i]
      invariant Descending(sorted)
      invariant Stable(sorted, entries)
    {
      var e := entries[i];
      var pos := 0;
      while pos < |sorted| && sorted[pos].1 >= e.1
        invariant 0 <= pos <= |sorted|
        invariant forall k :: 0 <= k < pos ==> sorted[k].1 >= e.1
      {
        pos := pos + 1;
      }
      InsertKeepsOrder(sorted, pos, entries, i);
      sorted := sorted[..pos] + [e] + sorted[pos..];
      assert entries[..i + 1] == entries[..i] + [e];
    }
    assert entries[..|entries|] == entries;
  }

  /** Inserting entry `i` after the entries with at least its count keeps the order descending and stable. */
  lemma InsertKeepsOrder(sorted: seq<(string, nat)>, pos: nat, entries: seq<(string, nat)>, i: nat)
    requires Distinct(entries) && i < |entries|
    requires Distinct(sorted) && (forall e :: e in sorted <==> e in entries[..i])
    requires Descending(sorted) && Stable(sorted, entries)
    requires pos <= |sorted| && (forall k :: 0 <= k < pos ==> sorted[k].1 >= entries[i].1)
    requires pos == |sorted| || sorted[pos].1 < entries[i].1
    ensures var t := sorted[..pos] + [entries[i]] + sorted[pos..];
      Distinct(t) && Descending(t) && Stable(t, entries)
  {
    var e := entries[i];
    var t := sorted[..pos] + [e] + sorted[pos..];
    IndexOfDistinct(entries, i);
    forall k | 0 <= k < |sorted|
      ensures sorted[k] in entries && IndexOf(entries, sorted[k]) < i
    {
      var x := sorted[k];
      assert x in entries[..i];
      var j :| 0 <= j < i && entries[j] == x;
      IndexOfDistinct(entries, j);
    }
    assert e !in sorted;
    forall a, b | 0 <= a < b < |t|
      ensures t[a] != t[b] && t[a].1 >= t[b].1
      ensures t[a].1 == t[b].1 ==> IndexOf(entries, t[a]) < IndexOf(entries, t[b])
    {
      if b < pos {
        assert t[a] == sorted[a] && t[b] == sorted[b];
      } else if b == pos {
        assert t[a] == sorted[a] && t[b] == e;
      } else if a == pos {
        assert t[a] == e && t[b] == sorted[b - 1];
        assert sorted[pos].1 >= sorted[b - 1].1;
      } else if a < pos {
        assert t[a] == sorted[a] && t[b] == sorted[b - 1];
      } else {
        assert t[a] == sorted[a - 1] && t[b] == sorted[b - 1];
      }
    }
  }

  /**
   * `getPeopleFromLastNSessions(sessions, n)`: everyone who played in the
   * window `sessions.slice(-n)`, each once, most frequent first, players
   * with equal counts in the order the loops first met them.
   */
  method PeopleFromLastNSessions(sessions: seq<Session>, n: int) returns (ranked: seq<string>)
    ensures var w := SliceFromEnd(sessions, n);
      forall p :: p in ranked <==> exists i :: 0 <= i < |w| && Attends(w[i], p)
    ensures var w := SliceFromEnd(sessions, n); forall p :: p in ranked <==> p in Flatten(w)
    ensures Distinct(ranked)
    ensures var w := SliceFromEnd(sessions, n);
      forall a, b :: 0 <= a < b < |ranked| ==> Visits(w, ranked[a]) >= Visits(w, ranked[b])
    ensures var w := SliceFromEnd(sessions, n);
      forall a, b :: 0 <= a < b < |ranked| && Visits(w, ranked[a]) == Visits(w, ranked[b]) ==>
        IndexOf(Flatten(w), ranked[a]) < IndexOf(Flatten(w), ranked[b])
  {
    var w := SliceFromEnd(sessions, n);
    var order, counts := CountVisits(w);
    var entries := seq(|order|, k requires 0 <= k < |order| => (order[k], counts[order[k]]));
    EntriesDistinct(order, entries);
    var sorted := SortByCount(entries);
    ranked := seq(|sorted|, k requires 0 <= k < |sorted| => sorted[k].0);
    RankedKeys(w, order, counts, entries, sorted, ranked);
    forall p ensures p in ranked <==> exists i :: 0 <= i < |w| && Attends(w[i], p) {
      FlattenMembers(w, p);
    }
  }

  lemma EntriesDistinct(order: seq<string>, entries: seq<(string, nat)>)
    requires Distinct(order) && |entries| == |order|
    requires forall k :: 0 <= k < |order| ==> entries[k].0 == order[k]
    ensures Distinct(entries)
  {
    forall a, b | 0 <= a < b < |entries|
      ensures entries[a] != entries[b]
    {
      assert entries[a].0 == order[a] && entries[b].0 == order[b];
    }
  }

  /** Taking the keys of the sorted entries keeps each player once, with their count and first-visit order. */
  lemma RankedKeys(w: seq<Session>, order: seq<string>, counts: map<string, nat>,
                   entries: seq<(string, nat)>, sorted: seq<(string, nat)>, ranked: seq<string>)
    requires order == Dedup(Flatten(w))
    requires forall p :: p in counts <==> p in order
    requires forall p :: p in counts ==> counts[p] == Visits(w, p)
    requires |entries| == |order| && forall k :: 0 <= k < |order| ==> entries[k] == (order[k], counts[order[k]])
    requires Distinct(entries) && |sorted| == |entries| && Distinct(sorted)
    requires forall e :: e in sorted <==> e in entries
    requires Descending(sorted) && Stable(sorted, entries)
    requires |ranked| == |sorted| && forall k :: 0 <= k < |sorted| ==> ranked[k] == sorted[k].0
    ensures forall p :: p in ranked <==> p in Flatten(w)
    ensures Distinct(ranked)
    ensures forall a, b :: 0 <= a < b < |ranked| ==> Visits(w, ranked[a]) >= Visits(w, ranked[b])
    ensures forall a, b :: 0 <= a < b < |ranked| && Visits(w, ranked[a]) == Visits(w, ranked[b]) ==>
      IndexOf(Flatten(w), ranked[a]) < IndexOf(Flatten(w), ranked[b])
  {
    var f := Flatten(w);
    // Each sorted entry is one of the original entries, at the position of its key in `order`.
    forall k | 0 <= k < |sorted|
      ensures sorted[k] in entries
      ensures IndexOf(entries, sorted[k]) < |order|
      ensures order[IndexOf(entries, sorted[k])] == ranked[k]
      ensures sorted[k].1 == Visits(w, ranked[k])
      ensures ranked[k] in f
    {
      var j := IndexOf(entries, sorted[k]);
      assert entries[j] == sorted[k];
    }
    forall p | p in f
      ensures p in ranked
    {
      var j := IndexOf(order, p);
      assert entries[j] in sorted;
      var k :| 0 <= k < |sorted| && sorted[k] == entries[j];
      assert ranked[k] == p;
    }
    forall a, b | 0 <= a < b < |ranked|
      ensures ranked[a] != ranked[b]
    {
      var ja, jb := IndexOf(entries, sorted[a]), IndexOf(entries, sorted[b]);
      if ja != jb {
        assert order[ja] != order[jb];
      }
    }
    forall a, b | 0 <= a < b < |ranked| && Visits(w, ranked[a]) == Visits(w, ranked[b])
      ensures IndexOf(f, ranked[a]) < IndexOf(f, ranked[b])
    {
      var ja, jb := IndexOf(entries, sorted[a]), IndexOf(entries, sorted[b]);
      assert ja < jb;
      DedupOrder(f, ja, jb);
    }
  }

}
