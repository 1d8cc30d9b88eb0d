/**
 * The statistics page: each player's list of results, their Profit,
 * WinRatio, ProfitPerSession and Sessions, and the four records (chip
 * leader, biggest single session win, biggest loser, biggest single
 * session loss), each kept by the first player or session that strictly
 * beats it.
 */
module Stats {

  import opened Wrappers
  import opened JsNumbers
  import opened Seqs
  import opened Ledger

  /* ---------------------------------------------------------------- */
  /* getPeopleToSessions                                               */
  /* ---------------------------------------------------------------- */

  /** `{result, date}`: one session of one player. */
  datatype Entry = Entry(result: Num, date: Option<string>)

  /** The sessions of `ss` that `p` played, in order, as (net, date). */
  function History(ss: seq<Session>, p: string): seq<Entry>
  {
    if ss == [] then []
    else
      var last := ss[|ss| - 1];
      History(ss[..|ss| - 1], p) + (if Attends(last, p) then [Entry(NetOf(last.people, p), last.date)] else [])
  }

  /** The keys of `peopleToSessions`: every player, in the order the loops first meet them. */
  function Players(ss: seq<Session>): seq<string>
  {
    Dedup(Flatten(ss))
  }

  /**
   * `order` and `hist` are the keys, in insertion order, and the values of
   * `peopleToSessions` once the loops have gone through the sessions
   * `done` and the first `names` of the next session `s`.
   */
  ghost predicate Grouped(order: seq<string>, hist: map<string, seq<Entry>>, done: seq<Session>, s: Session, names: seq<string>)
  {
    && order == Dedup(Flatten(done) + names)
    && (forall p :: p in hist <==> p in order)
    && Lists(hist, done, s, names)
  }

  /** Every list holds the player's entries from `done`, then the one from `s` if the loop has reached them. */
  ghost predicate Lists(hist: map<string, seq<Entry>>, done: seq<Session>, s: Session, names: seq<string>)
  {
    forall p :: p in hist ==> hist[p] == History(done, p) + if p in names then [Entry(NetIn(s, p), s.date)] else []
  }

  /** `getPeopleToSessions(sessions)` */
  method PeopleToSessions(sessions: seq<Session>) returns (order: seq<string>, hist: map<string, seq<Entry>>)
    requires forall i :: 0 <= i < |sessions| ==> WellFormed(sessions[i])
    ensures order == Players(sessions)
    ensures forall p :: p in hist <==> p in order
    ensures forall p :: p in hist ==> hist[p] == History(sessions, p)
  {
    order := [];
    hist := map[];
    for i := 0 to |sessions|
      invariant order == Players(sessions[..i])
      invariant forall p :: p in hist <==> p in order
      invariant forall p :: p in hist ==> hist[p] == History(sessions[..i], p)
    {
      var s := sessions[i];
      GroupedStart(order, hist, sessions[..i], s);
      order, hist := GroupSession(order, hist, sessions[..i], s);
      assert sessions[..i + 1][..i] == sessions[..i];
      assert sessions[..i + 1] == sessions[..i] + [s];
    }
    assert sessions[..|sessions|] == sessions;
  }

  /** The inner loop of `getPeopleToSessions`, over the players of one session. */
  method GroupSession(order: seq<string>, hist: map<string, seq<Entry>>, ghost done: seq<Session>, s: Session)
    returns (order': seq<string>, hist': map<string, seq<Entry>>)
    requires WellFormed(s)
    requires Grouped(order, hist, done, s, [])
    ensures order' == Players(done + [s])
    ensures forall p :: p in hist' <==> p in order'
    ensures forall p :: p in hist' ==> hist'[p] == History(done + [s], p)
  {
    var names := Names(s.people);
    order', hist' := order, hist;
    for j := 0 to |names|
      invariant Grouped(order', hist', done, s, names[..j])
    {
      var p := names[j];
      GroupStep(order', hist', done, s, names, j);
      var item := Entry(s.people[j].net, s.date);
      NetOfAt(s.people, j);
      assert item == Entry(NetIn(s, p), s.date);
      if p in hist' {
        hist' := hist'[p := hist'[p] + [item]];
      } else {
        order' := order' + [p];
        hist' := hist'[p := [item]];
      }
    }
    assert names[..|names|] == names;
    assert (done + [s])[..|done|] == done;
  }

  /** Before the inner loop, the grouping holds for the sessions done and none of `s`. */
  lemma GroupedStart(order: seq<string>, hist: map<string, seq<Entry>>, done: seq<Session>, s: Session)
    requires order == Players(done)
    requires forall p :: p in hist <==> p in order
    requires forall p :: p in hist ==> hist[p] == History(done, p)
    ensures Grouped(order, hist, done, s, [])
  {
    assert Flatten(done) + [] == Flatten(done);
    forall p | p in hist
      ensures hist[p] == History(done, p) + []
    {
      assert History(done, p) + [] == History(done, p);
    }
  }

  /** In a session that lists each player once, `people[p]` is the entry at `p`'s position. */
  lemma NetOfAt(people: seq<PersonResult>, j: nat)
    requires Distinct(Names(people)) && j < |people|
    ensures people[j].name in Names(people) && NetOf(people, people[j].name) == people[j].net
  {
    NetOfDistinct(people, j);
  }

  lemma {:induction false} NetOfDistinct(people: seq<PersonResult>, j: nat)
    requires Distinct(Names(people)) && j < |people|
    ensures people[j].name in Names(people) && NetOf(people, people[j].name) == people[j].net
  {
    assert Names(people)[j] == people[j].name;
    var init := people[..|people| - 1];
    if j < |init| {
      assert Names(people)[|people| - 1] != Names(people)[j];
      assert Names(init) == Names(people)[..|init|];
      NetOfDistinct(init, j);
    }
  }

  /** Visiting player `names[j]` of `s`: a new key joins the order with a one-entry list, a known key gets the entry appended. */
  lemma GroupStep(order: seq<string>, hist: map<string, seq<Entry>>, done: seq<Session>, s: Session, names: seq<string>, j: nat)
    requires names == Names(s.people) && Distinct(names) && j < |names|
    requires Grouped(order, hist, done, s, names[..j])
    ensures var p := names[j]; var item := Entry(NetIn(s, p), s.date);
      && (p in hist ==> Grouped(order, hist[p := hist[p] + [item]], done, s, names[..j + 1]))
      && (p !in hist ==> Grouped(order + [p], hist[p := [item]], done, s, names[..j + 1]))
  {
    var p := names[j];
    assert names[..j + 1] == names[..j] + [p];
    assert p !in names[..j];
    OrderStep(order, Flatten(done), names, j);
    if p in hist {
      ListsKnown(hist, done, s, names[..j], p);
    } else {
      HistoryAbsent(done, p);
      ListsNew(hist, done, s, names[..j], p);
    }
  }

  /** The key order after visiting `names[j]`: unchanged for a known key, extended for a new one. */
  lemma OrderStep(order: seq<string>, before: seq<string>, names: seq<string>, j: nat)
    requires j < |names| && order == Dedup(before + names[..j])
    ensures names[j] in order ==> order == Dedup(before + names[..j + 1])
    ensures names[j] !in order ==> order + [names[j]] == Dedup(before + names[..j + 1])
  {
    assert before + names[..j + 1] == (before + names[..j]) + [names[j]];
    DedupSnoc(before + names[..j], names[j]);
  }

  lemma ListsKnown(hist: map<string, seq<Entry>>, done: seq<Session>, s: Session, seen: seq<string>, p: string)
    requires Lists(hist, done, s, seen) && p in hist && p !in seen
    ensures Lists(hist[p := hist[p] + [Entry(NetIn(s, p), s.date)]], done, s, seen + [p])
  {
    var hist' := hist[p := hist[p] + [Entry(NetIn(s, p), s.date)]];
    assert History(done, p) + [] == History(done, p);
    forall q | q in hist'
      ensures hist'[q] == History(done, q) + if q in seen + [p] then [Entry(NetIn(s, q), s.date)] else []
    {
      if q != p {
        assert (q in seen + [p]) == (q in seen);
      }
    }
  }

  lemma ListsNew(hist: map<string, seq<Entry>>, done: seq<Session>, s: Session, seen: seq<string>, p: string)
    requires Lists(hist, done, s, seen) && p !in seen && History(done, p) == []
    ensures Lists(hist[p := [Entry(NetIn(s, p), s.date)]], done, s, seen + [p])
  {
    var hist' := hist[p := [Entry(NetIn(s, p), s.date)]];
    forall q | q in hist'
      ensures hist'[q] == History(done, q) + if q in seen + [p] then [Entry(NetIn(s, q), s.date)] else []
    {
      if q != p {
        assert (q in seen + [p]) == (q in seen);
      }
    }
  }

  /** A player no session lists has no results. */
  lemma {:induction false} HistoryAbsent(ss: seq<Session>, p: string)
    requires p !in Flatten(ss)
    ensures History(ss, p) == []
  {
    if ss != [] {
      assert Flatten(ss) == Flatten(ss[..|ss| - 1]) + Names(ss[|ss| - 1].people);
      HistoryAbsent(ss[..|ss| - 1], p);
    }
  }

  /** A player's list has one entry per session they played. */
  lemma {:induction false} HistoryLength(ss: seq<Session>, p: string)
    ensures |History(ss, p)| == SessionsAttended(ss, p)
  {
    if ss != [] {
      HistoryLength(ss[..|ss| - 1], p);
    }
  }

  /* ---------------------------------------------------------------- */
  /* The four records                                                  */
  /* ---------------------------------------------------------------- */

  /** A record's `{amount, person, date}`; `person` and `date` start as `null`, here `None`. */
  datatype Best = Best(amount: real, person: Option<string>, date: Option<string>)

  /**
   * Something that may take a record: its score (`None` when the source's
   * guard, such as `r > 0` or `r < 0`, rules it out), its player and the
   * date it would record.
   */
  datatype Cand = Cand(score: Option<real>, person: string, date: Option<string>)

  /** A candidate replaces the record only when it scores strictly more. */
  function Offer(b: Best, c: Cand): Best
  {
    if c.score.Some? && c.score.value > b.amount then Best(c.score.value, Some(c.person), c.date) else b
  }

  /** The record after offering it every candidate of `cs` in turn, starting from `b`. */
  function Fold(b: Best, cs: seq<Cand>): Best
  {
    if cs == [] then b else Offer(Fold(b, cs[..|cs| - 1]), cs[|cs| - 1])
  }

  /** A record as the source creates it: amount 0, nobody, no date. */
  const Unset := Best(0.0, None, None)

  /** Candidate `k` is the first of `cs` with the highest positive score. */
  predicate FirstMax(cs: seq<Cand>, k: int)
  {
    && 0 <= k < |cs| && cs[k].score.Some? && cs[k].score.value > 0.0
    && (forall i :: 0 <= i < |cs| && cs[i].score.Some? ==> cs[i].score.value <= cs[k].score.value)
    && (forall i :: 0 <= i < k && cs[i].score.Some? ==> cs[i].score.value < cs[k].score.value)
  }

  lemma {:induction false} FoldConcat(b: Best, xs: seq<Cand>, ys: seq<Cand>)
    ensures Fold(b, xs + ys) == Fold(Fold(b, xs), ys)
  {
    if ys != [] {
      assert (xs + ys)[..|xs + ys| - 1] == xs + ys[..|ys| - 1];
      FoldConcat(b, xs, ys[..|ys| - 1]);
    } else {
      assert xs + ys == xs;
    }
  }

  /** Starting from an unset record, the amount never drops below 0 and is at least every score offered. */
  lemma {:induction false} RecordBound(cs: seq<Cand>)
    ensures Fold(Unset, cs).amount >= 0.0
    ensures forall i :: 0 <= i < |cs| && cs[i].score.Some? ==> cs[i].score.value <= Fold(Unset, cs).amount
    ensures Fold(Unset, cs).person.None? <==> forall i :: 0 <= i < |cs| && cs[i].score.Some? ==> cs[i].score.value <= 0.0
    ensures Fold(Unset, cs).person.None? ==> Fold(Unset, cs) == Unset
  {
    if cs != [] {
      var init := cs[..|cs| - 1];
      RecordBound(init);
      assert forall i :: 0 <= i < |init| ==> cs[i] == init[i];
    }
  }

  /**
   * A record that has been taken holds the first highest positive score,
   * with that candidate's player and date.
   */
  lemma {:induction false} RecordIsFirstMax(cs: seq<Cand>)
    ensures Fold(Unset, cs).person.Some? ==>
      exists k :: FirstMax(cs, k) && Fold(Unset, cs) == Best(cs[k].score.value, Some(cs[k].person), cs[k].date)
  {
    if cs != [] {
      var init := cs[..|cs| - 1];
      var c := cs[|cs| - 1];
      RecordBound(init);
      RecordIsFirstMax(init);
      var b := Fold(Unset, init);
      assert forall i :: 0 <= i < |init| ==> cs[i] == init[i];
      if c.score.Some? && c.score.value > b.amount {
        assert FirstMax(cs, |cs| - 1);
      } else if b.person.Some? {
        var k :| FirstMax(init, k) && b == Best(init[k].score.value, Some(init[k].person), init[k].date);
        assert FirstMax(cs, k);
      }
    }
  }

  /* ---------------------------------------------------------------- */
  /* getStats                                                          */
  /* ---------------------------------------------------------------- */

  /** The row of the per-player table: `{Profit, WinRatio, ProfitPerSession, Sessions}`, keyed by `name`. */
  datatype PersonStats = PersonStats(name: string, profit: Num, winRatio: real, profitPerSession: Num, sessions: nat)

  /** Which of the four `overallStats` cards a record is. */
  datatype Kind = ChipLeader | BiggestWin | BiggestLoser | BiggestLoss

  /** The card's `desc` text. */
  function Desc(k: Kind): string
  {
    match k
    case ChipLeader => "Chip Leader"
    case BiggestWin => "Biggest single session win"
    case BiggestLoser => "Biggest Loser"
    case BiggestLoss => "Biggest single session loss"
  }

  /** One of the four `overallStats` cards, `{desc, amount, person}`; the single-session ones also carry a date. */
  datatype Record =
    | Record(kind: Kind, amount: real, person: Option<string>)
    | DatedRecord(kind: Kind, amount: real, person: Option<string>, date: Option<string>)

  function Results(h: seq<Entry>): (r: seq<Num>)
    ensures |r| == |h| && forall i :: 0 <= i < |h| ==> r[i] == h[i].result
  {
    seq(|h|, i requires 0 <= i < |h| => h[i].result)
  }

  /** `net` after the loop over a player's list. */
  function Total(h: seq<Entry>): Num
  {
    Sum(Results(h))
  }

  /** `wins`: the entries with `result > 0`. */
  function Wins(h: seq<Entry>): nat
  {
    if h == [] then 0 else Wins(h[..|h| - 1]) + if Positive(h[|h| - 1].result) then 1 else 0
  }

  /** The row `getStats` stores for player `p` with results `h`. */
  function StatsOf(p: string, h: seq<Entry>): PersonStats
    requires |h| > 0
  {
    PersonStats(p, Round2Num(Total(h)), Round2(Wins(h) as real / |h| as real), Round2Num(Div(Total(h), |h|)), |h|)
  }

  /** The chip leader's guard `net > amount`: any number but NaN may compete. */
  function NetScore(x: Num): Option<real>
  {
    if x.Fin? then Some(x.v) else None
  }

  /** The single win's guard `r > 0`. */
  function WinScore(x: Num): Option<real>
  {
    if x.Fin? && x.v > 0.0 then Some(x.v) else None
  }

  /** The losses' guard `r < 0`, competing with `Math.abs(r)`. */
  function LossScore(x: Num): Option<real>
  {
    if x.Fin? && x.v < 0.0 then Some(-x.v) else None
  }

  /** Every player's total, in key order, offered to a record scored by `score`. */
  function TotalCands(ss: seq<Session>, people: seq<string>, score: Num -> Option<real>): seq<Cand>
  {
    if people == [] then []
    else
      var p := people[|people| - 1];
      TotalCands(ss, people[..|people| - 1], score) + [Cand(score(Total(History(ss, p))), p, None)]
  }

  /** One player's single results offered to a record scored by `score`. */
  function EntryCands(p: string, h: seq<Entry>, score: Num -> Option<real>): seq<Cand>
  {
    if h == [] then [] else EntryCands(p, h[..|h| - 1], score) + [Cand(score(h[|h| - 1].result), p, h[|h| - 1].date)]
  }

  /** Every single result, player by player in key order, offered to a record scored by `score`. */
  function SingleCands(ss: seq<Session>, people: seq<string>, score: Num -> Option<real>): seq<Cand>
  {
    if people == [] then []
    else
      var p := people[|people| - 1];
      SingleCands(ss, people[..|people| - 1], score) + EntryCands(p, History(ss, p), score)
  }

  /** `Math.abs` */
  function Abs(a: real): real
  {
    if a < 0.0 then -a else a
  }

  /** `perPersonStats`: one row for each player of `people`, in that order. */
  function Rows(ss: seq<Session>, people: seq<string>): seq<PersonStats>
    requires forall k :: 0 <= k < |people| ==> people[k] in Flatten(ss)
  {
    if people == [] then []
    else
      var p := people[|people| - 1];
      HistoryNonEmpty(ss, p);
      Rows(ss, people[..|people| - 1]) + [StatsOf(p, History(ss, p))]
  }

  /** `overallStats`, in its fixed order. */
  function Overall(ss: seq<Session>): seq<Record>
  {
    var people := Players(ss);
    var chip := Fold(Unset, TotalCands(ss, people, NetScore));
    var win := Fold(Unset, SingleCands(ss, people, WinScore));
    var loser := Fold(Unset, TotalCands(ss, people, LossScore));
    var loss := Fold(Unset, SingleCands(ss, people, LossScore));
    Cards(chip, win, loser, loss)
  }

  /** The four cards built from the four records, the losses shown as `-Math.abs(amount)`. */
  function Cards(chip: Best, win: Best, loser: Best, loss: Best): seq<Record>
  {
    [ Record(ChipLeader, chip.amount, chip.person),
      DatedRecord(BiggestWin, win.amount, win.person, win.date),
      Record(BiggestLoser, -Abs(loser.amount), loser.person),
      DatedRecord(BiggestLoss, -Abs(loss.amount), loss.person, loss.date) ]
  }

  /** `getStats(sessions)`: the per-player rows in key order, and the four records. */
  method GetStats(sessions: seq<Session>) returns (perPerson: seq<PersonStats>, overall: seq<Record>)
    requires forall i :: 0 <= i < |sessions| ==> WellFormed(sessions[i])
    ensures perPerson == Rows(sessions, Players(sessions))
    ensures overall == Overall(sessions)
  {
    var order, hist := PeopleToSessions(sessions);
    var chip, win, loser, loss := Unset, Unset, Unset, Unset;
    perPerson := [];
    for i := 0 to |order|
      invariant perPerson == Rows(sessions, order[..i])
      invariant chip == Fold(Unset, TotalCands(sessions, order[..i], NetScore))
      invariant loser == Fold(Unset, TotalCands(sessions, order[..i], LossScore))
      invariant win == Fold(Unset, SingleCands(sessions, order[..i], WinScore))
      invariant loss == Fold(Unset, SingleCands(sessions, order[..i], LossScore))
    {
      var p := order[i];
      var s := hist[p];
      HistoryNonEmpty(sessions, p);
      RowsStep(sessions, order, i);
      CandsStep(sessions, order, i, NetScore);
      CandsStep(sessions, order, i, WinScore);
      CandsStep(sessions, order, i, LossScore);
      var net, wins;
      net, wins, win, loss := ScanResults(p, s, win, loss);
      FoldSnoc(Unset, TotalCands(sessions, order[..i], NetScore), Cand(NetScore(net), p, None));
      FoldSnoc(Unset, TotalCands(sessions, order[..i], LossScore), Cand(LossScore(net), p, None));
      chip, loser := TakeTotal(p, net, chip, loser);
      var row := PersonRow(p, s, net, wins);
      perPerson := perPerson + [row];
      FoldConcat(Unset, SingleCands(sessions, order[..i], WinScore), EntryCands(p, s, WinScore));
      FoldConcat(Unset, SingleCands(sessions, order[..i], LossScore), EntryCands(p, s, LossScore));
    }
    assert order[..|order|] == order;
    overall := Cards(chip, win, loser, loss);
  }

  /** The inner loop of `getStats` over one player's list: `net`, `wins` and the two single-session records. */
  method ScanResults(p: string, s: seq<Entry>, win0: Best, loss0: Best)
    returns (net: Num, wins: nat, win: Best, loss: Best)
    ensures net == Total(s) && wins == Wins(s)
    ensures win == Fold(win0, EntryCands(p, s, WinScore))
    ensures loss == Fold(loss0, EntryCands(p, s, LossScore))
  {
    net, wins, win, loss := Fin(0.0), 0, win0, loss0;
    for j := 0 to |s|
      invariant net == Total(s[..j]) && wins == Wins(s[..j])
      invariant win == Fold(win0, EntryCands(p, s[..j], WinScore))
      invariant loss == Fold(loss0, EntryCands(p, s[..j], LossScore))
    {
      var r := s[j].result;
      ScanStep(p, s, j);
      FoldSnoc(win0, EntryCands(p, s[..j], WinScore), Cand(WinScore(r), p, s[j].date));
      FoldSnoc(loss0, EntryCands(p, s[..j], LossScore), Cand(LossScore(r), p, s[j].date));
      if Positive(r) {
        wins := wins + 1;
      }
      net := Add(net, r);
      if r.Fin? && r.v < 0.0 && Abs(r.v) > loss.amount {
        loss := Best(Abs(r.v), Some(p), s[j].date);
      }
      if r.Fin? && r.v > 0.0 && r.v > win.amount {
        win := Best(r.v, Some(p), s[j].date);
      }
    }
    assert s[..|s|] == s;
  }

  /** The chip leader and biggest loser checks on a player's `net`. */
  method TakeTotal(p: string, net: Num, chip0: Best, loser0: Best) returns (chip: Best, loser: Best)
    ensures chip == Offer(chip0, Cand(NetScore(net), p, None))
    ensures loser == Offer(loser0, Cand(LossScore(net), p, None))
  {
    chip, loser := chip0, loser0;
    if net.Fin? && net.v > chip.amount {
      chip := Best(net.v, Some(p), None);
    }
    if net.Fin? && net.v < 0.0 && Abs(net.v) > loser.amount {
      loser := Best(Abs(net.v), Some(p), None);
    }
  }

  /**
   * The `personStats` entry built from the inner loop's `net` and `wins`:
   * Sessions is the length of the list, WinRatio lies in [0, 1], and Profit
   * and ProfitPerSession are NaN exactly when a result is, and otherwise
   * within half a cent of the exact sum and mean.
   */
  method PersonRow(p: string, s: seq<Entry>, net: Num, wins: nat) returns (row: PersonStats)
    requires |s| > 0 && net == Total(s) && wins == Wins(s)
    ensures row == StatsOf(p, s)
    ensures row.name == p && row.sessions == |s|
    ensures 0.0 <= row.winRatio <= 1.0
    ensures row.profit.NaN? <==> exists k :: 0 <= k < |s| && s[k].result.NaN?
    ensures row.profit.NaN? <==> row.profitPerSession.NaN?
    ensures (forall k :: 0 <= k < |s| ==> s[k].result.Fin?) ==>
      && row.profit.Fin? && -0.005 <= row.profit.v - RealSum(Results(s)) <= 0.005
      && row.profitPerSession.Fin? && -0.005 <= row.profitPerSession.v - RealSum(Results(s)) / |s| as real <= 0.005
  {
    row := PersonStats(p, Round2Num(net), Round2(wins as real / |s| as real), Round2Num(Div(net, |s|)), |s|);
    WinRatioUnit(p, s);
    ProfitClose(p, s);
  }

  /** Row `k` is the statistics of the `k`-th player, computed from that player's list. */
  lemma {:induction false} RowsAt(ss: seq<Session>, people: seq<string>, k: int)
    requires forall j :: 0 <= j < |people| ==> people[j] in Flatten(ss)
    requires 0 <= k < |people|
    ensures |Rows(ss, people)| == |people|
    ensures |History(ss, people[k])| > 0 && Rows(ss, people)[k] == StatsOf(people[k], History(ss, people[k]))
  {
    var init := people[..|people| - 1];
    assert forall j :: 0 <= j < |init| ==> init[j] == people[j];
    HistoryNonEmpty(ss, people[k]);
    RowsLength(ss, init);
    if k < |init| {
      RowsAt(ss, init, k);
    }
  }

  lemma {:induction false} RowsLength(ss: seq<Session>, people: seq<string>)
    requires forall j :: 0 <= j < |people| ==> people[j] in Flatten(ss)
    ensures |Rows(ss, people)| == |people|
  {
    if people != [] {
      var init := people[..|people| - 1];
      assert forall j :: 0 <= j < |init| ==> init[j] == people[j];
      RowsLength(ss, init);
    }
  }

  /** One more player in key order, as the outer loop of `getStats` sees it. */
  lemma RowsStep(ss: seq<Session>, order: seq<string>, i: int)
    requires order == Players(ss) && 0 <= i < |order|
    ensures |History(ss, order[i])| > 0
    ensures Rows(ss, order[..i + 1]) == Rows(ss, order[..i]) + [StatsOf(order[i], History(ss, order[i]))]
  {
    HistoryNonEmpty(ss, order[i]);
    assert order[..i + 1][..i] == order[..i];
  }

  /** The four records' candidates after one more player in key order. */
  lemma CandsStep(ss: seq<Session>, order: seq<string>, i: int, score: Num -> Option<real>)
    requires 0 <= i < |order|
    ensures TotalCands(ss, order[..i + 1], score) == TotalCands(ss, order[..i], score) + [Cand(score(Total(History(ss, order[i]))), order[i], None)]
    ensures SingleCands(ss, order[..i + 1], score) == SingleCands(ss, order[..i], score) + EntryCands(order[i], History(ss, order[i]), score)
  {
    assert order[..i + 1][..i] == order[..i];
  }

  /** One more entry of a player's list, as the inner loop of `getStats` sees it. */
  lemma ScanStep(p: string, s: seq<Entry>, j: int)
    requires 0 <= j < |s|
    ensures Total(s[..j + 1]) == Add(Total(s[..j]), s[j].result)
    ensures Wins(s[..j + 1]) == Wins(s[..j]) + if Positive(s[j].result) then 1 else 0
    ensures EntryCands(p, s[..j + 1], WinScore) == EntryCands(p, s[..j], WinScore) + [Cand(WinScore(s[j].result), p, s[j].date)]
    ensures EntryCands(p, s[..j + 1], LossScore) == EntryCands(p, s[..j], LossScore) + [Cand(LossScore(s[j].result), p, s[j].date)]
  {
    assert s[..j + 1][..j] == s[..j];
    assert Results(s[..j + 1])[..j] == Results(s[..j]);
  }

  lemma FoldSnoc(b: Best, cs: seq<Cand>, c: Cand)
    ensures Fold(b, cs + [c]) == Offer(Fold(b, cs), c)
  {
    assert (cs + [c])[..|cs|] == cs;
  }

  /** Everyone with a key in `peopleToSessions` has at least one entry. */
  lemma {:induction false} HistoryNonEmpty(ss: seq<Session>, p: string)
    requires p in Flatten(ss)
    ensures |History(ss, p)| > 0
  {
    var init := ss[..|ss| - 1];
    if p in Flatten(init) {
      HistoryNonEmpty(init, p);
    }
  }

  /* ---------------------------------------------------------------- */
  /* What the statistics page shows                                    */
  /* ---------------------------------------------------------------- */

  lemma {:induction false} WinsBound(h: seq<Entry>)
    ensures Wins(h) <= |h|
  {
    if h != [] {
      WinsBound(h[..|h| - 1]);
    }
  }

  /** Sessions counts the sessions the player played. */
  lemma PlayerSessions(ss: seq<Session>, p: string)
    requires p in Players(ss)
    ensures |History(ss, p)| > 0
    ensures StatsOf(p, History(ss, p)).sessions == SessionsAttended(ss, p)
  {
    HistoryNonEmpty(ss, p);
    HistoryLength(ss, p);
  }

  /** WinRatio lies in [0, 1]. */
  lemma WinRatioUnit(p: string, h: seq<Entry>)
    requires |h| > 0
    ensures 0.0 <= StatsOf(p, h).winRatio <= 1.0
  {
    WinsBound(h);
    assert 0.0 <= Wins(h) as real / |h| as real <= 1.0;
    Round2Unit(Wins(h) as real / |h| as real);
  }

  /**
   * Profit and ProfitPerSession are NaN exactly when one of the results is,
   * and otherwise within half a cent of the exact sum and mean.
   */
  lemma ProfitClose(p: string, h: seq<Entry>)
    requires |h| > 0
    ensures var row := StatsOf(p, h);
      && (row.profit.NaN? <==> exists k :: 0 <= k < |h| && h[k].result.NaN?)
      && (row.profit.NaN? <==> row.profitPerSession.NaN?)
      && ((forall k :: 0 <= k < |h| ==> h[k].result.Fin?) ==>
            && row.profit.Fin? && -0.005 <= row.profit.v - RealSum(Results(h)) <= 0.005
            && row.profitPerSession.Fin? && -0.005 <= row.profitPerSession.v - RealSum(Results(h)) / |h| as real <= 0.005)
  {
    var r := Results(h);
    SumPoison(r);
    assert (exists k :: 0 <= k < |h| && h[k].result.NaN?) <==> exists k :: 0 <= k < |r| && r[k].NaN?;
    if Total(h).Fin? {
      Round2Close(Total(h).v);
      Round2Close(Total(h).v / |h| as real);
    }
  }

  /**
   * A card shows the first candidate of `cs` with the highest positive
   * score, with its player and date, or amount 0 and nobody when no
   * candidate scores above 0.
   */
  ghost predicate Shows(amount: real, person: Option<string>, date: Option<string>, cs: seq<Cand>)
  {
    && (person.None? <==> forall i :: 0 <= i < |cs| && cs[i].score.Some? ==> cs[i].score.value <= 0.0)
    && (person.None? ==> amount == 0.0 && date.None?)
    && (person.Some? ==> exists k :: FirstMax(cs, k) && person == Some(cs[k].person) && date == cs[k].date && amount == cs[k].score.value)
  }

  lemma RecordShows(cs: seq<Cand>)
    ensures var b := Fold(Unset, cs); Shows(b.amount, b.person, b.date, cs)
  {
    RecordBound(cs);
    RecordIsFirstMax(cs);
  }

  /**
   * `overallStats` holds the chip leader, the biggest single session win,
   * the biggest loser and the biggest single session loss, in that order,
   * the wins never below 0 and the losses never above.
   */
  lemma OverallOrder(ss: seq<Session>)
    ensures var o := Overall(ss);
      && |o| == 4
      && o[0].Record? && o[0].kind == ChipLeader
      && o[1].DatedRecord? && o[1].kind == BiggestWin
      && o[2].Record? && o[2].kind == BiggestLoser
      && o[3].DatedRecord? && o[3].kind == BiggestLoss
      && o[0].amount >= 0.0 && o[1].amount >= 0.0 && o[2].amount <= 0.0 && o[3].amount <= 0.0
    ensures var o := Overall(ss);
      && Desc(o[0].kind) == "Chip Leader"
      && Desc(o[1].kind) == "Biggest single session win"
      && Desc(o[2].kind) == "Biggest Loser"
      && Desc(o[3].kind) == "Biggest single session loss"
  {
    var people := Players(ss);
    RecordBound(TotalCands(ss, people, NetScore));
    RecordBound(SingleCands(ss, people, WinScore));
  }

  /** The chip leader is the first player with the highest positive total, or nobody with amount 0. */
  lemma ChipLeaderShows(ss: seq<Session>)
    ensures Shows(Overall(ss)[0].amount, Overall(ss)[0].person, None, TotalCands(ss, Players(ss), NetScore))
  {
    var cs := TotalCands(ss, Players(ss), NetScore);
    var b := Fold(Unset, cs);
    RecordShows(cs);
    TotalUndated(ss, Players(ss), NetScore);
    assert Overall(ss)[0] == Record(ChipLeader, b.amount, b.person);
  }

  /** The biggest single session win is the first highest positive result, with its date. */
  lemma BiggestWinShows(ss: seq<Session>)
    ensures Overall(ss)[1].DatedRecord?
    ensures Shows(Overall(ss)[1].amount, Overall(ss)[1].person, Overall(ss)[1].date, SingleCands(ss, Players(ss), WinScore))
  {
    var cs := SingleCands(ss, Players(ss), WinScore);
    var b := Fold(Unset, cs);
    RecordShows(cs);
    assert Overall(ss)[1] == DatedRecord(BiggestWin, b.amount, b.person, b.date);
  }

  /** The biggest loser is the first player with the lowest negative total, shown as a negative amount. */
  lemma BiggestLoserShows(ss: seq<Session>)
    ensures Shows(-Overall(ss)[2].amount, Overall(ss)[2].person, None, TotalCands(ss, Players(ss), LossScore))
  {
    var cs := TotalCands(ss, Players(ss), LossScore);
    var b := Fold(Unset, cs);
    RecordShows(cs);
    RecordBound(cs);
    TotalUndated(ss, Players(ss), LossScore);
    assert Overall(ss)[2] == Record(BiggestLoser, -b.amount, b.person);
  }

  /** The biggest single session loss is the first lowest negative result, with its date, shown as a negative amount. */
  lemma BiggestLossShows(ss: seq<Session>)
    ensures Overall(ss)[3].DatedRecord?
    ensures Shows(-Overall(ss)[3].amount, Overall(ss)[3].person, Overall(ss)[3].date, SingleCands(ss, Players(ss), LossScore))
  {
    var cs := SingleCands(ss, Players(ss), LossScore);
    var b := Fold(Unset, cs);
    RecordShows(cs);
    RecordBound(cs);
    assert Overall(ss)[3] == DatedRecord(BiggestLoss, -b.amount, b.person, b.date);
  }

  /** The two cards of totals carry no date. */
  lemma {:induction false} TotalUndated(ss: seq<Session>, people: seq<string>, score: Num -> Option<real>)
    ensures Fold(Unset, TotalCands(ss, people, score)).date.None?
  {
    if people != [] {
      var init := people[..|people| - 1];
      var p := people[|people| - 1];
      TotalUndated(ss, init, score);
      FoldSnoc(Unset, TotalCands(ss, init, score), Cand(score(Total(History(ss, p))), p, None));
    }
  }

  /** A chip-leader or biggest-loser candidate is a player's total, in key order. */
  lemma {:induction false} TotalCandsAt(ss: seq<Session>, people: seq<string>, score: Num -> Option<real>, k: int)
    requires 0 <= k < |people|
    ensures |TotalCands(ss, people, score)| == |people|
    ensures TotalCands(ss, people, score)[k] == Cand(score(Total(History(ss, people[k]))), people[k], None)
  {
    var init := people[..|people| - 1];
    if k < |init| {
      TotalCandsAt(ss, init, score, k);
    } else if init != [] {
      TotalCandsAt(ss, init, score, 0);
    }
  }

}
