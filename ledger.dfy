/**
 * The normalised ledger that cleanData produces and every statistic reads:
 * a sequence of sessions in spreadsheet-row order, each listing its players.
 */
module Ledger {

  import opened Wrappers
  import opened JsNumbers
  import opened Seqs

  /** One player's line in one session; `cashIn` and `cashOut` are the source's `in` and `out`. */
  datatype PersonResult = PersonResult(name: string, cashIn: Num, cashOut: Num, net: Num)

  /**
   * `session.people` is a JavaScript object keyed by player name, listed here
   * in insertion order. `date` is `None` when the row had no Date column
   * (the source then stores `undefined`).
   */
  datatype Session = Session(date: Option<string>, people: seq<PersonResult>)

  /** The keys of `session.people`, in iteration order. */
  function Names(people: seq<PersonResult>): (r: seq<string>)
    ensures |r| == |people|
    ensures forall i :: 0 <= i < |people| ==> r[i] == people[i].name
  {
    if people == [] then [] else Names(people[..|people| - 1]) + [people[|people| - 1].name]
  }

  /** An object cannot hold one key twice: a session lists each player once. */
  predicate WellFormed(s: Session)
  {
    Distinct(Names(s.people))
  }

  /** `p in s.people` */
  predicate Attends(s: Session, p: string)
  {
    p in Names(s.people)
  }

  /** `people[p].net`: the entry stored last under `p`. */
  function NetOf(people: seq<PersonResult>, p: string): Num
    requires p in Names(people)
  {
    var last := people[|people| - 1];
    if last.name == p then last.net else NetOf(people[..|people| - 1], p)
  }

  /** `p in s.people ? s.people[p].net : 0` */
  function NetIn(s: Session, p: string): Num
  {
    if Attends(s, p) then NetOf(s.people, p) else Fin(0.0)
  }

  /** Every key a `for (const p in s.people)` visits in a loop over `ss`, in order. */
  function Flatten(ss: seq<Session>): seq<string>
  {
    if ss == [] then [] else Flatten(ss[..|ss| - 1]) + Names(ss[|ss| - 1].people)
  }

  /** The number of sessions in `ss` that `p` played. */
  function SessionsAttended(ss: seq<Session>, p: string): nat
  {
    if ss == [] then 0
    else SessionsAttended(ss[..|ss| - 1], p) + (if Attends(ss[|ss| - 1], p) then 1 else 0)
  }

  /** A name is visited exactly when some session lists it. */
  lemma {:induction false} FlattenMembers(ss: seq<Session>, p: string)
    ensures p in Flatten(ss) <==> exists i :: 0 <= i < |ss| && Attends(ss[i], p)
  {
    if ss != [] {
      var init := ss[..|ss| - 1];
      FlattenMembers(init, p);
      if p in Flatten(init) {
        var i :| 0 <= i < |init| && Attends(init[i], p);
        assert ss[i] == init[i];
      }
      if exists i :: 0 <= i < |ss| && Attends(ss[i], p) {
        var i :| 0 <= i < |ss| && Attends(ss[i], p);
        if i < |init| { assert init[i] == ss[i]; }
      }
    }
  }

  /** Since a session lists a player once, visits of a name count the sessions that player attended. */
  lemma {:induction false} VisitsCountSessions(ss: seq<Session>, p: string)
    requires forall i :: 0 <= i < |ss| ==> WellFormed(ss[i])
    ensures Occ(Flatten(ss), p) == SessionsAttended(ss, p)
  {
    if ss != [] {
      var init := ss[..|ss| - 1];
      VisitsCountSessions(init, p);
      OccConcat(Flatten(init), Names(ss[|ss| - 1].people), p);
      OccDistinct(Names(ss[|ss| - 1].people), p);
    }
  }

}
