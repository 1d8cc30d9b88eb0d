/**
 * The consistency check run after loading: every session's nets should add
 * up to zero (what was paid out equals what was paid in); a session whose
 * total, rounded to cents, is not zero is reported with its date and the
 * amount it is off by.
 */
module Consistency {

  import opened Wrappers
  import opened JsNumbers
  import opened Ledger

  function Nets(people: seq<PersonResult>): (r: seq<Num>)
    ensures |r| == |people| && forall i :: 0 <= i < |people| ==> r[i] == people[i].net
  {
    seq(|people|, i requires 0 <= i < |people| => people[i].net)
  }

  function Outs(people: seq<PersonResult>): (r: seq<Num>)
    ensures |r| == |people| && forall i :: 0 <= i < |people| ==> r[i] == people[i].cashOut
  {
    seq(|people|, i requires 0 <= i < |people| => people[i].cashOut)
  }

  function Ins(people: seq<PersonResult>): (r: seq<Num>)
    ensures |r| == |people| && forall i :: 0 <= i < |people| ==> r[i] == people[i].cashIn
  {
    seq(|people|, i requires 0 <= i < |people| => people[i].cashIn)
  }

  /** `total` after the inner loop: the session's nets added in key order. */
  function SessionTotal(s: Session): Num
  {
    Sum(Nets(s.people))
  }

  /** `parseFloat(total.toFixed(2)) != 0`; NaN is never equal to 0, so it is reported. */
  predicate Flagged(s: Session)
  {
    Round2Num(SessionTotal(s)) != Fin(0.0)
  }

  /** The console line for a session: its date and the rounded amount it is off by. */
  datatype Report = Report(date: Option<string>, offBy: Num)

  function ReportOf(s: Session): Report
  {
    Report(s.date, Round2Num(SessionTotal(s)))
  }

  /** The lines logged for `ss`, in session order. */
  function Reports(ss: seq<Session>): seq<Report>
  {
    if ss == [] then []
    else
      var last := ss[|ss| - 1];
      Reports(ss[..|ss| - 1]) + if Flagged(last) then [ReportOf(last)] else []
  }

  /** `validateTotal(sessions)`: reads the sessions and changes nothing; its only effect is the log. */
  method ValidateTotal(sessions: seq<Session>) returns (report: seq<Report>)
    ensures report == Reports(sessions)
  {
    report := [];
    for i := 0 to |sessions|
      invariant report == Reports(sessions[..i])
    {
      var s := sessions[i];
      var total := AddNets(s.people);
      total := Round2Num(total);
      if total != Fin(0.0) {
        report := report + [Report(s.date, total)];
      }
      assert sessions[..i + 1][..i] == sessions[..i];
    }
    assert sessions[..|sessions|] == sessions;
  }

  /** The inner loop of `validateTotal`. */
  method AddNets(people: seq<PersonResult>) returns (total: Num)
    ensures total == Sum(Nets(people))
  {
    total := Fin(0.0);
    for j := 0 to |people|
      invariant total == Sum(Nets(people[..j]))
    {
      total := Add(total, people[j].net);
      assert Nets(people[..j + 1])[..j] == Nets(people[..j]);
    }
    assert people[..|people|] == people;
  }

  /**
   * A session is reported exactly when one of its nets is NaN or, all of
   * them being finite, their exact sum is at least half a cent away from 0.
   */
  lemma FlaggedIff(s: Session)
    ensures (exists i :: 0 <= i < |s.people| && s.people[i].net.NaN?) ==> Flagged(s)
    ensures (forall i :: 0 <= i < |s.people| ==> s.people[i].net.Fin?) ==>
      (Flagged(s) <==> RealSum(Nets(s.people)) <= -0.005 || 0.005 <= RealSum(Nets(s.people)))
  {
    var nets := Nets(s.people);
    SumPoison(nets);
    assert (exists i :: 0 <= i < |s.people| && s.people[i].net.NaN?) ==> exists i :: 0 <= i < |nets| && nets[i].NaN?;
    if SessionTotal(s).Fin? {
      Round2IsZero(SessionTotal(s).v);
    }
  }

  /** Exactly the flagged sessions are reported, each once, in order. */
  lemma {:induction false} ReportsFlagged(ss: seq<Session>)
    ensures |Reports(ss)| <= |ss|
    ensures Reports(ss) == [] <==> forall i :: 0 <= i < |ss| ==> !Flagged(ss[i])
    ensures forall r :: r in Reports(ss) ==> exists i :: 0 <= i < |ss| && Flagged(ss[i]) && r == ReportOf(ss[i])
    ensures forall i :: 0 <= i < |ss| && Flagged(ss[i]) ==> ReportOf(ss[i]) in Reports(ss)
  {
    if ss != [] {
      var init := ss[..|ss| - 1];
      ReportsFlagged(init);
      assert forall i :: 0 <= i < |init| ==> ss[i] == init[i];
      forall r | r in Reports(ss)
        ensures exists i :: 0 <= i < |ss| && Flagged(ss[i]) && r == ReportOf(ss[i])
      {
        if r !in Reports(init) {
          assert Flagged(ss[|ss| - 1]) && r == ReportOf(ss[|ss| - 1]);
        }
      }
    }
  }

  /**
   * When every net is cash out minus cash in, as loading makes it, a
   * session's total is what was paid out minus what was paid in (NaN when
   * either is).
   */
  lemma {:induction false} TotalIsOutMinusIn(people: seq<PersonResult>)
    requires forall i :: 0 <= i < |people| ==> people[i].net == Sub(people[i].cashOut, people[i].cashIn)
    ensures Sum(Nets(people)) == Sub(Sum(Outs(people)), Sum(Ins(people)))
  {
    if people != [] {
      var init := people[..|people| - 1];
      TotalIsOutMinusIn(init);
      assert Nets(people)[..|people| - 1] == Nets(init);
      assert Outs(people)[..|people| - 1] == Outs(init);
      assert Ins(people)[..|people| - 1] == Ins(init);
    }
  }

  /** A session whose cash-outs add up to exactly its (finite) cash-ins is never reported. */
  lemma ConservedNotFlagged(s: Session)
    requires forall i :: 0 <= i < |s.people| ==> s.people[i].net == Sub(s.people[i].cashOut, s.people[i].cashIn)
    requires Sum(Ins(s.people)).Fin? && Sum(Outs(s.people)) == Sum(Ins(s.people))
    ensures !Flagged(s)
  {
    TotalIsOutMinusIn(s.people);
    Round2IsZero(0.0);
  }

}
