/**
 * The node's own usage answers against its users' (backend/openvpn/stats.go,
 * backend/l2tp/stats.go): two readings of the same bytes.
 */
module NodeUsage {
  import opened Traffic
  import opened InterfaceCounters
  import OpenVpn = OpenVpnWorld
  import OpenVpnBilling
  import L2tp = L2tpBilling

  /** The panel asks for the node's usage at some moments of a run, resetting at some of them. */
  datatype Question = Question(moment: nat, reset: bool)

  ghost predicate InOrder(questions: seq<Question>, length: nat) {
    && (forall i :: 0 <= i < |questions| ==> questions[i].moment <= length)
    && (forall i, j :: 0 <= i < j < |questions| ==> questions[i].moment <= questions[j].moment)
  }

  ghost function OpenVpnCalls(events: seq<OpenVpn.Event>, questions: seq<Question>): (calls: seq<Call>)
    requires InOrder(questions, |events|)
    ensures |calls| == |questions|
    ensures forall i :: 0 <= i < |questions| ==>
              calls[i] == Call(OpenVpn.After(events, questions[i].moment).money.total, questions[i].reset)
  {
    seq(|questions|, i requires 0 <= i < |questions| =>
      Call(OpenVpn.After(events, questions[i].moment).money.total, questions[i].reset))
  }

  ghost function L2tpCalls(events: seq<L2tp.Event>, questions: seq<Question>): (calls: seq<Call>)
    requires InOrder(questions, |events|)
    ensures |calls| == |questions|
    ensures forall i :: 0 <= i < |questions| ==>
              calls[i] == Call(L2tp.After(events, questions[i].moment).money.total, questions[i].reset)
  {
    seq(|questions|, i requires 0 <= i < |questions| =>
      Call(L2tp.After(events, questions[i].moment).money.total, questions[i].reset))
  }

  lemma {:induction false} OpenVpnTotalGrows(events: seq<OpenVpn.Event>, m: nat, n: nat)
    requires m <= n <= |events|
    ensures OpenVpn.After(events, m).money.total.AtMost(OpenVpn.After(events, n).money.total)
  {
    hide OpenVpn.After;
    if m < n {
      OpenVpnTotalGrows(events, m, n - 1);
      OpenVpnBilling.TotalNeverShrinks(events, n - 1);
    }
  }

  lemma {:induction false} L2tpTotalGrows(events: seq<L2tp.Event>, m: nat, n: nat)
    requires m <= n <= |events|
    ensures L2tp.After(events, m).money.total.AtMost(L2tp.After(events, n).money.total)
  {
    hide L2tp.After;
    if m < n {
      L2tpTotalGrows(events, m, n - 1);
      L2tp.TotalNeverShrinks(events, n - 1);
    }
  }

  /**
   * What the node has reported on resets and what it would report now is what its
   * users' running totals, added up, have grown by since it was first asked.
   */
  lemma OpenVpnNodeUsage(events: seq<OpenVpn.Event>, questions: seq<Question>, n: nat, d: Direction)
    requires InOrder(questions, |events|) && 0 < n <= |questions|
    ensures var calls := OpenVpnCalls(events, questions);
            var first, now := OpenVpn.After(events, questions[0].moment), OpenVpn.After(events, questions[n - 1].moment);
            && After(calls, n).Set?
            && Reported(calls, n, d) + (now.money.total.Of(d) - After(calls, n).bytes.Of(d))
               == SumMap(now.money.cumulative, d) - SumMap(first.money.cumulative, d)
  {
    hide OpenVpn.After, SumMap;
    var calls := OpenVpnCalls(events, questions);
    forall i, j | 0 <= i < j < |calls| ensures calls[i].total.AtMost(calls[j].total) {
      OpenVpnTotalGrows(events, questions[i].moment, questions[j].moment);
    }
    DeltasConserve(calls, n, d);
    OpenVpnBilling.ViewsAgree(events, questions[0].moment, d);
    OpenVpnBilling.ViewsAgree(events, questions[n - 1].moment, d);
    hide InterfaceCounters.After, Reported;
  }

  lemma L2tpNodeUsage(events: seq<L2tp.Event>, questions: seq<Question>, n: nat, d: Direction)
    requires InOrder(questions, |events|) && 0 < n <= |questions|
    ensures var calls := L2tpCalls(events, questions);
            var first, now := L2tp.After(events, questions[0].moment), L2tp.After(events, questions[n - 1].moment);
            && After(calls, n).Set?
            && Reported(calls, n, d) + (now.money.total.Of(d) - After(calls, n).bytes.Of(d))
               == SumMap(now.money.cumulative, d) - SumMap(first.money.cumulative, d)
  {
    hide L2tp.After, SumMap;
    var calls := L2tpCalls(events, questions);
    forall i, j | 0 <= i < j < |calls| ensures calls[i].total.AtMost(calls[j].total) {
      L2tpTotalGrows(events, questions[i].moment, questions[j].moment);
    }
    DeltasConserve(calls, n, d);
    L2tp.ViewsAgree(events, questions[0].moment, d);
    L2tp.ViewsAgree(events, questions[n - 1].moment, d);
    hide InterfaceCounters.After, Reported;
  }
}
