/** The alert check of src/screens/HomeScreen.js as a function of the
    remembered signature, the alerts on display and the polled feed. */
module Alerts {
  import opened Values

  /** One entry of `result.alerts`; `kind` is its `type`. */
  datatype AlertEvent = AlertEvent(kind: string, message: string)

  /** What `/api/check-alerts` yields, or the exception of a failed poll.
      An absent `alert_count` is None. */
  datatype AlertPayload = PollFailed | AlertFeed(alertCount: Option<int>, alerts: seq<AlertEvent>)

  /** The feed arrived and reports a positive alert count; an absent count
      is not positive. */
  predicate Raised(p: AlertPayload) {
    p.AlertFeed? && p.alertCount.Some? && p.alertCount.value > 0
  }

  /** The parts in order with `sep` between neighbours: '' for no parts,
      the part itself for one. */
  function Join(parts: seq<string>, sep: string): (s: string)
    ensures parts == [] ==> s == ""
    ensures parts != [] ==> parts[0] <= s
    ensures forall i :: 0 <= i < |parts| ==> |parts[i]| <= |s|
  {
    if parts == [] then ""
    else if |parts| == 1 then parts[0]
    else parts[0] + sep + Join(parts[1..], sep)
  }

  /** The type of each alert, in order. */
  function Kinds(alerts: seq<AlertEvent>): (ks: seq<string>)
    ensures |ks| == |alerts|
    ensures forall i :: 0 <= i < |alerts| ==> ks[i] == alerts[i].kind
  {
    seq(|alerts|, i requires 0 <= i < |alerts| => alerts[i].kind)
  }

  /** The alert types joined by commas: what the screen remembers to tell
      one set of alerts from the next. */
  function Signature(alerts: seq<AlertEvent>): (sig: string)
    ensures alerts == [] ==> sig == ""
    ensures |alerts| == 1 ==> sig == alerts[0].kind
    ensures alerts != [] ==> alerts[0].kind <= sig
  {
    Join(Kinds(alerts), ",")
  }

  /** The displayed alerts, the remembered signature and the popup message
      after one check. */
  datatype AlertOutcome = AlertOutcome(alerts: seq<AlertEvent>, signature: string, popup: Option<string>)

  /** `checkForAlerts` from the state (`shown`, `last`). When the count is
      positive but the list is empty and `last` is not '', reading
      `alerts[0].message` throws; the catch leaves the signature as it was. */
  function CheckAlerts(shown: seq<AlertEvent>, last: string, p: AlertPayload): (o: AlertOutcome)
    ensures p.PollFailed? ==> o == AlertOutcome(shown, last, None)
    ensures p.AlertFeed? && !Raised(p) ==> o == AlertOutcome([], "", None)
    ensures Raised(p) ==> o.alerts == p.alerts
    ensures Raised(p) && p.alerts != [] ==> o.signature == Signature(p.alerts)
    ensures Raised(p) && p.alerts == [] ==> o.signature == last
    ensures o.popup.Some? <==> Raised(p) && p.alerts != [] && Signature(p.alerts) != last
    ensures o.popup.Some? ==> o.popup.value == p.alerts[0].message
  {
    match p
    case PollFailed => AlertOutcome(shown, last, None)
    case AlertFeed(count, alerts) =>
      if count.Some? && count.value > 0 then
        var summary := Signature(alerts);
        if summary == last then AlertOutcome(alerts, last, None)
        else if alerts == [] then AlertOutcome(alerts, last, None)
        else AlertOutcome(alerts, summary, Some(alerts[0].message))
      else AlertOutcome([], "", None)
  }

  /** Checking the same feed again right after a check never notifies. */
  lemma SecondCheckSilent(shown: seq<AlertEvent>, last: string, p: AlertPayload)
    ensures var o := CheckAlerts(shown, last, p);
      CheckAlerts(o.alerts, o.signature, p).popup == None
  {
  }

  /** A clear (count not positive) resets the signature whatever it was,
      so the next raised non-empty feed notifies unless its signature is ''. */
  lemma ClearRearms(shown: seq<AlertEvent>, last: string, p: AlertPayload, q: AlertPayload)
    requires p.AlertFeed? && !Raised(p)
    requires Raised(q) && q.alerts != [] && Signature(q.alerts) != ""
    ensures var o := CheckAlerts(shown, last, p);
      CheckAlerts(o.alerts, o.signature, q).popup == Some(q.alerts[0].message)
  {
  }

  predicate CommaFree(parts: seq<string>) {
    forall i :: 0 <= i < |parts| ==> ',' !in parts[i]
  }

  /** Index of the first ',' in `s`, or `|s|` when there is none. */
  function FirstComma(s: string): (k: nat)
    ensures k <= |s|
  {
    if s == [] then 0 else if s[0] == ',' then 0 else 1 + FirstComma(s[1..])
  }

  /** A comma-free prefix followed by a comma or by the end is the text
      before the first comma. */
  lemma {:induction false} FirstCommaAfter(t: string, x: string)
    requires ',' !in x && |x| <= |t| && t[..|x|] == x
    requires |x| == |t| || t[|x|] == ','
    ensures FirstComma(t) == |x|
  {
    if x != [] {
      assert t[0] == x[0];
      assert t[1..][..|x| - 1] == x[1..];
      FirstCommaAfter(t[1..], x[1..]);
    }
  }

  /** The first part of a comma-free join is the text before its first
      comma, and it is all of the join exactly when there is one part. */
  lemma HeadOfJoin(xs: seq<string>)
    requires xs != [] && CommaFree(xs)
    ensures var s := Join(xs, ",");
      && |xs[0]| <= |s| && s[..|xs[0]|] == xs[0]
      && FirstComma(s) == |xs[0]|
      && (|xs| == 1 <==> |xs[0]| == |s|)
      && (|xs| > 1 ==> s[|xs[0]| + 1..] == Join(xs[1..], ","))
  {
    var s := Join(xs, ",");
    assert ',' !in xs[0];
    if |xs| > 1 {
      assert s == xs[0] + "," + Join(xs[1..], ",");
      assert s[|xs[0]|] == ',';
    }
    FirstCommaAfter(s, xs[0]);
  }

  /** When no part contains a comma, joining a non-empty list with ','
      loses nothing. */
  lemma {:induction false} JoinInjective(xs: seq<string>, ys: seq<string>)
    requires xs != [] && ys != [] && CommaFree(xs) && CommaFree(ys)
    requires Join(xs, ",") == Join(ys, ",")
    ensures xs == ys
  {
    HeadOfJoin(xs);
    HeadOfJoin(ys);
    if |xs| > 1 {
      assert CommaFree(xs[1..]) && CommaFree(ys[1..]);
      JoinInjective(xs[1..], ys[1..]);
      assert xs == [xs[0]] + xs[1..];
      assert ys == [ys[0]] + ys[1..];
    }
  }

  /** With comma-free types, after a raised non-empty feed the next raised
      non-empty feed notifies exactly when its list of types differs. */
  lemma NotifiesIffTypesChange(shown: seq<AlertEvent>, last: string, p: AlertPayload, q: AlertPayload)
    requires Raised(p) && p.alerts != [] && Raised(q) && q.alerts != []
    requires CommaFree(Kinds(p.alerts)) && CommaFree(Kinds(q.alerts))
    ensures var o := CheckAlerts(shown, last, p);
      CheckAlerts(o.alerts, o.signature, q).popup.Some? <==> Kinds(q.alerts) != Kinds(p.alerts)
  {
    if Signature(q.alerts) == Signature(p.alerts) {
      JoinInjective(Kinds(q.alerts), Kinds(p.alerts));
    }
  }

  /** A type with a comma can make two different feeds look alike. */
  lemma CommaTypesCollide()
    ensures Signature([AlertEvent("a,b", "m")]) == Signature([AlertEvent("a", "m"), AlertEvent("b", "m")])
  {
    assert Kinds([AlertEvent("a", "m"), AlertEvent("b", "m")]) == ["a", "b"];
    assert ["a", "b"][1..] == ["b"];
  }
}
