/** `check_nws_severe`: project each active NWS alert into a message. Alerts
    pass only the recency gate; they are neither deduplicated nor
    keyword-filtered. */
module Nws {
  import opened Wrappers
  import opened Text
  import opened Recency
  import opened Notify
  import opened Feeds

  const NWS_PORTAL := "https://www.weather.gov/alerts"
  const DEFAULT_EVENT := "NWS Alert"
  const AREA_LIMIT := 140

  /** An alert's `areaDesc`: absent (read as ""), a string, or a value such
      as JSON null, a number, a boolean or an object, on which the `[:140]`
      slice raises. */
  datatype AreaDesc = NoArea | Area(text: string) | Unsliceable

  /** The keys of an alert's `properties` object that the loop reads. A key
      whose value is JSON null reads as absent, except `areaDesc`. */
  datatype Props = Props(
    event: Option<string>, areaDesc: AreaDesc,
    sent: Option<string>, effective: Option<string>, onset: Option<string>,
    uri: Option<string>, id: Option<string>)

  /** A feature's `properties`: an object (a feature that is not an object,
      or has no `properties`, reads as an object with no keys), or a value
      that is not an object, on which the lookup raises. */
  datatype Properties = Fields(props: Props) | NotAnObject

  datatype Feature = Feature(properties: Properties)

  /** The outcome of the GET: a transport failure, or a status and the
      `features` list (`None` when the body is not JSON; a body without the
      list reads as an empty list). */
  datatype NwsResponse = FetchFailed | Response(status: int, features: Option<seq<Feature>>)

  /** What a loop does with one feature: raise, which ends the call with
      what was sent so far, skip it, or send a message. */
  datatype Outcome = Raise | Skip | Send(msg: Message)

  function AlertTime(p: Props): string
  {
    FirstNonEmpty([p.sent, p.effective, p.onset], "")
  }

  function SampleTime(p: Props): string
  {
    FirstNonEmpty([p.sent, p.effective], "Unknown time")
  }

  function AlertLink(p: Props): string
  {
    FirstNonEmpty([p.uri, p.id], NWS_PORTAL)
  }

  function Truncate(s: string, n: nat): (r: string)
    ensures |r| <= n && r <= s
    ensures |s| <= n ==> r == s
  {
    if |s| <= n then s else s[..n]
  }

  function AreaText(a: AreaDesc): string
    requires !a.Unsliceable?
  {
    if a.Area? then a.text else ""
  }

  function AlertMessage(p: Props): Message
    requires !p.areaDesc.Unsliceable?
  {
    WeatherMessage(p.event.GetOr(DEFAULT_EVENT), Truncate(AreaText(p.areaDesc), AREA_LIMIT), AlertLink(p))
  }

  function SampleMessageOf(p: Props): Message
    requires !p.areaDesc.Unsliceable?
  {
    WeatherSample(p.event.GetOr(DEFAULT_EVENT), Truncate(AreaText(p.areaDesc), AREA_LIMIT),
                  SampleTime(p), AlertLink(p))
  }

  /** The timestamp of a well-formed feature is within the window. */
  predicate RecentFeature(f: Feature, clock: Clock)
  {
    f.properties.Fields? && IsRecent(clock.parse, AlertTime(f.properties.props), clock.windowMinutes, clock.now)
  }

  /** Normal mode on one feature: a non-object `properties` raises; an old
      alert is skipped before its area is read; a recent one raises on an
      unsliceable area and is sent otherwise. */
  function AlertOutcome(f: Feature, clock: Clock): Outcome
  {
    match f.properties
    case NotAnObject => Raise
    case Fields(p) =>
      if !IsRecent(clock.parse, AlertTime(p), clock.windowMinutes, clock.now) then Skip
      else if p.areaDesc.Unsliceable? then Raise
      else Send(AlertMessage(p))
  }

  /** Debug mode on one feature: no recency gate, same ways to raise. */
  function SampleOutcome(f: Feature): Outcome
  {
    match f.properties
    case NotAnObject => Raise
    case Fields(p) => if p.areaDesc.Unsliceable? then Raise else Send(SampleMessageOf(p))
  }

  /** Normal mode: one message per recent alert, in feed order, until a
      feature raises. */
  function Alerts(feats: seq<Feature>, clock: Clock): seq<Message>
  {
    if feats == [] then []
    else match AlertOutcome(feats[0], clock)
      case Raise => []
      case Skip => Alerts(feats[1..], clock)
      case Send(m) => [m] + Alerts(feats[1..], clock)
  }

  /** Debug mode: one message per alert given, until a feature raises. */
  function DebugAlerts(feats: seq<Feature>): seq<Message>
  {
    if feats == [] then []
    else match SampleOutcome(feats[0])
      case Send(m) => [m] + DebugAlerts(feats[1..])
      case _ => []
  }

  /** The number of well-formed features whose timestamp is recent. */
  function RecentCount(feats: seq<Feature>, clock: Clock): nat
  {
    if feats == [] then 0
    else (if RecentFeature(feats[0], clock) then 1 else 0) + RecentCount(feats[1..], clock)
  }

  /** Everything one call sends. */
  function NwsMessages(resp: NwsResponse, clock: Clock, debug: bool): seq<Message>
  {
    match resp
    case FetchFailed => []
    case Response(status, features) =>
      if status != 200 then []
      else match features
        case None => []
        case Some(feats) => if debug then DebugAlerts(FirstTwo(feats)) else Alerts(feats, clock)
  }

  method CheckNwsSevere(resp: NwsResponse, clock: Clock, debug: bool)
    returns (sent: seq<Message>, totalSent: nat)
    ensures sent == NwsMessages(resp, clock, debug)
    ensures totalSent == |sent|
  {
    sent, totalSent := [], 0;
    if resp.FetchFailed? || resp.status != 200 || resp.features.None? {
      return;
    }
    var feats := resp.features.value;
    if debug {
      sent := SendDebugAlerts(FirstTwo(feats));
    } else {
      sent := SendAlerts(feats, clock);
    }
    totalSent := |sent|;
  }

  /** The debug loop, which sends the alerts it is given until one raises. */
  method SendDebugAlerts(feats: seq<Feature>) returns (sent: seq<Message>)
    ensures sent == DebugAlerts(feats)
  {
    sent := [];
    var i := 0;
    while i < |feats|
      invariant 0 <= i <= |feats|
      invariant DebugAlerts(feats) == sent + DebugAlerts(feats[i..])
    {
      assert feats[i..][1..] == feats[i + 1..];
      if feats[i].properties.NotAnObject? {
        break;
      }
      var p := feats[i].properties.props;
      if p.areaDesc.Unsliceable? {
        break;
      }
      sent := sent + [SampleMessageOf(p)];
      i := i + 1;
    }
  }

  /** The normal loop, which sends the recent alerts. */
  method SendAlerts(feats: seq<Feature>, clock: Clock) returns (sent: seq<Message>)
    ensures sent == Alerts(feats, clock)
  {
    sent := [];
    var i := 0;
    while i < |feats|
      invariant 0 <= i <= |feats|
      invariant Alerts(feats, clock) == sent + Alerts(feats[i..], clock)
    {
      assert feats[i..][1..] == feats[i + 1..];
      if feats[i].properties.NotAnObject? {
        break;
      }
      var p := feats[i].properties.props;
      var ts := AlertTime(p);
      if IsRecent(clock.parse, ts, clock.windowMinutes, clock.now) {
        if p.areaDesc.Unsliceable? {
          break;
        }
        sent := sent + [AlertMessage(p)];
      }
      i := i + 1;
    }
  }

  /** The timestamp falls back from sent to effective to onset, then "". */
  lemma AlertTimeFallback(p: Props)
    ensures Val(p.sent) != "" ==> AlertTime(p) == Val(p.sent)
    ensures Val(p.sent) == "" && Val(p.effective) != "" ==> AlertTime(p) == Val(p.effective)
    ensures Val(p.sent) == "" && Val(p.effective) == "" ==> AlertTime(p) == Val(p.onset)
  {
    assert [p.sent, p.effective, p.onset] == [p.sent] + [p.effective, p.onset];
    assert [p.effective, p.onset] == [p.effective] + [p.onset];
    assert [p.onset] == [p.onset] + [];
    FirstNonEmptyStep(p.sent, [p.effective, p.onset], "");
    FirstNonEmptyStep(p.effective, [p.onset], "");
    FirstNonEmptyStep(p.onset, [], "");
  }

  /** The link falls back from uri to id to the alerts portal, so it is never empty. */
  lemma AlertLinkFallback(p: Props)
    ensures Val(p.uri) != "" ==> AlertLink(p) == Val(p.uri)
    ensures Val(p.uri) == "" && Val(p.id) != "" ==> AlertLink(p) == Val(p.id)
    ensures Val(p.uri) == "" && Val(p.id) == "" ==> AlertLink(p) == NWS_PORTAL
    ensures AlertLink(p) != ""
  {
    assert [p.uri, p.id] == [p.uri] + [p.id];
    assert [p.id] == [p.id] + [];
    FirstNonEmptyStep(p.uri, [p.id], NWS_PORTAL);
    FirstNonEmptyStep(p.id, [], NWS_PORTAL);
  }

  /** Every alert sent in normal mode is the projection of a well-formed,
      recent feature of the list. */
  lemma {:induction false} AlertsAreRecent(feats: seq<Feature>, clock: Clock)
    ensures forall m :: m in Alerts(feats, clock) ==>
      exists i :: 0 <= i < |feats| && RecentFeature(feats[i], clock) &&
        !feats[i].properties.props.areaDesc.Unsliceable? &&
        m == AlertMessage(feats[i].properties.props)
  {
    if feats != [] && !AlertOutcome(feats[0], clock).Raise? {
      AlertsAreRecent(feats[1..], clock);
      forall m | m in Alerts(feats, clock)
        ensures exists i :: (0 <= i < |feats| && RecentFeature(feats[i], clock) &&
          !feats[i].properties.props.areaDesc.Unsliceable? &&
          m == AlertMessage(feats[i].properties.props))
      {
        if m !in Alerts(feats[1..], clock) {
          assert RecentFeature(feats[0], clock);
        } else {
          var i :| 0 <= i < |feats[1..]| && RecentFeature(feats[1..][i], clock) &&
            !feats[1..][i].properties.props.areaDesc.Unsliceable? &&
            m == AlertMessage(feats[1..][i].properties.props);
          assert feats[1..][i] == feats[i + 1];
        }
      }
    }
  }

  /** When no feature raises, each recent alert is sent. */
  lemma {:induction false} AlertsComplete(feats: seq<Feature>, clock: Clock, i: int)
    requires forall j :: 0 <= j < |feats| ==> !AlertOutcome(feats[j], clock).Raise?
    requires 0 <= i < |feats| && RecentFeature(feats[i], clock)
    ensures !feats[i].properties.props.areaDesc.Unsliceable?
    ensures AlertMessage(feats[i].properties.props) in Alerts(feats, clock)
  {
    assert !AlertOutcome(feats[0], clock).Raise?;
    if i > 0 {
      assert feats[1..][i - 1] == feats[i];
      AlertsComplete(feats[1..], clock, i - 1);
    }
  }

  /** When no feature raises, exactly one message is sent per recent alert:
      none is dropped as a duplicate and none is sent twice. */
  lemma {:induction false} AlertsCount(feats: seq<Feature>, clock: Clock)
    requires forall j :: 0 <= j < |feats| ==> !AlertOutcome(feats[j], clock).Raise?
    ensures |Alerts(feats, clock)| == RecentCount(feats, clock)
  {
    if feats != [] {
      assert !AlertOutcome(feats[0], clock).Raise?;
      AlertsCount(feats[1..], clock);
    }
  }

  /** The alerts of a list are those of its front followed by those of its
      back, as long as nothing in the front raises: messages keep feed order. */
  lemma {:induction false} AlertsSplit(feats: seq<Feature>, clock: Clock, k: int)
    requires 0 <= k <= |feats|
    requires forall j :: 0 <= j < k ==> !AlertOutcome(feats[j], clock).Raise?
    ensures Alerts(feats, clock) == Alerts(feats[..k], clock) + Alerts(feats[k..], clock)
  {
    if k > 0 {
      assert !AlertOutcome(feats[0], clock).Raise?;
      assert feats[..k][1..] == feats[1..][..k - 1];
      assert feats[k..] == feats[1..][k - 1..];
      AlertsSplit(feats[1..], clock, k - 1);
    }
  }

  /** A feature that raises ends the call: nothing after it is sent. */
  lemma {:induction false} RaiseEndsAlerts(feats: seq<Feature>, clock: Clock, k: int)
    requires 0 <= k < |feats| && AlertOutcome(feats[k], clock).Raise?
    ensures Alerts(feats, clock) == Alerts(feats[..k], clock)
  {
    if k > 0 && !AlertOutcome(feats[0], clock).Raise? {
      assert feats[..k][1..] == feats[1..][..k - 1];
      assert feats[1..][k - 1] == feats[k];
      RaiseEndsAlerts(feats[1..], clock, k - 1);
    }
  }

  /** A recent alert whose area cannot be sliced raises, so no later alert
      of the list is sent. */
  lemma UnsliceableAreaEndsAlerts(feats: seq<Feature>, clock: Clock, k: int)
    requires 0 <= k < |feats| && RecentFeature(feats[k], clock)
    requires feats[k].properties.props.areaDesc.Unsliceable?
    ensures Alerts(feats, clock) == Alerts(feats[..k], clock)
  {
    RaiseEndsAlerts(feats, clock, k);
  }

  /** Debug mode sends at most two alerts, whatever their age. */
  lemma DebugAlertsAtMostTwo(feats: seq<Feature>)
    ensures |DebugAlerts(FirstTwo(feats))| <= 2
  {
    DebugAlertsBounded(FirstTwo(feats));
  }

  lemma {:induction false} DebugAlertsBounded(feats: seq<Feature>)
    ensures |DebugAlerts(feats)| <= |feats|
  {
    if feats != [] {
      DebugAlertsBounded(feats[1..]);
    }
  }
}
