/** The state of src/screens/HomeScreen.js: the latest sensor record, the
    alerts on display and the remembered alert signature `lastAlertState`. */
module Home {
  import opened Values
  import opened Status
  import opened Alerts

  /** The `sensorData` state: five numeric fields and the raw timestamp text. */
  datatype SensorRecord = SensorRecord(
    lightPercent: JsNumber,
    airTemperature: JsNumber,
    airHumidity: JsNumber,
    soilMoistureRaw: JsNumber,
    soilTemperature: JsNumber,
    timestamp: Option<string>)

  const EmptyRecord := SensorRecord(Null, Null, Null, Null, Null, None)

  /** What `await response.json()` yields for `/api/latest`, or the
      exception of a failed fetch. `error` is the payload's `error` key. */
  datatype LatestPayload = FetchFailed | NullBody | Body(record: SensorRecord, error: Option<string>)

  /** The payload is an object and its error is absent or falsy; a
      non-empty error string is truthy, '' is not. */
  predicate Accepts(p: LatestPayload): (ok: bool)
    ensures ok <==> p.Body? && (p.error == None || p.error == Some(""))
  {
    p.Body? && !(p.error.Some? && p.error.value != "")
  }

  class HomeScreen {
    var loading: bool
    var sensorData: SensorRecord
    var alerts: seq<AlertEvent>
    var lastAlertState: string

    constructor ()
      ensures loading && sensorData == EmptyRecord && alerts == [] && lastAlertState == ""
    {
      loading := true;
      sensorData := EmptyRecord;
      alerts := [];
      lastAlertState := "";
    }

    /** `fetchLatestData`: the record is replaced as a whole or not at all. */
    method FetchLatestData(p: LatestPayload)
      modifies this
      ensures !loading
      ensures sensorData == if Accepts(p) then p.record else old(sensorData)
      ensures alerts == old(alerts) && lastAlertState == old(lastAlertState)
    {
      if Accepts(p) {
        sensorData := p.record;
      }
      loading := false;
    }

    /** `checkForAlerts`; the returned message is the one `Alert.alert` shows. */
    method CheckForAlerts(p: AlertPayload) returns (popup: Option<string>)
      modifies this
      ensures var o := CheckAlerts(old(alerts), old(lastAlertState), p);
        alerts == o.alerts && lastAlertState == o.signature && popup == o.popup
      ensures loading == old(loading) && sensorData == old(sensorData)
    {
      popup := None;
      match p {
        case PollFailed =>
        case AlertFeed(count, feed) =>
          if count.Some? && count.value > 0 {
            alerts := feed;
            var summary := Signature(feed);
            if summary != lastAlertState && feed != [] {
              popup := Some(feed[0].message);
              lastAlertState := summary;
            }
          } else {
            alerts := [];
            lastAlertState := "";
          }
      }
    }

    /** The four card statuses: light, temperature, humidity, moisture. */
    function CardStatuses(): (s: seq<string>)
      reads this
      ensures |s| == 4
      ensures sensorData == EmptyRecord ==> s == [Placeholder, Placeholder, Placeholder, Placeholder]
    {
      [LightStatus(sensorData.lightPercent), TemperatureStatus(sensorData.airTemperature),
       HumidityStatus(sensorData.airHumidity), MoistureStatus(sensorData.soilMoistureRaw)]
    }
  }

  /** A `{ error: "no data" }` answer on a fresh screen keeps every card on '--'. */
  method NoDataScenario() returns (statuses: seq<string>, loading: bool)
    ensures statuses == [Placeholder, Placeholder, Placeholder, Placeholder]
    ensures !loading
  {
    var screen := new HomeScreen();
    screen.FetchLatestData(Body(SensorRecord(Num(1.0), Num(1.0), Num(1.0), Num(1.0), Num(1.0), None), Some("no data")));
    statuses := screen.CardStatuses();
    loading := screen.loading;
  }
}
