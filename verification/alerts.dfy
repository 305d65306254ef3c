/** The alerts panel: a list of alert records keyed by id. Acknowledging an
    alert, directly or through its "Take Action" button, marks it as handled
    and changes nothing else. */
module Alerts {

  /** The alert's `type` string: the three the panel knows, or any other
      string (see `KindOf` and `Canonical`). */
  datatype AlertType = Warning | Alert | Critical | Other(name: string)

  /** One of the three type strings the panel compares against. */
  predicate KnownName(t: string) {
    t == "Critical" || t == "Warning" || t == "Alert"
  }

  /** A type value as the panel can hold it: `Other` never carries a known
      name, since a record whose type string is "Critical" is a Critical alert. */
  predicate Canonical(k: AlertType) {
    k.Other? ==> !KnownName(k.name)
  }

  /** The record's `type` string read as the panel's `===` comparisons read it. */
  function KindOf(t: string): (k: AlertType)
    ensures Canonical(k)
    ensures k == Critical <==> t == "Critical"
    ensures k == Warning <==> t == "Warning"
    ensures k == Alert <==> t == "Alert"
    ensures k.Other? <==> !KnownName(t)
  {
    if t == "Critical" then Critical
    else if t == "Warning" then Warning
    else if t == "Alert" then Alert
    else Other(t)
  }

  /** The type string an alert of this type displays. */
  function TypeName(k: AlertType): string {
    match k
    case Warning => "Warning"
    case Alert => "Alert"
    case Critical => "Critical"
    case Other(name) => name
  }

  /** Reading a type string and displaying it again gives the same string;
      displaying a canonical type and reading it back gives the same type. */
  lemma KindOfRoundTrip(t: string, k: AlertType)
    requires Canonical(k)
    ensures TypeName(KindOf(t)) == t
    ensures KindOf(TypeName(k)) == k
  {
  }

  datatype AlertEntry = AlertEntry(
    id: int,
    kind: AlertType,  // the source's `type` (a reserved word in Dafny)
    message: string,
    timestamp: string,
    actionTaken: bool)

  /** What the panel recommends for an alert type. */
  datatype Action = Ventilate | AdjustTemperature | RaiseHumidity

  datatype Option<T> = None | Some(value: T)

  function InitialAlerts(): seq<AlertEntry> {
    [ AlertEntry(1, Warning, "Temperature is above optimal levels.", "2023-10-27 14:32", false),
      AlertEntry(2, Alert, "Humidity levels are below threshold.", "2023-10-27 14:45", false),
      AlertEntry(3, Critical, "CO2 levels are above safe limits.", "2023-10-27 15:10", false) ]
  }

  /** No two alerts share an id. */
  predicate UniqueIds(alerts: seq<AlertEntry>) {
    forall a, b :: 0 <= a < b < |alerts| ==> alerts[a].id != alerts[b].id
  }

  predicate HasId(alerts: seq<AlertEntry>, id: int) {
    exists k :: 0 <= k < |alerts| && alerts[k].id == id
  }

  /** Everything but the acknowledgement flag is the same. */
  predicate SameAlert(a: AlertEntry, b: AlertEntry) {
    a.id == b.id && a.kind == b.kind && a.message == b.message && a.timestamp == b.timestamp
  }

  /** The initial list holds three unacknowledged alerts with ids 1, 2, 3. */
  lemma InitialAlertsShape()
    ensures |InitialAlerts()| == 3 && UniqueIds(InitialAlerts())
    ensures forall k :: 0 <= k < 3 ==> InitialAlerts()[k].id == k + 1 && !InitialAlerts()[k].actionTaken
  {
  }

  /** Mark every alert whose id is `id` as handled; the list is mapped
      element by element, so its length and order are kept. */
  function Acknowledge(alerts: seq<AlertEntry>, id: int): (r: seq<AlertEntry>)
    ensures |r| == |alerts|
    ensures forall k :: 0 <= k < |r| ==>
      SameAlert(r[k], alerts[k]) &&
      r[k].actionTaken == (alerts[k].actionTaken || alerts[k].id == id)
  {
    if alerts == [] then []
    else
      var head := if alerts[0].id == id then alerts[0].(actionTaken := true) else alerts[0];
      [head] + Acknowledge(alerts[1..], id)
  }

  /** Acknowledging sets the flag on the alert with that id, leaves every
      other alert exactly as it was, and never clears a flag. */
  lemma AcknowledgeEffect(alerts: seq<AlertEntry>, id: int)
    ensures forall k :: 0 <= k < |alerts| && alerts[k].id == id ==>
      Acknowledge(alerts, id)[k] == alerts[k].(actionTaken := true)
    ensures forall k :: 0 <= k < |alerts| && alerts[k].id != id ==>
      Acknowledge(alerts, id)[k] == alerts[k]
    ensures forall k :: 0 <= k < |alerts| && alerts[k].actionTaken ==>
      Acknowledge(alerts, id)[k].actionTaken
  {
  }

  /** With unique ids, exactly one alert changes: the one whose id is `id`. */
  lemma {:induction false} AcknowledgeOne(alerts: seq<AlertEntry>, id: int, j: nat)
    requires UniqueIds(alerts) && j < |alerts| && alerts[j].id == id
    ensures Acknowledge(alerts, id) == alerts[j := alerts[j].(actionTaken := true)]
  {
    var r := Acknowledge(alerts, id);
    var s := alerts[j := alerts[j].(actionTaken := true)];
    forall k | 0 <= k < |alerts|
      ensures r[k] == s[k]
    {
      if k != j {
        assert alerts[k].id != id by {
          if k < j { assert alerts[k].id != alerts[j].id; }
          else { assert alerts[j].id != alerts[k].id; }
        }
      }
    }
  }

  /** Acknowledging an id that no alert has returns an equal list. */
  lemma {:induction false} AcknowledgeAbsent(alerts: seq<AlertEntry>, id: int)
    requires !HasId(alerts, id)
    ensures Acknowledge(alerts, id) == alerts
  {
    var r := Acknowledge(alerts, id);
    forall k | 0 <= k < |alerts|
      ensures r[k] == alerts[k]
    {
      assert alerts[k].id != id;
    }
  }

  /** Acknowledging the same id twice is the same as once. */
  lemma {:induction false} AcknowledgeIdempotent(alerts: seq<AlertEntry>, id: int)
    ensures Acknowledge(Acknowledge(alerts, id), id) == Acknowledge(alerts, id)
  {
    var once := Acknowledge(alerts, id);
    var twice := Acknowledge(once, id);
    forall k | 0 <= k < |alerts|
      ensures twice[k] == once[k]
    {
    }
  }

  /** Acknowledging keeps every id in place, so unique ids stay unique. */
  lemma AcknowledgeKeepsUniqueIds(alerts: seq<AlertEntry>, id: int)
    requires UniqueIds(alerts)
    ensures UniqueIds(Acknowledge(alerts, id))
  {
  }

  /** The message written to the console for the "Take Action" button. */
  function ActionLog(kind: AlertType): (log: Option<string>)
    ensures log.None? <==> kind.Other?
  {
    match kind
    case Critical => Some("Activating ventilation system...")
    case Warning => Some("Adjusting temperature to optimal levels...")
    case Alert => Some("Increasing humidity to safe levels...")
    case Other(_) => None
  }

  /** "Take Action" on an alert: log by type, then acknowledge its id. The
      result is the new list and the console line, if any. */
  function HandleAction(alerts: seq<AlertEntry>, alert: AlertEntry): (r: (seq<AlertEntry>, Option<string>))
    ensures r.0 == Acknowledge(alerts, alert.id)
    ensures r.1.Some? <==> !alert.kind.Other?
  {
    (Acknowledge(alerts, alert.id), ActionLog(alert.kind))
  }

  /** The recommended action shown under an alert: one per known type, and
      none once the alert has been handled or when its type is unknown. */
  function Recommended(a: AlertEntry): (r: Option<Action>)
    ensures r.Some? <==> !a.actionTaken && !a.kind.Other?
    ensures r == Some(Ventilate) <==> !a.actionTaken && a.kind == Critical
    ensures r == Some(AdjustTemperature) <==> !a.actionTaken && a.kind == Warning
    ensures r == Some(RaiseHumidity) <==> !a.actionTaken && a.kind == Alert
  {
    if a.actionTaken then None
    else match a.kind
      case Critical => Some(Ventilate)
      case Warning => Some(AdjustTemperature)
      case Alert => Some(RaiseHumidity)
      case Other(_) => None
  }

  /** After acknowledging an id (by either button), the alert with that id
      shows no recommended action, and no other alert's recommendation changes. */
  lemma AcknowledgeHidesRecommendation(alerts: seq<AlertEntry>, id: int)
    ensures forall k :: 0 <= k < |alerts| && alerts[k].id == id ==>
      Recommended(Acknowledge(alerts, id)[k]).None?
    ensures forall k :: 0 <= k < |alerts| && alerts[k].id != id ==>
      Recommended(Acknowledge(alerts, id)[k]) == Recommended(alerts[k])
  {
  }
}
