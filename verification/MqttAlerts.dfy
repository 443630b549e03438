/** Grouping and publication of vehicle alerts (datastore/mqtt/mqtt_payload.go). */
module MqttAlerts {
  import opened Wrappers

  /** An alert; `startedAt` is its start as an instant in nanoseconds, if it has one. */
  datatype Alert = Alert(name: string, startedAt: Option<int>, endedAt: Option<int>, audiences: seq<string>)

  /** One message handed to the client: a topic and the alerts encoded in its payload. */
  datatype Publication = Publication(topic: string, alerts: seq<Alert>)

  datatype Leaf = Current | History

  // ----- Specification -----

  /** The alerts of one name in input order. */
  function ByName(alerts: seq<Alert>, name: string): seq<Alert> {
    if alerts == [] then []
    else
      var n := |alerts| - 1;
      ByName(alerts[..n], name) + if alerts[n].name == name then [alerts[n]] else []
  }

  predicate Started(alerts: seq<Alert>, name: string, i: int) {
    0 <= i < |alerts| && alerts[i].name == name && alerts[i].startedAt.Some?
  }

  /** `i` is the first among the latest started alerts of a name. */
  ghost predicate Latest(alerts: seq<Alert>, name: string, i: int) {
    && Started(alerts, name, i)
    && forall j :: Started(alerts, name, j) ==>
         && alerts[j].startedAt.value <= alerts[i].startedAt.value
         && (j < i ==> alerts[j].startedAt.value < alerts[i].startedAt.value)
  }

  /** `current` names exactly those with a started alert, each with its first latest alert. */
  ghost predicate IsCurrent(alerts: seq<Alert>, current: map<string, Alert>) {
    && (forall name :: name in current <==> exists i :: Started(alerts, name, i))
    && (forall name :: name in current ==> exists i :: Latest(alerts, name, i) && current[name] == alerts[i])
  }

  ghost predicate IsHistory(alerts: seq<Alert>, history: map<string, seq<Alert>>) {
    && (forall name :: name in history <==> ByName(alerts, name) != [])
    && (forall name :: name in history ==> history[name] == ByName(alerts, name))
  }

  function LeafName(leaf: Leaf): string {
    match leaf
    case Current => "current"
    case History => "history"
  }

  function Topic(base: string, vin: string, name: string, leaf: Leaf): string {
    base + "/" + vin + "/alerts/" + name + "/" + LeafName(leaf)
  }

  // ----- The method -----

  method ProcessVehicleAlerts(base: string, vin: string, alerts: seq<Alert>)
    returns (current: map<string, Alert>, history: map<string, seq<Alert>>, published: seq<Publication>)
    ensures IsCurrent(alerts, current)
    ensures IsHistory(alerts, history)
    ensures |published| == |current| + |history| <= 2 * |alerts|
    ensures forall p :: p in published <==>
              || (exists n :: n in current
                    && p == Publication(base + "/" + vin + "/alerts/" + n + "/" + "current", [current[n]]))
              || (exists n :: n in history
                    && p == Publication(base + "/" + vin + "/alerts/" + n + "/" + "history", history[n]))
  {
    current, history := Gather(alerts);
    var states := PublishCurrent(base, vin, current);
    var histories := PublishHistory(base, vin, history);
    published := states + histories;
    FewNames(alerts, history.Keys);
    NamesOfStarted(alerts, current, history);
  }

  method PublishCurrent(base: string, vin: string, current: map<string, Alert>) returns (published: seq<Publication>)
    ensures |published| == |current|
    ensures forall p :: p in published <==>
              exists n :: n in current && p == Publication(Topic(base, vin, n, Current), [current[n]])
  {
    published := [];
    var todo := current.Keys;
    while todo != {}
      invariant todo <= current.Keys && |published| + |todo| == |current|
      invariant forall p :: p in published <==>
        exists n :: n in current.Keys - todo && p == Publication(Topic(base, vin, n, Current), [current[n]])
      decreases todo
    {
      var name :| name in todo;
      published := published + [Publication(Topic(base, vin, name, Current), [current[name]])];
      todo := todo - {name};
    }
  }

  method PublishHistory(base: string, vin: string, history: map<string, seq<Alert>>)
    returns (published: seq<Publication>)
    ensures |published| == |history|
    ensures forall p :: p in published <==>
              exists n :: n in history && p == Publication(Topic(base, vin, n, History), history[n])
  {
    published := [];
    var todo := history.Keys;
    while todo != {}
      invariant todo <= history.Keys && |published| + |todo| == |history|
      invariant forall p :: p in published <==>
        exists n :: n in history.Keys - todo && p == Publication(Topic(base, vin, n, History), history[n])
      decreases todo
    {
      var name :| name in todo;
      published := published + [Publication(Topic(base, vin, name, History), history[name])];
      todo := todo - {name};
    }
  }

  /** One more alert; `seen` are those before it. */
  method GatherOne(ghost seen: seq<Alert>, alert: Alert, current: map<string, Alert>, history: map<string, seq<Alert>>)
    returns (current': map<string, Alert>, history': map<string, seq<Alert>>)
    requires IsCurrent(seen, current) && IsHistory(seen, history)
    ensures IsCurrent(seen + [alert], current')
    ensures IsHistory(seen + [alert], history')
  {
    HistoryOneMore(seen, alert, history);
    CurrentOneMore(seen, alert, current);
    history' := history[alert.name := (if alert.name in history then history[alert.name] else []) + [alert]];
    current' := current;
    if alert.startedAt.Some? {
      if alert.name !in current || alert.startedAt.value > StartOf(seen, current, alert.name) {
        current' := current[alert.name := alert];
      }
    }
  }

  /** One pass collects the history of each name and the latest started alert. */
  method Gather(alerts: seq<Alert>) returns (current: map<string, Alert>, history: map<string, seq<Alert>>)
    ensures IsCurrent(alerts, current)
    ensures IsHistory(alerts, history)
  {
    current, history := map[], map[];
    var i := 0;
    while i < |alerts|
      invariant 0 <= i <= |alerts|
      invariant IsCurrent(alerts[..i], current)
      invariant IsHistory(alerts[..i], history)
    {
      assert alerts[..i + 1] == alerts[..i] + [alerts[i]];
      current, history := GatherOne(alerts[..i], alerts[i], current, history);
      i := i + 1;
    }
    assert alerts[..i] == alerts;
  }

  /** The start of the alert now current under a name. */
  function StartOf(ghost seen: seq<Alert>, current: map<string, Alert>, name: string): int
    requires IsCurrent(seen, current) && name in current
  {
    current[name].startedAt.value
  }

  function Newer(seen: seq<Alert>, alert: Alert, current: map<string, Alert>): map<string, Alert>
    requires IsCurrent(seen, current)
  {
    if alert.startedAt.Some? && (alert.name !in current || alert.startedAt.value > StartOf(seen, current, alert.name))
    then current[alert.name := alert]
    else current
  }

  lemma HistoryOneMore(seen: seq<Alert>, alert: Alert, history: map<string, seq<Alert>>)
    requires IsHistory(seen, history)
    ensures IsHistory(seen + [alert],
                      history[alert.name := (if alert.name in history then history[alert.name] else []) + [alert]])
  {
    assert (seen + [alert])[..|seen|] == seen;
    assert forall n :: ByName(seen + [alert], n) == ByName(seen, n) + if alert.name == n then [alert] else [];
  }

  lemma CurrentOneMore(seen: seq<Alert>, alert: Alert, current: map<string, Alert>)
    requires IsCurrent(seen, current)
    ensures IsCurrent(seen + [alert], Newer(seen, alert, current))
  {
    var seen', current' := seen + [alert], Newer(seen, alert, current);
    assert forall n, i :: Started(seen, n, i) ==> Started(seen', n, i);
    assert forall n, i :: Started(seen', n, i) ==> Started(seen, n, i) || (i == |seen| && n == alert.name);
    assert alert.startedAt.Some? ==> Started(seen', alert.name, |seen|);
    forall n | n in current'
      ensures exists i :: Latest(seen', n, i) && current'[n] == seen'[i]
    {
      if n in current {
        var i :| Latest(seen, n, i) && current[n] == seen[i];
        LatestOneMore(seen, alert, n, i);
      } else {
        FirstStarted(seen, alert, n);
      }
    }
  }

  /** The latest alert of a name stays so unless the new one starts strictly later. */
  lemma LatestOneMore(seen: seq<Alert>, alert: Alert, n: string, i: int)
    requires Latest(seen, n, i)
    ensures
      var newer := alert.name == n && alert.startedAt.Some? && alert.startedAt.value > seen[i].startedAt.value;
      Latest(seen + [alert], n, if newer then |seen| else i)
  {
    var seen' := seen + [alert];
    assert forall j :: Started(seen', n, j) && j < |seen| ==> Started(seen, n, j) && seen'[j] == seen[j];
  }

  lemma FirstStarted(seen: seq<Alert>, alert: Alert, n: string)
    requires alert.name == n && alert.startedAt.Some? && forall j :: !Started(seen, n, j)
    ensures Latest(seen + [alert], n, |seen|)
  {
    var seen' := seen + [alert];
    assert forall j :: Started(seen', n, j) && j < |seen| ==> Started(seen, n, j);
  }

  // ----- Counting -----

  lemma {:induction false} NamesOfStarted(alerts: seq<Alert>, current: map<string, Alert>,
                                          history: map<string, seq<Alert>>)
    requires IsCurrent(alerts, current) && IsHistory(alerts, history)
    ensures current.Keys <= history.Keys && |current| <= |history|
  {
    forall n | n in current ensures n in history {
      var i :| Started(alerts, n, i);
      NameHasAlerts(alerts, i);
    }
    KeysSubset(current.Keys, history.Keys);
  }

  lemma KeysSubset(a: set<string>, b: set<string>)
    requires a <= b
    ensures |a| <= |b|
  {
    assert b == a + (b - a);
  }

  lemma {:induction false} NameHasAlerts(alerts: seq<Alert>, i: nat)
    requires i < |alerts|
    ensures ByName(alerts, alerts[i].name) != []
  {
    var n := |alerts| - 1;
    if i < n { NameHasAlerts(alerts[..n], i); }
  }

  lemma {:induction false} FewNames(alerts: seq<Alert>, names: set<string>)
    requires forall n :: n in names ==> ByName(alerts, n) != []
    ensures |names| <= |alerts|
  {
    if alerts == [] {
      assert names == {};
    } else {
      var last := alerts[|alerts| - 1].name;
      var before := names - {last};
      FewNames(alerts[..|alerts| - 1], before);
      assert |names| <= |before| + 1;
    }
  }

  /** The histories partition the input: every alert is in the history of its name, as often as it came. */
  lemma {:induction false} HistoriesPartition(alerts: seq<Alert>, name: string, a: Alert)
    ensures multiset(ByName(alerts, name))[a] == if a.name == name then multiset(alerts)[a] else 0
  {
    if alerts != [] {
      var n := |alerts| - 1;
      HistoriesPartition(alerts[..n], name, a);
      assert alerts == alerts[..n] + [alerts[n]];
    }
  }

  /**
   * The state published for a name is the first of its latest started alerts; there is one
   * exactly for the names with a started alert.
   */
  lemma CurrentIsFirstLatest(alerts: seq<Alert>, current: map<string, Alert>, n: string)
    requires IsCurrent(alerts, current)
    ensures n in current <==> exists i :: 0 <= i < |alerts| && alerts[i].name == n && alerts[i].startedAt.Some?
    ensures n in current ==>
              exists i ::
                && 0 <= i < |alerts| && alerts[i] == current[n] && alerts[i].name == n && alerts[i].startedAt.Some?
                && (forall j :: 0 <= j < |alerts| && alerts[j].name == n && alerts[j].startedAt.Some? ==>
                      alerts[j].startedAt.value <= alerts[i].startedAt.value)
                && (forall j :: 0 <= j < i && alerts[j].name == n && alerts[j].startedAt.Some? ==>
                      alerts[j].startedAt.value < alerts[i].startedAt.value)
  {
    if i :| 0 <= i < |alerts| && alerts[i].name == n && alerts[i].startedAt.Some? {
      assert Started(alerts, n, i);
    }
    if n in current {
      var i :| Latest(alerts, n, i) && current[n] == alerts[i];
      assert forall j :: 0 <= j < |alerts| && alerts[j].name == n && alerts[j].startedAt.Some? ==>
               Started(alerts, n, j);
    }
  }

  /**
   * A name has a history exactly if an alert carries it, and then it holds that name's
   * alerts as often as they came.
   */
  lemma HistoryHolds(alerts: seq<Alert>, history: map<string, seq<Alert>>, n: string, a: Alert)
    requires IsHistory(alerts, history)
    ensures n in history <==> exists i :: 0 <= i < |alerts| && alerts[i].name == n
    ensures n in history ==>
              && history[n] == ByName(alerts, n)
              && multiset(history[n])[a] == if a.name == n then multiset(alerts)[a] else 0
  {
    if i :| 0 <= i < |alerts| && alerts[i].name == n { NameHasAlerts(alerts, i); }
    HistoriesPartition(alerts, n, a);
    if n in history {
      var first := history[n][0];
      assert first in multiset(history[n]);
      HistoriesPartition(alerts, n, first);
      assert first in alerts;
    }
  }

  /** What is appended to the input is appended to the history of its name, and of no other. */
  lemma {:induction false} HistoryFollowsInput(alerts: seq<Alert>, alert: Alert, name: string)
    ensures ByName([], name) == []
    ensures ByName(alerts + [alert], name) == ByName(alerts, name) + if alert.name == name then [alert] else []
  {
    assert (alerts + [alert])[..|alerts|] == alerts;
  }

  /** No two publications of one record share a topic. */
  lemma TopicsDiffer(base: string, vin: string, a: string, x: Leaf, b: string, y: Leaf)
    requires Topic(base, vin, a, x) == Topic(base, vin, b, y)
    ensures a == b && x == y
  {
    var prefix := base + "/" + vin + "/alerts/";
    var ta, tb := Topic(base, vin, a, x), Topic(base, vin, b, y);
    assert ta == prefix + a + "/" + LeafName(x) && tb == prefix + b + "/" + LeafName(y);
    assert ta[|ta| - 1] == LeafName(x)[6] && tb[|tb| - 1] == LeafName(y)[6];
    assert |a| == |b|;
    assert a == ta[|prefix|..|prefix| + |a|] && b == tb[|prefix|..|prefix| + |b|];
  }
}
