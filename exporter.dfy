/** cisco_collector.go: the Prometheus collector over all targets. Each target is polled by
    collectForHost: connect, up sample, identify, every enabled collector, duration sample; the
    polls are events on one trace. */
module Exporter {
  import opened Wrappers
  import opened Metrics
  import opened RpcCollector
  import Text
  import BgpCollector
  import EnvironmentCollector
  import FactsCollector
  import InterfacesCollector
  import OpticsCollector

  const UpName: string := "cisco_up"
  const DurationName: string := "cisco_collector_duration_seconds"
  const UpDesc: Desc := Desc(UpName, "Scrape of target was successful", ["target"])
  const DurationDesc: Desc := Desc(DurationName, "Duration of a collector scrape for one target", ["target"])

  /** The values of the five -<feature>.enabled command line flags. */
  datatype Enabled = Enabled(bgp: bool, environment: bool, facts: bool, interfaces: bool, optics: bool)

  predicate On(e: Enabled, k: Kind) {
    match k
    case BGP => e.bgp
    case Environment => e.environment
    case Facts => e.facts
    case Interfaces => e.interfaces
    case Optics => e.optics
  }

  /** collectors(): one collector per enabled flag, under its feature key. */
  function CollectorsMap(e: Enabled): (m: map<string, Kind>)
    ensures forall k :: Key(k) in m <==> On(e, k)
    ensures forall s :: s in m ==> Key(m[s]) == s
  {
    var m0: map<string, Kind> := map[];
    var m1 := if e.bgp then m0[Key(BGP) := BGP] else m0;
    var m2 := if e.environment then m1[Key(Environment) := Environment] else m1;
    var m3 := if e.facts then m2[Key(Facts) := Facts] else m2;
    var m4 := if e.interfaces then m3[Key(Interfaces) := Interfaces] else m3;
    if e.optics then m4[Key(Optics) := Optics] else m4
  }

  /** A map iteration order: every collector of the map exactly once. */
  predicate Enumerates(e: Enabled, order: seq<Kind>) {
    && (forall k :: k in order <==> On(e, k))
    && (forall i, j :: 0 <= i < j < |order| ==> order[i] != order[j])
  }

  function DescsOf(k: Kind): seq<Desc> {
    match k
    case BGP => BgpCollector.Describe()
    case Environment => EnvironmentCollector.Describe()
    case Facts => FactsCollector.Describe()
    case Interfaces => InterfacesCollector.Describe()
    case Optics => OpticsCollector.Describe()
  }

  /** The descriptors of the collectors in the given order, each collector's block in turn. */
  function Concat(order: seq<Kind>, descs: Kind -> seq<Desc>): seq<Desc> {
    if |order| == 0 then [] else Concat(order[..|order| - 1], descs) + descs(order[|order| - 1])
  }

  function AllDescs(order: seq<Kind>): seq<Desc> {
    Concat(order, DescsOf)
  }

  /** Describe: the up and duration descriptors, then each collector's, in map order. */
  method Describe(order: seq<Kind>) returns (ds: seq<Desc>)
    ensures |ds| >= 2 && ds[0] == UpDesc && ds[1] == DurationDesc
    ensures ds[2..] == AllDescs(order)
  {
    ds := [UpDesc, DurationDesc];
    for i := 0 to |order|
      invariant ds == [UpDesc, DurationDesc] + AllDescs(order[..i])
    {
      assert order[..i + 1][..i] == order[..i];
      assert Concat(order[..i + 1], DescsOf) == Concat(order[..i], DescsOf) + DescsOf(order[i]);
      ds := ds + DescsOf(order[i]);
    }
    assert order[..|order|] == order;
  }

  /** Each collector of the order contributes its descriptors, contiguously. */
  lemma {:induction false} DescsAppear(order: seq<Kind>, descs: Kind -> seq<Desc>, k: Kind) returns (i: nat)
    requires k in order
    ensures i + |descs(k)| <= |Concat(order, descs)| && Concat(order, descs)[i..i + |descs(k)|] == descs(k)
  {
    var pre := order[..|order| - 1];
    if order[|order| - 1] == k {
      i := |Concat(pre, descs)|;
    } else {
      assert k in pre by {
        var j :| 0 <= j < |order| && order[j] == k;
        assert pre[j] == k;
      }
      i := DescsAppear(pre, descs, k);
      assert Concat(order, descs)[i..i + |descs(k)|] == Concat(pre, descs)[i..i + |descs(k)|];
    }
  }

  /** What reaches the sink or the device during a poll: a sample, a collector invocation with its
      label values, and the deferred close of the connection. */
  datatype Event = Send(sample: Sample) | Invoke(kind: Kind, labels: seq<string>) | Closed

  /** What one target does when polled: whether the SSH connection is established, whether
      identification succeeds, the elapsed time, and what each collector returns. */
  datatype Poll = Poll(connected: bool, identified: bool, duration: real, results: Kind -> Collected)

  function Sends(ss: seq<Sample>): (r: seq<Event>)
    ensures |r| == |ss| && forall i :: 0 <= i < |ss| ==> r[i] == Send(ss[i])
  {
    seq(|ss|, i requires 0 <= i < |ss| => Send(ss[i]))
  }

  /** The collectors run in map order; each one's error is dropped (only logged). */
  function Runs(host: string, order: seq<Kind>, results: Kind -> Collected): seq<Event> {
    if |order| == 0 then []
    else
      var k := order[|order| - 1];
      Runs(host, order[..|order| - 1], results) + [Invoke(k, [host])] + Sends(results(k).samples)
  }

  function UpSample(host: string, up: bool): Sample {
    Sample(UpName, Indicator(up), [host])
  }

  function DurationSample(host: string, p: Poll): Sample {
    Sample(DurationName, p.duration, [host])
  }

  /** collectForHost as a trace: the deferred duration sample runs last, after the deferred close. */
  function HostTrace(host: string, p: Poll, order: seq<Kind>): seq<Event> {
    if !p.connected then [Send(UpSample(host, false)), Send(DurationSample(host, p))]
    else
      [Send(UpSample(host, true))] + (if p.identified then Runs(host, order, p.results) else []) +
      [Closed, Send(DurationSample(host, p))]
  }

  method CollectForHost(host: string, p: Poll, order: seq<Kind>) returns (trace: seq<Event>)
    ensures trace == HostTrace(host, p, order)
  {
    var l := [host];
    if !p.connected {
      trace := [Send(Sample(UpName, 0.0, l))];
      trace := trace + [Send(Sample(DurationName, p.duration, l))];
      return;
    }
    trace := [Send(Sample(UpName, 1.0, l))];
    if p.identified {
      for i := 0 to |order|
        invariant trace == [Send(UpSample(host, true))] + Runs(host, order[..i], p.results)
      {
        assert order[..i + 1][..i] == order[..i];
        var k := order[i];
        trace := trace + [Invoke(k, l)];
        var c := p.results(k);
        var samples := c.samples;
        for j := 0 to |samples|
          invariant trace == [Send(UpSample(host, true))] + Runs(host, order[..i], p.results) + [Invoke(k, l)] + Sends(samples[..j])
        {
          assert Sends(samples[..j + 1]) == Sends(samples[..j]) + [Send(samples[j])];
          trace := trace + [Send(samples[j])];
        }
        assert samples[..|samples|] == samples;
      }
      assert order[..|order|] == order;
    }
    trace := trace + [Closed];
    trace := trace + [Send(Sample(DurationName, p.duration, l))];
  }

  /** Collect: every target polled with its surrounding spaces trimmed; the goroutines are run one
      after the other. */
  function AllTraces(targets: seq<string>, polls: string -> Poll, order: seq<Kind>): seq<Event> {
    if |targets| == 0 then []
    else
      var h := Text.TrimBlanks(targets[|targets| - 1]);
      AllTraces(targets[..|targets| - 1], polls, order) + HostTrace(h, polls(h), order)
  }

  method Collect(targets: seq<string>, polls: string -> Poll, order: seq<Kind>) returns (trace: seq<Event>)
    ensures trace == AllTraces(targets, polls, order)
  {
    trace := [];
    for i := 0 to |targets|
      invariant trace == AllTraces(targets[..i], polls, order)
    {
      var h := Text.TrimBlanks(targets[i]);
      assert targets[..i + 1][..i] == targets[..i];
      assert AllTraces(targets[..i + 1], polls, order) == AllTraces(targets[..i], polls, order) + HostTrace(h, polls(h), order);
      var t := CollectForHost(h, polls(h), order);
      trace := trace + t;
    }
    assert targets[..|targets|] == targets;
  }

  // ---- accounting ----

  /** The number of samples of one metric in a trace. */
  function CountMetric(trace: seq<Event>, metric: string): nat {
    if |trace| == 0 then 0
    else
      CountMetric(trace[..|trace| - 1], metric) +
      (if trace[|trace| - 1].Send? && trace[|trace| - 1].sample.metric == metric then 1 else 0)
  }

  function Invocations(trace: seq<Event>, k: Kind): nat {
    if |trace| == 0 then 0
    else Invocations(trace[..|trace| - 1], k) + (if trace[|trace| - 1].Invoke? && trace[|trace| - 1].kind == k then 1 else 0)
  }

  function Closes(trace: seq<Event>): nat {
    if |trace| == 0 then 0 else Closes(trace[..|trace| - 1]) + (if trace[|trace| - 1].Closed? then 1 else 0)
  }

  lemma {:induction false} CountsAppend(a: seq<Event>, b: seq<Event>, metric: string, k: Kind)
    ensures CountMetric(a + b, metric) == CountMetric(a, metric) + CountMetric(b, metric)
    ensures Invocations(a + b, k) == Invocations(a, k) + Invocations(b, k)
    ensures Closes(a + b) == Closes(a) + Closes(b)
    decreases |b|
  {
    if |b| == 0 {
      assert a + b == a;
    } else {
      assert (a + b)[..|a + b| - 1] == a + b[..|b| - 1];
      CountsAppend(a, b[..|b| - 1], metric, k);
    }
  }

  /** The collectors' own samples never carry the exporter's two metric names. */
  predicate OwnMetrics(results: Kind -> Collected) {
    forall k, i :: 0 <= i < |results(k).samples| ==>
      results(k).samples[i].metric != UpName && results(k).samples[i].metric != DurationName
  }

  lemma {:induction false} SendsCounts(ss: seq<Sample>, metric: string, k: Kind)
    requires forall i :: 0 <= i < |ss| ==> ss[i].metric != metric
    ensures CountMetric(Sends(ss), metric) == 0 && Invocations(Sends(ss), k) == 0 && Closes(Sends(ss)) == 0
  {
    if |ss| > 0 {
      assert Sends(ss)[..|ss| - 1] == Sends(ss[..|ss| - 1]);
      SendsCounts(ss[..|ss| - 1], metric, k);
    }
  }

  /** The number of times a kind occurs in a sequence. */
  function Occurrences(order: seq<Kind>, k: Kind): nat {
    if |order| == 0 then 0 else Occurrences(order[..|order| - 1], k) + (if order[|order| - 1] == k then 1 else 0)
  }

  lemma {:induction false} RunsCounts(host: string, order: seq<Kind>, results: Kind -> Collected, k: Kind)
    requires OwnMetrics(results)
    ensures CountMetric(Runs(host, order, results), UpName) == 0
    ensures CountMetric(Runs(host, order, results), DurationName) == 0
    ensures Closes(Runs(host, order, results)) == 0
    ensures Invocations(Runs(host, order, results), k) == Occurrences(order, k)
    ensures forall i :: 0 <= i < |Runs(host, order, results)| && Runs(host, order, results)[i].Invoke? ==>
      Runs(host, order, results)[i].labels == [host]
  {
    if |order| > 0 {
      var pre := order[..|order| - 1];
      var last := order[|order| - 1];
      var ss := results(last).samples;
      RunsCounts(host, pre, results, k);
      SendsCounts(ss, UpName, k);
      SendsCounts(ss, DurationName, k);
      CountsAppend(Runs(host, pre, results), [Invoke(last, [host])], UpName, k);
      CountsAppend(Runs(host, pre, results) + [Invoke(last, [host])], Sends(ss), UpName, k);
      CountsAppend(Runs(host, pre, results), [Invoke(last, [host])], DurationName, k);
      CountsAppend(Runs(host, pre, results) + [Invoke(last, [host])], Sends(ss), DurationName, k);
    }
  }

  lemma {:induction false} OccursOnce(order: seq<Kind>, k: Kind)
    requires forall i, j :: 0 <= i < j < |order| ==> order[i] != order[j]
    ensures Occurrences(order, k) == if k in order then 1 else 0
  {
    if |order| > 0 {
      var pre := order[..|order| - 1];
      OccursOnce(pre, k);
      if order[|order| - 1] == k {
        assert k !in pre;
      } else {
        assert k in order ==> k in pre;
      }
    }
  }

  /** Every poll sends exactly one up sample and exactly one duration sample, the duration sample
      last; up is 1 iff the connection was established, and the connection is closed exactly
      when it was established. */
  lemma HostAccounting(host: string, p: Poll, order: seq<Kind>)
    requires OwnMetrics(p.results)
    ensures var t := HostTrace(host, p, order);
      && CountMetric(t, UpName) == 1
      && CountMetric(t, DurationName) == 1
      && t[0] == Send(UpSample(host, p.connected))
      && t[|t| - 1] == Send(DurationSample(host, p))
      && Closes(t) == (if p.connected then 1 else 0)
  {
    var k: Kind := BGP;
    var up := [Send(UpSample(host, p.connected))];
    var tail := [Closed, Send(DurationSample(host, p))];
    if p.connected {
      var runs := if p.identified then Runs(host, order, p.results) else [];
      RunsCounts(host, order, p.results, k);
      CountsAppend(up, runs, UpName, k);
      CountsAppend(up + runs, tail, UpName, k);
      CountsAppend(up, runs, DurationName, k);
      CountsAppend(up + runs, tail, DurationName, k);
      assert tail == [Closed] + [Send(DurationSample(host, p))];
      CountsAppend([Closed], [Send(DurationSample(host, p))], UpName, k);
      CountsAppend([Closed], [Send(DurationSample(host, p))], DurationName, k);
    } else {
      CountsAppend(up, [Send(DurationSample(host, p))], UpName, k);
      CountsAppend(up, [Send(DurationSample(host, p))], DurationName, k);
    }
  }

  /** After a successful identification every collector of the map is invoked exactly once, with
      the label values [host], whatever the others returned; without identification none is. */
  lemma EachCollectorOnce(host: string, p: Poll, e: Enabled, order: seq<Kind>, k: Kind)
    requires OwnMetrics(p.results) && Enumerates(e, order)
    ensures var t := HostTrace(host, p, order);
      && Invocations(t, k) == (if p.connected && p.identified && On(e, k) then 1 else 0)
      && forall i :: 0 <= i < |t| && t[i].Invoke? ==> t[i].labels == [host]
  {
    var up := [Send(UpSample(host, p.connected))];
    OccursOnce(order, k);
    var runs := Runs(host, order, p.results);
    RunsCounts(host, order, p.results, k);
    if p.connected {
      var mid := if p.identified then runs else [];
      var tail := [Closed, Send(DurationSample(host, p))];
      CountsAppend(up, mid, UpName, k);
      CountsAppend(up + mid, tail, UpName, k);
      assert tail == [Closed] + [Send(DurationSample(host, p))];
      CountsAppend([Closed], [Send(DurationSample(host, p))], UpName, k);
    } else {
      CountsAppend(up, [Send(DurationSample(host, p))], UpName, k);
    }
  }

  /** One up sample per target, in target order, labelled with the trimmed host. */
  function UpHosts(trace: seq<Event>): seq<string> {
    if |trace| == 0 then []
    else
      var ev := trace[|trace| - 1];
      UpHosts(trace[..|trace| - 1]) + (if ev.Send? && ev.sample.metric == UpName then ev.sample.labels else [])
  }

  function Trimmed(targets: seq<string>): (r: seq<string>)
    ensures |r| == |targets| && forall i :: 0 <= i < |targets| ==> r[i] == Text.TrimBlanks(targets[i])
  {
    seq(|targets|, i requires 0 <= i < |targets| => Text.TrimBlanks(targets[i]))
  }

  lemma {:induction false} UpHostsAppend(a: seq<Event>, b: seq<Event>)
    ensures UpHosts(a + b) == UpHosts(a) + UpHosts(b)
    decreases |b|
  {
    if |b| == 0 {
      assert a + b == a;
    } else {
      assert (a + b)[..|a + b| - 1] == a + b[..|b| - 1];
      UpHostsAppend(a, b[..|b| - 1]);
    }
  }

  lemma {:induction false} RunsHaveNoUp(host: string, order: seq<Kind>, results: Kind -> Collected)
    requires OwnMetrics(results)
    ensures UpHosts(Runs(host, order, results)) == []
  {
    if |order| > 0 {
      var pre := order[..|order| - 1];
      var ss := results(order[|order| - 1]).samples;
      RunsHaveNoUp(host, pre, results);
      SendsHaveNoUp(ss);
      UpHostsAppend(Runs(host, pre, results), [Invoke(order[|order| - 1], [host])]);
      UpHostsAppend(Runs(host, pre, results) + [Invoke(order[|order| - 1], [host])], Sends(ss));
    }
  }

  lemma {:induction false} SendsHaveNoUp(ss: seq<Sample>)
    requires forall i :: 0 <= i < |ss| ==> ss[i].metric != UpName
    ensures UpHosts(Sends(ss)) == []
  {
    if |ss| > 0 {
      assert Sends(ss)[..|ss| - 1] == Sends(ss[..|ss| - 1]);
      SendsHaveNoUp(ss[..|ss| - 1]);
    }
  }

  lemma UpHostsSingle(ev: Event)
    ensures UpHosts([ev]) == if ev.Send? && ev.sample.metric == UpName then ev.sample.labels else []
  {
    assert [ev][..0] == [];
  }

  lemma HostUp(host: string, p: Poll, order: seq<Kind>)
    requires OwnMetrics(p.results)
    ensures UpHosts(HostTrace(host, p, order)) == [host]
  {
    var up := [Send(UpSample(host, p.connected))];
    var dur := [Send(DurationSample(host, p))];
    UpHostsSingle(up[0]);
    UpHostsSingle(dur[0]);
    if p.connected {
      var mid := if p.identified then Runs(host, order, p.results) else [];
      RunsHaveNoUp(host, order, p.results);
      UpHostsSingle(Closed);
      assert HostTrace(host, p, order) == up + mid + [Closed] + dur;
      UpHostsAppend(up, mid);
      UpHostsAppend(up + mid, [Closed]);
      UpHostsAppend(up + mid + [Closed], dur);
    } else {
      assert HostTrace(host, p, order) == up + dur;
      UpHostsAppend(up, dur);
    }
  }

  /** Collect polls every target once, in order, under its trimmed name: the up samples of the
      whole trace are labelled with exactly the trimmed targets. */
  lemma {:induction false} OneUpPerTarget(targets: seq<string>, polls: string -> Poll, order: seq<Kind>)
    requires forall h :: OwnMetrics(polls(h).results)
    ensures UpHosts(AllTraces(targets, polls, order)) == Trimmed(targets)
  {
    if |targets| > 0 {
      var pre := targets[..|targets| - 1];
      var h := Text.TrimBlanks(targets[|targets| - 1]);
      assert AllTraces(targets, polls, order) == AllTraces(pre, polls, order) + HostTrace(h, polls(h), order);
      OneUpPerTarget(pre, polls, order);
      UpHostsAppend(AllTraces(pre, polls, order), HostTrace(h, polls(h), order));
      HostUp(h, polls(h), order);
      assert Trimmed(targets) == Trimmed(pre) + [h];
    }
  }
}
