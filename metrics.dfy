/** The metric sink boundary: samples as (metric name, value, label values), descriptors, and what
    one collector invocation hands back. */
module Metrics {
  import opened Wrappers

  /** One gauge sample sent to the sink. Float values are modelled as reals. */
  datatype Sample = Sample(metric: string, value: real, labels: seq<string>)

  /** A metric descriptor: fully qualified name, help text and label names. */
  datatype Desc = Desc(name: string, help: string, labels: seq<string>)

  /** What one collector invocation did: the samples it sent, in order, the error it returned
      (None for nil) and the commands it issued to the device, in order. */
  datatype Collected = Collected(samples: seq<Sample>, err: Option<string>, issued: seq<string>)

  /** The 0/1 gauge value of a boolean status. */
  function Indicator(b: bool): (v: real)
    ensures v == 1.0 <==> b
    ensures v == 0.0 <==> !b
  {
    if b then 1.0 else 0.0
  }

  /** The samples an emission loop sends: the block of each item in turn, built from the left. */
  function FlatMap<T>(items: seq<T>, block: T -> seq<Sample>): seq<Sample>
  {
    if |items| == 0 then [] else FlatMap(items[..|items| - 1], block) + block(items[|items| - 1])
  }

  lemma {:induction false} FlatMapAppend<T>(a: seq<T>, b: seq<T>, block: T -> seq<Sample>)
    ensures FlatMap(a + b, block) == FlatMap(a, block) + FlatMap(b, block)
    decreases |b|
  {
    if |b| == 0 {
      assert a + b == a;
    } else {
      assert (a + b)[..|a + b| - 1] == a + b[..|b| - 1];
      FlatMapAppend(a, b[..|b| - 1], block);
    }
  }

  lemma FlatMapSingle<T>(x: T, block: T -> seq<Sample>)
    ensures FlatMap([x], block) == block(x)
  {
    assert [x][..0] == [];
  }

  lemma {:induction false} FlatMapLength<T>(items: seq<T>, block: T -> seq<Sample>, n: nat)
    requires forall i :: 0 <= i < |items| ==> |block(items[i])| == n
    ensures |FlatMap(items, block)| == n * |items|
    decreases |items|
  {
    if |items| > 0 {
      FlatMapLength(items[..|items| - 1], block, n);
      MulSucc(n, |items| - 1);
    }
  }

  /** When every block has n samples, item i's block sits at positions n*i .. n*i + n. */
  lemma FlatMapBlock<T>(items: seq<T>, block: T -> seq<Sample>, n: nat, i: nat)
    requires forall i :: 0 <= i < |items| ==> |block(items[i])| == n
    requires i < |items|
    ensures n * i + n <= |FlatMap(items, block)|
    ensures FlatMap(items, block)[n * i .. n * i + n] == block(items[i])
  {
    var front, rest := items[..i], items[i + 1..];
    assert items == front + [items[i]] + rest;
    FlatMapAppend(front + [items[i]], rest, block);
    FlatMapAppend(front, [items[i]], block);
    assert FlatMap([items[i]], block) == block(items[i]) by {
      assert [items[i]][..0] == [];
    }
    FlatMapLength(front, block, n);
  }

  lemma FlatMapUniform<T>(items: seq<T>, block: T -> seq<Sample>, n: nat)
    requires forall i :: 0 <= i < |items| ==> |block(items[i])| == n
    ensures |FlatMap(items, block)| == n * |items|
    ensures forall i :: 0 <= i < |items| ==>
      n * i + n <= |FlatMap(items, block)| && FlatMap(items, block)[n * i .. n * i + n] == block(items[i])
  {
    FlatMapLength(items, block, n);
    forall i | 0 <= i < |items|
      ensures n * i + n <= |FlatMap(items, block)| && FlatMap(items, block)[n * i .. n * i + n] == block(items[i])
    {
      FlatMapBlock(items, block, n, i);
    }
  }

  lemma MulMono(n: nat, a: nat, b: nat)
    requires a <= b
    ensures n * a <= n * b
  {
  }

  lemma MulSucc(n: nat, a: nat)
    ensures n * (a + 1) == n * a + n
  {
  }

  /** Every sample of an emission comes from the block of one of the items. */
  lemma {:induction false} FlatMapMember<T>(items: seq<T>, block: T -> seq<Sample>, s: Sample)
    requires s in FlatMap(items, block)
    ensures exists i :: 0 <= i < |items| && s in block(items[i])
    decreases |items|
  {
    var m := |items| - 1;
    if s !in block(items[m]) {
      FlatMapMember(items[..m], block, s);
      var i :| 0 <= i < m && s in block(items[..m][i]);
      assert items[i] == items[..m][i];
    }
  }
}
