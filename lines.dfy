/** The two shapes the line-oriented parsers take: a loop that appends one record per matching
    line, and a loop that returns the record of the first matching line. */
module Lines {
  import opened Wrappers

  /** The records of the lines that yield one, in line order. */
  function FilterMap<T>(lines: seq<string>, f: string -> Option<T>): seq<T>
  {
    if |lines| == 0 then []
    else
      var last := f(lines[|lines| - 1]);
      FilterMap(lines[..|lines| - 1], f) + (if last.Some? then [last.value] else [])
  }

  /** Parsing two blocks of lines gives the records of the first block, then those of the second. */
  lemma {:induction false} FilterMapAppend<T>(a: seq<string>, b: seq<string>, f: string -> Option<T>)
    ensures FilterMap(a + b, f) == FilterMap(a, f) + FilterMap(b, f)
    decreases |b|
  {
    if |b| == 0 {
      assert a + b == a;
    } else {
      assert (a + b)[..|a + b| - 1] == a + b[..|b| - 1];
      FilterMapAppend(a, b[..|b| - 1], f);
    }
  }

  /** One line yields its record, or nothing. */
  lemma FilterMapSingle<T>(line: string, f: string -> Option<T>)
    ensures FilterMap([line], f) == (if f(line).Some? then [f(line).value] else [])
  {
    assert [line][..0] == [];
  }

  /** Every record comes from some line, and a block of lines that all yield nothing adds nothing. */
  lemma {:induction false} FilterMapFrom<T>(lines: seq<string>, f: string -> Option<T>, x: T)
    requires x in FilterMap(lines, f)
    ensures exists i :: 0 <= i < |lines| && f(lines[i]) == Some(x)
    decreases |lines|
  {
    var m := |lines| - 1;
    if f(lines[m]) != Some(x) {
      FilterMapFrom(lines[..m], f, x);
      var i :| 0 <= i < m && f(lines[..m][i]) == Some(x);
      assert lines[i] == lines[..m][i];
    }
  }

  /** There are exactly as many records as lines when every line yields one. */
  lemma {:induction false} FilterMapTotal<T>(lines: seq<string>, f: string -> Option<T>)
    requires forall i :: 0 <= i < |lines| ==> f(lines[i]).Some?
    ensures |FilterMap(lines, f)| == |lines|
    ensures forall i :: 0 <= i < |lines| ==> FilterMap(lines, f)[i] == f(lines[i]).value
    decreases |lines|
  {
    if |lines| > 0 {
      var m := |lines| - 1;
      FilterMapTotal(lines[..m], f);
    }
  }

  lemma {:induction false} FilterMapNone<T>(lines: seq<string>, f: string -> Option<T>)
    requires forall i :: 0 <= i < |lines| ==> f(lines[i]).None?
    ensures FilterMap(lines, f) == []
    decreases |lines|
  {
    if |lines| > 0 {
      FilterMapNone(lines[..|lines| - 1], f);
    }
  }

  /** The index of the first line that yields a record, or |lines| when none does. */
  function FirstIndex<T>(lines: seq<string>, f: string -> Option<T>): (k: nat)
    ensures k <= |lines|
    ensures forall i :: 0 <= i < k ==> f(lines[i]).None?
    ensures k < |lines| ==> f(lines[k]).Some?
    decreases |lines|
  {
    if |lines| == 0 then 0
    else if f(lines[0]).Some? then 0
    else 1 + FirstIndex(lines[1..], f)
  }

  /** The record of the first line that yields one. */
  function First<T>(lines: seq<string>, f: string -> Option<T>): Option<T> {
    var k := FirstIndex(lines, f);
    if k < |lines| then f(lines[k]) else None
  }

  /** First finds nothing exactly when no line yields a record, and otherwise gives the record of
      a line before which none yields one. */
  lemma FirstFound<T>(lines: seq<string>, f: string -> Option<T>) returns (k: nat)
    ensures First(lines, f).None? <==> forall i :: 0 <= i < |lines| ==> f(lines[i]).None?
    ensures First(lines, f).Some? ==> k < |lines| && f(lines[k]) == First(lines, f)
    ensures forall j :: 0 <= j < k && j < |lines| ==> f(lines[j]).None?
  {
    k := FirstIndex(lines, f);
  }

  /** The first line that yields a record determines First. */
  lemma FirstAt<T>(lines: seq<string>, f: string -> Option<T>, i: nat)
    requires i < |lines| && f(lines[i]).Some?
    requires forall j :: 0 <= j < i ==> f(lines[j]).None?
    ensures First(lines, f) == f(lines[i])
  {
    var k := FirstIndex(lines, f);
    if k < i {
    } else if k > i {
    }
  }
}
