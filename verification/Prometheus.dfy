/** Collect: one pass over the snapshot with a schema and a duplicate filter per metric name. */
module Prometheus {
  import opened Prelude
  import opened Text
  import opened Snapshots

  datatype Metric = Metric(name: string, keys: seq<string>, vals: seq<string>, value: real)

  /** Whether the client library can build a metric from a name, keys and values. */
  type Renderer = (string, seq<string>, seq<string>) -> bool

  /** nameSchema, without the descriptor, which is a function of the name and the keys. */
  datatype Entry = Entry(keys: seq<string>, seen: set<string>)

  function Rendered(s: Sample): Metric {
    Metric(s.name, Keys(s), Vals(s), s.value)
  }

  function Signature(s: Sample): string {
    Join(Vals(s), NUL)
  }

  /** The key list that the first sample of a name fixes. */
  function FirstKeys(p: seq<Sample>, name: string): Option<seq<string>> {
    if p == [] then None else
      var before := FirstKeys(p[..|p| - 1], name);
      if before.Some? then before
      else if p[|p| - 1].name == name then Some(Keys(p[|p| - 1]))
      else None
  }

  /** The signatures emitted for a name by the samples `p`. */
  function Seen(r: Renderer, p: seq<Sample>, name: string): set<string>
    decreases |p|, 0
  {
    if p == [] then {} else
      var before, last := p[..|p| - 1], p[|p| - 1];
      Seen(r, before, name) + (if last.name == name && Emits(r, before, last) then {Signature(last)} else {})
  }

  /** Whether `s` is emitted after the samples `p`. */
  predicate Emits(r: Renderer, p: seq<Sample>, s: Sample)
    decreases |p|, 1
  {
    (FirstKeys(p, s.name).Some? ==> FirstKeys(p, s.name).value == Keys(s))
    && Signature(s) !in Seen(r, p, s.name)
    && r(s.name, Keys(s), Vals(s))
  }

  function Emitted(r: Renderer, p: seq<Sample>): seq<Metric> {
    if p == [] then [] else
      var before, last := p[..|p| - 1], p[|p| - 1];
      Emitted(r, before) + (if Emits(r, before, last) then [Rendered(last)] else [])
  }

  lemma EmittedStep(r: Renderer, p: seq<Sample>)
    requires p != []
    ensures var before, last := p[..|p| - 1], p[|p| - 1];
            Emitted(r, p) == if Emits(r, before, last) then Emitted(r, before) + [Rendered(last)]
                             else Emitted(r, before)
  {
  }

  /** A metric carries the sample's name, its labels in order and its value. */
  ghost predicate Shows(m: Metric, s: Sample) {
    m.name == s.name && m.value == s.value && |m.keys| == |m.vals| == |s.labels|
    && forall i :: 0 <= i < |s.labels| ==> s.labels[i] == Label(m.keys[i], m.vals[i])
  }

  /** Which positions of `p` are emitted when their turn comes. */
  function Turn(r: Renderer, p: seq<Sample>): nat -> bool {
    (i: nat) => i < |p| && Emits(r, p[..i], p[i])
  }

  /** The metrics `ms` show the samples at the positions `f`, which are those whose turn it is to be emitted. */
  ghost predicate Selected(r: Renderer, p: seq<Sample>, ms: seq<Metric>, f: seq<nat>) {
    Picks(f, |p|, Turn(r, p)) && Show(ms, p, f)
  }

  ghost predicate Show(ms: seq<Metric>, p: seq<Sample>, f: seq<nat>) {
    |ms| == |f| && forall k :: 0 <= k < |f| ==> f[k] < |p| && Shows(ms[k], p[f[k]])
  }

  lemma ShowNext(ms: seq<Metric>, p: seq<Sample>, f: seq<nat>, n: nat)
    requires Show(ms, p, f) && n < |p|
    ensures Show(ms + [Rendered(p[n])], p, f + [n])
  {
  }

  lemma EmittedOfOneMore(r: Renderer, p: seq<Sample>, n: nat)
    requires n < |p|
    ensures Emitted(r, p[..n + 1]) ==
              if Turn(r, p)(n) then Emitted(r, p[..n]) + [Rendered(p[n])] else Emitted(r, p[..n])
  {
    assert p[..n + 1][..n] == p[..n];
    EmittedStep(r, p[..n + 1]);
  }

  lemma {:induction false} EmittedUpTo(r: Renderer, p: seq<Sample>, n: nat) returns (f: seq<nat>)
    requires n <= |p|
    ensures Picks(f, n, Turn(r, p)) && Show(Emitted(r, p[..n]), p, f)
  {
    f := [];
    if n > 0 {
      var g := EmittedUpTo(r, p, n - 1);
      PickNext(g, n - 1, Turn(r, p));
      ShowNext(Emitted(r, p[..n - 1]), p, g, n - 1);
      EmittedOfOneMore(r, p, n - 1);
      f := if Turn(r, p)(n - 1) then g + [n - 1] else g;
    }
  }

  /** Every metric shows its own sample, value included. */
  lemma EmittedSelects(r: Renderer, p: seq<Sample>) returns (f: seq<nat>)
    ensures Selected(r, p, Emitted(r, p), f)
  {
    f := EmittedUpTo(r, p, |p|);
    assert p[..|p|] == p;
  }

  ghost predicate SchemaOk(r: Renderer, p: seq<Sample>, schema: map<string, Entry>) {
    && (forall n :: n in schema <==> FirstKeys(p, n).Some?)
    && (forall n :: n in schema ==> schema[n].keys == FirstKeys(p, n).value && schema[n].seen == Seen(r, p, n))
  }

  /** A name nobody has used has emitted nothing. */
  lemma {:induction false} UnusedSeen(r: Renderer, p: seq<Sample>, name: string)
    requires FirstKeys(p, name).None?
    ensures Seen(r, p, name) == {}
  {
    if p != [] {
      UnusedSeen(r, p[..|p| - 1], name);
    }
  }

  class PromCollector {
    const store: SnapshotStore

    constructor (store: SnapshotStore)
      ensures this.store == store
    {
      this.store := store;
    }

    method Collect(r: Renderer) returns (ch: seq<Metric>)
      ensures ch == Emitted(r, Flatten(store.snap.systems))
      ensures exists f :: Selected(r, Flatten(store.snap.systems), ch, f)
    {
      var snap := store.Load();
      var schema: map<string, Entry> := map[];
      ch := [];
      for i := 0 to |snap.systems|
        invariant SchemaOk(r, Flatten(snap.systems[..i]), schema)
        invariant ch == Emitted(r, Flatten(snap.systems[..i]))
      {
        assert snap.systems[..i + 1][..i] == snap.systems[..i];
        schema, ch := VisitSystem(r, Flatten(snap.systems[..i]), snap.systems[i].samples, schema, ch);
      }
      assert snap.systems[..|snap.systems|] == snap.systems;
      ghost var f := EmittedSelects(r, Flatten(snap.systems));
    }
  }

  /** Collect's inner loop. */
  method VisitSystem(r: Renderer, ghost p: seq<Sample>, samples: seq<Sample>, schema: map<string, Entry>,
                     ch: seq<Metric>)
    returns (schema': map<string, Entry>, ch': seq<Metric>)
    requires SchemaOk(r, p, schema) && ch == Emitted(r, p)
    ensures SchemaOk(r, p + samples, schema') && ch' == Emitted(r, p + samples)
  {
    schema', ch' := schema, ch;
    assert p + samples[..0] == p;
    for j := 0 to |samples|
      invariant SchemaOk(r, p + samples[..j], schema')
      invariant ch' == Emitted(r, p + samples[..j])
    {
      schema', ch' := Visit(r, p + samples[..j], samples[j], schema', ch');
      assert p + samples[..j + 1] == p + samples[..j] + [samples[j]];
    }
    assert samples[..|samples|] == samples;
  }

  /** The body of Collect's inner loop. */
  method Visit(r: Renderer, ghost p: seq<Sample>, s: Sample, schema: map<string, Entry>, ch: seq<Metric>)
    returns (schema': map<string, Entry>, ch': seq<Metric>)
    requires SchemaOk(r, p, schema) && ch == Emitted(r, p)
    ensures SchemaOk(r, p + [s], schema') && ch' == Emitted(r, p + [s])
  {
    assert (p + [s])[..|p|] == p;
    schema', ch' := schema, ch;
    var keys, vals := KeysAndValues(s);
    if s.name !in schema {
      UnusedSeen(r, p, s.name);
      schema' := schema'[s.name := Entry(keys, {})];
    } else if schema[s.name].keys != keys {
      return;
    }
    var entry := schema'[s.name];
    var sig := Join(vals, NUL);
    if sig in entry.seen {
      return;
    }
    if !r(s.name, keys, vals) {
      return;
    }
    schema' := schema'[s.name := entry.(seen := entry.seen + {sig})];
    ch' := ch' + [Metric(s.name, keys, vals, s.value)];
  }

  // ---------------------------------------------------------------- what Emits means

  /** `j` is the position of the first sample of a name. */
  ghost predicate IsFirst(p: seq<Sample>, name: string, j: int) {
    0 <= j < |p| && p[j].name == name && forall i :: 0 <= i < j ==> p[i].name != name
  }

  lemma {:induction false} FirstKeysMeaning(p: seq<Sample>, name: string)
    ensures FirstKeys(p, name).None? ==> forall j :: 0 <= j < |p| ==> p[j].name != name
    ensures FirstKeys(p, name).Some? ==> exists j :: IsFirst(p, name, j) && FirstKeys(p, name).value == Keys(p[j])
  {
    if p != [] {
      var before := p[..|p| - 1];
      FirstKeysMeaning(before, name);
      if FirstKeys(before, name).Some? {
        var j :| IsFirst(before, name, j) && FirstKeys(before, name).value == Keys(before[j]);
        assert IsFirst(p, name, j);
      } else if p[|p| - 1].name == name {
        assert IsFirst(p, name, |p| - 1);
      }
    }
  }

  lemma {:induction false} SeenMeaning(r: Renderer, p: seq<Sample>, name: string, sig: string)
    ensures sig in Seen(r, p, name) <==>
              exists j :: 0 <= j < |p| && p[j].name == name && Signature(p[j]) == sig && Emits(r, p[..j], p[j])
  {
    if p != [] {
      var before := p[..|p| - 1];
      SeenMeaning(r, before, name, sig);
      forall j | 0 <= j < |before| ensures before[..j] == p[..j] {}
      if sig in Seen(r, before, name) {
        var j :| 0 <= j < |before| && before[j].name == name && Signature(before[j]) == sig
            && Emits(r, before[..j], before[j]);
        assert p[j] == before[j] && Emits(r, p[..j], p[j]);
      } else if sig in Seen(r, p, name) {
        assert Emits(r, p[..|p| - 1], p[|p| - 1]);
      }
    }
  }

  ghost predicate NulFree(s: Sample) {
    forall i :: 0 <= i < |s.labels| ==> Free(NUL, s.labels[i].value)
  }

  /** Same name, keys and values. */
  ghost predicate SameSeries(a: Sample, b: Sample) {
    a.name == b.name && Keys(a) == Keys(b) && Vals(a) == Vals(b)
  }

  /** Equal signatures of NUL-free samples with equal keys are equal values. */
  lemma SignatureIsFaithful(a: Sample, b: Sample)
    requires NulFree(a) && NulFree(b) && Keys(a) == Keys(b) && Signature(a) == Signature(b)
    ensures Vals(a) == Vals(b)
  {
    assert |a.labels| == |Keys(a)| == |b.labels|;
    JoinInjective(Vals(a), Vals(b), NUL);
  }

  lemma {:induction false} FirstKeysPrefix(p: seq<Sample>, j: nat, name: string)
    requires j <= |p| && FirstKeys(p[..j], name).Some?
    ensures FirstKeys(p, name) == FirstKeys(p[..j], name)
  {
    if j < |p| {
      assert p[..|p| - 1][..j] == p[..j];
      FirstKeysPrefix(p[..|p| - 1], j, name);
    } else {
      assert p[..j] == p;
    }
  }

  /** First-wins: a sample with NUL-free values is emitted exactly when it renders, its keys are those of the
      first sample of its name, and no earlier sample has its name, keys and values. */
  lemma {:induction false} FirstWins(r: Renderer, p: seq<Sample>, s: Sample)
    requires NulFree(s) && forall j :: 0 <= j < |p| ==> NulFree(p[j])
    ensures Emits(r, p, s) <==>
              r(s.name, Keys(s), Vals(s))
              && (forall j :: IsFirst(p, s.name, j) ==> Keys(p[j]) == Keys(s))
              && (forall j :: 0 <= j < |p| ==> !SameSeries(p[j], s))
    decreases |p|
  {
    FirstKeysMeaning(p, s.name);
    SeenMeaning(r, p, s.name, Signature(s));
    var ok := r(s.name, Keys(s), Vals(s)) && (FirstKeys(p, s.name).Some? ==> FirstKeys(p, s.name).value == Keys(s));
    if ok && Signature(s) in Seen(r, p, s.name) {
      var j :| 0 <= j < |p| && p[j].name == s.name && Signature(p[j]) == Signature(s) && Emits(r, p[..j], p[j]);
      KeysOfEmitted(r, p, j);
      SignatureIsFaithful(p[j], s);
      assert SameSeries(p[j], s);
    }
    if j :| 0 <= j < |p| && SameSeries(p[j], s) && ok {
      FirstDuplicate(r, p, s, j);
    }
  }

  /** Renderable, with the keys of the first sample of its name, and no repetition of an earlier series. */
  ghost predicate IsFirstWin(r: Renderer, p: seq<Sample>, i: nat)
    requires i < |p|
  {
    r(p[i].name, Keys(p[i]), Vals(p[i]))
    && (forall j :: IsFirst(p[..i], p[i].name, j) ==> Keys(p[j]) == Keys(p[i]))
    && forall j :: 0 <= j < i ==> !SameSeries(p[j], p[i])
  }

  /** The output on NUL-free samples: in the order of the visit, one metric with the sample's own name, labels and
      value for each first win, and no other. */
  lemma OutputIsFirstWins(r: Renderer, p: seq<Sample>) returns (f: seq<nat>)
    requires forall j :: 0 <= j < |p| ==> NulFree(p[j])
    ensures |Emitted(r, p)| == |f| && forall k :: 0 <= k < |f| ==> f[k] < |p| && Shows(Emitted(r, p)[k], p[f[k]])
    ensures forall j, k :: 0 <= j < k < |f| ==> f[j] < f[k]
    ensures forall i: nat :: i < |p| ==> (i in f <==> IsFirstWin(r, p, i))
  {
    f := EmittedSelects(r, p);
    forall i: nat | i < |p| ensures i in f <==> IsFirstWin(r, p, i) {
      FirstWins(r, p[..i], p[i]);
      assert i in f <==> Turn(r, p)(i);
      assert forall j :: 0 <= j < i ==> p[..i][j] == p[j];
    }
  }

  /** An emitted sample has the first keys of its name. */
  lemma KeysOfEmitted(r: Renderer, p: seq<Sample>, j: nat)
    requires j < |p| && Emits(r, p[..j], p[j])
    ensures FirstKeys(p, p[j].name) == Some(Keys(p[j]))
  {
    assert p[..j + 1][..j] == p[..j];
    FirstKeysPrefix(p, j + 1, p[j].name);
  }

  /** Of the samples of one series, the earliest is emitted when the series can be at all. */
  lemma {:induction false} FirstDuplicate(r: Renderer, p: seq<Sample>, s: Sample, j: nat)
    requires NulFree(s) && forall i :: 0 <= i < |p| ==> NulFree(p[i])
    requires j < |p| && SameSeries(p[j], s) && r(s.name, Keys(s), Vals(s))
    requires FirstKeys(p, s.name).Some? ==> FirstKeys(p, s.name).value == Keys(s)
    ensures Signature(s) in Seen(r, p, s.name)
    decreases j
  {
    SeenMeaning(r, p, s.name, Signature(s));
    if !Emits(r, p[..j], p[j]) {
      if FirstKeys(p[..j], s.name).Some? {
        FirstKeysPrefix(p, j, s.name);
      } else {
        assert p[..j + 1][..j] == p[..j];
        FirstKeysPrefix(p, j + 1, s.name);
      }
      SeenMeaning(r, p[..j], s.name, Signature(s));
      var i :| 0 <= i < j && p[..j][i].name == s.name && Signature(p[..j][i]) == Signature(s)
          && Emits(r, p[..j][..i], p[..j][i]);
      assert p[..j][..i] == p[..i] && p[..j][i] == p[i];
    }
  }

  lemma {:induction false} EmittedKnown(r: Renderer, p: seq<Sample>, m: Metric)
    requires m in Emitted(r, p)
    ensures FirstKeys(p, m.name) == Some(m.keys) && Join(m.vals, NUL) in Seen(r, p, m.name)
    ensures r(m.name, m.keys, m.vals)
  {
    var before, last := p[..|p| - 1], p[|p| - 1];
    if m in Emitted(r, before) {
      EmittedKnown(r, before, m);
    }
  }

  /** For every snapshot, NUL or not: the output never holds two metrics of one name with equal values, and
      has one key sequence per name. */
  lemma {:induction false} NoDuplicateSeries(r: Renderer, p: seq<Sample>)
    ensures forall i, j :: 0 <= i < j < |Emitted(r, p)| && Emitted(r, p)[i].name == Emitted(r, p)[j].name ==>
              Emitted(r, p)[i].keys == Emitted(r, p)[j].keys && Emitted(r, p)[i].vals != Emitted(r, p)[j].vals
  {
    if p != [] {
      var before, last := p[..|p| - 1], p[|p| - 1];
      NoDuplicateSeries(r, before);
      if Emits(r, before, last) {
        forall i | 0 <= i < |Emitted(r, before)| && Emitted(r, before)[i].name == last.name
          ensures Emitted(r, before)[i].keys == Keys(last) && Emitted(r, before)[i].vals != Vals(last)
        {
          EmittedKnown(r, before, Emitted(r, before)[i]);
        }
      }
    }
  }

  /** Without the NUL-free hypothesis first-wins fails: two different series can share a signature. */
  lemma NulValuesCollide(r: Renderer)
    requires r("m", ["k", "l"], ["x\0", "y"])
    ensures var a := Sample("m", [Label("k", "x\0"), Label("l", "y")], 1.0);
            var b := Sample("m", [Label("k", "x"), Label("l", "\0y")], 2.0);
            !SameSeries(a, b) && Emitted(r, [a, b]) == [Rendered(a)]
  {
    var a := Sample("m", [Label("k", "x\0"), Label("l", "y")], 1.0);
    var b := Sample("m", [Label("k", "x"), Label("l", "\0y")], 2.0);
    assert Keys(a) == ["k", "l"] == Keys(b);
    assert Vals(a) == ["x\0", "y"] && Vals(b) == ["x", "\0y"];
    assert Vals(a)[1..] == ["y"] && Vals(b)[1..] == ["\0y"];
    assert "x\0"[1] == '\0' && |"x\0"| == 2;
    assert Vals(a)[0] != Vals(b)[0];
    assert Signature(a) == "x\0" + [NUL] + "y" == "x" + [NUL] + "\0y" == Signature(b);
    assert [a, b][..1] == [a] && [a][..0] == [];
    assert Emits(r, [], a);
    assert Seen(r, [a], "m") == {Signature(a)};
    assert Emitted(r, [a]) == [Rendered(a)];
  }
}
