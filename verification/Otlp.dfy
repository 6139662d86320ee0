/** The OTLP exporter: one gauge and one callback per metric name, and its agreement with Collect. */
module Otlp {
  import opened Prelude
  import opened Text
  import opened Snapshots
  import opened Prometheus

  /** The OTLP side observes whatever it is given. */
  const ALWAYS: Renderer := (n, k, v) => true

  class OTLPExporter {
    const store: SnapshotStore
    var registered: set<string>

    constructor (store: SnapshotStore)
      ensures this.store == store && registered == {}
    {
      this.store := store;
      registered := {};
    }

    /** EnsureInstruments; `creates` says which gauges the SDK agrees to create. On the first refusal the
        names registered so far stay, which are those below the refused one. */
    method EnsureInstruments(creates: string -> bool) returns (refused: Option<string>)
      modifies this
      ensures refused.None? ==> registered == old(registered) + Names(Flatten(store.snap.systems))
      ensures refused.Some? ==>
                !creates(refused.value) && refused.value in Names(Flatten(store.snap.systems))
                && refused.value !in old(registered)
                && registered ==
                     old(registered) + set n | n in Names(Flatten(store.snap.systems)) && Less(n, refused.value)
    {
      var snap := store.Load();
      var names := MetricNames(snap);
      for i := 0 to |names|
        invariant registered == old(registered) + set n | n in names[..i]
        invariant store.snap == old(store.snap)
      {
        if names[i] in registered {
          assert names[..i + 1] == names[..i] + [names[i]];
          continue;
        }
        if !creates(names[i]) {
          Below(names, i);
          return Some(names[i]);
        }
        registered := registered + {names[i]};
        assert names[..i + 1] == names[..i] + [names[i]];
      }
      assert names[..|names|] == names;
      refused := None;
    }

    /** The callback of one name: what it observes at collection time. */
    method Observe(metricName: string) returns (obs: seq<Metric>)
      ensures obs == Emitted(ALWAYS, ByName(Flatten(store.snap.systems), metricName))
      ensures exists f :: Selected(ALWAYS, ByName(Flatten(store.snap.systems), metricName), obs, f)
    {
      var snap := store.Load();
      var samples := SamplesByName(snap, metricName);
      var schemaKeys: Option<seq<string>> := None;
      var seen: set<string> := {};
      obs := [];
      ByNameIsOfName(Flatten(snap.systems), metricName);
      for i := 0 to |samples|
        invariant schemaKeys == FirstKeys(samples[..i], metricName)
        invariant seen == Seen(ALWAYS, samples[..i], metricName)
        invariant obs == Emitted(ALWAYS, samples[..i])
      {
        var s := samples[i];
        assert samples[..i + 1][..i] == samples[..i];
        var keys, vals := KeysAndValues(s);
        if schemaKeys.None? {
          schemaKeys := Some(keys);
        } else if schemaKeys.value != keys {
          continue;
        }
        var sig := Join(vals, NUL);
        if sig in seen {
          continue;
        }
        seen := seen + {sig};
        obs := obs + [Metric(metricName, keys, vals, s.value)];
      }
      assert samples[..|samples|] == samples;
      ghost var f := EmittedSelects(ALWAYS, samples);
    }
  }

  /** In a strictly sorted list the names before a position are the smaller ones. */
  lemma Below(names: seq<string>, i: nat)
    requires Sorted(names) && i < |names|
    ensures (set n | n in names[..i]) == set n | n in names && Less(n, names[i])
  {
    forall n | n in names && Less(n, names[i]) ensures n in names[..i] {
      var k :| 0 <= k < |names| && names[k] == n;
      LessIsTotal(n, names[i]);
      assert k < i;
      assert names[..i][k] == n;
    }
  }

  lemma {:induction false} ByNameIsOfName(p: seq<Sample>, name: string)
    ensures forall i :: 0 <= i < |ByName(p, name)| ==> ByName(p, name)[i].name == name
  {
    if p != [] {
      ByNameIsOfName(p[..|p| - 1], name);
    }
  }

  /** The metrics of one name, in order. */
  function OfName(ms: seq<Metric>, name: string): seq<Metric> {
    if ms == [] then [] else
      OfName(ms[..|ms| - 1], name) + (if ms[|ms| - 1].name == name then [ms[|ms| - 1]] else [])
  }

  lemma OfNameAppend(ms: seq<Metric>, m: Metric, name: string)
    ensures OfName(ms + [m], name) == OfName(ms, name) + (if m.name == name then [m] else [])
  {
    assert (ms + [m])[..|ms|] == ms;
  }

  lemma ByNameStep(p: seq<Sample>, name: string)
    requires p != [] && p[|p| - 1].name == name
    ensures var q := ByName(p, name);
            q != [] && q[|q| - 1] == p[|p| - 1] && q[..|q| - 1] == ByName(p[..|p| - 1], name)
  {
  }

  /** A pass over the samples of one name keeps the same filter state as the pass over all of them. */
  lemma {:induction false} PerNameState(r: Renderer, p: seq<Sample>, name: string)
    ensures FirstKeys(ByName(p, name), name) == FirstKeys(p, name)
    ensures Seen(r, ByName(p, name), name) == Seen(r, p, name)
  {
    if p != [] {
      var before, last := p[..|p| - 1], p[|p| - 1];
      PerNameState(r, before, name);
      if last.name == name {
        ByNameStep(p, name);
      } else {
        assert ByName(p, name) == ByName(before, name);
      }
    }
  }

  /** So it emits the metrics of that name, in the same order. */
  lemma {:induction false} PerNameOutput(r: Renderer, p: seq<Sample>, name: string)
    ensures Emitted(r, ByName(p, name)) == OfName(Emitted(r, p), name)
  {
    if p != [] {
      var before, last := p[..|p| - 1], p[|p| - 1];
      PerNameOutput(r, before, name);
      PerNameState(r, before, name);
      EmittedStep(r, p);
      OfNameAppend(Emitted(r, before), Rendered(last), name);
      if last.name == name {
        ByNameStep(p, name);
        EmittedStep(r, ByName(p, name));
      } else {
        assert ByName(p, name) == ByName(before, name);
      }
    }
  }

  /** A renderer that refuses none of the observed metrics filters nothing. */
  lemma {:induction false} RendererIsIdle(r: Renderer, p: seq<Sample>)
    requires forall m :: m in Emitted(ALWAYS, p) ==> r(m.name, m.keys, m.vals)
    ensures Emitted(r, p) == Emitted(ALWAYS, p)
    ensures forall n :: Seen(r, p, n) == Seen(ALWAYS, p, n)
  {
    if p != [] {
      var before, last := p[..|p| - 1], p[|p| - 1];
      RendererIsIdle(r, before);
      if Emits(ALWAYS, before, last) {
        assert Rendered(last) in Emitted(ALWAYS, p);
        assert Emits(r, before, last);
      }
      assert Emits(r, before, last) == Emits(ALWAYS, before, last);
    }
  }

  ghost predicate Agree(r: Renderer, p: seq<Sample>) {
    forall n :: Emitted(ALWAYS, ByName(p, n)) == OfName(Emitted(r, p), n)
  }

  lemma {:induction false} MemberOfName(ms: seq<Metric>, m: Metric)
    ensures m in OfName(ms, m.name) <==> m in ms
  {
    if ms != [] {
      MemberOfName(ms[..|ms| - 1], m);
      assert ms == ms[..|ms| - 1] + [ms[|ms| - 1]];
    }
  }

  /** The two readers: on any snapshot the callbacks observe, name by name and in the same order, exactly
      what Collect emits, if and only if everything they observe renders. */
  lemma ReadersAgree(r: Renderer, p: seq<Sample>)
    ensures Agree(r, p) <==> forall m :: m in Emitted(ALWAYS, p) ==> r(m.name, m.keys, m.vals)
  {
    if forall m :: m in Emitted(ALWAYS, p) ==> r(m.name, m.keys, m.vals) {
      RendererIsIdle(r, p);
      forall n ensures Emitted(ALWAYS, ByName(p, n)) == OfName(Emitted(r, p), n) {
        PerNameOutput(ALWAYS, p, n);
      }
    }
    if Agree(r, p) {
      forall m | m in Emitted(ALWAYS, p) ensures r(m.name, m.keys, m.vals) {
        PerNameOutput(ALWAYS, p, m.name);
        MemberOfName(Emitted(ALWAYS, p), m);
        assert m in OfName(Emitted(r, p), m.name);
        MemberOfName(Emitted(r, p), m);
        EmittedKnown(r, p, m);
      }
    }
  }

  /** In particular they agree on every snapshot whose samples all render. */
  lemma ReadersAgreeWhenAllRender(r: Renderer, p: seq<Sample>, name: string)
    requires forall i :: 0 <= i < |p| ==> r(p[i].name, Keys(p[i]), Vals(p[i]))
    ensures Emitted(ALWAYS, ByName(p, name)) == OfName(Emitted(r, p), name)
  {
    AllEmittedRender(r, p);
    ReadersAgree(r, p);
  }

  lemma {:induction false} AllEmittedRender(r: Renderer, p: seq<Sample>)
    requires forall i :: 0 <= i < |p| ==> r(p[i].name, Keys(p[i]), Vals(p[i]))
    ensures forall m :: m in Emitted(ALWAYS, p) ==> r(m.name, m.keys, m.vals)
  {
    if p != [] {
      AllEmittedRender(r, p[..|p| - 1]);
    }
  }

  // ---------------------------------------------------------------- the whole export

  /** The observations of a list of instruments. */
  function Export(p: seq<Sample>, order: seq<string>): seq<Metric> {
    if order == [] then [] else Emitted(ALWAYS, ByName(p, order[0])) + Export(p, order[1..])
  }

  function Regrouped(ms: seq<Metric>, order: seq<string>): seq<Metric> {
    if order == [] then [] else OfName(ms, order[0]) + Regrouped(ms, order[1..])
  }

  ghost predicate Distinct<T(!new)>(s: seq<T>) {
    forall i, j :: 0 <= i < j < |s| ==> s[i] != s[j]
  }

  lemma RegroupedStep(ms: seq<Metric>, order: seq<string>)
    requires order != []
    ensures multiset(Regrouped(ms, order)) == multiset(OfName(ms, order[0])) + multiset(Regrouped(ms, order[1..]))
  {
  }

  lemma {:induction false} RegroupedAppend(ms: seq<Metric>, m: Metric, order: seq<string>)
    requires Distinct(order)
    ensures multiset(Regrouped(ms + [m], order)) ==
              multiset(Regrouped(ms, order)) + (if m.name in order then multiset{m} else multiset{})
  {
    if order != [] {
      RegroupedAppend(ms, m, order[1..]);
      OfNameAppend(ms, m, order[0]);
      RegroupedStep(ms, order);
      RegroupedStep(ms + [m], order);
      assert multiset(OfName(ms + [m], order[0])) ==
             multiset(OfName(ms, order[0])) + (if m.name == order[0] then multiset{m} else multiset{});
      assert m.name in order <==> m.name == order[0] || m.name in order[1..];
    }
  }

  lemma {:induction false} RegroupedIsPermutation(ms: seq<Metric>, order: seq<string>)
    requires Distinct(order) && forall m :: m in ms ==> m.name in order
    ensures multiset(Regrouped(ms, order)) == multiset(ms)
  {
    if ms == [] {
      RegroupedNothing(order);
    } else {
      var before, last := ms[..|ms| - 1], ms[|ms| - 1];
      assert ms == before + [last];
      RegroupedIsPermutation(before, order);
      RegroupedAppend(before, last, order);
      assert last in ms;
    }
  }

  lemma {:induction false} RegroupedNothing(order: seq<string>)
    ensures Regrouped([], order) == []
  {
    if order != [] {
      RegroupedNothing(order[1..]);
    }
  }

  lemma {:induction false} ExportRegroups(r: Renderer, p: seq<Sample>, order: seq<string>)
    requires forall i :: 0 <= i < |p| ==> r(p[i].name, Keys(p[i]), Vals(p[i]))
    ensures Export(p, order) == Regrouped(Emitted(r, p), order)
  {
    if order != [] {
      ExportRegroups(r, p, order[1..]);
      ReadersAgreeWhenAllRender(r, p, order[0]);
    }
  }

  lemma {:induction false} EmittedNames(r: Renderer, p: seq<Sample>, m: Metric)
    requires m in Emitted(r, p)
    ensures m.name in Names(p)
  {
    var before, last := p[..|p| - 1], p[|p| - 1];
    if m in Emitted(r, before) {
      EmittedNames(r, before, m);
    } else {
      assert last in p;
    }
  }

  /** Right after EnsureInstruments on a snapshot whose samples all render, the instruments together, visited
      in any order, export exactly what Collect emits: nothing lost, nothing doubled. Instruments of names
      no longer in the snapshot add nothing. */
  lemma ExportIsPermutation(r: Renderer, p: seq<Sample>, order: seq<string>)
    requires forall i :: 0 <= i < |p| ==> r(p[i].name, Keys(p[i]), Vals(p[i]))
    requires Distinct(order) && Names(p) <= set n | n in order
    ensures multiset(Export(p, order)) == multiset(Emitted(r, p))
  {
    ExportRegroups(r, p, order);
    forall m | m in Emitted(r, p) ensures m.name in order {
      EmittedNames(r, p, m);
    }
    RegroupedIsPermutation(Emitted(r, p), order);
  }
}
