/** Systems do not disturb each other in the exposition. */
module NoInterference {
  import opened Prelude
  import opened Text
  import opened Snapshots
  import opened Prometheus
  import opened Otlp
  import opened Metrics
  import opened Derivations
  import opened Health
  import opened Collector
  import opened Config
  import opened Fingerprint

  /** No sample of `a` shares name and signature with a sample of `b`. */
  ghost predicate Apart(a: seq<Sample>, b: seq<Sample>) {
    forall i, j :: 0 <= i < |a| && 0 <= j < |b| && a[i].name == b[j].name ==> Signature(a[i]) != Signature(b[j])
  }

  /** Every sample's keys are those of its name: key drift cannot occur. */
  ghost predicate Uniform(p: seq<Sample>) {
    forall i :: 0 <= i < |p| ==> Keys(p[i]) == KeysOf(p[i].name)
  }

  lemma UniformFirstKeys(p: seq<Sample>, name: string)
    requires Uniform(p)
    ensures FirstKeys(p, name).Some? ==> FirstKeys(p, name).value == KeysOf(name)
  {
    FirstKeysMeaning(p, name);
  }

  /** On uniform samples what a prefix decides depends on signatures only. */
  lemma UniformEmits(r: Renderer, p: seq<Sample>, s: Sample)
    requires Uniform(p) && Keys(s) == KeysOf(s.name)
    ensures Emits(r, p, s) <==> Signature(s) !in Seen(r, p, s.name) && r(s.name, Keys(s), Vals(s))
  {
    UniformFirstKeys(p, s.name);
  }

  /** Samples apart from everything in `a` fare after `a` as they do alone. */
  lemma {:induction false} SeenAfter(r: Renderer, a: seq<Sample>, b: seq<Sample>, name: string)
    requires Uniform(a) && Uniform(b) && Apart(a, b)
    ensures Seen(r, a + b, name) == Seen(r, a, name) + Seen(r, b, name)
    decreases |b|, 0
  {
    if b == [] {
      assert a + b == a;
    } else {
      var before, last := b[..|b| - 1], b[|b| - 1];
      assert (a + b)[..|a + b| - 1] == a + before;
      SeenAfter(r, a, before, name);
      EmitsAfter(r, a, before, last);
    }
  }

  lemma {:induction false} EmitsAfter(r: Renderer, a: seq<Sample>, b: seq<Sample>, s: Sample)
    requires Uniform(a) && Uniform(b) && Apart(a, b) && Apart(a, [s]) && Keys(s) == KeysOf(s.name)
    ensures Emits(r, a + b, s) <==> Emits(r, b, s)
    decreases |b|, 1
  {
    SeenAfter(r, a, b, s.name);
    UniformEmits(r, a + b, s);
    UniformEmits(r, b, s);
    SeenMeaning(r, a, s.name, Signature(s));
    assert forall j :: 0 <= j < |a| && a[j].name == [s][0].name ==> Signature(a[j]) != Signature([s][0]);
  }

  lemma {:induction false} EmittedAfter(r: Renderer, a: seq<Sample>, b: seq<Sample>)
    requires Uniform(a) && Uniform(b) && Apart(a, b)
    ensures Emitted(r, a + b) == Emitted(r, a) + Emitted(r, b)
  {
    if b == [] {
      assert a + b == a;
    } else {
      var before, last := b[..|b| - 1], b[|b| - 1];
      assert (a + b)[..|a + b| - 1] == a + before;
      EmittedAfter(r, a, before);
      EmitsAfter(r, a, before, last);
    }
  }

  /** What Collect would emit for each system alone, one after the other. */
  function EachAlone(r: Renderer, systems: seq<SystemSnapshot>): seq<Metric> {
    if systems == [] then [] else
      EachAlone(r, systems[..|systems| - 1]) + Emitted(r, systems[|systems| - 1].samples)
  }

  /** Names as Load leaves them, none of which is another followed by a NUL, which Load does not check. */
  ghost predicate GoodNames(l: Library, targets: seq<Target>) {
    (forall i, j :: 0 <= i < j < |targets| ==> targets[i].name != targets[j].name)
    && (forall i :: 0 <= i < |targets| ==> l.valid(targets[i].name))
    && (forall i, j :: 0 <= i < |targets| && 0 <= j < |targets| ==> !Extends(NUL, targets[i].name, targets[j].name))
  }

  /** All samples of these targets are uniform and lead with one of their names. */
  lemma {:induction false} FlattenedSamples(l: Library, targets: seq<Target>, systems: seq<SystemSnapshot>, s: Sample)
    requires l.Lawful() && Collected(l, targets, systems) && s in Flatten(systems)
    ensures exists i :: 0 <= i < |targets| && WellKeyed(l, targets[i].name, s)
  {
    var k := |systems| - 1;
    if s in systems[k].samples {
      SamplesWellKeyed(l, targets[k]);
      assert WellKeyed(l, targets[k].name, s);
    } else {
      FlattenedSamples(l, targets[..k], systems[..k], s);
      var i :| 0 <= i < k && WellKeyed(l, targets[..k][i].name, s);
      assert targets[..k][i] == targets[i];
    }
  }

  /** The key-drift branch is unreachable: on the snapshot of any cycle, whatever the appliances report, each
      sample has the keys of the first of its name, and is emitted unless it renders badly or repeats a
      signature. */
  lemma NoKeyDrift(l: Library, r: Renderer, targets: seq<Target>, systems: seq<SystemSnapshot>, k: nat)
    requires l.Lawful() && Collected(l, targets, systems) && k < |Flatten(systems)|
    ensures var before, s := Flatten(systems)[..k], Flatten(systems)[k];
            (FirstKeys(before, s.name).Some? ==> FirstKeys(before, s.name).value == Keys(s))
            && (Emits(r, before, s) <==> Signature(s) !in Seen(r, before, s.name) && r(s.name, Keys(s), Vals(s)))
  {
    var p := Flatten(systems);
    forall i | 0 <= i < |p| ensures Keys(p[i]) == KeysOf(p[i].name) {
      FlattenedSamples(l, targets, systems, p[i]);
    }
    UniformFirstKeys(p[..k], p[k].name);
    UniformEmits(r, p[..k], p[k]);
  }

  lemma DifferentSystemsDifferentSignatures(l: Library, x: string, a: Sample, y: string, b: Sample)
    requires l.Lawful() && l.valid(x) && l.valid(y) && x != y && !Extends(NUL, x, y) && !Extends(NUL, y, x)
    requires WellKeyed(l, x, a) && WellKeyed(l, y, b) && a.name == b.name
    ensures Signature(a) != Signature(b)
  {
    assert |Keys(a)| == |a.labels| == |Keys(b)| == |b.labels|;
    assert Vals(a)[0] == x && Vals(b)[0] == y;
    JoinHead(Vals(a), Vals(b), NUL);
  }

  lemma SampleOfPrefix(l: Library, targets: seq<Target>, systems: seq<SystemSnapshot>, k: nat, s: Sample)
    requires l.Lawful() && Collected(l, targets, systems) && k <= |systems| && s in Flatten(systems[..k])
    ensures exists t :: 0 <= t < k && WellKeyed(l, targets[t].name, s)
  {
    FlattenedSamples(l, targets[..k], systems[..k], s);
    var t :| 0 <= t < k && WellKeyed(l, targets[..k][t].name, s);
    assert targets[..k][t] == targets[t];
  }

  /** The samples of one more system are uniform and apart from those of the systems before it. */
  lemma LastSystemIsApart(l: Library, targets: seq<Target>, systems: seq<SystemSnapshot>)
    requires l.Lawful() && GoodNames(l, targets) && Collected(l, targets, systems) && systems != []
    ensures var a, b := Flatten(systems[..|systems| - 1]), systems[|systems| - 1].samples;
            Uniform(a) && Uniform(b) && Apart(a, b)
  {
    var k := |systems| - 1;
    var a, b := Flatten(systems[..k]), systems[k].samples;
    SamplesWellKeyed(l, targets[k]);
    assert forall j :: 0 <= j < |b| ==> b[j] in b;
    forall i | 0 <= i < |a| ensures exists t :: 0 <= t < k && WellKeyed(l, targets[t].name, a[i]) {
      SampleOfPrefix(l, targets, systems, k, a[i]);
    }
    forall i, j | 0 <= i < |a| && 0 <= j < |b| && a[i].name == b[j].name ensures Signature(a[i]) != Signature(b[j]) {
      var t :| 0 <= t < k && WellKeyed(l, targets[t].name, a[i]);
      DifferentSystemsDifferentSignatures(l, targets[t].name, a[i], targets[k].name, b[j]);
    }
  }

  lemma PrefixIsGood(l: Library, targets: seq<Target>, systems: seq<SystemSnapshot>, k: nat)
    requires GoodNames(l, targets) && Collected(l, targets, systems) && k <= |targets|
    ensures GoodNames(l, targets[..k]) && Collected(l, targets[..k], systems[..k])
  {
  }

  /** No interference: with distinct, valid system names none of which extends another by a NUL, what Collect
      emits for a cycle's snapshot is what it emits for each system alone, one after the other, whatever the
      appliances report. */
  lemma {:induction false} SystemsDoNotInterfere(l: Library, r: Renderer, targets: seq<Target>,
                                                 systems: seq<SystemSnapshot>)
    requires l.Lawful() && GoodNames(l, targets) && Collected(l, targets, systems)
    ensures Emitted(r, Flatten(systems)) == EachAlone(r, systems)
    decreases |targets|
  {
    if systems != [] {
      var k := |systems| - 1;
      PrefixIsGood(l, targets, systems, k);
      SystemsDoNotInterfere(l, r, targets[..k], systems[..k]);
      LastSystemIsApart(l, targets, systems);
      EmittedAfter(r, Flatten(systems[..k]), systems[k].samples);
    }
  }

  /** From configuration to exposition: what Load accepted, collected and rendered, is each system's own
      exposition after the other as long as no name holds a NUL. */
  lemma LoadedSystemsDoNotInterfere(l: Library, r: Renderer, loaded: seq<System>, targets: seq<Target>,
                                    systems: seq<SystemSnapshot>)
    requires l.Lawful() && NamesDistinct(loaded) && forall i :: 0 <= i < |loaded| ==> Usable(l, loaded[i])
    requires |targets| == |loaded| && forall i :: 0 <= i < |targets| ==> targets[i].name == loaded[i].name
    requires Collected(l, targets, systems)
    requires forall i :: 0 <= i < |loaded| ==> Free(NUL, loaded[i].name)
    ensures Emitted(r, Flatten(systems)) == EachAlone(r, systems)
  {
    forall i, j | 0 <= i < |targets| && 0 <= j < |targets| ensures !Extends(NUL, targets[i].name, targets[j].name) {
      assert Free(NUL, loaded[j].name);
      FreeIsNoExtension(NUL, targets[i].name, targets[j].name);
    }
    SystemsDoNotInterfere(l, r, targets, systems);
  }

  /** A renderer that accepts the derived metrics, each with its own keys and as many valid values; it may refuse
      any other name, key list or number of values. */
  ghost predicate AcceptsValid(l: Library, r: Renderer) {
    forall n, v | Known(n) && |v| == |KeysOf(n)| && (forall i :: 0 <= i < |v| ==> l.valid(v[i])) :: r(n, KeysOf(n), v)
  }

  /** The checks of the real constructor, a name, as many values as keys and valid values, are no obstacle. */
  lemma CarefulRendererAccepts(l: Library, r: Renderer)
    requires forall n, k, v | n != "" && |k| == |v| && (forall i :: 0 <= i < |v| ==> l.valid(v[i])) :: r(n, k, v)
    ensures AcceptsValid(l, r)
  {
    forall n, v | Known(n) && |v| == |KeysOf(n)| && (forall i :: 0 <= i < |v| ==> l.valid(v[i]))
      ensures r(n, KeysOf(n), v)
    {
      KnownIsNamed(n);
    }
  }

  /** On the snapshot of any cycle the two readers agree: the builders clean every value before either reader
      sees it. */
  lemma ReadersAgreeOnEveryCycle(l: Library, r: Renderer, targets: seq<Target>, systems: seq<SystemSnapshot>,
                                 name: string)
    requires l.Lawful() && AcceptsValid(l, r) && Collected(l, targets, systems)
    ensures Emitted(ALWAYS, ByName(Flatten(systems), name)) == OfName(Emitted(r, Flatten(systems)), name)
  {
    var p := Flatten(systems);
    forall i | 0 <= i < |p| ensures r(p[i].name, Keys(p[i]), Vals(p[i])) {
      FlattenedSamples(l, targets, systems, p[i]);
    }
    ReadersAgreeWhenAllRender(r, p, name);
  }

  // ---------------------------------------------------------------- names that hold a NUL

  lemma {:induction false} NothingParsed(labels: seq<Label>, fields: seq<Field>)
    requires forall i :: 0 <= i < |fields| ==> !fields[i].1.ok
    ensures Parsed(labels, fields) == []
  {
    if fields != [] {
      NothingParsed(labels, fields[..|fields| - 1]);
    }
  }

  /** A target whose only reading is the idle percentage of one processor. */
  function OneCpu(name: string, id: string): Target {
    var no := Num(0.0, false);
    var st := Statistics(no, no, no, [], [], [CPU(id, no, no, Num(50.0, true))], no, no, no, [], no, no);
    Target(name, "json", "json", Fetched(Some(st)), None)
  }

  lemma SamplesOfOneCpu(l: Library, name: string, id: string)
    ensures SystemSamples(l, OneCpu(name, id)) ==
              [UpSample(l, name, true), Sample("kemp_cpu_idle_percent", CpuLabels(l, name, id), 50.0)]
  {
    var st := OneCpu(name, id).stats.st.value;
    var cpu := st.cpus[0];
    NothingParsed(SystemLabels(l, name), TotalFields(st));
    NothingParsed(SystemLabels(l, name), LoadFields(st));
    var f := CpuFields(cpu);
    assert f[..1] == [("kemp_cpu_idle_percent", cpu.idle)];
    assert f[..2] == f[..1] + [f[1]] && f[..3] == f;
    var labels := CpuLabels(l, name, id);
    ParsedNext([], labels, [], f[0]);
    ParsedNext([], labels, f[..1], f[1]);
    ParsedNext([], labels, f[..2], f[2]);
    assert [] + [f[0]] == f[..1];
    assert st.cpus[..0] == [];
    assert CpuSamples(l, name, st.cpus) == Parsed(labels, f) == [Sample("kemp_cpu_idle_percent", labels, 50.0)];
  }

  lemma TwoValues(s: Sample, v: string, w: string)
    requires Vals(s) == [v, w]
    ensures Signature(s) == v + [NUL] + w
  {
    assert [v, w][1..] == [w];
    assert Join([v, w], NUL) == v + [NUL] + Join([w], NUL);
  }

  lemma {:induction false} EmittedAtMost(r: Renderer, p: seq<Sample>)
    ensures |Emitted(r, p)| <= |p|
  {
    if p != [] {
      EmittedAtMost(r, p[..|p| - 1]);
    }
  }

  /** A system alone with its two samples exposes both. */
  lemma BothAreEmitted(l: Library, r: Renderer, name: string, id: string)
    requires l.Lawful() && AcceptsValid(l, r)
    ensures |Emitted(r, SystemSamples(l, OneCpu(name, id)))| == 2
  {
    SamplesOfOneCpu(l, name, id);
    var x := SystemSamples(l, OneCpu(name, id));
    SamplesWellKeyed(l, OneCpu(name, id));
    assert x[0] in x && x[1] in x;
    assert x[..1] == [x[0]] && [x[0]][..0] == [];
    assert "kemp_up" != "kemp_cpu_idle_percent" by {
      assert |"kemp_up"| == 7;
    }
    assert Emits(r, [], x[0]);
    assert FirstKeys([x[0]], x[1].name).None?;
    UnusedSeen(r, [x[0]], x[1].name);
    assert Emits(r, x[..1], x[1]);
    EmittedStep(r, x);
    EmittedStep(r, x[..1]);
  }

  lemma OneMoreSystem(r: Renderer, systems: seq<SystemSnapshot>, last: SystemSnapshot)
    ensures Flatten(systems + [last]) == Flatten(systems) + last.samples
    ensures EachAlone(r, systems + [last]) == EachAlone(r, systems) + Emitted(r, last.samples)
  {
    assert (systems + [last])[..|systems|] == systems;
  }

  lemma TwoSystems(r: Renderer, x: SystemSnapshot, y: SystemSnapshot)
    ensures Flatten([x, y]) == x.samples + y.samples
    ensures EachAlone(r, [x, y]) == Emitted(r, x.samples) + Emitted(r, y.samples)
  {
    OneMoreSystem(r, [], x);
    OneMoreSystem(r, [x], y);
    assert [] + [x] == [x] && [x] + [y] == [x, y];
  }

  /** Two processor rows of different systems with one signature: the second system's is dropped. */
  lemma CollidingRows(l: Library, r: Renderer, x: string, i: string, y: string, j: string)
    returns (systems: seq<SystemSnapshot>)
    requires l.Lawful() && AcceptsValid(l, r) && l.valid(x) && l.valid(i) && l.valid(y) && l.valid(j)
    requires x + [NUL] + i == y + [NUL] + j
    ensures Collected(l, [OneCpu(x, i), OneCpu(y, j)], systems)
    ensures Emitted(r, Flatten(systems)) != EachAlone(r, systems)
  {
    var a, b := SystemSamples(l, OneCpu(x, i)), SystemSamples(l, OneCpu(y, j));
    systems := [SystemSnapshot(x, true, "", "json", a), SystemSnapshot(y, true, "", "json", b)];
    SamplesOfOneCpu(l, x, i);
    SamplesOfOneCpu(l, y, j);
    BothAreEmitted(l, r, x, i);
    BothAreEmitted(l, r, y, j);
    TwoSystems(r, systems[0], systems[1]);
    SecondIsDropped(l, r, a, b, x, i, y, j);
    EmittedStep(r, a + b);
    EmittedAtMost(r, (a + b)[..3]);
  }

  lemma SecondIsDropped(l: Library, r: Renderer, a: seq<Sample>, b: seq<Sample>, x: string, i: string, y: string,
                        j: string)
    requires l.Lawful() && AcceptsValid(l, r) && l.valid(x) && l.valid(i) && l.valid(y) && l.valid(j)
    requires x + [NUL] + i == y + [NUL] + j
    requires a == [UpSample(l, x, true), Sample("kemp_cpu_idle_percent", CpuLabels(l, x, i), 50.0)]
    requires b == [UpSample(l, y, true), Sample("kemp_cpu_idle_percent", CpuLabels(l, y, j), 50.0)]
    requires |Emitted(r, a)| == 2
    ensures !Emits(r, (a + b)[..3], (a + b)[3])
  {
    var p := (a + b)[..3];
    assert Vals(a[1]) == [x, i] && Vals(b[1]) == [y, j];
    TwoValues(a[1], x, i);
    TwoValues(b[1], y, j);
    EmittedStep(r, a);
    EmittedAtMost(r, a[..1]);
    assert p[..1] == a[..1] && p[1] == a[1] && (a + b)[3] == b[1];
    SeenMeaning(r, p, b[1].name, Signature(b[1]));
  }

  /** Exactly when two systems can disturb each other: whatever the two appliances report, Collect emits each
      system's own exposition, if and only if neither name is the other followed by a NUL. */
  lemma ExactlyNulExtensionsInterfere(l: Library, r: Renderer, x: string, y: string)
    requires l.Lawful() && AcceptsValid(l, r) && l.valid(x) && l.valid(y) && x != y
    ensures (forall s: Target, t: Target, systems: seq<SystemSnapshot> ::
               s.name == x && t.name == y && Collected(l, [s, t], systems) ==>
                 Emitted(r, Flatten(systems)) == EachAlone(r, systems))
            <==> !Extends(NUL, x, y) && !Extends(NUL, y, x)
  {
    if Extends(NUL, x, y) {
      var z := y[|x| + 1..];
      assert y == x + [NUL] + z && x + [NUL] + (z + [NUL] + "c") == y + [NUL] + "c";
      var systems := CollidingRows(l, r, x, z + [NUL] + "c", y, "c");
    } else if Extends(NUL, y, x) {
      var z := x[|y| + 1..];
      assert x == y + [NUL] + z && x + [NUL] + "c" == y + [NUL] + (z + [NUL] + "c");
      var systems := CollidingRows(l, r, x, "c", y, z + [NUL] + "c");
    } else {
      forall s: Target, t: Target, systems: seq<SystemSnapshot>
        | s.name == x && t.name == y && Collected(l, [s, t], systems)
        ensures Emitted(r, Flatten(systems)) == EachAlone(r, systems)
      {
        NeitherExtendsItself(x);
        NeitherExtendsItself(y);
        assert GoodNames(l, [s, t]);
        SystemsDoNotInterfere(l, r, [s, t], systems);
      }
    }
  }

  lemma NeitherExtendsItself(n: string)
    ensures !Extends(NUL, n, n)
  {
  }
}
