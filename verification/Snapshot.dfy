/** The snapshot both readers render, its store and its name index. */
module Snapshots {
  import opened Prelude

  datatype Label = Label(key: string, value: string)

  datatype Sample = Sample(name: string, labels: seq<Label>, value: real)

  datatype SystemSnapshot = SystemSnapshot(system: string, ok: bool, err: string, transportName: string,
                                           samples: seq<Sample>)

  datatype Snapshot = Snapshot(systems: seq<SystemSnapshot>)

  function LabelKeys(labels: seq<Label>): seq<string> {
    seq(|labels|, i requires 0 <= i < |labels| => labels[i].key)
  }

  function Keys(s: Sample): seq<string> {
    LabelKeys(s.labels)
  }

  function Vals(s: Sample): seq<string> {
    seq(|s.labels|, i requires 0 <= i < |s.labels| => s.labels[i].value)
  }

  /** The samples of a list of systems in the order both readers visit them. */
  function Flatten(systems: seq<SystemSnapshot>): seq<Sample> {
    if systems == [] then [] else Flatten(systems[..|systems| - 1]) + systems[|systems| - 1].samples
  }

  /** Where the samples of a system begin in that order. */
  function Offset(systems: seq<SystemSnapshot>, i: nat): nat
    requires i <= |systems|
  {
    if i == 0 then 0 else Offset(systems, i - 1) + |systems[i - 1].samples|
  }

  lemma {:induction false} FlattenLength(systems: seq<SystemSnapshot>)
    ensures |Flatten(systems)| == Offset(systems, |systems|)
  {
    if systems != [] {
      var n := |systems| - 1;
      FlattenLength(systems[..n]);
      OffsetOfPrefix(systems, n, n);
    }
  }

  /** Every sample of every system is visited, system after system, and by FlattenLength nothing else is. */
  lemma {:induction false} FlattenAt(systems: seq<SystemSnapshot>, i: nat, j: nat)
    requires i < |systems| && j < |systems[i].samples|
    ensures Offset(systems, i) + j < |Flatten(systems)|
    ensures Flatten(systems)[Offset(systems, i) + j] == systems[i].samples[j]
  {
    var n := |systems| - 1;
    OffsetOfPrefix(systems, n, i);
    if i < n {
      FlattenAt(systems[..n], i, j);
    } else {
      FlattenLength(systems[..n]);
    }
  }

  lemma {:induction false} OffsetOfPrefix(systems: seq<SystemSnapshot>, n: nat, i: nat)
    requires i <= n <= |systems|
    ensures Offset(systems, i) == Offset(systems[..n], i)
  {
    if i > 0 {
      OffsetOfPrefix(systems, n, i - 1);
    }
  }

  function ByName(samples: seq<Sample>, name: string): seq<Sample> {
    if samples == [] then [] else
      var last := samples[|samples| - 1];
      ByName(samples[..|samples| - 1], name) + (if last.name == name then [last] else [])
  }

  function Named(p: seq<Sample>, name: string): nat -> bool {
    (i: nat) => i < |p| && p[i].name == name
  }

  lemma ByNameOfOneMore(p: seq<Sample>, name: string, n: nat)
    requires n < |p|
    ensures ByName(p[..n + 1], name) ==
              if Named(p, name)(n) then ByName(p[..n], name) + [p[n]] else ByName(p[..n], name)
  {
    assert p[..n + 1][..n] == p[..n];
  }

  /** The list `out` holds the elements of `p` at the positions `f`. */
  ghost predicate At<T>(out: seq<T>, p: seq<T>, f: seq<nat>) {
    |out| == |f| && forall k :: 0 <= k < |f| ==> f[k] < |p| && out[k] == p[f[k]]
  }

  lemma SelectNext<T>(out: seq<T>, p: seq<T>, f: seq<nat>, n: nat, keep: nat -> bool)
    requires Picks(f, n, keep) && At(out, p, f) && n < |p|
    ensures keep(n) ==> Picks(f + [n], n + 1, keep) && At(out + [p[n]], p, f + [n])
    ensures !keep(n) ==> Picks(f, n + 1, keep)
  {
    PickNext(f, n, keep);
  }

  /** The samples of a name, each once and in order, and no others. */
  lemma {:induction false} ByNameSelects(p: seq<Sample>, name: string, n: nat) returns (f: seq<nat>)
    requires n <= |p|
    ensures Picks(f, n, Named(p, name))
    ensures At(ByName(p[..n], name), p, f)
  {
    f := [];
    if n > 0 {
      f := ByNameSelects(p, name, n - 1);
      SelectNext(ByName(p[..n - 1], name), p, f, n - 1, Named(p, name));
      ByNameOfOneMore(p, name, n - 1);
      if Named(p, name)(n - 1) {
        f := f + [n - 1];
      }
    }
  }

  ghost function Names(samples: seq<Sample>): set<string> {
    set s | s in samples :: s.name
  }

  /** Byte-wise order of strings. */
  predicate Less(a: string, b: string) {
    b != "" && (a == "" || a[0] < b[0] || (a[0] == b[0] && Less(a[1..], b[1..])))
  }

  /** `a` and `b` agree up to `i`, where `a` ends first or has the smaller byte. */
  ghost predicate DiffersAt(a: string, b: string, i: nat) {
    i <= |a| && i < |b| && a[..i] == b[..i] && (i == |a| || a[i] < b[i])
  }

  /** Less is the order in which strings are compared byte by byte. */
  lemma {:induction false} LessIsLexical(a: string, b: string)
    ensures Less(a, b) <==> exists i: nat :: DiffersAt(a, b, i)
  {
    if b != "" && a != "" {
      LessIsLexical(a[1..], b[1..]);
      if a[0] < b[0] {
        assert DiffersAt(a, b, 0);
      } else if Less(a, b) {
        var i: nat :| DiffersAt(a[1..], b[1..], i);
        assert a[..i + 1] == [a[0]] + a[1..][..i] && b[..i + 1] == [b[0]] + b[1..][..i];
        assert DiffersAt(a, b, i + 1);
      }
      if i: nat :| DiffersAt(a, b, i) {
        if i > 0 {
          assert a[0] == a[..i][0] == b[..i][0] == b[0];
          assert a[1..][..i - 1] == a[..i][1..] && b[1..][..i - 1] == b[..i][1..];
          assert DiffersAt(a[1..], b[1..], i - 1);
        }
      }
    } else if b != "" {
      assert DiffersAt(a, b, 0);
    }
  }

  lemma {:induction false} LessIsTotal(a: string, b: string)
    ensures a == b || Less(a, b) || Less(b, a)
    ensures !(Less(a, b) && Less(b, a)) && !Less(a, a)
  {
    if a != "" && b != "" {
      LessIsTotal(a[1..], b[1..]);
      LessIsTotal(a[1..], a[1..]);
      assert a == [a[0]] + a[1..] && b == [b[0]] + b[1..];
    } else if a != "" {
      LessIsTotal(a[1..], a[1..]);
    }
  }

  lemma {:induction false} LessIsTransitive(a: string, b: string, c: string)
    requires Less(a, b) && Less(b, c)
    ensures Less(a, c)
  {
    if a != "" && a[0] == b[0] == c[0] {
      LessIsTransitive(a[1..], b[1..], c[1..]);
    }
  }

  ghost predicate Sorted(names: seq<string>) {
    forall i, j :: 0 <= i < j < |names| ==> Less(names[i], names[j])
  }

  /** A strictly sorted list is determined by its elements, so registration order cannot vary. */
  lemma {:induction false} SortedIsUnique(a: seq<string>, b: seq<string>)
    requires Sorted(a) && Sorted(b) && forall n :: n in a <==> n in b
    ensures a == b
  {
    assert a != [] ==> a[0] in b;
    assert b != [] ==> b[0] in a;
    if a != [] && b != [] {
      var x, y := a[0], b[0];
      LessIsTotal(x, y);
      assert x == y;
      LessIsTotal(x, x);
      assert a == [x] + a[1..] && b == [x] + b[1..];
      assert x !in a[1..] && x !in b[1..];
      forall n ensures n in a[1..] <==> n in b[1..] {
        assert n in a <==> n == x || n in a[1..];
        assert n in b <==> n == x || n in b[1..];
      }
      SortedIsUnique(a[1..], b[1..]);
    }
  }

  /** One step of sorting: put a new name where it belongs. */
  method Insert(names: seq<string>, n: string) returns (r: seq<string>)
    requires Sorted(names) && n !in names
    ensures Sorted(r) && forall m :: m in r <==> m in names || m == n
  {
    var i := 0;
    while i < |names| && Less(names[i], n)
      invariant 0 <= i <= |names|
      invariant forall k :: 0 <= k < i ==> Less(names[k], n)
    {
      i := i + 1;
    }
    r := names[..i] + [n] + names[i..];
    if i < |names| {
      LessIsTotal(names[i], n);
      forall k | i < k < |names| ensures Less(n, names[k]) {
        LessIsTransitive(n, names[i], names[k]);
      }
    }
    forall m | m in names ensures m in r {
      var k :| 0 <= k < |names| && names[k] == m;
      assert k < i ==> r[k] == m;
      assert k >= i ==> r[k + 1] == m;
    }
    assert r[i] == n;
  }

  /** MetricNames: every distinct name once, sorted, whatever order the set is ranged in. */
  method MetricNames(snap: Snapshot) returns (names: seq<string>)
    ensures Sorted(names) && forall n :: n in names <==> n in Names(Flatten(snap.systems))
  {
    var seen: set<string> := {};
    for i := 0 to |snap.systems|
      invariant seen == Names(Flatten(snap.systems[..i]))
    {
      var sys := snap.systems[i];
      assert snap.systems[..i + 1][..i] == snap.systems[..i];
      for j := 0 to |sys.samples|
        invariant seen == Names(Flatten(snap.systems[..i]) + sys.samples[..j])
      {
        assert sys.samples[..j + 1] == sys.samples[..j] + [sys.samples[j]];
        seen := seen + {sys.samples[j].name};
        assert sys.samples[j] in Flatten(snap.systems[..i]) + sys.samples[..j + 1];
      }
      assert sys.samples[..|sys.samples|] == sys.samples;
    }
    assert snap.systems[..|snap.systems|] == snap.systems;
    names := [];
    var rest := seen;
    while rest != {}
      invariant Sorted(names) && rest <= seen && forall n :: n in names <==> n in seen && n !in rest
      decreases |rest|
    {
      var n :| n in rest;
      names := Insert(names, n);
      rest := rest - {n};
    }
  }

  /** The inner loop of SamplesByName. */
  method AppendNamed(ghost before: seq<Sample>, samples: seq<Sample>, name: string, out: seq<Sample>)
    returns (out': seq<Sample>)
    requires out == ByName(before, name)
    ensures out' == ByName(before + samples, name)
  {
    out' := out;
    assert before + samples[..0] == before;
    for j := 0 to |samples|
      invariant out' == ByName(before + samples[..j], name)
    {
      assert (before + samples[..j + 1])[..|before| + j] == before + samples[..j];
      if samples[j].name == name {
        out' := out' + [samples[j]];
      }
    }
    assert samples[..|samples|] == samples;
  }

  /** SamplesByName: the samples of one name, in visiting order. */
  method SamplesByName(snap: Snapshot, name: string) returns (out: seq<Sample>)
    ensures out == ByName(Flatten(snap.systems), name)
  {
    out := [];
    for i := 0 to |snap.systems|
      invariant out == ByName(Flatten(snap.systems[..i]), name)
    {
      assert snap.systems[..i + 1][..i] == snap.systems[..i];
      out := AppendNamed(Flatten(snap.systems[..i]), snap.systems[i].samples, name, out);
    }
    assert snap.systems[..|snap.systems|] == snap.systems;
  }

  /** The parallel key and value lists both readers build for a sample. */
  method KeysAndValues(s: Sample) returns (keys: seq<string>, vals: seq<string>)
    ensures keys == Keys(s) && vals == Vals(s)
    ensures |keys| == |vals| == |s.labels|
    ensures forall k :: 0 <= k < |s.labels| ==> s.labels[k] == Label(keys[k], vals[k])
  {
    keys, vals := [], [];
    for i := 0 to |s.labels|
      invariant |keys| == |vals| == i
      invariant forall k :: 0 <= k < i ==> keys[k] == s.labels[k].key && vals[k] == s.labels[k].value
    {
      keys := keys + [s.labels[i].key];
      vals := vals + [s.labels[i].value];
    }
  }

  class SnapshotStore {
    var snap: Snapshot

    constructor ()
      ensures snap == Snapshot([])
    {
      snap := Snapshot([]);
    }

    method Store(s: Snapshot)
      modifies this
      ensures snap == s
    {
      snap := s;
    }

    method Load() returns (s: Snapshot)
      ensures s == snap
    {
      s := snap;
    }
  }
}
