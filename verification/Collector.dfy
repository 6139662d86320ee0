/** One collection cycle: what one target contributes, the client set, and the two guarantees the readers
    rely on, one key sequence per metric name and the system as first label. */
module Collector {
  import opened Prelude
  import opened Snapshots
  import opened Metrics
  import opened Derivations
  import opened Health
  import opened Client

  /** What the stats request came to; a client may also return no statistics without an error. */
  datatype Fetch = Fetched(st: Option<Statistics>) | FetchFailed(err: string)

  /** One target of a cycle: its client's name and transport before and after the requests, and the answers. */
  datatype Target = Target(name: string, before: string, after: string, stats: Fetch,
                           listvs: Option<seq<VirtualServiceInfo>>)

  function UpSample(l: Library, system: string, ok: bool): Sample {
    Sample("kemp_up", SystemLabels(l, system), if ok then 1.0 else 0.0)
  }

  /** A target is up exactly when statistics arrived; a failed listvs only loses names. */
  predicate Up(t: Target) {
    t.stats.Fetched? && t.stats.st.Some?
  }

  function SystemSamples(l: Library, t: Target): seq<Sample> {
    if !Up(t) then [UpSample(l, t.name, false)] else
      var st := t.stats.st.value;
      var info := if t.listvs.Some? then t.listvs.value else [];
      [UpSample(l, t.name, true)] + HealthSamples(l, t.name, st)
      + VsSamples(l, t.name, st.virtualServices, info)
      + RsSamples(l, t.name, st.realServers, st.virtualServices, info)
  }

  method CollectSystem(l: Library, t: Target) returns (out: SystemSnapshot)
    ensures out.system == t.name && out.samples == SystemSamples(l, t)
    ensures out.ok <==> t.stats.Fetched? && t.stats.st.Some?
    ensures out.transportName == if out.ok then t.after else t.before
    ensures |out.samples| > 0
    ensures out.samples[0] == Sample("kemp_up", [Label("system", l.clean(t.name))], if out.ok then 1.0 else 0.0)
    ensures !out.ok ==> |out.samples| == 1
    ensures out.err == if t.stats.FetchFailed? then t.stats.err else if Up(t) then "" else "no statistics returned"
  {
    var err := if t.stats.FetchFailed? then Some(t.stats.err) else None;
    var stats := if t.stats.Fetched? then t.stats.st else None;
    var vsInfo := if t.listvs.Some? then t.listvs.value else [];
    if err.Some? || stats.None? {
      return SystemSnapshot(t.name, false, if err.Some? then err.value else "no statistics returned", t.before,
                            [UpSample(l, t.name, false)]);
    }
    var samples := [UpSample(l, t.name, true)];
    var health := DeriveHealth(l, t.name, stats);
    var services := DeriveVirtualServices(l, t.name, stats, vsInfo);
    var servers := DeriveRealServers(l, t.name, stats, vsInfo);
    samples := samples + health;
    samples := samples + services;
    samples := samples + servers;
    out := SystemSnapshot(t.name, true, "", t.after, samples);
  }

  // ---------------------------------------------------------------- the key-sequence invariant

  /** Every field of the row is named for a metric whose keys are those of `labels`. */
  ghost predicate RowFits(l: Library, system: string, labels: seq<Label>, fields: seq<Field>) {
    LabelsOk(l, system, labels)
    && forall i :: 0 <= i < |fields| ==> KeysOf(fields[i].0) == LabelKeys(labels) && Known(fields[i].0)
  }

  lemma ParsedFits(l: Library, system: string, labels: seq<Label>, fields: seq<Field>)
    requires RowFits(l, system, labels, fields)
    ensures forall s :: s in Parsed(labels, fields) ==> WellKeyed(l, system, s)
  {
    forall s | s in Parsed(labels, fields) ensures WellKeyed(l, system, s) {
      ParsedExactly(labels, fields, s);
    }
  }

  lemma TotalsFit(l: Library, system: string, st: Statistics)
    requires l.Lawful()
    ensures RowFits(l, system, SystemLabels(l, system), TotalFields(st))
    ensures RowFits(l, system, SystemLabels(l, system), LoadFields(st))
  {
    BuildersAreClean(l, system, "", "", 0, 0, "");
    assert LabelKeys(SystemLabels(l, system)) == SYSTEM_KEYS;
    SystemNames();
  }

  lemma CpuFits(l: Library, system: string, cpu: CPU)
    requires l.Lawful()
    ensures RowFits(l, system, CpuLabels(l, system, cpu.id), CpuFields(cpu))
  {
    BuildersAreClean(l, system, cpu.id, "", 0, 0, "");
    assert LabelKeys(CpuLabels(l, system, cpu.id)) == CPU_KEYS;
  }

  lemma InterfaceFits(l: Library, system: string, i: Interface)
    requires l.Lawful()
    ensures RowFits(l, system, InterfaceLabels(l, system, i.id), InterfaceFields(i))
  {
    BuildersAreClean(l, system, i.id, "", 0, 0, "");
    assert LabelKeys(InterfaceLabels(l, system, i.id)) == INTERFACE_KEYS;
  }

  lemma VsNames()
    ensures KeysOf("kemp_virtual_service_active_connections") == VS_KEYS
    ensures KeysOf("kemp_virtual_service_connections_per_second") == VS_KEYS
    ensures KeysOf("kemp_virtual_service_connections_total") == VS_KEYS
    ensures KeysOf("kemp_virtual_service_packets_total") == VS_KEYS
    ensures KeysOf("kemp_virtual_service_bytes_total") == VS_KEYS
    ensures KeysOf("kemp_virtual_service_bytes_read_total") == VS_KEYS
    ensures KeysOf("kemp_virtual_service_bytes_written_total") == VS_KEYS
  {
  }

  lemma VsFits(l: Library, system: string, vs: VirtualService, meta: VirtualServiceInfo)
    requires l.Lawful()
    ensures RowFits(l, system, VsRowLabels(l, system, vs, meta), VsFields(vs))
  {
    var protocol := if vs.protocol == "" then meta.protocol else vs.protocol;
    BuildersAreClean(l, system, meta.name, vs.address, vs.port, 0, protocol);
    assert LabelKeys(VsRowLabels(l, system, vs, meta)) == VS_KEYS;
    VsNames();
  }

  lemma RsNames()
    ensures KeysOf("kemp_real_server_active_connections") == RS_KEYS
    ensures KeysOf("kemp_real_server_connections_per_second") == RS_KEYS
    ensures KeysOf("kemp_real_server_connections_total") == RS_KEYS
    ensures KeysOf("kemp_real_server_packets_total") == RS_KEYS
    ensures KeysOf("kemp_real_server_bytes_total") == RS_KEYS
    ensures KeysOf("kemp_real_server_bytes_read_total") == RS_KEYS
    ensures KeysOf("kemp_real_server_bytes_written_total") == RS_KEYS
  {
  }

  lemma RsFits(l: Library, system: string, rs: RealServer, parent: (string, int))
    requires l.Lawful()
    ensures RowFits(l, system, RsLabels(l, system, rs.address, rs.port, parent.0, parent.1), RsFields(rs))
  {
    BuildersAreClean(l, system, rs.address, parent.0, rs.port, parent.1, "");
    assert LabelKeys(RsLabels(l, system, rs.address, rs.port, parent.0, parent.1)) == RS_KEYS;
    RsNames();
  }

  lemma StatusFits(l: Library, system: string, labels: seq<Label>, up: string, info: string, status: string)
    requires l.Lawful() && LabelsOk(l, system, labels)
    requires Known(up) && Known(info)
    requires KeysOf(up) == LabelKeys(labels) && KeysOf(info) == LabelKeys(labels) + ["status"]
    ensures forall s :: s in StatusSamples(l, labels, up, info, status) ==> WellKeyed(l, system, s)
  {
    if status != "" {
      var one := [(up, StatusToUp(l, status))];
      ParsedFits(l, system, labels, one);
      var s := Sample(info, WithLabel(l, labels, "status", status), 1.0);
      assert Keys(s) == LabelKeys(labels) + ["status"];
    }
  }

  lemma VsRowFits(l: Library, system: string, vs: VirtualService, meta: VirtualServiceInfo)
    requires l.Lawful()
    ensures forall s :: s in VsRow(l, system, vs, meta) ==> WellKeyed(l, system, s)
  {
    var labels := VsRowLabels(l, system, vs, meta);
    VsFits(l, system, vs, meta);
    ParsedFits(l, system, labels, VsFields(vs));
    assert LabelKeys(labels) == VS_KEYS;
    StatusFits(l, system, labels, "kemp_virtual_service_up", "kemp_virtual_service_status", meta.status);
  }

  lemma RsRowFits(l: Library, system: string, rs: RealServer, parent: (string, int))
    requires l.Lawful()
    ensures forall s :: s in RsRow(l, system, rs, parent) ==> WellKeyed(l, system, s)
  {
    var labels := RsLabels(l, system, rs.address, rs.port, parent.0, parent.1);
    RsFits(l, system, rs, parent);
    ParsedFits(l, system, labels, RsFields(rs));
    assert LabelKeys(labels) == RS_KEYS;
    StatusFits(l, system, labels, "kemp_real_server_up", "kemp_real_server_status", rs.status);
  }

  lemma {:induction false} CpusFit(l: Library, system: string, cpus: seq<CPU>)
    requires l.Lawful()
    ensures forall s :: s in CpuSamples(l, system, cpus) ==> WellKeyed(l, system, s)
  {
    if cpus != [] {
      var last := cpus[|cpus| - 1];
      CpusFit(l, system, cpus[..|cpus| - 1]);
      CpuFits(l, system, last);
      ParsedFits(l, system, CpuLabels(l, system, last.id), CpuFields(last));
    }
  }

  lemma {:induction false} InterfacesFit(l: Library, system: string, ifaces: seq<Interface>)
    requires l.Lawful()
    ensures forall s :: s in InterfaceSamples(l, system, ifaces) ==> WellKeyed(l, system, s)
  {
    if ifaces != [] {
      var last := ifaces[|ifaces| - 1];
      InterfacesFit(l, system, ifaces[..|ifaces| - 1]);
      InterfaceFits(l, system, last);
      ParsedFits(l, system, InterfaceLabels(l, system, last.id), InterfaceFields(last));
    }
  }

  lemma {:induction false} ServicesFit(l: Library, system: string, rows: seq<VirtualService>,
                                       info: seq<VirtualServiceInfo>)
    requires l.Lawful()
    ensures forall s :: s in VsSamples(l, system, rows, info) ==> WellKeyed(l, system, s)
  {
    if rows != [] {
      var last := rows[|rows| - 1];
      ServicesFit(l, system, rows[..|rows| - 1], info);
      VsRowFits(l, system, last, MetaOf(info, last.address, last.port));
    }
  }

  lemma {:induction false} ServersFit(l: Library, system: string, servers: seq<RealServer>, rows: seq<VirtualService>,
                                      info: seq<VirtualServiceInfo>)
    requires l.Lawful()
    ensures forall s :: s in RsSamples(l, system, servers, rows, info) ==> WellKeyed(l, system, s)
  {
    if servers != [] {
      var last := servers[|servers| - 1];
      ServersFit(l, system, servers[..|servers| - 1], rows, info);
      RsRowFits(l, system, last, ParentOr(ParentOf(rows, info, last.vsIndex)));
    }
  }

  lemma HealthFits(l: Library, system: string, st: Statistics)
    requires l.Lawful()
    ensures forall s :: s in HealthSamples(l, system, st) ==> WellKeyed(l, system, s)
  {
    TotalsFit(l, system, st);
    ParsedFits(l, system, SystemLabels(l, system), TotalFields(st));
    ParsedFits(l, system, SystemLabels(l, system), LoadFields(st));
    CpusFit(l, system, st.cpus);
    InterfacesFit(l, system, st.interfaces);
  }

  /** Every sample of every target: the key sequence is a function of the metric name, and the first label is
      the cleaned system name. */
  lemma SamplesWellKeyed(l: Library, t: Target)
    requires l.Lawful()
    ensures forall s :: s in SystemSamples(l, t) ==> WellKeyed(l, t.name, s)
  {
    forall up: bool ensures WellKeyed(l, t.name, UpSample(l, t.name, up)) {
      BuildersAreClean(l, t.name, "", "", 0, 0, "");
      assert Keys(UpSample(l, t.name, up)) == SYSTEM_KEYS;
      SystemNames();
    }
    if Up(t) {
      var st := t.stats.st.value;
      var info := if t.listvs.Some? then t.listvs.value else [];
      HealthFits(l, t.name, st);
      ServicesFit(l, t.name, st.virtualServices, info);
      ServersFit(l, t.name, st.realServers, st.virtualServices, info);
    }
  }

  // ---------------------------------------------------------------- the cycle

  /** The snapshot of a cycle over the targets: one result per target, in target order. */
  ghost predicate Collected(l: Library, targets: seq<Target>, systems: seq<SystemSnapshot>) {
    |systems| == |targets| && forall i :: 0 <= i < |targets| ==> IsResult(l, targets[i], systems[i])
  }

  ghost predicate IsResult(l: Library, t: Target, r: SystemSnapshot) {
    r.system == t.name && r.samples == SystemSamples(l, t)
  }

  // ---------------------------------------------------------------- the client set

  class CollectionLoop {
    var clients: seq<Member>

    constructor (clients: seq<Member>)
      ensures this.clients == clients
    {
      this.clients := clients;
    }

    /** SetClients: the new set is in place and each of its clients has the cooldown it is due. */
    method SetClients(next: seq<Member>)
      modifies this
      modifies (set m | m in next && m.Real? :: m.client)`authFailureAt
      modifies (set m | m in next && m.Real? :: m.client)`authFailureErr
      ensures clients == next
      ensures forall m :: m in next && m.Real? ==> m.client.View() == old(CarriedFrom(clients, m.client))
    {
      CarryAuthCooldown(clients, next);
      clients := next;
    }

    /** The effective limit of concurrent targets. */
    static function Limit(maxConcurrent: int): nat {
      if maxConcurrent <= 0 then 1 else maxConcurrent
    }

    /** CollectOnce over the current client set, `targets` being what its clients answer: whatever order the
        scheduler starts and finishes the targets in, the snapshot lists them in config order. That at most
        the limit run at a time is a property of the runs, in FanOut. */
    method CollectOnce(l: Library, maxConcurrent: int, targets: seq<Target>) returns (snap: Snapshot)
      requires |targets| == |clients| && forall i :: 0 <= i < |clients| ==> targets[i].name == NameOf(clients[i])
      ensures Collected(l, targets, snap.systems)
      ensures |snap.systems| == |clients|
      ensures forall i :: 0 <= i < |clients| ==> snap.systems[i].system == NameOf(clients[i])
    {
      var results := RunTargets(l, Limit(maxConcurrent), targets);
      snap := Snapshot(results);
    }
  }

  /** The zero value every slot starts with. */
  const NO_RESULT := SystemSnapshot("", false, "", "", [])

  /** Every target that was started and no longer runs has its result in place. */
  ghost predicate Done(l: Library, targets: seq<Target>, results: seq<SystemSnapshot>, next: nat, running: set<nat>) {
    next <= |targets| == |results|
    && (forall i :: i in running ==> i < next)
    && (forall i :: 0 <= i < next ==> i in running || IsResult(l, targets[i], results[i]))
  }

  lemma FinishedIsDone(l: Library, targets: seq<Target>, results: seq<SystemSnapshot>, next: nat, running: set<nat>,
                       i: nat, r: SystemSnapshot)
    requires Done(l, targets, results, next, running) && i in running && IsResult(l, targets[i], r)
    ensures Done(l, targets, results[i := r], next, running - {i})
  {
  }

  /** The fan-out: start a target while fewer than `limit` run, or let any running one finish and write its
      result at its own index. */
  method RunTargets(l: Library, limit: nat, targets: seq<Target>) returns (systems: seq<SystemSnapshot>)
    requires limit > 0
    ensures Collected(l, targets, systems)
  {
    var results := new SystemSnapshot[|targets|](i => NO_RESULT);
    var next := 0;
    var running: set<nat> := {};
    while next < |targets| || running != {}
      invariant 0 <= next <= |targets| && |running| <= limit
      invariant Done(l, targets, results[..], next, running)
      decreases |targets| - next, |running|
    {
      var spawn := *;
      if running == {} || (spawn && next < |targets| && |running| < limit) {
        running := running + {next};
        next := next + 1;
      } else {
        var i :| i in running;
        var result := CollectSystem(l, targets[i]);
        FinishedIsDone(l, targets, results[..], next, running, i, result);
        results[i] := result;
        running := running - {i};
      }
    }
    systems := results[..];
  }
}
