/** The label builders: the one place where the key sequence of each metric is fixed. */
module Metrics {
  import opened Text
  import opened Snapshots

  /** The string library as the builders use it: UTF-8 validity, replacement of invalid bytes, and the
      trimming and lower-casing of a status. */
  datatype Library = Library(valid: string -> bool, clean: string -> string, fold: string -> string) {
    ghost predicate Lawful() {
      (forall v {:trigger clean(v)} :: valid(clean(v)))
      && (forall v {:trigger valid(v), clean(v)} :: valid(v) ==> clean(v) == v)
      && (forall v :: Ascii(v) ==> valid(v))
      && (forall v, w :: valid(v + [NUL] + w) <==> valid(v) && valid(w))
    }
  }

  function SystemLabels(l: Library, system: string): seq<Label> {
    [Label("system", l.clean(system))]
  }

  function CpuLabels(l: Library, system: string, id: string): seq<Label> {
    [Label("system", l.clean(system)), Label("cpu", l.clean(id))]
  }

  function InterfaceLabels(l: Library, system: string, iface: string): seq<Label> {
    [Label("system", l.clean(system)), Label("interface", l.clean(iface))]
  }

  function VsLabels(l: Library, system: string, name: string, address: string, port: int, protocol: string)
    : seq<Label>
  {
    [Label("system", l.clean(system)), Label("name", l.clean(name)), Label("address", l.clean(address)),
     Label("port", Itoa(port)), Label("protocol", l.clean(protocol))]
  }

  function RsLabels(l: Library, system: string, address: string, port: int, vsAddress: string, vsPort: int)
    : seq<Label>
  {
    [Label("system", l.clean(system)), Label("address", l.clean(address)), Label("port", Itoa(port)),
     Label("vs_address", l.clean(vsAddress)), Label("vs_port", Itoa(vsPort))]
  }

  function WithLabel(l: Library, base: seq<Label>, key: string, value: string): seq<Label> {
    base + [Label(key, l.clean(value))]
  }

  const SYSTEM_KEYS := ["system"]
  const CPU_KEYS := ["system", "cpu"]
  const INTERFACE_KEYS := ["system", "interface"]
  const VS_KEYS := ["system", "name", "address", "port", "protocol"]
  const RS_KEYS := ["system", "address", "port", "vs_address", "vs_port"]

  const CPU_METRICS := {"kemp_cpu_idle_percent", "kemp_cpu_user_percent", "kemp_cpu_system_percent"}
  const INTERFACE_METRICS := {"kemp_interface_bytes_read_total", "kemp_interface_bytes_written_total"}
  const VS_METRICS := {
    "kemp_virtual_service_active_connections", "kemp_virtual_service_connections_per_second",
    "kemp_virtual_service_connections_total", "kemp_virtual_service_packets_total",
    "kemp_virtual_service_bytes_total", "kemp_virtual_service_bytes_read_total",
    "kemp_virtual_service_bytes_written_total", "kemp_virtual_service_up"}
  const RS_METRICS := {
    "kemp_real_server_active_connections", "kemp_real_server_connections_per_second",
    "kemp_real_server_connections_total", "kemp_real_server_packets_total",
    "kemp_real_server_bytes_total", "kemp_real_server_bytes_read_total",
    "kemp_real_server_bytes_written_total", "kemp_real_server_up"}
  const SYSTEM_METRICS := {
    "kemp_up", "kemp_memory_used_percent", "kemp_memory_used_bytes", "kemp_memory_free_bytes", "kemp_tps",
    "kemp_tps_ssl", "kemp_connections_per_second", "kemp_bytes_per_second", "kemp_packets_per_second"}
  const VS_STATUS := "kemp_virtual_service_status"
  const RS_STATUS := "kemp_real_server_status"

  /** The key sequence of a metric, as a function of its name alone; the appliance-wide metrics are the rest. */
  function KeysOf(name: string): seq<string> {
    if name in CPU_METRICS then CPU_KEYS
    else if name in INTERFACE_METRICS then INTERFACE_KEYS
    else if name in VS_METRICS then VS_KEYS
    else if name in RS_METRICS then RS_KEYS
    else if name == VS_STATUS then VS_KEYS + ["status"]
    else if name == RS_STATUS then RS_KEYS + ["status"]
    else SYSTEM_KEYS
  }

  /** The names of the metrics that are ever derived. */
  predicate Known(name: string) {
    name in SYSTEM_METRICS || KeysOf(name) != SYSTEM_KEYS
  }

  /** The families differ in the letters after the common prefix. */
  lemma FamilyLetters(name: string)
    ensures name in CPU_METRICS ==> |name| > 20 && name[5] == 'c' && name[6] == 'p'
    ensures name in INTERFACE_METRICS ==> |name| > 20 && name[5] == 'i'
    ensures name in VS_METRICS || name == VS_STATUS ==> |name| > 20 && name[5] == 'v'
    ensures name in RS_METRICS || name == RS_STATUS ==> |name| > 17 && name[5] == 'r'
  {
  }

  lemma SystemMetricsAreNamed()
    ensures forall n :: n in SYSTEM_METRICS ==> n != ""
  {
  }

  lemma KnownIsNamed(name: string)
    requires Known(name)
    ensures name != ""
  {
    FamilyLetters(name);
    SystemMetricsAreNamed();
  }

  lemma OtherFamily(name: string)
    requires |name| > 6
    requires name[5] != 'i' && name[5] != 'v' && name[5] != 'r' && (name[5] == 'c' ==> name[6] != 'p')
    ensures KeysOf(name) == SYSTEM_KEYS
  {
    FamilyLetters(name);
  }

  /** The appliance-wide metrics are in no family. */
  lemma SystemNames()
    ensures KeysOf("kemp_up") == SYSTEM_KEYS
    ensures KeysOf("kemp_memory_used_percent") == SYSTEM_KEYS
    ensures KeysOf("kemp_memory_used_bytes") == SYSTEM_KEYS
    ensures KeysOf("kemp_memory_free_bytes") == SYSTEM_KEYS
    ensures KeysOf("kemp_tps") == SYSTEM_KEYS && KeysOf("kemp_tps_ssl") == SYSTEM_KEYS
    ensures KeysOf("kemp_connections_per_second") == SYSTEM_KEYS
    ensures KeysOf("kemp_bytes_per_second") == SYSTEM_KEYS && KeysOf("kemp_packets_per_second") == SYSTEM_KEYS
  {
    OtherFamily("kemp_up");
    OtherFamily("kemp_memory_used_percent");
    OtherFamily("kemp_memory_used_bytes");
    OtherFamily("kemp_memory_free_bytes");
    OtherFamily("kemp_tps");
    OtherFamily("kemp_tps_ssl");
    OtherFamily("kemp_connections_per_second");
    OtherFamily("kemp_bytes_per_second");
    OtherFamily("kemp_packets_per_second");
  }

  /** A label list that leads with the system and holds valid values only. */
  ghost predicate LabelsOk(l: Library, system: string, labels: seq<Label>) {
    |labels| > 0 && labels[0] == Label("system", l.clean(system))
    && forall i :: 0 <= i < |labels| ==> l.valid(labels[i].value)
  }

  /** A derived sample: its name is one of those derived, its keys are those of its name, its first label is the
      system, its values are valid. */
  ghost predicate WellKeyed(l: Library, system: string, s: Sample) {
    Known(s.name) && Keys(s) == KeysOf(s.name) && LabelsOk(l, system, s.labels)
  }

  lemma BuildersAreClean(l: Library, system: string, a: string, b: string, p: int, q: int, c: string)
    requires l.Lawful()
    ensures LabelsOk(l, system, SystemLabels(l, system)) && LabelsOk(l, system, CpuLabels(l, system, a))
    ensures LabelsOk(l, system, InterfaceLabels(l, system, a))
    ensures LabelsOk(l, system, VsLabels(l, system, a, b, p, c)) && LabelsOk(l, system, RsLabels(l, system, a, p, b, q))
  {
    ItoaIsAscii(p);
    ItoaIsAscii(q);
  }
}
