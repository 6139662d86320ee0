/** The appliance-wide samples. */
module Health {
  import opened Prelude
  import opened Snapshots
  import opened Metrics
  import opened Derivations

  function CpuFields(cpu: CPU): seq<Field> {
    [("kemp_cpu_idle_percent", cpu.idle), ("kemp_cpu_user_percent", cpu.user), ("kemp_cpu_system_percent", cpu.system)]
  }

  function InterfaceFields(i: Interface): seq<Field> {
    [("kemp_interface_bytes_read_total", i.bytesRead), ("kemp_interface_bytes_written_total", i.bytesWritten)]
  }

  function TotalFields(st: Statistics): seq<Field> {
    [("kemp_connections_per_second", st.connsPerSec), ("kemp_bytes_per_second", st.bytesPerSec),
     ("kemp_packets_per_second", st.pktsPerSec)]
  }

  function LoadFields(st: Statistics): seq<Field> {
    [("kemp_memory_free_bytes", st.freeBytes), ("kemp_memory_used_bytes", st.usedBytes),
     ("kemp_memory_used_percent", st.usedPercent), ("kemp_tps", st.tps), ("kemp_tps_ssl", st.tpsSsl)]
  }

  function CpuSamples(l: Library, system: string, cpus: seq<CPU>): seq<Sample> {
    if cpus == [] then [] else
      var last := cpus[|cpus| - 1];
      CpuSamples(l, system, cpus[..|cpus| - 1]) + Parsed(CpuLabels(l, system, last.id), CpuFields(last))
  }

  function InterfaceSamples(l: Library, system: string, ifaces: seq<Interface>): seq<Sample> {
    if ifaces == [] then [] else
      var last := ifaces[|ifaces| - 1];
      InterfaceSamples(l, system, ifaces[..|ifaces| - 1])
          + Parsed(InterfaceLabels(l, system, last.id), InterfaceFields(last))
  }

  function HealthSamples(l: Library, system: string, st: Statistics): seq<Sample> {
    Parsed(SystemLabels(l, system), TotalFields(st)) + CpuSamples(l, system, st.cpus)
    + Parsed(SystemLabels(l, system), LoadFields(st)) + InterfaceSamples(l, system, st.interfaces)
  }

  method DeriveHealth(l: Library, system: string, st: Option<Statistics>) returns (out: seq<Sample>)
    ensures out == if st.None? then [] else HealthSamples(l, system, st.value)
  {
    if st.None? {
      return [];
    }
    var s := st.value;
    var base := SystemLabels(l, system);
    out := AddTotals(base, s);
    out := AddCpus(l, system, out, s.cpus);
    out := AddLoad(out, base, s);
    out := AddInterfaces(l, system, out, s.interfaces);
  }

  /** The loop over the processor rows. */
  method AddCpus(l: Library, system: string, start: seq<Sample>, cpus: seq<CPU>) returns (out: seq<Sample>)
    ensures out == start + CpuSamples(l, system, cpus)
  {
    out := start;
    for i := 0 to |cpus|
      invariant out == start + CpuSamples(l, system, cpus[..i])
    {
      assert cpus[..i + 1][..i] == cpus[..i];
      out := AddCpu(out, CpuLabels(l, system, cpus[i].id), cpus[i]);
    }
    assert cpus[..|cpus|] == cpus;
  }

  /** The loop over the network interfaces. */
  method AddInterfaces(l: Library, system: string, start: seq<Sample>, ifaces: seq<Interface>)
    returns (out: seq<Sample>)
    ensures out == start + InterfaceSamples(l, system, ifaces)
  {
    out := start;
    for i := 0 to |ifaces|
      invariant out == start + InterfaceSamples(l, system, ifaces[..i])
    {
      assert ifaces[..i + 1][..i] == ifaces[..i];
      out := AddInterface(out, InterfaceLabels(l, system, ifaces[i].id), ifaces[i]);
    }
    assert ifaces[..|ifaces|] == ifaces;
  }

  method AddTotals(base: seq<Label>, st: Statistics) returns (out: seq<Sample>)
    ensures out == Parsed(base, TotalFields(st))
  {
    ghost var f := TotalFields(st);
    out := AddNext([], f, 0, [], "kemp_connections_per_second", base, st.connsPerSec);
    out := AddNext([], f, 1, out, "kemp_bytes_per_second", base, st.bytesPerSec);
    out := AddNext([], f, 2, out, "kemp_packets_per_second", base, st.pktsPerSec);
    assert f[..3] == f;
  }

  method AddCpu(start: seq<Sample>, labels: seq<Label>, cpu: CPU) returns (out: seq<Sample>)
    ensures out == start + Parsed(labels, CpuFields(cpu))
  {
    ghost var f := CpuFields(cpu);
    out := AddNext(start, f, 0, start, "kemp_cpu_idle_percent", labels, cpu.idle);
    out := AddNext(start, f, 1, out, "kemp_cpu_user_percent", labels, cpu.user);
    out := AddNext(start, f, 2, out, "kemp_cpu_system_percent", labels, cpu.system);
    assert f[..3] == f;
  }

  method AddLoad(start: seq<Sample>, base: seq<Label>, st: Statistics) returns (out: seq<Sample>)
    ensures out == start + Parsed(base, LoadFields(st))
  {
    ghost var f := LoadFields(st);
    out := AddNext(start, f, 0, start, "kemp_memory_free_bytes", base, st.freeBytes);
    out := AddNext(start, f, 1, out, "kemp_memory_used_bytes", base, st.usedBytes);
    out := AddNext(start, f, 2, out, "kemp_memory_used_percent", base, st.usedPercent);
    out := AddNext(start, f, 3, out, "kemp_tps", base, st.tps);
    out := AddNext(start, f, 4, out, "kemp_tps_ssl", base, st.tpsSsl);
    assert f[..5] == f;
  }

  method AddInterface(start: seq<Sample>, labels: seq<Label>, i: Interface) returns (out: seq<Sample>)
    ensures out == start + Parsed(labels, InterfaceFields(i))
  {
    ghost var f := InterfaceFields(i);
    out := AddNext(start, f, 0, start, "kemp_interface_bytes_read_total", labels, i.bytesRead);
    out := AddNext(start, f, 1, out, "kemp_interface_bytes_written_total", labels, i.bytesWritten);
    assert f[..2] == f;
  }
}
