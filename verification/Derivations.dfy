/** The samples derived from one appliance's payload, with the indexed joins of the source proved against
    linear scans. */
module Derivations {
  import opened Prelude
  import opened Text
  import opened Snapshots
  import opened Metrics

  /** A payload number and whether it parsed. */
  datatype Num = Num(val: real, ok: bool)

  datatype VirtualService = VirtualService(index: int, address: string, port: int, protocol: string,
    totalConns: Num, totalPkts: Num, totalBytes: Num, activeConns: Num, connsPerSec: Num,
    bytesRead: Num, bytesWritten: Num)

  datatype RealServer = RealServer(vsIndex: int, address: string, port: int,
    totalConns: Num, totalPkts: Num, totalBytes: Num, activeConns: Num, connsPerSec: Num,
    bytesRead: Num, bytesWritten: Num, status: string)

  datatype VirtualServiceInfo = VirtualServiceInfo(index: int, name: string, address: string, port: int,
                                                   protocol: string, status: string)

  datatype CPU = CPU(id: string, user: Num, system: Num, idle: Num)

  datatype Interface = Interface(id: string, bytesRead: Num, bytesWritten: Num)

  datatype Statistics = Statistics(connsPerSec: Num, bytesPerSec: Num, pktsPerSec: Num,
    virtualServices: seq<VirtualService>, realServers: seq<RealServer>, cpus: seq<CPU>,
    usedBytes: Num, usedPercent: Num, freeBytes: Num, interfaces: seq<Interface>, tps: Num, tpsSsl: Num)

  const NO_INFO := VirtualServiceInfo(0, "", "", 0, "", "")

  /** The join key of the two payloads. */
  function VsKey(address: string, port: int): string {
    address + ":" + Itoa(port)
  }

  lemma ItoaHasNoColon(n: int)
    ensures ':' !in Itoa(n)
  {
    var d := Digits(if n < 0 then -n else n);
    assert forall i :: 0 <= i < |d| ==> d[i] != ':';
  }

  /** Addresses may contain colons themselves: the last colon of the key is the separator. */
  lemma VsKeyIsInjective(a: string, p: int, b: string, q: int)
    ensures VsKey(a, p) == VsKey(b, q) <==> a == b && p == q
  {
    if VsKey(a, p) == VsKey(b, q) {
      ItoaHasNoColon(p);
      ItoaHasNoColon(q);
      assert a + [':'] + Itoa(p) == VsKey(a, p) && b + [':'] + Itoa(q) == VsKey(b, q);
      SplitLast(':', a, Itoa(p), b, Itoa(q));
      AtoiUndoesItoa(p);
      AtoiUndoesItoa(q);
    }
  }

  /** The last listvs entry for an address and port. */
  function LastMatch(info: seq<VirtualServiceInfo>, address: string, port: int): Option<VirtualServiceInfo> {
    if info == [] then None else
      var last := info[|info| - 1];
      if last.address == address && last.port == port then Some(last)
      else LastMatch(info[..|info| - 1], address, port)
  }

  ghost predicate Matches(v: VirtualServiceInfo, address: string, port: int) {
    v.address == address && v.port == port
  }

  /** LastMatch is the scan it is named after. */
  lemma {:induction false} LastMatchIsLast(info: seq<VirtualServiceInfo>, address: string, port: int)
    ensures LastMatch(info, address, port).None? <==> forall i :: 0 <= i < |info| ==> !Matches(info[i], address, port)
    ensures LastMatch(info, address, port).Some? ==>
              exists i :: 0 <= i < |info| && LastMatch(info, address, port).value == info[i]
                     && Matches(info[i], address, port)
                          && forall j :: i < j < |info| ==> !Matches(info[j], address, port)
  {
    if info != [] {
      var before, last := info[..|info| - 1], info[|info| - 1];
      LastMatchIsLast(before, address, port);
      if Matches(last, address, port) {
        assert info[|info| - 1] == last;
      } else if LastMatch(before, address, port).Some? {
        var i :| 0 <= i < |before| && LastMatch(before, address, port).value == before[i]
            && Matches(before[i], address, port)
                 && forall j :: i < j < |before| ==> !Matches(before[j], address, port);
        assert info[i] == before[i];
        assert forall j :: i < j < |info| ==> info[j] == (if j < |before| then before[j] else last);
      }
    }
  }

  function MetaOf(info: seq<VirtualServiceInfo>, address: string, port: int): VirtualServiceInfo {
    var m := LastMatch(info, address, port);
    if m.Some? then m.value else NO_INFO
  }

  ghost predicate Indexes(idx: map<string, VirtualServiceInfo>, info: seq<VirtualServiceInfo>) {
    forall a, p :: (VsKey(a, p) in idx <==> LastMatch(info, a, p).Some?)
                   && (VsKey(a, p) in idx ==> idx[VsKey(a, p)] == LastMatch(info, a, p).value)
  }

  lemma IndexNext(idx: map<string, VirtualServiceInfo>, info: seq<VirtualServiceInfo>, v: VirtualServiceInfo)
    requires Indexes(idx, info)
    ensures Indexes(idx[VsKey(v.address, v.port) := v], info + [v])
  {
    var next := idx[VsKey(v.address, v.port) := v];
    assert (info + [v])[..|info|] == info;
    forall a, p
      ensures VsKey(a, p) in next <==> LastMatch(info + [v], a, p).Some?
      ensures VsKey(a, p) in next ==> next[VsKey(a, p)] == LastMatch(info + [v], a, p).value
    {
      VsKeyIsInjective(a, p, v.address, v.port);
    }
  }

  method IndexVSInfo(info: seq<VirtualServiceInfo>) returns (idx: map<string, VirtualServiceInfo>)
    ensures Indexes(idx, info)
  {
    idx := map[];
    ghost var done := [];
    for i := 0 to |info|
      invariant done == info[..i] && Indexes(idx, done)
    {
      var v := info[i];
      IndexNext(idx, done, v);
      done := done + [v];
      idx := idx[VsKey(v.address, v.port) := v];
    }
    assert info[..|info|] == info;
  }

  /** The identity of a real server's virtual service: the last stats row of that index, else the first
      listvs row, else nothing. */
  function LastRow(rows: seq<VirtualService>, index: int): Option<(string, int)> {
    if rows == [] then None else
      var last := rows[|rows| - 1];
      if last.index == index then Some((last.address, last.port)) else LastRow(rows[..|rows| - 1], index)
  }

  function FirstInfo(info: seq<VirtualServiceInfo>, index: int): Option<(string, int)> {
    if info == [] then None else
      var before := FirstInfo(info[..|info| - 1], index);
      if before.Some? then before
      else if info[|info| - 1].index == index then Some((info[|info| - 1].address, info[|info| - 1].port))
      else None
  }

  function ParentOf(rows: seq<VirtualService>, info: seq<VirtualServiceInfo>, index: int): Option<(string, int)> {
    var r := LastRow(rows, index);
    if r.Some? then r else FirstInfo(info, index)
  }

  /** What the two searches find. */
  lemma {:induction false} ParentSearches(rows: seq<VirtualService>, info: seq<VirtualServiceInfo>, index: int)
    ensures LastRow(rows, index).None? <==> forall i :: 0 <= i < |rows| ==> rows[i].index != index
    ensures LastRow(rows, index).Some? ==>
              exists i :: 0 <= i < |rows| && rows[i].index == index
                     && LastRow(rows, index).value == (rows[i].address, rows[i].port)
                          && forall j :: i < j < |rows| ==> rows[j].index != index
    ensures FirstInfo(info, index).None? <==> forall i :: 0 <= i < |info| ==> info[i].index != index
    ensures FirstInfo(info, index).Some? ==>
              exists i :: 0 <= i < |info| && info[i].index == index
                     && FirstInfo(info, index).value == (info[i].address, info[i].port)
                          && forall j :: 0 <= j < i ==> info[j].index != index
    decreases |rows| + |info|
  {
    if rows != [] {
      var before := rows[..|rows| - 1];
      ParentSearches(before, info, index);
      if rows[|rows| - 1].index != index && LastRow(before, index).Some? {
        var i :| 0 <= i < |before| && before[i].index == index
            && LastRow(before, index).value == (before[i].address, before[i].port)
                 && forall j :: i < j < |before| ==> before[j].index != index;
        assert rows[i] == before[i];
        assert forall j :: i < j < |before| ==> rows[j] == before[j];
      }
    } else if info != [] {
      var before := info[..|info| - 1];
      ParentSearches(rows, before, index);
      if FirstInfo(before, index).Some? {
        var i :| 0 <= i < |before| && before[i].index == index
            && FirstInfo(before, index).value == (before[i].address, before[i].port)
                 && forall j :: 0 <= j < i ==> before[j].index != index;
        assert info[i] == before[i];
        assert forall j :: 0 <= j < i ==> info[j] == before[j];
      }
    }
  }

  /** ParentOf as a search: the last stats row of the index, else the first listvs row, else nothing. */
  lemma ParentIsFound(rows: seq<VirtualService>, info: seq<VirtualServiceInfo>, index: int)
    ensures var inRows := exists i :: 0 <= i < |rows| && rows[i].index == index;
            var inInfo := exists i :: 0 <= i < |info| && info[i].index == index;
            (inRows ==> exists i :: 0 <= i < |rows| && rows[i].index == index
                                    && ParentOf(rows, info, index) == Some((rows[i].address, rows[i].port))
                                    && forall j :: i < j < |rows| ==> rows[j].index != index)
            && (!inRows && inInfo ==>
                  exists i :: 0 <= i < |info| && info[i].index == index
                              && ParentOf(rows, info, index) == Some((info[i].address, info[i].port))
                              && forall j :: 0 <= j < i ==> info[j].index != index)
            && (!inRows && !inInfo ==> ParentOf(rows, info, index) == None)
  {
    ParentSearches(rows, info, index);
  }

  method IndexParents(rows: seq<VirtualService>, info: seq<VirtualServiceInfo>)
    returns (byIndex: map<int, (string, int)>)
    ensures forall i :: (i in byIndex <==> ParentOf(rows, info, i).Some?)
                        && (i in byIndex ==> byIndex[i] == ParentOf(rows, info, i).value)
  {
    byIndex := map[];
    for k := 0 to |rows|
      invariant forall i :: (i in byIndex <==> LastRow(rows[..k], i).Some?)
                            && (i in byIndex ==> byIndex[i] == LastRow(rows[..k], i).value)
    {
      assert rows[..k + 1][..k] == rows[..k];
      byIndex := byIndex[rows[k].index := (rows[k].address, rows[k].port)];
    }
    assert rows[..|rows|] == rows;
    for k := 0 to |info|
      invariant forall i :: (i in byIndex <==> ParentOf(rows, info[..k], i).Some?)
                            && (i in byIndex ==> byIndex[i] == ParentOf(rows, info[..k], i).value)
    {
      assert info[..k + 1][..k] == info[..k];
      if info[k].index !in byIndex {
        byIndex := byIndex[info[k].index := (info[k].address, info[k].port)];
      }
    }
    assert info[..|info|] == info;
  }

  /** The binary reading of a status; an unknown status reads as absent. */
  function StatusToUp(l: Library, status: string): Num {
    var s := l.fold(status);
    if s == "up" || s == "sick" || s == "redirect" then Num(1.0, true)
    else if s == "down" || s == "disabled" then Num(0.0, true)
    else Num(0.0, false)
  }

  /** The one place a sample is built from a payload number. */
  function AddSample(out: seq<Sample>, name: string, labels: seq<Label>, n: Num): seq<Sample> {
    if n.ok then out + [Sample(name, labels, n.val)] else out
  }

  type Field = (string, Num)

  /** The samples of a row of fields: exactly the parsed ones, in order. */
  function Parsed(labels: seq<Label>, fields: seq<Field>): seq<Sample> {
    if fields == [] then [] else
      var last := fields[|fields| - 1];
      AddSample(Parsed(labels, fields[..|fields| - 1]), last.0, labels, last.1)
  }

  /** A sample appears exactly for each field that parsed. */
  lemma {:induction false} ParsedExactly(labels: seq<Label>, fields: seq<Field>, s: Sample)
    ensures s in Parsed(labels, fields) <==>
              exists i :: 0 <= i < |fields| && fields[i].1.ok && s == Sample(fields[i].0, labels, fields[i].1.val)
  {
    if fields != [] {
      var before := fields[..|fields| - 1];
      ParsedExactly(labels, before, s);
      if s in Parsed(labels, before) {
        var i :| 0 <= i < |before| && before[i].1.ok && s == Sample(before[i].0, labels, before[i].1.val);
        assert fields[i] == before[i];
      }
    }
  }

  lemma ParsedNext(out: seq<Sample>, labels: seq<Label>, fields: seq<Field>, f: Field)
    ensures out + Parsed(labels, fields + [f]) == AddSample(out + Parsed(labels, fields), f.0, labels, f.1)
  {
    assert (fields + [f])[..|fields|] == fields;
  }

  function VsFields(vs: VirtualService): seq<Field> {
    [("kemp_virtual_service_active_connections", vs.activeConns),
     ("kemp_virtual_service_connections_per_second", vs.connsPerSec),
     ("kemp_virtual_service_connections_total", vs.totalConns),
     ("kemp_virtual_service_packets_total", vs.totalPkts),
     ("kemp_virtual_service_bytes_total", vs.totalBytes),
     ("kemp_virtual_service_bytes_read_total", vs.bytesRead),
     ("kemp_virtual_service_bytes_written_total", vs.bytesWritten)]
  }

  function RsFields(rs: RealServer): seq<Field> {
    [("kemp_real_server_active_connections", rs.activeConns),
     ("kemp_real_server_connections_per_second", rs.connsPerSec),
     ("kemp_real_server_connections_total", rs.totalConns),
     ("kemp_real_server_packets_total", rs.totalPkts),
     ("kemp_real_server_bytes_total", rs.totalBytes),
     ("kemp_real_server_bytes_read_total", rs.bytesRead),
     ("kemp_real_server_bytes_written_total", rs.bytesWritten)]
  }

  /** The two status samples of a row, absent when no status is known. */
  function StatusSamples(l: Library, labels: seq<Label>, up: string, info: string, status: string): seq<Sample> {
    if status == "" then [] else
      Parsed(labels, [(up, StatusToUp(l, status))]) + [Sample(info, WithLabel(l, labels, "status", status), 1.0)]
  }

  function VsRowLabels(l: Library, system: string, vs: VirtualService, meta: VirtualServiceInfo): seq<Label> {
    VsLabels(l, system, meta.name, vs.address, vs.port, if vs.protocol == "" then meta.protocol else vs.protocol)
  }

  /** The samples of one virtual service joined with its listvs entry. */
  function VsRow(l: Library, system: string, vs: VirtualService, meta: VirtualServiceInfo): seq<Sample> {
    var labels := VsRowLabels(l, system, vs, meta);
    Parsed(labels, VsFields(vs))
    + StatusSamples(l, labels, "kemp_virtual_service_up", "kemp_virtual_service_status", meta.status)
  }

  function VsSamples(l: Library, system: string, rows: seq<VirtualService>, info: seq<VirtualServiceInfo>)
    : seq<Sample>
  {
    if rows == [] then [] else
      var last := rows[|rows| - 1];
      VsSamples(l, system, rows[..|rows| - 1], info) + VsRow(l, system, last, MetaOf(info, last.address, last.port))
  }

  /** addSample as the next call of a row whose fields are `f`. */
  method AddNext(ghost start: seq<Sample>, ghost f: seq<Field>, ghost k: nat, out: seq<Sample>, name: string,
                 labels: seq<Label>, n: Num)
    returns (out': seq<Sample>)
    requires k < |f| && f[k] == (name, n) && out == start + Parsed(labels, f[..k])
    ensures out' == start + Parsed(labels, f[..k + 1])
  {
    ParsedNext(start, labels, f[..k], f[k]);
    assert f[..k] + [f[k]] == f[..k + 1];
    out' := AddSample(out, name, labels, n);
  }

  /** The two status calls of a row. */
  method AddStatus(l: Library, start: seq<Sample>, labels: seq<Label>, up: string, info: string, status: string)
    returns (out: seq<Sample>)
    requires status != ""
    ensures out == start + StatusSamples(l, labels, up, info, status)
  {
    out := AddSample(start, up, labels, StatusToUp(l, status));
    ParsedNext(start, labels, [], (up, StatusToUp(l, status)));
    assert [] + [(up, StatusToUp(l, status))] == [(up, StatusToUp(l, status))];
    assert start + Parsed(labels, []) == start;
    out := AddSample(out, info, WithLabel(l, labels, "status", status), Num(1.0, true));
  }

  /** The seven numbers of a row. */
  method AddVsFields(start: seq<Sample>, labels: seq<Label>, vs: VirtualService) returns (out: seq<Sample>)
    ensures out == start + Parsed(labels, VsFields(vs))
  {
    ghost var f := VsFields(vs);
    out := start;
    out := AddNext(start, f, 0, out, "kemp_virtual_service_active_connections", labels, vs.activeConns);
    out := AddNext(start, f, 1, out, "kemp_virtual_service_connections_per_second", labels, vs.connsPerSec);
    out := AddNext(start, f, 2, out, "kemp_virtual_service_connections_total", labels, vs.totalConns);
    out := AddNext(start, f, 3, out, "kemp_virtual_service_packets_total", labels, vs.totalPkts);
    out := AddNext(start, f, 4, out, "kemp_virtual_service_bytes_total", labels, vs.totalBytes);
    out := AddNext(start, f, 5, out, "kemp_virtual_service_bytes_read_total", labels, vs.bytesRead);
    out := AddNext(start, f, 6, out, "kemp_virtual_service_bytes_written_total", labels, vs.bytesWritten);
    assert f[..7] == f;
  }

  /** The loop body of deriveVirtualServices. */
  method AddVsRow(l: Library, system: string, start: seq<Sample>, vs: VirtualService, meta: VirtualServiceInfo)
    returns (out: seq<Sample>)
    ensures out == start + VsRow(l, system, vs, meta)
  {
    var protocol := vs.protocol;
    if protocol == "" {
      protocol := meta.protocol;
    }
    var labels := VsLabels(l, system, meta.name, vs.address, vs.port, protocol);
    out := AddVsFields(start, labels, vs);
    if meta.status == "" {
      return;
    }
    out := AddStatus(l, out, labels, "kemp_virtual_service_up", "kemp_virtual_service_status", meta.status);
  }

  method DeriveVirtualServices(l: Library, system: string, st: Option<Statistics>, info: seq<VirtualServiceInfo>)
    returns (out: seq<Sample>)
    ensures out == if st.None? then [] else VsSamples(l, system, st.value.virtualServices, info)
  {
    if st.None? {
      return [];
    }
    var rows := st.value.virtualServices;
    var idx := IndexVSInfo(info);
    out := [];
    for i := 0 to |rows|
      invariant out == VsSamples(l, system, rows[..i], info)
    {
      var vs := rows[i];
      assert rows[..i + 1][..i] == rows[..i];
      var key := VsKey(vs.address, vs.port);
      out := AddVsRow(l, system, out, vs, if key in idx then idx[key] else NO_INFO);
    }
    assert rows[..|rows|] == rows;
  }

  function RsRow(l: Library, system: string, rs: RealServer, parent: (string, int)): seq<Sample> {
    var labels := RsLabels(l, system, rs.address, rs.port, parent.0, parent.1);
    Parsed(labels, RsFields(rs))
    + StatusSamples(l, labels, "kemp_real_server_up", "kemp_real_server_status", rs.status)
  }

  function ParentOr(p: Option<(string, int)>): (string, int) {
    if p.Some? then p.value else ("", 0)
  }

  function RsSamples(l: Library, system: string, servers: seq<RealServer>, rows: seq<VirtualService>,
                     info: seq<VirtualServiceInfo>): seq<Sample> {
    if servers == [] then [] else
      var last := servers[|servers| - 1];
      RsSamples(l, system, servers[..|servers| - 1], rows, info)
      + RsRow(l, system, last, ParentOr(ParentOf(rows, info, last.vsIndex)))
  }

  /** The seven numbers of a row. */
  method AddRsFields(start: seq<Sample>, labels: seq<Label>, rs: RealServer) returns (out: seq<Sample>)
    ensures out == start + Parsed(labels, RsFields(rs))
  {
    ghost var f := RsFields(rs);
    out := start;
    out := AddNext(start, f, 0, out, "kemp_real_server_active_connections", labels, rs.activeConns);
    out := AddNext(start, f, 1, out, "kemp_real_server_connections_per_second", labels, rs.connsPerSec);
    out := AddNext(start, f, 2, out, "kemp_real_server_connections_total", labels, rs.totalConns);
    out := AddNext(start, f, 3, out, "kemp_real_server_packets_total", labels, rs.totalPkts);
    out := AddNext(start, f, 4, out, "kemp_real_server_bytes_total", labels, rs.totalBytes);
    out := AddNext(start, f, 5, out, "kemp_real_server_bytes_read_total", labels, rs.bytesRead);
    out := AddNext(start, f, 6, out, "kemp_real_server_bytes_written_total", labels, rs.bytesWritten);
    assert f[..7] == f;
  }

  /** The loop body of deriveRealServers. */
  method AddRsRow(l: Library, system: string, start: seq<Sample>, rs: RealServer, parent: (string, int))
    returns (out: seq<Sample>)
    ensures out == start + RsRow(l, system, rs, parent)
  {
    var labels := RsLabels(l, system, rs.address, rs.port, parent.0, parent.1);
    out := AddRsFields(start, labels, rs);
    if rs.status == "" {
      return;
    }
    out := AddStatus(l, out, labels, "kemp_real_server_up", "kemp_real_server_status", rs.status);
  }

  method DeriveRealServers(l: Library, system: string, st: Option<Statistics>, info: seq<VirtualServiceInfo>)
    returns (out: seq<Sample>)
    ensures out == if st.None? then []
                   else RsSamples(l, system, st.value.realServers, st.value.virtualServices, info)
  {
    if st.None? {
      return [];
    }
    var servers, rows := st.value.realServers, st.value.virtualServices;
    var byIndex := IndexParents(rows, info);
    out := [];
    for i := 0 to |servers|
      invariant out == RsSamples(l, system, servers[..i], rows, info)
    {
      var rs := servers[i];
      assert servers[..i + 1][..i] == servers[..i];
      var parent := if rs.vsIndex in byIndex then byIndex[rs.vsIndex] else ("", 0);
      out := AddRsRow(l, system, out, rs, parent);
    }
    assert servers[..|servers|] == servers;
  }
}
