/** What an operator reads off a metric: for each metric name, exactly which payload numbers are exposed under it
    and with which labels. Everything here is said of the outputs, metric by metric. */
module Readings {
  import opened Prelude
  import opened Text
  import opened Snapshots
  import opened Metrics
  import opened Derivations
  import opened Health
  import opened Collector

  /** Among `out`, the samples named `name` are exactly the one with these labels and this number, if it parsed. */
  ghost predicate Reads(out: seq<Sample>, name: string, labels: seq<Label>, n: Num) {
    forall s: Sample :: s.name == name ==> (s in out <==> n.ok && s.labels == labels && s.value == n.val)
  }

  /** Among `out` no sample has that name. */
  ghost predicate Lacks(out: seq<Sample>, name: string) {
    forall s: Sample :: s in out ==> s.name != name
  }

  /** The samples that stem from a list of fields: each number under its own name. */
  ghost predicate ReadsAll(out: seq<Sample>, labels: seq<Label>, fields: seq<Field>) {
    forall i :: 0 <= i < |fields| ==> Reads(out, fields[i].0, labels, fields[i].1)
  }

  predicate DistinctNames(fields: seq<Field>) {
    forall i, j :: 0 <= i < j < |fields| ==> fields[i].0 != fields[j].0
  }

  lemma FieldsRead(labels: seq<Label>, fields: seq<Field>)
    requires DistinctNames(fields)
    ensures ReadsAll(Parsed(labels, fields), labels, fields)
  {
    forall i, s: Sample | 0 <= i < |fields| && s.name == fields[i].0
      ensures s in Parsed(labels, fields) <==> fields[i].1.ok && s.labels == labels && s.value == fields[i].1.val
    {
      ParsedExactly(labels, fields, s);
    }
  }

  lemma FieldsLack(labels: seq<Label>, fields: seq<Field>, name: string)
    requires forall j :: 0 <= j < |fields| ==> fields[j].0 != name
    ensures Lacks(Parsed(labels, fields), name)
  {
    forall s: Sample | s in Parsed(labels, fields) ensures s.name != name {
      ParsedExactly(labels, fields, s);
    }
  }

  // ---------------------------------------------------------------- status words

  /** The samples of a status: an up reading of 1 or 0 for the words that say so, none for any other word, and the
      word itself as a label of a constant 1; nothing without a status. */
  ghost predicate ReadsStatus(l: Library, out: seq<Sample>, up: string, info: string, labels: seq<Label>,
                              status: string) {
    var word := l.fold(status);
    (forall s: Sample :: s.name == up ==>
       (s in out <==> status != "" && s.labels == labels
                      && ((word in {"up", "sick", "redirect"} && s.value == 1.0)
                          || (word in {"down", "disabled"} && s.value == 0.0))))
    && forall s: Sample :: s.name == info ==>
         (s in out <==> status != "" && s.labels == labels + [Label("status", l.clean(status))] && s.value == 1.0)
  }

  lemma StatusWords(l: Library, status: string)
    ensures var word, n := l.fold(status), StatusToUp(l, status);
            (n.ok <==> word in {"up", "sick", "redirect", "down", "disabled"})
            && (word in {"up", "sick", "redirect"} ==> n.val == 1.0)
            && (word in {"down", "disabled"} ==> n.val == 0.0)
            && !(word in {"up", "sick", "redirect"} && word in {"down", "disabled"})
  {
    assert |"up"| == 2 && |"sick"| == 4 && |"redirect"| == 8 && |"down"| == 4 && |"disabled"| == 8;
    assert "sick"[0] == 's' && "down"[0] == 'd' && "redirect"[0] == 'r' && "disabled"[0] == 'd';
  }

  lemma StatusReads(l: Library, labels: seq<Label>, up: string, info: string, status: string)
    requires up != info
    ensures ReadsStatus(l, StatusSamples(l, labels, up, info, status), up, info, labels, status)
    ensures forall s :: s in StatusSamples(l, labels, up, info, status) ==> s.name == up || s.name == info
  {
    if status != "" {
      var fields := [(up, StatusToUp(l, status))];
      var last := Sample(info, labels + [Label("status", l.clean(status))], 1.0);
      assert StatusSamples(l, labels, up, info, status) == Parsed(labels, fields) + [last];
      StatusWords(l, status);
      FieldsRead(labels, fields);
      FieldsLack(labels, fields, info);
      assert fields[0].0 == up;
    }
  }

  /** The samples of one row: its numbers and its status. */
  lemma RowReads(l: Library, labels: seq<Label>, fields: seq<Field>, up: string, info: string, status: string)
    requires DistinctNames(fields) && up != info
    requires forall i :: 0 <= i < |fields| ==> fields[i].0 != up && fields[i].0 != info
    ensures var out := Parsed(labels, fields) + StatusSamples(l, labels, up, info, status);
            ReadsAll(out, labels, fields) && ReadsStatus(l, out, up, info, labels, status)
  {
    FieldsRead(labels, fields);
    FieldsLack(labels, fields, up);
    FieldsLack(labels, fields, info);
    StatusReads(l, labels, up, info, status);
  }

  // ---------------------------------------------------------------- rows

  /** `out` holds the samples of the rows, one row's after the other's. */
  ghost predicate Union<T(!new)>(out: seq<Sample>, rows: seq<T>, rowOf: T -> seq<Sample>) {
    forall s: Sample :: s in out <==> exists i :: 0 <= i < |rows| && s in rowOf(rows[i])
  }

  lemma UnionNext<T(!new)>(out: seq<Sample>, rows: seq<T>, rowOf: T -> seq<Sample>)
    requires rows != [] && Union(out, rows[..|rows| - 1], rowOf)
    ensures Union(out + rowOf(rows[|rows| - 1]), rows, rowOf)
  {
    var before, last := rows[..|rows| - 1], |rows| - 1;
    forall s: Sample
      ensures s in out + rowOf(rows[last]) <==> exists i :: 0 <= i < |rows| && s in rowOf(rows[i])
    {
      if s in out {
        var i :| 0 <= i < |before| && s in rowOf(before[i]);
        assert rows[i] == before[i];
      }
      if i :| 0 <= i < |rows| && s in rowOf(rows[i]) {
        assert i < last ==> before[i] == rows[i];
      }
    }
  }

  /** The samples of that name are exactly those of the rows whose number parsed: the number of the row, under the
      labels of the row. */
  ghost predicate Exposes<T(!new)>(out: seq<Sample>, name: string, rows: seq<T>, num: T -> Num,
                                   labels: T -> seq<Label>) {
    forall s: Sample :: s.name == name ==>
      (s in out <==> exists i :: 0 <= i < |rows| && num(rows[i]).ok && s.value == num(rows[i]).val
                                 && s.labels == labels(rows[i]))
  }

  lemma RowsExpose<T(!new)>(out: seq<Sample>, name: string, rows: seq<T>, rowOf: T -> seq<Sample>, num: T -> Num,
                            labels: T -> seq<Label>)
    requires Union(out, rows, rowOf)
    requires forall r: T :: Reads(rowOf(r), name, labels(r), num(r))
    ensures Exposes(out, name, rows, num, labels)
  {
    forall s: Sample | s.name == name
      ensures s in out <==> exists i :: 0 <= i < |rows| && num(rows[i]).ok && s.value == num(rows[i]).val
                                        && s.labels == labels(rows[i])
    {
      if s in out {
        var i :| 0 <= i < |rows| && s in rowOf(rows[i]);
        assert Reads(rowOf(rows[i]), name, labels(rows[i]), num(rows[i]));
      }
      if i :| 0 <= i < |rows| && num(rows[i]).ok && s.value == num(rows[i]).val && s.labels == labels(rows[i]) {
        assert Reads(rowOf(rows[i]), name, labels(rows[i]), num(rows[i]));
      }
    }
  }

  /** The same for the status samples of the rows. */
  ghost predicate ExposesStatus<T(!new)>(l: Library, out: seq<Sample>, up: string, info: string, rows: seq<T>,
                                         status: T -> string, labels: T -> seq<Label>) {
    (forall s: Sample :: s.name == up ==>
       (s in out <==> exists i :: 0 <= i < |rows| && status(rows[i]) != "" && s.labels == labels(rows[i])
                        && ((l.fold(status(rows[i])) in {"up", "sick", "redirect"} && s.value == 1.0)
                            || (l.fold(status(rows[i])) in {"down", "disabled"} && s.value == 0.0))))
    && forall s: Sample :: s.name == info ==>
         (s in out <==> exists i :: 0 <= i < |rows| && status(rows[i]) != "" && s.value == 1.0
                          && s.labels == labels(rows[i]) + [Label("status", l.clean(status(rows[i])))])
  }

  lemma RowsExposeStatus<T(!new)>(l: Library, out: seq<Sample>, up: string, info: string, rows: seq<T>,
                                  rowOf: T -> seq<Sample>, status: T -> string, labels: T -> seq<Label>)
    requires Union(out, rows, rowOf)
    requires forall r: T :: ReadsStatus(l, rowOf(r), up, info, labels(r), status(r))
    ensures ExposesStatus(l, out, up, info, rows, status, labels)
  {
  }

  // ---------------------------------------------------------------- virtual services

  /** The names differ in length. */
  lemma VsNamesDiffer(vs: VirtualService)
    ensures DistinctNames(VsFields(vs)) && "kemp_virtual_service_up" != "kemp_virtual_service_status"
    ensures forall i :: 0 <= i < 7 ==>
              VsFields(vs)[i].0 != "kemp_virtual_service_up" && VsFields(vs)[i].0 != "kemp_virtual_service_status"
  {
    var f := VsFields(vs);
    assert |f[0].0| == 39 && |f[1].0| == 43 && |f[2].0| == 38 && |f[3].0| == 34 && |f[4].0| == 32;
    assert |f[5].0| == 37 && |f[6].0| == 40;
    assert |"kemp_virtual_service_up"| == 23 && |"kemp_virtual_service_status"| == 27;
  }

  /** The five labels of a virtual service: its name and, where the stats row has none, its protocol come from the
      matching listvs entry. */
  function ServiceLabels(l: Library, system: string, vs: VirtualService, m: Option<VirtualServiceInfo>): seq<Label> {
    [Label("system", l.clean(system)),
     Label("name", l.clean(if m.Some? then m.value.name else "")),
     Label("address", l.clean(vs.address)),
     Label("port", Itoa(vs.port)),
     Label("protocol", l.clean(if vs.protocol != "" then vs.protocol else if m.Some? then m.value.protocol else ""))]
  }

  function ServiceStatus(m: Option<VirtualServiceInfo>): string {
    if m.Some? then m.value.status else ""
  }

  ghost predicate VsRowOk(out: seq<Sample>, labels: seq<Label>, vs: VirtualService) {
    Reads(out, "kemp_virtual_service_active_connections", labels, vs.activeConns)
    && Reads(out, "kemp_virtual_service_connections_per_second", labels, vs.connsPerSec)
    && Reads(out, "kemp_virtual_service_connections_total", labels, vs.totalConns)
    && Reads(out, "kemp_virtual_service_packets_total", labels, vs.totalPkts)
    && Reads(out, "kemp_virtual_service_bytes_total", labels, vs.totalBytes)
    && Reads(out, "kemp_virtual_service_bytes_read_total", labels, vs.bytesRead)
    && Reads(out, "kemp_virtual_service_bytes_written_total", labels, vs.bytesWritten)
  }

  lemma VsRowReads(l: Library, system: string, vs: VirtualService, info: seq<VirtualServiceInfo>)
    ensures var m := LastMatch(info, vs.address, vs.port);
            var out, labels := VsRow(l, system, vs, MetaOf(info, vs.address, vs.port)), ServiceLabels(l, system, vs, m);
            VsRowOk(out, labels, vs)
            && ReadsStatus(l, out, "kemp_virtual_service_up", "kemp_virtual_service_status", labels, ServiceStatus(m))
  {
    var meta := MetaOf(info, vs.address, vs.port);
    var labels := ServiceLabels(l, system, vs, LastMatch(info, vs.address, vs.port));
    assert VsRowLabels(l, system, vs, meta) == labels;
    VsNamesDiffer(vs);
    RowReads(l, labels, VsFields(vs), "kemp_virtual_service_up", "kemp_virtual_service_status", meta.status);
    var out, f := VsRow(l, system, vs, meta), VsFields(vs);
    assert forall i :: 0 <= i < 7 ==> Reads(out, f[i].0, labels, f[i].1);
    assert f[0] == ("kemp_virtual_service_active_connections", vs.activeConns);
    assert f[1] == ("kemp_virtual_service_connections_per_second", vs.connsPerSec);
    assert f[2] == ("kemp_virtual_service_connections_total", vs.totalConns);
    assert f[3] == ("kemp_virtual_service_packets_total", vs.totalPkts);
    assert f[4] == ("kemp_virtual_service_bytes_total", vs.totalBytes);
    assert f[5] == ("kemp_virtual_service_bytes_read_total", vs.bytesRead);
    assert f[6] == ("kemp_virtual_service_bytes_written_total", vs.bytesWritten);
  }

  lemma {:induction false} VsUnion(l: Library, system: string, rows: seq<VirtualService>, info: seq<VirtualServiceInfo>)
    ensures Union(VsSamples(l, system, rows, info), rows,
                  (vs: VirtualService) => VsRow(l, system, vs, MetaOf(info, vs.address, vs.port)))
  {
    if rows != [] {
      VsUnion(l, system, rows[..|rows| - 1], info);
      UnionNext(VsSamples(l, system, rows[..|rows| - 1], info), rows,
                (vs: VirtualService) => VsRow(l, system, vs, MetaOf(info, vs.address, vs.port)));
    }
  }

  /** deriveVirtualServices, metric by metric: each of the seven numbers is exposed under its own name, under the
      five labels of its row joined with the last matching listvs entry, and the status of that entry as an up
      reading and as a word; nothing else has these names. */
  lemma VirtualServicesExpose(l: Library, system: string, rows: seq<VirtualService>, info: seq<VirtualServiceInfo>)
    ensures var out := VsSamples(l, system, rows, info);
            var labels := (vs: VirtualService) => ServiceLabels(l, system, vs, LastMatch(info, vs.address, vs.port));
            Exposes(out, "kemp_virtual_service_active_connections", rows,
                    (vs: VirtualService) => vs.activeConns, labels)
            && Exposes(out, "kemp_virtual_service_connections_per_second", rows,
                       (vs: VirtualService) => vs.connsPerSec, labels)
            && Exposes(out, "kemp_virtual_service_connections_total", rows,
                       (vs: VirtualService) => vs.totalConns, labels)
            && Exposes(out, "kemp_virtual_service_packets_total", rows,
                       (vs: VirtualService) => vs.totalPkts, labels)
            && Exposes(out, "kemp_virtual_service_bytes_total", rows,
                       (vs: VirtualService) => vs.totalBytes, labels)
            && Exposes(out, "kemp_virtual_service_bytes_read_total", rows,
                       (vs: VirtualService) => vs.bytesRead, labels)
            && Exposes(out, "kemp_virtual_service_bytes_written_total", rows,
                       (vs: VirtualService) => vs.bytesWritten, labels)
            && ExposesStatus(l, out, "kemp_virtual_service_up", "kemp_virtual_service_status", rows,
                             (vs: VirtualService) => ServiceStatus(LastMatch(info, vs.address, vs.port)), labels)
  {
    var out := VsSamples(l, system, rows, info);
    var labels := (vs: VirtualService) => ServiceLabels(l, system, vs, LastMatch(info, vs.address, vs.port));
    var rowOf := (vs: VirtualService) => VsRow(l, system, vs, MetaOf(info, vs.address, vs.port));
    var status := (vs: VirtualService) => ServiceStatus(LastMatch(info, vs.address, vs.port));
    VsUnion(l, system, rows, info);
    forall vs: VirtualService
      ensures VsRowOk(rowOf(vs), labels(vs), vs)
      ensures ReadsStatus(l, rowOf(vs), "kemp_virtual_service_up", "kemp_virtual_service_status",
                          labels(vs), status(vs))
    {
      VsRowReads(l, system, vs, info);
    }
    RowsExpose(out, "kemp_virtual_service_active_connections", rows, rowOf,
               (vs: VirtualService) => vs.activeConns, labels);
    RowsExpose(out, "kemp_virtual_service_connections_per_second", rows, rowOf,
               (vs: VirtualService) => vs.connsPerSec, labels);
    RowsExpose(out, "kemp_virtual_service_connections_total", rows, rowOf,
               (vs: VirtualService) => vs.totalConns, labels);
    RowsExpose(out, "kemp_virtual_service_packets_total", rows, rowOf,
               (vs: VirtualService) => vs.totalPkts, labels);
    RowsExpose(out, "kemp_virtual_service_bytes_total", rows, rowOf,
               (vs: VirtualService) => vs.totalBytes, labels);
    RowsExpose(out, "kemp_virtual_service_bytes_read_total", rows, rowOf,
               (vs: VirtualService) => vs.bytesRead, labels);
    RowsExpose(out, "kemp_virtual_service_bytes_written_total", rows, rowOf,
               (vs: VirtualService) => vs.bytesWritten, labels);
    RowsExposeStatus(l, out, "kemp_virtual_service_up", "kemp_virtual_service_status", rows, rowOf, status, labels);
  }

  // ---------------------------------------------------------------- real servers

  lemma RsNamesDiffer(rs: RealServer)
    ensures DistinctNames(RsFields(rs)) && "kemp_real_server_up" != "kemp_real_server_status"
    ensures forall i :: 0 <= i < 7 ==>
              RsFields(rs)[i].0 != "kemp_real_server_up" && RsFields(rs)[i].0 != "kemp_real_server_status"
  {
    var f := RsFields(rs);
    assert |f[0].0| == 35 && |f[1].0| == 39 && |f[2].0| == 34 && |f[3].0| == 30 && |f[4].0| == 28;
    assert |f[5].0| == 33 && |f[6].0| == 36;
    assert |"kemp_real_server_up"| == 19 && |"kemp_real_server_status"| == 23;
  }

  /** The five labels of a real server: its own address and port and those of its virtual service, empty and 0 when
      none is found. */
  function ServerLabels(l: Library, system: string, rs: RealServer, parent: Option<(string, int)>): seq<Label> {
    [Label("system", l.clean(system)),
     Label("address", l.clean(rs.address)),
     Label("port", Itoa(rs.port)),
     Label("vs_address", l.clean(if parent.Some? then parent.value.0 else "")),
     Label("vs_port", Itoa(if parent.Some? then parent.value.1 else 0))]
  }

  ghost predicate RsRowOk(out: seq<Sample>, labels: seq<Label>, rs: RealServer) {
    Reads(out, "kemp_real_server_active_connections", labels, rs.activeConns)
    && Reads(out, "kemp_real_server_connections_per_second", labels, rs.connsPerSec)
    && Reads(out, "kemp_real_server_connections_total", labels, rs.totalConns)
    && Reads(out, "kemp_real_server_packets_total", labels, rs.totalPkts)
    && Reads(out, "kemp_real_server_bytes_total", labels, rs.totalBytes)
    && Reads(out, "kemp_real_server_bytes_read_total", labels, rs.bytesRead)
    && Reads(out, "kemp_real_server_bytes_written_total", labels, rs.bytesWritten)
  }

  lemma RsRowReads(l: Library, system: string, rs: RealServer, parent: Option<(string, int)>)
    ensures var out, labels := RsRow(l, system, rs, ParentOr(parent)), ServerLabels(l, system, rs, parent);
            RsRowOk(out, labels, rs)
            && ReadsStatus(l, out, "kemp_real_server_up", "kemp_real_server_status", labels, rs.status)
  {
    var labels := ServerLabels(l, system, rs, parent);
    assert RsLabels(l, system, rs.address, rs.port, ParentOr(parent).0, ParentOr(parent).1) == labels;
    RsNamesDiffer(rs);
    RowReads(l, labels, RsFields(rs), "kemp_real_server_up", "kemp_real_server_status", rs.status);
    var out, f := RsRow(l, system, rs, ParentOr(parent)), RsFields(rs);
    assert forall i :: 0 <= i < 7 ==> Reads(out, f[i].0, labels, f[i].1);
    assert f[0] == ("kemp_real_server_active_connections", rs.activeConns);
    assert f[1] == ("kemp_real_server_connections_per_second", rs.connsPerSec);
    assert f[2] == ("kemp_real_server_connections_total", rs.totalConns);
    assert f[3] == ("kemp_real_server_packets_total", rs.totalPkts);
    assert f[4] == ("kemp_real_server_bytes_total", rs.totalBytes);
    assert f[5] == ("kemp_real_server_bytes_read_total", rs.bytesRead);
    assert f[6] == ("kemp_real_server_bytes_written_total", rs.bytesWritten);
  }

  lemma {:induction false} RsUnion(l: Library, system: string, servers: seq<RealServer>, stats: seq<VirtualService>,
                                   info: seq<VirtualServiceInfo>)
    ensures Union(RsSamples(l, system, servers, stats, info), servers,
                  (rs: RealServer) => RsRow(l, system, rs, ParentOr(ParentOf(stats, info, rs.vsIndex))))
  {
    if servers != [] {
      RsUnion(l, system, servers[..|servers| - 1], stats, info);
      UnionNext(RsSamples(l, system, servers[..|servers| - 1], stats, info), servers,
                (rs: RealServer) => RsRow(l, system, rs, ParentOr(ParentOf(stats, info, rs.vsIndex))));
    }
  }

  /** deriveRealServers, metric by metric, under the labels of the server and of the virtual service that
      ParentIsFound finds; here the status is the row's own. */
  lemma RealServersExpose(l: Library, system: string, rows: seq<RealServer>, stats: seq<VirtualService>,
                          info: seq<VirtualServiceInfo>)
    ensures var out := RsSamples(l, system, rows, stats, info);
            var labels := (rs: RealServer) => ServerLabels(l, system, rs, ParentOf(stats, info, rs.vsIndex));
            Exposes(out, "kemp_real_server_active_connections", rows,
                    (rs: RealServer) => rs.activeConns, labels)
            && Exposes(out, "kemp_real_server_connections_per_second", rows,
                       (rs: RealServer) => rs.connsPerSec, labels)
            && Exposes(out, "kemp_real_server_connections_total", rows,
                       (rs: RealServer) => rs.totalConns, labels)
            && Exposes(out, "kemp_real_server_packets_total", rows,
                       (rs: RealServer) => rs.totalPkts, labels)
            && Exposes(out, "kemp_real_server_bytes_total", rows,
                       (rs: RealServer) => rs.totalBytes, labels)
            && Exposes(out, "kemp_real_server_bytes_read_total", rows,
                       (rs: RealServer) => rs.bytesRead, labels)
            && Exposes(out, "kemp_real_server_bytes_written_total", rows,
                       (rs: RealServer) => rs.bytesWritten, labels)
            && ExposesStatus(l, out, "kemp_real_server_up", "kemp_real_server_status", rows,
                             (rs: RealServer) => rs.status, labels)
  {
    var out := RsSamples(l, system, rows, stats, info);
    var labels := (rs: RealServer) => ServerLabels(l, system, rs, ParentOf(stats, info, rs.vsIndex));
    var rowOf := (rs: RealServer) => RsRow(l, system, rs, ParentOr(ParentOf(stats, info, rs.vsIndex)));
    var status := (rs: RealServer) => rs.status;
    RsUnion(l, system, rows, stats, info);
    forall rs: RealServer
      ensures RsRowOk(rowOf(rs), labels(rs), rs)
      ensures ReadsStatus(l, rowOf(rs), "kemp_real_server_up", "kemp_real_server_status",
                          labels(rs), status(rs))
    {
      RsRowReads(l, system, rs, ParentOf(stats, info, rs.vsIndex));
    }
    RowsExpose(out, "kemp_real_server_active_connections", rows, rowOf,
               (rs: RealServer) => rs.activeConns, labels);
    RowsExpose(out, "kemp_real_server_connections_per_second", rows, rowOf,
               (rs: RealServer) => rs.connsPerSec, labels);
    RowsExpose(out, "kemp_real_server_connections_total", rows, rowOf,
               (rs: RealServer) => rs.totalConns, labels);
    RowsExpose(out, "kemp_real_server_packets_total", rows, rowOf,
               (rs: RealServer) => rs.totalPkts, labels);
    RowsExpose(out, "kemp_real_server_bytes_total", rows, rowOf,
               (rs: RealServer) => rs.totalBytes, labels);
    RowsExpose(out, "kemp_real_server_bytes_read_total", rows, rowOf,
               (rs: RealServer) => rs.bytesRead, labels);
    RowsExpose(out, "kemp_real_server_bytes_written_total", rows, rowOf,
               (rs: RealServer) => rs.bytesWritten, labels);
    RowsExposeStatus(l, out, "kemp_real_server_up", "kemp_real_server_status", rows, rowOf, status, labels);
  }

  // ---------------------------------------------------------------- which derivation a name comes from

  /** Every sample of `out` has a name whose key sequence is `keys`. */
  ghost predicate Keyed(out: seq<Sample>, keys: seq<string>) {
    forall s: Sample :: s in out ==> KeysOf(s.name) == keys
  }

  /** `out` and `part` agree on the samples of that name. */
  ghost predicate SameNamed(out: seq<Sample>, part: seq<Sample>, name: string) {
    forall s: Sample :: s.name == name ==> (s in out <==> s in part)
  }

  lemma FieldsKeyed(labels: seq<Label>, fields: seq<Field>, keys: seq<string>)
    requires forall i :: 0 <= i < |fields| ==> KeysOf(fields[i].0) == keys
    ensures Keyed(Parsed(labels, fields), keys)
  {
    forall s: Sample | s in Parsed(labels, fields) ensures KeysOf(s.name) == keys {
      ParsedExactly(labels, fields, s);
    }
  }

  /** The key sequences of the families differ. */
  lemma FamilyKeysDiffer()
    ensures SYSTEM_KEYS != CPU_KEYS && SYSTEM_KEYS != INTERFACE_KEYS && CPU_KEYS != INTERFACE_KEYS
    ensures |SYSTEM_KEYS| == 1 && |CPU_KEYS| == 2 && |INTERFACE_KEYS| == 2 && |VS_KEYS| == 5 && |RS_KEYS| == 5
    ensures VS_KEYS != RS_KEYS && VS_KEYS + ["status"] != RS_KEYS + ["status"]
  {
    assert |CPU_KEYS[1]| == 3 && |INTERFACE_KEYS[1]| == 9;
    assert |VS_KEYS[1]| == 4 && |RS_KEYS[1]| == 7;
    assert (VS_KEYS + ["status"])[1] == VS_KEYS[1] && (RS_KEYS + ["status"])[1] == RS_KEYS[1];
  }

  // ---------------------------------------------------------------- appliance-wide metrics

  lemma {:induction false} ParsedConcat(labels: seq<Label>, a: seq<Field>, b: seq<Field>)
    ensures Parsed(labels, a + b) == Parsed(labels, a) + Parsed(labels, b)
  {
    if b == [] {
      assert a + b == a;
    } else {
      var last := |b| - 1;
      assert (a + b)[..|a + b| - 1] == a + b[..last];
      ParsedConcat(labels, a, b[..last]);
    }
  }

  /** The appliance-wide numbers. */
  function SystemFields(st: Statistics): seq<Field> {
    TotalFields(st) + LoadFields(st)
  }

  /** Their names differ in length, and free from used by a letter; none is the up metric. */
  lemma SystemNamesDiffer(st: Statistics)
    ensures |SystemFields(st)| == 8 && DistinctNames(SystemFields(st))
    ensures forall i :: 0 <= i < 8 ==>
              SystemFields(st)[i].0 != "kemp_up" && KeysOf(SystemFields(st)[i].0) == SYSTEM_KEYS
  {
    var f := SystemFields(st);
    SystemNames();
    assert |f[0].0| == 27 && |f[1].0| == 21 && |f[2].0| == 23 && |f[3].0| == 22 && |f[4].0| == 22 && |f[5].0| == 24;
    assert |f[6].0| == 8 && |f[7].0| == 12 && f[3].0[12] == 'f' && f[4].0[12] == 'u' && |"kemp_up"| == 7;
  }

  lemma CpuNamesDiffer(cpu: CPU)
    ensures DistinctNames(CpuFields(cpu)) && forall i :: 0 <= i < 3 ==> KeysOf(CpuFields(cpu)[i].0) == CPU_KEYS
  {
    var f := CpuFields(cpu);
    assert |f[0].0| == 21 && |f[1].0| == 21 && |f[2].0| == 23 && f[0].0[9] == 'i' && f[1].0[9] == 'u';
  }

  lemma NicNamesDiffer(i: Interface)
    ensures DistinctNames(InterfaceFields(i))
    ensures forall k :: 0 <= k < 2 ==> KeysOf(InterfaceFields(i)[k].0) == INTERFACE_KEYS
  {
    assert |InterfaceFields(i)[0].0| == 31 && |InterfaceFields(i)[1].0| == 34;
  }

  /** The one label of an appliance-wide metric. */
  function SystemLabel(l: Library, system: string): seq<Label> {
    [Label("system", l.clean(system))]
  }

  lemma SystemReads(labels: seq<Label>, st: Statistics)
    ensures var out := Parsed(labels, TotalFields(st)) + Parsed(labels, LoadFields(st));
            ReadsAll(out, labels, SystemFields(st)) && Lacks(out, "kemp_up") && Keyed(out, SYSTEM_KEYS)
  {
    SystemNamesDiffer(st);
    ParsedConcat(labels, TotalFields(st), LoadFields(st));
    FieldsRead(labels, SystemFields(st));
    FieldsLack(labels, SystemFields(st), "kemp_up");
    FieldsKeyed(labels, SystemFields(st), SYSTEM_KEYS);
  }

  // ---------------------------------------------------------------- processors and interfaces

  function ProcessorLabels(l: Library, system: string, cpu: CPU): seq<Label> {
    [Label("system", l.clean(system)), Label("cpu", l.clean(cpu.id))]
  }

  function NicLabels(l: Library, system: string, i: Interface): seq<Label> {
    [Label("system", l.clean(system)), Label("interface", l.clean(i.id))]
  }

  lemma {:induction false} CpuUnion(l: Library, system: string, cpus: seq<CPU>)
    ensures Union(CpuSamples(l, system, cpus), cpus,
                  (cpu: CPU) => Parsed(ProcessorLabels(l, system, cpu), CpuFields(cpu)))
    ensures Keyed(CpuSamples(l, system, cpus), CPU_KEYS)
  {
    if cpus != [] {
      var last := cpus[|cpus| - 1];
      CpuUnion(l, system, cpus[..|cpus| - 1]);
      assert CpuLabels(l, system, last.id) == ProcessorLabels(l, system, last);
      UnionNext(CpuSamples(l, system, cpus[..|cpus| - 1]), cpus,
                (cpu: CPU) => Parsed(ProcessorLabels(l, system, cpu), CpuFields(cpu)));
      CpuNamesDiffer(last);
      FieldsKeyed(CpuLabels(l, system, last.id), CpuFields(last), CPU_KEYS);
    }
  }

  lemma {:induction false} NicUnion(l: Library, system: string, ifaces: seq<Interface>)
    ensures Union(InterfaceSamples(l, system, ifaces), ifaces,
                  (i: Interface) => Parsed(NicLabels(l, system, i), InterfaceFields(i)))
    ensures Keyed(InterfaceSamples(l, system, ifaces), INTERFACE_KEYS)
  {
    if ifaces != [] {
      var last := ifaces[|ifaces| - 1];
      NicUnion(l, system, ifaces[..|ifaces| - 1]);
      assert InterfaceLabels(l, system, last.id) == NicLabels(l, system, last);
      UnionNext(InterfaceSamples(l, system, ifaces[..|ifaces| - 1]), ifaces,
                (i: Interface) => Parsed(NicLabels(l, system, i), InterfaceFields(i)));
      NicNamesDiffer(last);
      FieldsKeyed(InterfaceLabels(l, system, last.id), InterfaceFields(last), INTERFACE_KEYS);
    }
  }

  ghost predicate CpusOk(l: Library, system: string, out: seq<Sample>, rows: seq<CPU>) {
    var labels := (cpu: CPU) => ProcessorLabels(l, system, cpu);
    Exposes(out, "kemp_cpu_idle_percent", rows, (cpu: CPU) => cpu.idle, labels)
    && Exposes(out, "kemp_cpu_user_percent", rows, (cpu: CPU) => cpu.user, labels)
    && Exposes(out, "kemp_cpu_system_percent", rows, (cpu: CPU) => cpu.system, labels)
  }

  ghost predicate NicsOk(l: Library, system: string, out: seq<Sample>, rows: seq<Interface>) {
    var labels := (i: Interface) => NicLabels(l, system, i);
    Exposes(out, "kemp_interface_bytes_read_total", rows, (i: Interface) => i.bytesRead, labels)
    && Exposes(out, "kemp_interface_bytes_written_total", rows, (i: Interface) => i.bytesWritten, labels)
  }

  ghost predicate CpuRowOk(out: seq<Sample>, labels: seq<Label>, cpu: CPU) {
    Reads(out, "kemp_cpu_idle_percent", labels, cpu.idle)
    && Reads(out, "kemp_cpu_user_percent", labels, cpu.user)
    && Reads(out, "kemp_cpu_system_percent", labels, cpu.system)
  }

  lemma CpuRowNamed(out: seq<Sample>, labels: seq<Label>, cpu: CPU)
    requires ReadsAll(out, labels, CpuFields(cpu))
    ensures CpuRowOk(out, labels, cpu)
  {
    var f := CpuFields(cpu);
    assert forall i :: 0 <= i < 3 ==> Reads(out, f[i].0, labels, f[i].1);
    assert f[0] == ("kemp_cpu_idle_percent", cpu.idle);
    assert f[1] == ("kemp_cpu_user_percent", cpu.user);
    assert f[2] == ("kemp_cpu_system_percent", cpu.system);
  }

  ghost predicate NicRowOk(out: seq<Sample>, labels: seq<Label>, i: Interface) {
    Reads(out, "kemp_interface_bytes_read_total", labels, i.bytesRead)
    && Reads(out, "kemp_interface_bytes_written_total", labels, i.bytesWritten)
  }

  lemma NicRowNamed(out: seq<Sample>, labels: seq<Label>, i: Interface)
    requires ReadsAll(out, labels, InterfaceFields(i))
    ensures NicRowOk(out, labels, i)
  {
    var f := InterfaceFields(i);
    assert forall k :: 0 <= k < 2 ==> Reads(out, f[k].0, labels, f[k].1);
    assert f[0] == ("kemp_interface_bytes_read_total", i.bytesRead);
    assert f[1] == ("kemp_interface_bytes_written_total", i.bytesWritten);
  }

  lemma CpusExpose(l: Library, system: string, rows: seq<CPU>)
    ensures CpusOk(l, system, CpuSamples(l, system, rows), rows)
  {
    var out := CpuSamples(l, system, rows);
    var labels := (cpu: CPU) => ProcessorLabels(l, system, cpu);
    var rowOf := (cpu: CPU) => Parsed(ProcessorLabels(l, system, cpu), CpuFields(cpu));
    CpuUnion(l, system, rows);
    forall cpu: CPU
      ensures CpuRowOk(rowOf(cpu), labels(cpu), cpu)
    {
      CpuNamesDiffer(cpu);
      FieldsRead(labels(cpu), CpuFields(cpu));
      CpuRowNamed(rowOf(cpu), labels(cpu), cpu);
    }
    RowsExpose(out, "kemp_cpu_idle_percent", rows, rowOf, (cpu: CPU) => cpu.idle, labels);
    RowsExpose(out, "kemp_cpu_user_percent", rows, rowOf, (cpu: CPU) => cpu.user, labels);
    RowsExpose(out, "kemp_cpu_system_percent", rows, rowOf, (cpu: CPU) => cpu.system, labels);
  }

  lemma NicsExpose(l: Library, system: string, rows: seq<Interface>)
    ensures NicsOk(l, system, InterfaceSamples(l, system, rows), rows)
  {
    var out := InterfaceSamples(l, system, rows);
    var labels := (i: Interface) => NicLabels(l, system, i);
    var rowOf := (i: Interface) => Parsed(NicLabels(l, system, i), InterfaceFields(i));
    NicUnion(l, system, rows);
    forall i: Interface
      ensures NicRowOk(rowOf(i), labels(i), i)
    {
      NicNamesDiffer(i);
      FieldsRead(labels(i), InterfaceFields(i));
      NicRowNamed(rowOf(i), labels(i), i);
    }
    RowsExpose(out, "kemp_interface_bytes_read_total", rows, rowOf, (i: Interface) => i.bytesRead, labels);
    RowsExpose(out, "kemp_interface_bytes_written_total", rows, rowOf, (i: Interface) => i.bytesWritten, labels);
  }

  /** What a name's key sequence says about which part of the appliance-wide samples it comes from. */
  lemma HealthParts(l: Library, system: string, st: Statistics, name: string)
    ensures var out, base := HealthSamples(l, system, st), SystemLabel(l, system);
            (KeysOf(name) == SYSTEM_KEYS ==>
               SameNamed(out, Parsed(base, TotalFields(st)) + Parsed(base, LoadFields(st)), name))
            && (KeysOf(name) == CPU_KEYS ==> SameNamed(out, CpuSamples(l, system, st.cpus), name))
            && (KeysOf(name) == INTERFACE_KEYS ==> SameNamed(out, InterfaceSamples(l, system, st.interfaces), name))
            && (|KeysOf(name)| > 2 ==> Lacks(out, name))
  {
    var base := SystemLabel(l, system);
    assert SystemLabels(l, system) == base;
    SystemReads(base, st);
    CpuUnion(l, system, st.cpus);
    NicUnion(l, system, st.interfaces);
    FamilyKeysDiffer();
    forall s: Sample ensures s in HealthSamples(l, system, st) <==>
      s in Parsed(base, TotalFields(st)) + Parsed(base, LoadFields(st)) || s in CpuSamples(l, system, st.cpus)
      || s in InterfaceSamples(l, system, st.interfaces)
    {
    }
  }

  lemma HealthSystem(l: Library, system: string, st: Statistics)
    ensures ReadsAll(HealthSamples(l, system, st), SystemLabel(l, system), SystemFields(st))
    ensures Lacks(HealthSamples(l, system, st), "kemp_up")
  {
    SystemReads(SystemLabel(l, system), st);
    SystemNamesDiffer(st);
    SystemNames();
    HealthParts(l, system, st, "kemp_up");
    forall i | 0 <= i < 8
      ensures Reads(HealthSamples(l, system, st), SystemFields(st)[i].0, SystemLabel(l, system), SystemFields(st)[i].1)
    {
      HealthParts(l, system, st, SystemFields(st)[i].0);
    }
  }

  lemma HealthCpus(l: Library, system: string, st: Statistics)
    ensures CpusOk(l, system, HealthSamples(l, system, st), st.cpus)
  {
    CpusExpose(l, system, st.cpus);
    HealthParts(l, system, st, "kemp_cpu_idle_percent");
    HealthParts(l, system, st, "kemp_cpu_user_percent");
    HealthParts(l, system, st, "kemp_cpu_system_percent");
  }

  lemma HealthNics(l: Library, system: string, st: Statistics)
    ensures NicsOk(l, system, HealthSamples(l, system, st), st.interfaces)
  {
    NicsExpose(l, system, st.interfaces);
    HealthParts(l, system, st, "kemp_interface_bytes_read_total");
    HealthParts(l, system, st, "kemp_interface_bytes_written_total");
  }

  /** deriveHealth, metric by metric: each appliance-wide number under the system label alone, each processor's and
      each interface's under its own row's labels; nothing else has these names. */
  lemma HealthExposes(l: Library, system: string, st: Statistics)
    ensures var out, labels := HealthSamples(l, system, st), SystemLabel(l, system);
            Reads(out, "kemp_connections_per_second", labels, st.connsPerSec)
            && Reads(out, "kemp_bytes_per_second", labels, st.bytesPerSec)
            && Reads(out, "kemp_packets_per_second", labels, st.pktsPerSec)
            && Reads(out, "kemp_memory_free_bytes", labels, st.freeBytes)
            && Reads(out, "kemp_memory_used_bytes", labels, st.usedBytes)
            && Reads(out, "kemp_memory_used_percent", labels, st.usedPercent)
            && Reads(out, "kemp_tps", labels, st.tps) && Reads(out, "kemp_tps_ssl", labels, st.tpsSsl)
    ensures CpusOk(l, system, HealthSamples(l, system, st), st.cpus)
    ensures NicsOk(l, system, HealthSamples(l, system, st), st.interfaces)
  {
    HealthSystem(l, system, st);
    HealthCpus(l, system, st);
    HealthNics(l, system, st);
    var f := SystemFields(st);
    assert forall i :: 0 <= i < 8 ==> Reads(HealthSamples(l, system, st), f[i].0, SystemLabel(l, system), f[i].1);
    assert f[0].0 == "kemp_connections_per_second" && f[1].0 == "kemp_bytes_per_second";
    assert f[2].0 == "kemp_packets_per_second" && f[3].0 == "kemp_memory_free_bytes";
    assert f[4].0 == "kemp_memory_used_bytes" && f[5].0 == "kemp_memory_used_percent";
    assert f[6].0 == "kemp_tps" && f[7].0 == "kemp_tps_ssl";
  }

  // ---------------------------------------------------------------- a whole target

  /** Every sample of `out` has a name of that family, the status word included. */
  ghost predicate InFamily(out: seq<Sample>, keys: seq<string>) {
    forall s: Sample :: s in out ==> KeysOf(s.name) == keys || KeysOf(s.name) == keys + ["status"]
  }

  lemma VsRowFamily(l: Library, system: string, vs: VirtualService, meta: VirtualServiceInfo)
    ensures InFamily(VsRow(l, system, vs, meta), VS_KEYS)
  {
    VsNames();
    FieldsKeyed(VsRowLabels(l, system, vs, meta), VsFields(vs), VS_KEYS);
    VsNamesDiffer(vs);
    StatusReads(l, VsRowLabels(l, system, vs, meta), "kemp_virtual_service_up", "kemp_virtual_service_status",
                meta.status);
    assert KeysOf("kemp_virtual_service_up") == VS_KEYS;
    assert KeysOf("kemp_virtual_service_status") == VS_KEYS + ["status"];
  }

  lemma RsRowFamily(l: Library, system: string, rs: RealServer, parent: (string, int))
    ensures InFamily(RsRow(l, system, rs, parent), RS_KEYS)
  {
    var labels := RsLabels(l, system, rs.address, rs.port, parent.0, parent.1);
    RsNames();
    FieldsKeyed(labels, RsFields(rs), RS_KEYS);
    RsNamesDiffer(rs);
    StatusReads(l, labels, "kemp_real_server_up", "kemp_real_server_status", rs.status);
    assert KeysOf("kemp_real_server_up") == RS_KEYS;
    assert KeysOf("kemp_real_server_status") == RS_KEYS + ["status"];
  }

  lemma {:induction false} VsFamily(l: Library, system: string, rows: seq<VirtualService>,
                                    info: seq<VirtualServiceInfo>)
    ensures InFamily(VsSamples(l, system, rows, info), VS_KEYS)
  {
    if rows != [] {
      var last := rows[|rows| - 1];
      VsFamily(l, system, rows[..|rows| - 1], info);
      VsRowFamily(l, system, last, MetaOf(info, last.address, last.port));
    }
  }

  lemma {:induction false} RsFamily(l: Library, system: string, rows: seq<RealServer>, stats: seq<VirtualService>,
                                    info: seq<VirtualServiceInfo>)
    ensures InFamily(RsSamples(l, system, rows, stats, info), RS_KEYS)
  {
    if rows != [] {
      var last := rows[|rows| - 1];
      RsFamily(l, system, rows[..|rows| - 1], stats, info);
      RsRowFamily(l, system, last, ParentOr(ParentOf(stats, info, last.vsIndex)));
    }
  }

  /** The samples of a target that is up, in the program's order. */
  lemma PartsOfTarget(l: Library, t: Target, st: Statistics, info: seq<VirtualServiceInfo>)
    requires t.stats == Fetched(Some(st)) && info == (if t.listvs.Some? then t.listvs.value else [])
    ensures SystemSamples(l, t) ==
              [Sample("kemp_up", SystemLabel(l, t.name), 1.0)] + HealthSamples(l, t.name, st)
              + VsSamples(l, t.name, st.virtualServices, info)
              + RsSamples(l, t.name, st.realServers, st.virtualServices, info)
  {
    assert SystemLabels(l, t.name) == SystemLabel(l, t.name);
  }

  /** A target without statistics has one sample, and that says down. */
  lemma DownTargetExposes(l: Library, t: Target)
    requires !t.stats.Fetched? || t.stats.st.None?
    ensures SystemSamples(l, t) == [Sample("kemp_up", SystemLabel(l, t.name), 0.0)]
  {
  }

  /** A target with statistics is up, which its one up sample says; any other name has exactly the samples of the one
      derivation the name belongs to. */
  lemma TargetExposes(l: Library, t: Target, st: Statistics, info: seq<VirtualServiceInfo>, name: string)
    requires t.stats == Fetched(Some(st)) && info == (if t.listvs.Some? then t.listvs.value else [])
    ensures Reads(SystemSamples(l, t), "kemp_up", SystemLabel(l, t.name), Num(1.0, true))
    ensures KeysOf(name) == VS_KEYS || KeysOf(name) == VS_KEYS + ["status"] ==>
              SameNamed(SystemSamples(l, t), VsSamples(l, t.name, st.virtualServices, info), name)
    ensures KeysOf(name) == RS_KEYS || KeysOf(name) == RS_KEYS + ["status"] ==>
              SameNamed(SystemSamples(l, t), RsSamples(l, t.name, st.realServers, st.virtualServices, info), name)
    ensures name != "kemp_up" && |KeysOf(name)| < 5 ==>
              SameNamed(SystemSamples(l, t), HealthSamples(l, t.name, st), name)
  {
    PartsOfTarget(l, t, st, info);
    FamilyKeysDiffer();
    SystemNames();
    VsFamily(l, t.name, st.virtualServices, info);
    RsFamily(l, t.name, st.realServers, st.virtualServices, info);
    HealthSystem(l, t.name, st);
    HealthParts(l, t.name, st, name);
  }
}
