/** The per-system checks of Load, after interpolation and secret files have been applied. */
module Config {
  import opened Prelude
  import opened Metrics
  import opened Fingerprint

  datatype LoadError =
    | NameRequired(index: nat)
    | NameNotUtf8(index: nat)
    | NameDuplicate(index: nat, first: nat)
    | HostRequired(index: nat)
    | NeedsCredentials(index: nat)

  ghost predicate NamesDistinct(systems: seq<System>) {
    forall i, j :: 0 <= i < j < |systems| ==> systems[i].name != systems[j].name
  }

  /** What is wrong with system `i`, the checks in the order of the source. */
  ghost predicate Rejects(l: Library, systems: seq<System>, i: nat, e: LoadError)
    requires i < |systems|
  {
    var s := systems[i];
    var named := s.name != "" && l.valid(s.name);
    var unique := forall j :: 0 <= j < i ==> systems[j].name != s.name;
    match e
    case NameRequired(k) => k == i && s.name == ""
    case NameNotUtf8(k) => k == i && s.name != "" && !l.valid(s.name)
    case NameDuplicate(k, first) => k == i && named && first < i && systems[first].name == s.name
    case HostRequired(k) => k == i && named && unique && s.host == ""
    case NeedsCredentials(k) => k == i && named && unique && s.host != "" && s.apiKey == ""
                                && (s.username == "" || s.password == "")
  }

  ghost predicate Usable(l: Library, s: System) {
    s.name != "" && l.valid(s.name) && s.host != "" && (s.apiKey != "" || (s.username != "" && s.password != ""))
  }

  /** What a list that Load accepts is like: every name stands for one system, can be a label as it is, and every
      system can be reached with the credentials of at least one transport. */
  lemma AcceptedMeans(l: Library, systems: seq<System>)
    ensures (NamesDistinct(systems) && forall i :: 0 <= i < |systems| ==> Usable(l, systems[i])) <==>
              (forall i, j :: 0 <= i < |systems| && 0 <= j < |systems| && systems[i].name == systems[j].name ==> i == j)
              && (forall s :: s in systems ==> s.name != "" && l.valid(s.name) && s.host != "")
              && forall s :: s in systems ==> !(s.apiKey == "" && (s.username == "" || s.password == ""))
  {
  }

  /** The loop of Load: it accepts exactly the lists of usable systems with pairwise distinct names, and
      otherwise reports the first offender for its first failed check. */
  method CheckSystems(l: Library, systems: seq<System>) returns (err: Option<LoadError>)
    ensures err.None? <==> NamesDistinct(systems) && forall i :: 0 <= i < |systems| ==> Usable(l, systems[i])
    ensures err.Some? ==>
              err.value.index < |systems| && Rejects(l, systems, err.value.index, err.value)
              && NamesDistinct(systems[..err.value.index])
              && forall j :: 0 <= j < err.value.index ==> Usable(l, systems[j])
  {
    var seenNames: map<string, nat> := map[];
    for i := 0 to |systems|
      invariant forall n :: n in seenNames <==> exists j :: 0 <= j < i && systems[j].name == n
      invariant forall n :: n in seenNames ==> seenNames[n] < i && systems[seenNames[n]].name == n
      invariant forall j, k :: 0 <= j < k < i ==> systems[j].name != systems[k].name
      invariant forall j :: 0 <= j < i ==> Usable(l, systems[j])
    {
      var s := systems[i];
      if s.name == "" {
        return Some(NameRequired(i));
      }
      if !l.valid(s.name) {
        return Some(NameNotUtf8(i));
      }
      if s.name in seenNames {
        return Some(NameDuplicate(i, seenNames[s.name]));
      }
      seenNames := seenNames[s.name := i];
      if s.host == "" {
        return Some(HostRequired(i));
      }
      if s.apiKey == "" && (s.username == "" || s.password == "") {
        return Some(NeedsCredentials(i));
      }
    }
    err := None;
  }
}
