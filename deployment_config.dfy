/**
 * The DeploymentConfig of deployment_config.go: one container running the runner build's output
 * under the service account, with labels promoted from the image's `org.kie/` labels and ports
 * and probes discovered from its `io.openshift.expose-services` label.
 */
module DeploymentConfigs {
  import opened Wrappers
  import opened Kube
  import opened GoStrings
  import Meta

  const DefaultReplicas := 1
  const LabelNamespaceSep := '/'
  const OrgKieNamespaceLabelKey := "org.kie/"
  const LabelExposeServices := "io.openshift.expose-services"
  const DockerLabelServicesSep := ','
  const PortSep := ':'
  const DefaultExportedProtocol := "http"

  /** The probe shared by liveness and readiness, before its TCP port is set. */
  const DefaultProbe := Probe(1, 10, 1, 3, None)

  // ---- dependencies ----

  /** checkDeploymentDependencies: the runner build is checked first, then the service account. */
  function CheckDeploymentDependencies(bc: Option<BuildConfig>, sa: Option<ServiceAccount>): (err: Option<Error>)
    ensures err.None? <==> bc.Some? && sa.Some?
    ensures bc.None? ==> err == Some(MissingRunnerBuild)
    ensures bc.Some? && sa.None? ==> err == Some(MissingServiceAccount)
  {
    if bc.None? then Some(MissingRunnerBuild)
    else if sa.None? then Some(MissingServiceAccount)
    else None
  }

  // ---- image labels ----

  /** dockerImageHasLabels: the image, its config and its label map are all present. */
  predicate DockerImageHasLabels(image: Option<DockerImage>) {
    image.Some? && image.value.config.Some? && image.value.config.value.labels.Some?
  }

  /** The image's labels, empty when the image has none. */
  function ImageLabels(image: Option<DockerImage>): StrMap {
    if DockerImageHasLabels(image) then image.value.config.value.labels.value else map[]
  }

  // ---- label promotion ----

  /** A label key that is promoted: one containing `org.kie/` anywhere. */
  predicate IsKieKey(key: string) {
    Contains(key, OrgKieNamespaceLabelKey)
  }

  /** The key a promoted label gets: the last `/`-separated segment of the image label's key. */
  function ImportedKey(key: string): (k: string)
    ensures LabelNamespaceSep !in k
  {
    var parts := Split(key, LabelNamespaceSep);
    parts[|parts| - 1]
  }

  /**
   * A promoted key always holds `/` (the one ending `org.kie/`), so the key it is imported under is
   * its last segment proper, strictly shorter than the image label's key.
   */
  lemma KieKeyImportsLastSegment(key: string)
    requires IsKieKey(key)
    ensures LabelNamespaceSep in key
    ensures |ImportedKey(key)| < |key|
  {
    ContainsAt(key, OrgKieNamespaceLabelKey);
    var i :| 0 <= i <= |key| && HasPrefix(key[i..], OrgKieNamespaceLabelKey);
    assert key[i..][..|OrgKieNamespaceLabelKey|][7] == LabelNamespaceSep;
    assert key[i + 7] == LabelNamespaceSep;
    SplitHasSecondPart(key, LabelNamespaceSep);
    JoinSplit(key, LabelNamespaceSep);
    JoinLongerThanLast(Split(key, LabelNamespaceSep), LabelNamespaceSep);
  }

  /** The keys promoted from the image labels among `keys`. */
  ghost function ImportedKeys(labels: StrMap, keys: set<string>): set<string> {
    set k | k in keys && k in labels && IsKieKey(k) :: ImportedKey(k)
  }

  /**
   * `after` is `before` with the labels among `done` promoted in some order: it gains exactly the
   * imported keys, keeps every other entry, and each imported key holds the value of an image
   * label that imports it.
   */
  ghost predicate PromotedFrom(before: StrMap, labels: StrMap, done: set<string>, after: StrMap) {
    && (forall k :: k in after <==> k in before || k in ImportedKeys(labels, done))
    && (forall k :: k in before && k !in ImportedKeys(labels, done) ==> after[k] == before[k])
    && (forall s :: s in ImportedKeys(labels, done) ==>
          exists key :: key in done && key in labels && IsKieKey(key) && ImportedKey(key) == s && after[s] == labels[key])
  }

  /** All image labels promoted, in whatever order Go's map iteration visits them. */
  ghost predicate Promoted(before: StrMap, labels: StrMap, after: StrMap) {
    PromotedFrom(before, labels, labels.Keys, after)
  }

  /** The image has a label that would be promoted. */
  ghost predicate HasKieLabel(image: Option<DockerImage>) {
    exists key :: key in ImageLabels(image) && IsKieKey(key)
  }

  /**
   * The three label maps of `after` are those of `before` with the image labels promoted, the
   * same value written under each imported key in all three, and nothing else changed.
   */
  ghost predicate LabelsPromoted(before: DeploymentConfig, labels: StrMap, after: DeploymentConfig) {
    && after == before.(meta := before.meta.(labels := after.meta.labels),
                        selector := after.selector,
                        template := before.template.(meta := before.template.meta.(labels := after.template.meta.labels)))
    && Promoted(MapOf(before.meta.labels), labels, MapOf(after.meta.labels))
    && Promoted(MapOf(before.selector), labels, MapOf(after.selector))
    && Promoted(MapOf(before.template.meta.labels), labels, MapOf(after.template.meta.labels))
    && (forall s :: s in ImportedKeys(labels, labels.Keys) ==>
          MapOf(after.selector)[s] == MapOf(after.meta.labels)[s] && MapOf(after.template.meta.labels)[s] == MapOf(after.meta.labels)[s])
  }

  /** Which keys one more image label adds to the imported set. */
  lemma ImportedKeysStep(labels: StrMap, done: set<string>, key: string)
    requires key in labels
    ensures IsKieKey(key) ==> ImportedKeys(labels, done + {key}) == ImportedKeys(labels, done) + {ImportedKey(key)}
    ensures !IsKieKey(key) ==> ImportedKeys(labels, done + {key}) == ImportedKeys(labels, done)
  {
    if IsKieKey(key) {
      assert ImportedKeys(labels, done + {key}) == ImportedKeys(labels, done) + {ImportedKey(key)};
    } else {
      assert ImportedKeys(labels, done + {key}) == ImportedKeys(labels, done);
    }
  }

  /** Promoting one more `org.kie/` label keeps PromotedFrom. */
  lemma PromoteKieStep(before: StrMap, labels: StrMap, done: set<string>, after: StrMap, key: string)
    requires key in labels && key !in done && IsKieKey(key)
    requires PromotedFrom(before, labels, done, after)
    ensures PromotedFrom(before, labels, done + {key}, after[ImportedKey(key) := labels[key]])
  {
    var done' := done + {key};
    ImportedKeysStep(labels, done, key);
    var s := ImportedKey(key);
    var after' := after[s := labels[key]];
    forall t | t in ImportedKeys(labels, done')
      ensures exists k :: k in done' && k in labels && IsKieKey(k) && ImportedKey(k) == t && after'[t] == labels[k]
    {
      if t == s {
        assert key in done' && after'[t] == labels[key];
      } else {
        var k :| k in done && k in labels && IsKieKey(k) && ImportedKey(k) == t && after[t] == labels[k];
        assert k in done' && after'[t] == labels[k];
      }
    }
  }

  /** Passing over a label without `org.kie/` keeps PromotedFrom. */
  lemma PromotePlainStep(before: StrMap, labels: StrMap, done: set<string>, after: StrMap, key: string)
    requires key in labels && key !in done && !IsKieKey(key)
    requires PromotedFrom(before, labels, done, after)
    ensures PromotedFrom(before, labels, done + {key}, after)
  {
    var done' := done + {key};
    ImportedKeysStep(labels, done, key);
    forall t | t in ImportedKeys(labels, done')
      ensures exists k :: k in done' && k in labels && IsKieKey(k) && ImportedKey(k) == t && after[t] == labels[k]
    {
      var k :| k in done && k in labels && IsKieKey(k) && ImportedKey(k) == t && after[t] == labels[k];
      assert k in done';
    }
  }

  /** The state the promotion loop keeps after promoting the image labels among `done`. */
  ghost predicate PromotionState(dc: DeploymentConfig, labels: StrMap, done: set<string>, cur: DeploymentConfig) {
    && cur == dc.(meta := dc.meta.(labels := cur.meta.labels),
                  selector := cur.selector,
                  template := dc.template.(meta := dc.template.meta.(labels := cur.template.meta.labels)))
    && (dc.meta.labels.Some? ==> cur.meta.labels.Some?)
    && (dc.selector.Some? ==> cur.selector.Some?)
    && (dc.template.meta.labels.Some? ==> cur.template.meta.labels.Some?)
    && PromotedFrom(MapOf(dc.meta.labels), labels, done, MapOf(cur.meta.labels))
    && PromotedFrom(MapOf(dc.selector), labels, done, MapOf(cur.selector))
    && PromotedFrom(MapOf(dc.template.meta.labels), labels, done, MapOf(cur.template.meta.labels))
    && (forall s :: s in ImportedKeys(labels, done) ==>
          MapOf(cur.selector)[s] == MapOf(cur.meta.labels)[s] && MapOf(cur.template.meta.labels)[s] == MapOf(cur.meta.labels)[s])
  }

  /** One image label written into the three maps. */
  function PromoteInto(cur: DeploymentConfig, importedKey: string, value: string): DeploymentConfig
    requires cur.meta.labels.Some? && cur.selector.Some? && cur.template.meta.labels.Some?
  {
    cur.(meta := cur.meta.(labels := Some(cur.meta.labels.value[importedKey := value])),
         selector := Some(cur.selector.value[importedKey := value]),
         template := cur.template.(meta := cur.template.meta.(labels := Some(cur.template.meta.labels.value[importedKey := value]))))
  }

  /** Writing a promotable label into the three maps keeps the loop state. */
  lemma PromotionStateKieStep(dc: DeploymentConfig, labels: StrMap, done: set<string>, cur: DeploymentConfig, key: string)
    requires key in labels && key !in done && IsKieKey(key)
    requires PromotionState(dc, labels, done, cur)
    requires cur.meta.labels.Some? && cur.selector.Some? && cur.template.meta.labels.Some?
    ensures PromotionState(dc, labels, done + {key}, PromoteInto(cur, ImportedKey(key), labels[key]))
  {
    var s, v := ImportedKey(key), labels[key];
    var next := PromoteInto(cur, s, v);
    assert MapOf(next.meta.labels) == MapOf(cur.meta.labels)[s := v];
    assert MapOf(next.selector) == MapOf(cur.selector)[s := v];
    assert MapOf(next.template.meta.labels) == MapOf(cur.template.meta.labels)[s := v];
    PromoteKieStep(MapOf(dc.meta.labels), labels, done, MapOf(cur.meta.labels), key);
    PromoteKieStep(MapOf(dc.selector), labels, done, MapOf(cur.selector), key);
    PromoteKieStep(MapOf(dc.template.meta.labels), labels, done, MapOf(cur.template.meta.labels), key);
    ImportedKeysStep(labels, done, key);
    forall t | t in ImportedKeys(labels, done + {key})
      ensures MapOf(next.selector)[t] == MapOf(next.meta.labels)[t]
      ensures MapOf(next.template.meta.labels)[t] == MapOf(next.meta.labels)[t]
    {
      if t != s {
        assert t in ImportedKeys(labels, done);
      }
    }
  }

  /** Skipping a label that is not promotable keeps the loop state. */
  lemma PromotionStatePlainStep(dc: DeploymentConfig, labels: StrMap, done: set<string>, cur: DeploymentConfig, key: string)
    requires key in labels && key !in done && !IsKieKey(key)
    requires PromotionState(dc, labels, done, cur)
    ensures PromotionState(dc, labels, done + {key}, cur)
  {
    PromotePlainStep(MapOf(dc.meta.labels), labels, done, MapOf(cur.meta.labels), key);
    PromotePlainStep(MapOf(dc.selector), labels, done, MapOf(cur.selector), key);
    PromotePlainStep(MapOf(dc.template.meta.labels), labels, done, MapOf(cur.template.meta.labels), key);
    ImportedKeysStep(labels, done, key);
  }

  /**
   * addLabelsFromDockerImage: without image labels nothing changes; otherwise every label whose
   * key contains `org.kie/` is written, under the last segment of its key, into the DC labels,
   * the selector and the template labels.
   */
  method AddLabelsFromDockerImage(dc: DeploymentConfig, image: Option<DockerImage>) returns (dc': DeploymentConfig)
    requires HasKieLabel(image) ==> dc.meta.labels.Some? && dc.selector.Some? && dc.template.meta.labels.Some?
    ensures !DockerImageHasLabels(image) ==> dc' == dc
    ensures LabelsPromoted(dc, ImageLabels(image), dc')
  {
    dc' := dc;
    if !DockerImageHasLabels(image) {
      assert ImportedKeys(map[], {}) == {};
      return;
    }
    var labels := image.value.config.value.labels.value;
    var pending := labels.Keys;
    assert ImportedKeys(labels, {}) == {};
    assert labels.Keys - pending == {};
    while pending != {}
      invariant pending <= labels.Keys
      invariant PromotionState(dc, labels, labels.Keys - pending, dc')
      decreases pending
    {
      var key :| key in pending;
      ghost var done := labels.Keys - pending;
      if IsKieKey(key) {
        assert HasKieLabel(image) by { assert key in ImageLabels(image); }
        PromotionStateKieStep(dc, labels, done, dc', key);
        var importedKey := ImportedKey(key);
        var value := labels[key];
        dc' := dc'.(meta := dc'.meta.(labels := Some(dc'.meta.labels.value[importedKey := value])));
        dc' := dc'.(selector := Some(dc'.selector.value[importedKey := value]));
        dc' := dc'.(template := dc'.template.(meta := dc'.template.meta.(labels :=
                 Some(dc'.template.meta.labels.value[importedKey := value]))));
      } else {
        PromotionStatePlainStep(dc, labels, done, dc', key);
      }
      pending := pending - {key};
      assert labels.Keys - pending == done + {key};
    }
    assert labels.Keys - pending == labels.Keys;
  }

  /** When no two promoted labels share a last segment, each one's value is what ends up under it. */
  lemma PromotionOfDistinctKeys(before: StrMap, labels: StrMap, after: StrMap, key: string)
    requires Promoted(before, labels, after)
    requires forall k1, k2 ::
      (k1 in labels && k2 in labels && IsKieKey(k1) && IsKieKey(k2) && ImportedKey(k1) == ImportedKey(k2)) ==> k1 == k2
    requires key in labels && IsKieKey(key)
    ensures ImportedKey(key) in after && after[ImportedKey(key)] == labels[key]
  {
    assert ImportedKey(key) in ImportedKeys(labels, labels.Keys);
  }

  /** Without promotable labels the three maps keep exactly their entries. */
  lemma NoKieLabelsNoChange(before: StrMap, labels: StrMap, after: StrMap)
    requires Promoted(before, labels, after)
    requires forall k :: k in labels ==> !IsKieKey(k)
    ensures after == before
  {
    assert ImportedKeys(labels, labels.Keys) == {};
  }

  // ---- port and probe discovery ----

  /** An entry whose port part is numeric must have a name part (the source indexes it unchecked). */
  predicate WellFormedEntry(entry: string) {
    ParseDecimal(Split(entry, PortSep)[0]).Some? ==> PortSep in entry
  }

  /** The container port an entry `N:name` yields; none when `N` is not a number. */
  function EntryPort(entry: string): (p: Option<ContainerPort>)
    requires WellFormedEntry(entry)
    ensures p.Some? ==> p.value.protocol == ProtocolTCP && p.value.containerPort >= 0
  {
    var parts := Split(entry, PortSep);
    var portNumber := ParseDecimal(parts[0]);
    if portNumber.None? then None
    else
      SplitHasSecondPart(entry, PortSep);
      Some(ContainerPort(parts[1], portNumber.value, ProtocolTCP))
  }

  /**
   * Every entry `N:name` whose head `N` is a non-empty string of digits (leading zeros allowed, as
   * `strconv.Atoi` allows them), with the name running up to the next `:` or the end, is well formed
   * and yields the TCP port numbered by the value of `N` and called `name`.
   */
  lemma EntryPortOf(head: string, name: string, tail: string)
    requires ParseDecimal(head).Some?
    requires PortSep !in name
    requires tail == [] || tail[0] == PortSep
    ensures WellFormedEntry(head + [PortSep] + name + tail)
    ensures EntryPort(head + [PortSep] + name + tail) == Some(ContainerPort(name, ParseDecimal(head).value, ProtocolTCP))
  {
    var entry := head + [PortSep] + name + tail;
    DigitsHaveNoSep(head);
    assert entry == head + ([PortSep] + name + tail);
    SplitFirstPart(head, [PortSep] + name + tail, PortSep);
    assert entry[|head|] == PortSep && entry[..|head|] == head;
    SplitAtFirst(entry, PortSep, |head|);
    assert entry[|head| + 1..] == name + tail;
    SplitFirstPart(name, tail, PortSep);
    assert Split(entry, PortSep)[0] == head;
    assert Split(entry, PortSep)[1] == name;
  }

  /** A numeral holds no `:`. */
  lemma DigitsHaveNoSep(head: string)
    requires AllDigits(head)
    ensures PortSep !in head
  {
    assert forall i :: 0 <= i < |head| ==> head[i] != PortSep;
  }

  /** The canonical case: the decimal numeral of `n` followed by `:name` yields port `n` called `name`. */
  lemma EntryPortOfDecimal(n: nat, name: string, tail: string)
    requires PortSep !in name
    requires tail == [] || tail[0] == PortSep
    ensures WellFormedEntry(DecimalString(n) + [PortSep] + name + tail)
    ensures EntryPort(DecimalString(n) + [PortSep] + name + tail) == Some(ContainerPort(name, n, ProtocolTCP))
  {
    ParseDecimalString(n);
    EntryPortOf(DecimalString(n), name, tail);
  }

  /** An entry whose part before the first `:` is empty or not all digits is skipped. */
  lemma EntryPortSkipped(head: string, tail: string)
    requires PortSep !in head
    requires tail == [] || tail[0] == PortSep
    requires |head| == 0 || !AllDigits(head)
    ensures WellFormedEntry(head + tail)
    ensures EntryPort(head + tail) == None
  {
    SplitFirstPart(head, tail, PortSep);
  }

  predicate WellFormedEntries(entries: seq<string>) {
    forall i :: 0 <= i < |entries| ==> WellFormedEntry(entries[i])
  }

  /** The ports of the entries that parse, in entry order. */
  function ParsedPorts(entries: seq<string>): (ports: seq<ContainerPort>)
    requires WellFormedEntries(entries)
    ensures |ports| <= |entries|
    ensures forall i :: 0 <= i < |ports| ==> ports[i].protocol == ProtocolTCP
  {
    if entries == [] then []
    else
      var port := EntryPort(entries[|entries| - 1]);
      ParsedPorts(entries[..|entries| - 1]) + (if port.Some? then [port.value] else [])
  }

  /** The port number of the last parsed entry named `http`, if any. */
  function HttpPort(entries: seq<string>): Option<int>
    requires WellFormedEntries(entries)
  {
    if entries == [] then None
    else
      var port := EntryPort(entries[|entries| - 1]);
      if port.Some? && port.value.name == DefaultExportedProtocol then Some(port.value.containerPort)
      else HttpPort(entries[..|entries| - 1])
  }

  /** The shared probe, pointed at the http port. */
  function ProbeAt(httpPort: Option<int>): (probe: Option<Probe>)
    ensures probe.Some? <==> httpPort.Some?
    ensures probe.Some? ==> probe.value == DefaultProbe.(tcpSocketPort := Some(IntValue(httpPort.value)))
  {
    if httpPort.Some? then Some(DefaultProbe.(tcpSocketPort := Some(IntValue(httpPort.value)))) else None
  }

  /** Entries are handled independently: a skipped entry does not stop the ones after it. */
  lemma {:induction false} ParsedPortsAppend(a: seq<string>, b: seq<string>)
    requires WellFormedEntries(a) && WellFormedEntries(b)
    ensures WellFormedEntries(a + b)
    ensures ParsedPorts(a + b) == ParsedPorts(a) + ParsedPorts(b)
    decreases |b|
  {
    assert WellFormedEntries(a + b) by {
      forall i | 0 <= i < |a + b| ensures WellFormedEntry((a + b)[i]) {
        if i >= |a| { assert (a + b)[i] == b[i - |a|]; }
      }
    }
    if b != [] {
      var b' := b[..|b| - 1];
      assert (a + b)[..|a + b| - 1] == a + b';
      assert (a + b)[|a + b| - 1] == b[|b| - 1];
      ParsedPortsAppend(a, b');
    } else {
      assert a + b == a;
    }
  }

  /** An entry that parses to a port named `http`. */
  predicate IsHttpEntry(entry: string)
    requires WellFormedEntry(entry)
  {
    EntryPort(entry).Some? && EntryPort(entry).value.name == DefaultExportedProtocol
  }

  /** Entry `i` is an http entry and no later one is. */
  predicate LastHttpAt(entries: seq<string>, i: int)
    requires WellFormedEntries(entries)
  {
    && 0 <= i < |entries|
    && IsHttpEntry(entries[i])
    && forall j :: i < j < |entries| ==> !IsHttpEntry(entries[j])
  }

  /** A found http port is the port of the last http entry. */
  lemma {:induction false} HttpPortSound(entries: seq<string>)
    requires WellFormedEntries(entries)
    ensures HttpPort(entries).Some? ==>
      exists i :: LastHttpAt(entries, i) && EntryPort(entries[i]).value.containerPort == HttpPort(entries).value
    decreases |entries|
  {
    if entries != [] && HttpPort(entries).Some? {
      var last := |entries| - 1;
      var prefix := entries[..last];
      if IsHttpEntry(entries[last]) {
        assert LastHttpAt(entries, last);
      } else {
        HttpPortSound(prefix);
        var i :| LastHttpAt(prefix, i) && EntryPort(prefix[i]).value.containerPort == HttpPort(prefix).value;
        assert entries[i] == prefix[i];
        forall j | i < j < |entries| ensures !IsHttpEntry(entries[j]) {
          if j < last { assert entries[j] == prefix[j]; }
        }
        assert LastHttpAt(entries, i);
      }
    }
  }

  /** The last http entry's port is the one found. */
  lemma {:induction false} HttpPortComplete(entries: seq<string>, i: int)
    requires WellFormedEntries(entries)
    requires LastHttpAt(entries, i)
    ensures HttpPort(entries) == Some(EntryPort(entries[i]).value.containerPort)
    decreases |entries|
  {
    var last := |entries| - 1;
    if i < last {
      var prefix := entries[..last];
      assert prefix[i] == entries[i];
      forall j | i < j < |prefix| ensures !IsHttpEntry(prefix[j]) {
        assert prefix[j] == entries[j];
      }
      HttpPortComplete(prefix, i);
    }
  }

  /** No http port is found exactly when no entry is an http entry. */
  lemma {:induction false} HttpPortNone(entries: seq<string>)
    requires WellFormedEntries(entries)
    ensures HttpPort(entries).None? <==> forall i :: 0 <= i < |entries| ==> !IsHttpEntry(entries[i])
    decreases |entries|
  {
    if entries != [] {
      var prefix := entries[..|entries| - 1];
      HttpPortNone(prefix);
      assert forall i :: 0 <= i < |prefix| ==> prefix[i] == entries[i];
    }
  }

  /** A probe port is always one of the parsed ports, so a probe never comes without ports. */
  lemma {:induction false} HttpPortIsParsed(entries: seq<string>)
    requires WellFormedEntries(entries)
    ensures HttpPort(entries).Some? ==>
      ContainerPort(DefaultExportedProtocol, HttpPort(entries).value, ProtocolTCP) in ParsedPorts(entries)
    decreases |entries|
  {
    if entries != [] {
      HttpPortIsParsed(entries[..|entries| - 1]);
    }
  }

  /** A single entry gives its own port, if any, and is the http port when it is an http entry. */
  lemma OneEntry(e: string)
    requires WellFormedEntry(e)
    ensures WellFormedEntries([e])
    ensures ParsedPorts([e]) == if EntryPort(e).Some? then [EntryPort(e).value] else []
    ensures HttpPort([e]) == if IsHttpEntry(e) then Some(EntryPort(e).value.containerPort) else None
  {
    assert [e][..0] == [];
  }

  /** Two entries give their ports in order, and the later http entry wins the probe. */
  lemma TwoEntries(e1: string, e2: string)
    requires WellFormedEntry(e1) && WellFormedEntry(e2)
    ensures WellFormedEntries([e1, e2])
    ensures ParsedPorts([e1, e2]) == ParsedPorts([e1]) + ParsedPorts([e2])
    ensures HttpPort([e1, e2]) == if IsHttpEntry(e2) then HttpPort([e2]) else HttpPort([e1])
  {
    var entries := [e1, e2];
    assert entries[..1] == [e1];
    assert [e1][..0] == [];
    assert [e2][..0] == [];
  }

  /** Reading one more entry extends the ports and the http port as the last entry dictates. */
  lemma EntriesStep(entries: seq<string>, i: int)
    requires WellFormedEntries(entries) && 0 <= i < |entries|
    ensures WellFormedEntries(entries[..i]) && WellFormedEntries(entries[..i + 1])
    ensures ParsedPorts(entries[..i + 1]) ==
      ParsedPorts(entries[..i]) + (if EntryPort(entries[i]).Some? then [EntryPort(entries[i]).value] else [])
    ensures HttpPort(entries[..i + 1]) ==
      if IsHttpEntry(entries[i]) then Some(EntryPort(entries[i]).value.containerPort) else HttpPort(entries[..i])
  {
    assert entries[..i + 1][..i] == entries[..i];
    assert entries[..i + 1][i] == entries[i];
  }

  /** The entries of the image's expose-services label, none when the label is absent. */
  function ExposeEntries(image: Option<DockerImage>): seq<string> {
    var labels := ImageLabels(image);
    if LabelExposeServices in labels then Split(labels[LabelExposeServices], DockerLabelServicesSep) else []
  }

  predicate WellFormedExposeLabel(image: Option<DockerImage>) {
    WellFormedEntries(ExposeEntries(image))
  }

  /** The container ports the image advertises. */
  function DiscoveredPorts(image: Option<DockerImage>): seq<ContainerPort>
    requires WellFormedExposeLabel(image)
  {
    ParsedPorts(ExposeEntries(image))
  }

  /** The probe the image's http port gives, if it has one. */
  function DiscoveredProbe(image: Option<DockerImage>): Option<Probe>
    requires WellFormedExposeLabel(image)
  {
    ProbeAt(HttpPort(ExposeEntries(image)))
  }

  /** The first container with its ports, and probes when an http port was found. */
  function WithPorts(dc: DeploymentConfig, ports: seq<ContainerPort>, probe: Option<Probe>): DeploymentConfig
    requires |dc.template.spec.containers| > 0
  {
    var c := dc.template.spec.containers[0];
    var c' := if probe.Some?
      then c.(ports := ports, livenessProbe := probe, readinessProbe := probe)
      else c.(ports := ports);
    dc.(template := dc.template.(spec := dc.template.spec.(containers := dc.template.spec.containers[0 := c'])))
  }

  /**
   * discoverPortsAndProbesFromImage: each entry `N:name` of the expose-services label with a
   * numeric `N` becomes a TCP port, in order, others are skipped; the last `http` entry gives the
   * shared liveness and readiness probe. Without any port the container is left as it was.
   */
  method DiscoverPortsAndProbesFromImage(dc: DeploymentConfig, image: Option<DockerImage>) returns (dc': DeploymentConfig)
    requires WellFormedExposeLabel(image)
    requires DiscoveredPorts(image) != [] ==> |dc.template.spec.containers| > 0
    ensures DiscoveredPorts(image) == [] ==> dc' == dc
    ensures DiscoveredPorts(image) != [] ==> dc' == WithPorts(dc, DiscoveredPorts(image), DiscoveredProbe(image))
  {
    if !DockerImageHasLabels(image) {
      return dc;
    }
    var labels := image.value.config.value.labels.value;
    var containerPorts: seq<ContainerPort> := [];
    var nonSecureProbe: Option<Probe> := None;
    if LabelExposeServices in labels {
      var services := Split(labels[LabelExposeServices], DockerLabelServicesSep);
      var i := 0;
      while i < |services|
        invariant 0 <= i <= |services|
        invariant WellFormedEntries(services[..i])
        invariant containerPorts == ParsedPorts(services[..i])
        invariant nonSecureProbe == ProbeAt(HttpPort(services[..i]))
      {
        var service := services[i];
        EntriesStep(services, i);
        var ports := Split(service, PortSep);
        var portNumber := ParseDecimal(ports[0]);
        if portNumber.None? {
          // the source logs a warning and continues
          i := i + 1;
          continue;
        }
        SplitHasSecondPart(service, PortSep);
        var portName := ports[1];
        assert EntryPort(service) == Some(ContainerPort(portName, portNumber.value, ProtocolTCP));
        containerPorts := containerPorts + [ContainerPort(portName, portNumber.value, ProtocolTCP)];
        if portName == DefaultExportedProtocol {
          nonSecureProbe := Some(DefaultProbe.(tcpSocketPort := Some(IntValue(portNumber.value))));
        }
        i := i + 1;
      }
      assert services[..i] == services;
    }
    if |containerPorts| != 0 {
      var c := dc.template.spec.containers[0].(ports := containerPorts);
      if nonSecureProbe.Some? {
        c := c.(livenessProbe := nonSecureProbe, readinessProbe := nonSecureProbe);
      }
      dc' := dc.(template := dc.template.(spec := dc.template.spec.(containers := dc.template.spec.containers[0 := c])));
    } else {
      dc' := dc;
    }
  }

  // ---- replicas ----

  /** setReplicas: the spec's replica count when it is set, 1 otherwise. */
  method SetReplicas(app: KogitoApp, dc: DeploymentConfig) returns (dc': DeploymentConfig)
    ensures app.spec.replicas.Some? ==> dc' == dc.(replicas := app.spec.replicas.value)
    ensures app.spec.replicas.None? ==> dc' == dc.(replicas := 1)
  {
    var replicas := DefaultReplicas;
    if app.spec.replicas.Some? {
      replicas := app.spec.replicas.value;
    }
    dc' := dc.(replicas := replicas);
  }

  // ---- the deployment ----

  /**
   * What New builds: one container running the runner build's output under the service account,
   * rolling strategy, config- and image-change triggers, the replica count, the default metadata on
   * the DC and its pod template, the app selector, the image's promoted labels in all three label
   * maps, and the discovered ports and probes.
   */
  ghost predicate IsDeploymentFor(app: KogitoApp, runner: BuildConfig, sa: ServiceAccount, image: Option<DockerImage>, dc: DeploymentConfig)
    requires runner.outputTo.Some? && WellFormedExposeLabel(image)
  {
    PodAndTriggersFor(app, runner, sa, image, dc) && MetadataFor(app, image, dc)
  }

  /** The workload part of IsDeploymentFor: container, strategy, triggers and replicas. */
  ghost predicate PodAndTriggersFor(app: KogitoApp, runner: BuildConfig, sa: ServiceAccount, image: Option<DockerImage>, dc: DeploymentConfig)
    requires runner.outputTo.Some? && WellFormedExposeLabel(image)
  {
    var output := runner.outputTo.value;
    var container := Container(app.spec.name, app.spec.env, app.spec.resources, output.name, PullAlways,
                               DiscoveredPorts(image), DiscoveredProbe(image), DiscoveredProbe(image));
    && dc.kind == DeploymentConfigKind
    && dc.strategy == StrategyRolling
    && dc.template.spec == PodSpec([container], sa.meta.name)
    && dc.triggers == [ConfigChangeTrigger, ImageChangeTrigger(true, [app.spec.name], output)]
    && dc.replicas == (if app.spec.replicas.Some? then app.spec.replicas.value else DefaultReplicas)
  }

  /** The metadata part of IsDeploymentFor: the stamps, the app selector and the promoted labels. */
  ghost predicate MetadataFor(app: KogitoApp, image: Option<DockerImage>, dc: DeploymentConfig) {
    var labels := ImageLabels(image);
    var meta := Meta.StampMeta(NewMeta(app.spec.name, app.namespace), app.spec.name);
    var templateMeta := Meta.StampMeta(NewMeta("", ""), app.spec.name);
    && dc.meta == meta.(labels := dc.meta.labels)
    && dc.template.meta == templateMeta.(labels := dc.template.meta.labels)
    && dc.meta.labels.Some? && dc.selector.Some? && dc.template.meta.labels.Some?
    && Promoted(meta.labels.value, labels, dc.meta.labels.value)
    && Promoted(templateMeta.labels.value, labels, dc.template.meta.labels.value)
    && Promoted(map[Meta.LabelAppName := app.spec.name], labels, dc.selector.value)
    && (forall s :: s in ImportedKeys(labels, labels.Keys) ==>
          dc.selector.value[s] == dc.meta.labels.value[s] && dc.template.meta.labels.value[s] == dc.meta.labels.value[s])
  }

  /** The DC once built and stamped, before the image is consulted. */
  ghost function Stamped(app: KogitoApp, output: ObjectReference, serviceAccountName: string): DeploymentConfig {
    DeploymentConfig(
      DeploymentConfigKind,
      Meta.StampMeta(NewMeta(app.spec.name, app.namespace), app.spec.name),
      StrategyRolling,
      PodTemplateSpec(Meta.StampMeta(NewMeta("", ""), app.spec.name),
        PodSpec([Container(app.spec.name, app.spec.env, app.spec.resources, output.name, PullAlways, [], None, None)],
                serviceAccountName)),
      Some(map[Meta.LabelAppName := app.spec.name]),
      [ConfigChangeTrigger, ImageChangeTrigger(true, [app.spec.name], output)],
      0)
  }

  /** Promoting the image labels, discovering ports and setting replicas on Stamped gives IsDeploymentFor. */
  lemma ImageStepsGiveDeployment(app: KogitoApp, runner: BuildConfig, sa: ServiceAccount, image: Option<DockerImage>,
                                 promoted: DeploymentConfig, discovered: DeploymentConfig, dc: DeploymentConfig)
    requires runner.outputTo.Some? && WellFormedExposeLabel(image)
    requires LabelsPromoted(Stamped(app, runner.outputTo.value, sa.meta.name), ImageLabels(image), promoted)
    requires DiscoveredPorts(image) == [] ==> discovered == promoted
    requires DiscoveredPorts(image) != [] ==> discovered == WithPorts(promoted, DiscoveredPorts(image), DiscoveredProbe(image))
    requires dc == discovered.(replicas := if app.spec.replicas.Some? then app.spec.replicas.value else DefaultReplicas)
    ensures IsDeploymentFor(app, runner, sa, image, dc)
  {
    var output := runner.outputTo.value;
    var stamped := Stamped(app, output, sa.meta.name);
    assert promoted.kind == stamped.kind && promoted.strategy == stamped.strategy;
    assert promoted.template.spec == stamped.template.spec && promoted.triggers == stamped.triggers;
    PortsAndReplicasGivePod(app, runner, sa, image, promoted, discovered, dc);
    StampedLabelsPromoted(app, output, sa.meta.name, image, promoted);
  }

  /** The workload part follows from the bare container and the discovery and replica steps alone. */
  lemma PortsAndReplicasGivePod(app: KogitoApp, runner: BuildConfig, sa: ServiceAccount, image: Option<DockerImage>,
                                promoted: DeploymentConfig, discovered: DeploymentConfig, dc: DeploymentConfig)
    requires runner.outputTo.Some? && WellFormedExposeLabel(image)
    requires promoted.kind == DeploymentConfigKind && promoted.strategy == StrategyRolling
    requires promoted.template.spec == PodSpec([Container(app.spec.name, app.spec.env, app.spec.resources,
                                                runner.outputTo.value.name, PullAlways, [], None, None)], sa.meta.name)
    requires promoted.triggers == [ConfigChangeTrigger, ImageChangeTrigger(true, [app.spec.name], runner.outputTo.value)]
    requires DiscoveredPorts(image) == [] ==> discovered == promoted
    requires DiscoveredPorts(image) != [] ==> discovered == WithPorts(promoted, DiscoveredPorts(image), DiscoveredProbe(image))
    requires dc == discovered.(replicas := if app.spec.replicas.Some? then app.spec.replicas.value else DefaultReplicas)
    ensures PodAndTriggersFor(app, runner, sa, image, dc)
  {
    HttpPortIsParsed(ExposeEntries(image));
    if DiscoveredPorts(image) == [] {
      assert DiscoveredProbe(image) == None;
    }
  }

  /** Promotion on Stamped gives the metadata part. */
  lemma StampedLabelsPromoted(app: KogitoApp, output: ObjectReference, serviceAccountName: string, image: Option<DockerImage>,
                              promoted: DeploymentConfig)
    requires LabelsPromoted(Stamped(app, output, serviceAccountName), ImageLabels(image), promoted)
    ensures MetadataFor(app, image, promoted)
  {
    var stamped := Stamped(app, output, serviceAccountName);
    assert MapOf(stamped.meta.labels) == stamped.meta.labels.value;
    assert MapOf(stamped.template.meta.labels) == stamped.template.meta.labels.value;
  }

  /**
   * New: fails when the runner build or the service account is missing (runner checked first);
   * otherwise builds the deployment IsDeploymentFor describes.
   */
  method New(app: KogitoApp, runnerBC: Option<BuildConfig>, sa: Option<ServiceAccount>, image: Option<DockerImage>)
    returns (r: Result<DeploymentConfig, Error>)
    requires runnerBC.Some? ==> runnerBC.value.outputTo.Some?
    requires WellFormedExposeLabel(image)
    ensures r.Failure? <==> runnerBC.None? || sa.None?
    ensures runnerBC.None? ==> r == Failure(MissingRunnerBuild)
    ensures runnerBC.Some? && sa.None? ==> r == Failure(MissingServiceAccount)
    ensures r.Success? ==> IsDeploymentFor(app, runnerBC.value, sa.value, image, r.value)
  {
    var err := CheckDeploymentDependencies(runnerBC, sa);
    if err.Some? {
      return Failure(err.value);
    }
    var output := runnerBC.value.outputTo.value;
    var container := Container(app.spec.name, app.spec.env, app.spec.resources, output.name, PullAlways, [], None, None);
    var dc := DeploymentConfig(
      NoKind,
      NewMeta(app.spec.name, app.namespace),
      StrategyRolling,
      PodTemplateSpec(NewMeta("", ""), PodSpec([container], sa.value.meta.name)),
      None,
      [ConfigChangeTrigger, ImageChangeTrigger(true, [app.spec.name], output)],
      0);
    dc := dc.(kind := DeploymentConfigKind);
    var meta := Meta.AddDefaultMeta(Some(dc.meta), app.spec.name);
    dc := dc.(meta := meta.value);
    var templateMeta := Meta.AddDefaultMeta(Some(dc.template.meta), app.spec.name);
    dc := dc.(template := dc.template.(meta := templateMeta.value));
    var selector := Meta.AddDefaultLabels(dc.selector, app.spec.name);
    assert selector.value == map[Meta.LabelAppName := app.spec.name];
    dc := dc.(selector := selector);
    assert dc == Stamped(app, output, sa.value.meta.name);
    var promoted := AddLabelsFromDockerImage(dc, image);
    var discovered := DiscoverPortsAndProbesFromImage(promoted, image);
    dc := SetReplicas(app, discovered);
    ImageStepsGiveDeployment(app, runnerBC.value, sa.value, image, promoted, discovered, dc);
    return Success(dc);
  }

  /** The selector selects exactly the pods the template labels: the two maps are equal. */
  lemma SelectorMatchesTemplate(app: KogitoApp, runner: BuildConfig, sa: ServiceAccount, image: Option<DockerImage>, dc: DeploymentConfig)
    requires runner.outputTo.Some? && WellFormedExposeLabel(image)
    requires IsDeploymentFor(app, runner, sa, image, dc)
    ensures dc.selector == dc.template.meta.labels
  {
    var labels := ImageLabels(image);
    var sel := dc.selector.value;
    var tpl := dc.template.meta.labels.value;
    var templateMeta := Meta.StampMeta(NewMeta("", ""), app.spec.name);
    assert templateMeta.labels.value == map[Meta.LabelAppName := app.spec.name];
    assert sel.Keys == tpl.Keys;
    forall k | k in sel ensures sel[k] == tpl[k] {
      if k !in ImportedKeys(labels, labels.Keys) {
        assert k == Meta.LabelAppName;
      }
    }
    assert sel == tpl;
  }

  /**
   * When no two promoted labels share a last segment, every `org.kie/` image label appears,
   * under its last segment and with its value, in the DC labels, the selector and the template.
   */
  lemma DeploymentCarriesPromotedLabel(app: KogitoApp, runner: BuildConfig, sa: ServiceAccount, image: Option<DockerImage>,
                                       dc: DeploymentConfig, key: string)
    requires runner.outputTo.Some? && WellFormedExposeLabel(image)
    requires IsDeploymentFor(app, runner, sa, image, dc)
    requires forall k1, k2 ::
      (k1 in ImageLabels(image) && k2 in ImageLabels(image) && IsKieKey(k1) && IsKieKey(k2) && ImportedKey(k1) == ImportedKey(k2)) ==> k1 == k2
    requires key in ImageLabels(image) && IsKieKey(key)
    ensures ImportedKey(key) in dc.meta.labels.value && dc.meta.labels.value[ImportedKey(key)] == ImageLabels(image)[key]
    ensures ImportedKey(key) in dc.selector.value && dc.selector.value[ImportedKey(key)] == ImageLabels(image)[key]
    ensures ImportedKey(key) in dc.template.meta.labels.value && dc.template.meta.labels.value[ImportedKey(key)] == ImageLabels(image)[key]
  {
    var meta := Meta.StampMeta(NewMeta(app.spec.name, app.namespace), app.spec.name);
    PromotionOfDistinctKeys(meta.labels.value, ImageLabels(image), dc.meta.labels.value, key);
    assert ImportedKey(key) in ImportedKeys(ImageLabels(image), ImageLabels(image).Keys);
  }

  /** Unless an image label is imported as `app`, the DC keeps the app label naming the application. */
  lemma AppLabelKept(app: KogitoApp, runner: BuildConfig, sa: ServiceAccount, image: Option<DockerImage>, dc: DeploymentConfig)
    requires runner.outputTo.Some? && WellFormedExposeLabel(image)
    requires IsDeploymentFor(app, runner, sa, image, dc)
    requires Meta.LabelAppName !in ImportedKeys(ImageLabels(image), ImageLabels(image).Keys)
    ensures dc.meta.labels.value[Meta.LabelAppName] == app.spec.name
    ensures dc.selector.value[Meta.LabelAppName] == app.spec.name
    ensures dc.template.meta.labels.value[Meta.LabelAppName] == app.spec.name
  {
    var meta := Meta.StampMeta(NewMeta(app.spec.name, app.namespace), app.spec.name);
    assert meta.labels.value[Meta.LabelAppName] == app.spec.name;
    SelectorMatchesTemplate(app, runner, sa, image, dc);
  }

  /**
   * dockerImageHasLabels guards both image steps: an image that is nil, has no config or no label
   * map leaves the deployment exactly as built and stamped, with the replica count set.
   */
  lemma UnlabelledImagePlainDeployment(app: KogitoApp, runner: BuildConfig, sa: ServiceAccount, image: Option<DockerImage>,
                                       dc: DeploymentConfig)
    requires runner.outputTo.Some? && WellFormedExposeLabel(image)
    requires !DockerImageHasLabels(image)
    requires IsDeploymentFor(app, runner, sa, image, dc)
    ensures dc == Stamped(app, runner.outputTo.value, sa.meta.name).(replicas := dc.replicas)
    ensures dc.replicas == if app.spec.replicas.Some? then app.spec.replicas.value else DefaultReplicas
  {
    var stamped := Stamped(app, runner.outputTo.value, sa.meta.name);
    var labels := ImageLabels(image);
    assert labels == map[];
    NoKieLabelsNoChange(stamped.meta.labels.value, labels, dc.meta.labels.value);
    NoKieLabelsNoChange(stamped.template.meta.labels.value, labels, dc.template.meta.labels.value);
    NoKieLabelsNoChange(stamped.selector.value, labels, dc.selector.value);
    assert dc.meta == stamped.meta;
    assert dc.template.meta == stamped.template.meta;
    assert dc.template.spec == stamped.template.spec;
  }
}
