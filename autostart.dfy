/** Start-up discovery: the lines of `docker ps` output are classified into
    router and PC names by substring rules on the container name and the
    image, and the names found are written into the `container_name` field
    of the matching router and PC entries of the lab configuration. */
module AutoStart {
  import opened Builtins

  const RouterPatterns: seq<string> := ["ABR1", "ABR2", "ABR3", "R1", "R2", "R3", "R4"]
  const PcPatterns: seq<string> := ["PC1", "PC2", "PC3", "PC4"]

  /** The container name carries the device name between dots, between
      dashes, or after a final dot. */
  predicate NameMatches(containerName: string, device: string) {
    || Contains(containerName, "." + device + ".")
    || Contains(containerName, "-" + device + "-")
    || EndsWith(containerName, "." + device)
  }

  predicate IsFrrImage(imageName: string) {
    Contains(Lower(imageName), "frr") || Contains(Lower(imageName), "frrouting")
  }

  predicate IsAlpineImage(imageName: string) {
    Contains(Lower(imageName), "alpine")
  }

  /** The second test of the FRR check adds nothing: "frrouting" contains
      "frr". */
  lemma FrrImageIff(imageName: string)
    ensures IsFrrImage(imageName) <==> Contains(Lower(imageName), "frr")
  {
    if Contains(Lower(imageName), "frrouting") {
      ContainsPrefix(Lower(imageName), "frrouting", 3);
      assert "frrouting"[..3] == "frr";
    }
  }

  /** The pattern loop from index `j` on: the first pattern the name matches
      while the image test holds; a name match with a failing image test
      goes on to the next pattern. */
  function FirstFrom(patterns: seq<string>, j: nat, containerName: string, imageOk: bool): Option<string>
    decreases |patterns| - j
  {
    if j >= |patterns| then None
    else if NameMatches(containerName, patterns[j]) && imageOk then Some(patterns[j])
    else FirstFrom(patterns, j + 1, containerName, imageOk)
  }

  /** Whatever the search finds, the name matches it and the image test
      held. */
  lemma {:induction false} FirstFromSound(patterns: seq<string>, j: nat, containerName: string, imageOk: bool)
    ensures var found := FirstFrom(patterns, j, containerName, imageOk);
            found.Some? ==> imageOk && NameMatches(containerName, found.value)
    decreases |patterns| - j
  {
    if j < |patterns| && !(NameMatches(containerName, patterns[j]) && imageOk) {
      FirstFromSound(patterns, j + 1, containerName, imageOk);
    }
  }

  /** Whatever the search finds is one of the patterns from `j` on. */
  lemma {:induction false} FirstFromIn(patterns: seq<string>, j: nat, containerName: string, imageOk: bool) returns (k: nat)
    requires FirstFrom(patterns, j, containerName, imageOk).Some?
    ensures j <= k < |patterns| && FirstFrom(patterns, j, containerName, imageOk).value == patterns[k]
    decreases |patterns| - j
  {
    if NameMatches(containerName, patterns[j]) && imageOk {
      k := j;
    } else {
      k := FirstFromIn(patterns, j + 1, containerName, imageOk);
    }
  }

  /** The key a qualifying pattern search yields is the first pattern the
      name matches, and only if the image test holds. */
  lemma {:induction false} FirstFromIsFirstMatch(patterns: seq<string>, j: nat, containerName: string, imageOk: bool, k: nat)
    requires j <= k < |patterns|
    ensures FirstFrom(patterns, j, containerName, imageOk) == Some(patterns[k])
            <== imageOk && NameMatches(containerName, patterns[k])
                && forall i :: j <= i < k ==> !NameMatches(containerName, patterns[i])
    decreases k - j
  {
    if j < k && imageOk && NameMatches(containerName, patterns[k]) && forall i :: j <= i < k ==> !NameMatches(containerName, patterns[i]) {
      assert !NameMatches(containerName, patterns[j]);
      FirstFromIsFirstMatch(patterns, j + 1, containerName, imageOk, k);
    }
  }

  /** The router name a container is recorded under, if any. */
  function RouterKey(containerName: string, imageName: string): Option<string> {
    FirstFrom(RouterPatterns, 0, containerName, IsFrrImage(imageName))
  }

  /** The PC name a container is recorded under, if any. */
  function PcKey(containerName: string, imageName: string): Option<string> {
    FirstFrom(PcPatterns, 0, containerName, IsAlpineImage(imageName))
  }

  /** A container is recorded under router name `r` exactly when its image
      is an FRR image, its name matches `r`, and it matches no router
      pattern listed before `r`. */
  lemma RouterKeyIff(containerName: string, imageName: string, k: nat)
    requires k < |RouterPatterns|
    ensures RouterKey(containerName, imageName) == Some(RouterPatterns[k])
            <==> Contains(Lower(imageName), "frr") && NameMatches(containerName, RouterPatterns[k])
                 && forall i :: 0 <= i < k ==> !NameMatches(containerName, RouterPatterns[i])
  {
    FrrImageIff(imageName);
    FirstFromIsFirstMatch(RouterPatterns, 0, containerName, IsFrrImage(imageName), k);
    if RouterKey(containerName, imageName) == Some(RouterPatterns[k]) {
      FirstFromPosition(RouterPatterns, 0, containerName, IsFrrImage(imageName), k);
    }
  }

  /** A container is recorded under PC name `p` exactly when its image is an
      Alpine image, its name matches `p`, and no PC pattern before `p`. */
  lemma PcKeyIff(containerName: string, imageName: string, k: nat)
    requires k < |PcPatterns|
    ensures PcKey(containerName, imageName) == Some(PcPatterns[k])
            <==> IsAlpineImage(imageName) && NameMatches(containerName, PcPatterns[k])
                 && forall i :: 0 <= i < k ==> !NameMatches(containerName, PcPatterns[i])
  {
    FirstFromIsFirstMatch(PcPatterns, 0, containerName, IsAlpineImage(imageName), k);
    if PcKey(containerName, imageName) == Some(PcPatterns[k]) {
      FirstFromPosition(PcPatterns, 0, containerName, IsAlpineImage(imageName), k);
    }
  }

  /** With distinct patterns, finding `patterns[k]` means every earlier
      pattern was passed over. */
  lemma {:induction false} FirstFromPosition(patterns: seq<string>, j: nat, containerName: string, imageOk: bool, k: nat)
    requires forall a, b :: 0 <= a < b < |patterns| ==> patterns[a] != patterns[b]
    requires j <= k < |patterns|
    requires FirstFrom(patterns, j, containerName, imageOk) == Some(patterns[k])
    ensures imageOk && NameMatches(containerName, patterns[k])
    ensures forall i :: j <= i < k ==> !NameMatches(containerName, patterns[i])
    decreases k - j
  {
    FirstFromSound(patterns, j, containerName, imageOk);
    if j < k {
      if NameMatches(containerName, patterns[j]) && imageOk {
        assert false;
      }
      FirstFromPosition(patterns, j + 1, containerName, imageOk, k);
    }
  }

  /** No name is both a router name and a PC name, so a line records at
      most one key of each kind and never the same key twice. */
  lemma KeysDisjoint(containerName: string, imageName: string)
    ensures RouterKey(containerName, imageName).Some? && PcKey(containerName, imageName).Some?
            ==> RouterKey(containerName, imageName).value != PcKey(containerName, imageName).value
  {
    if RouterKey(containerName, imageName).Some? && PcKey(containerName, imageName).Some? {
      var r := FirstFromIn(RouterPatterns, 0, containerName, IsFrrImage(imageName));
      var p := FirstFromIn(PcPatterns, 0, containerName, IsAlpineImage(imageName));
      assert RouterPatterns[r][0] != 'P';
      assert PcPatterns[p][0] == 'P';
    }
  }

  /** A container named after a router with an FRR image is recorded
      under that router name. */
  lemma RouterExample()
    ensures RouterKey("lab.ABR1", "frr") == Some("ABR1")
  {
    assert Lower("frr") == "frr";
    assert StartsWith("frr", "frr");
    assert "." + RouterPatterns[0] == ".ABR1";
    assert EndsWith("lab.ABR1", ".ABR1");
    assert NameMatches("lab.ABR1", RouterPatterns[0]);
  }

  /** The same container with an Alpine image is not. */
  lemma AlpineRouterExample()
    ensures RouterKey("lab.ABR1", "alpine") == None
  {
    assert Lower("alpine") == "alpine";
    MissingFirstChar("alpine", "frr");
    MissingFirstChar("alpine", "frrouting");
  }

  /** A line of output as (container name, image), or None for a blank line
      or one with fewer than two tab-separated fields. */
  type Row = Option<(string, string)>

  function ParseLine(line: string): (row: Row)
    ensures Strip(line) == [] ==> row == None
    ensures row.Some? <==> Strip(line) != [] && |SplitOn(line, '\t')| >= 2
    ensures row.Some? ==> row.value.0 == SplitOn(line, '\t')[0] && row.value.1 == SplitOn(line, '\t')[1]
  {
    if Strip(line) == [] then None
    else
      var parts := SplitOn(line, '\t');
      if |parts| < 2 then None else Some((parts[0], parts[1]))
  }

  function ParseLines(lines: seq<string>): (rows: seq<Row>)
    ensures |rows| == |lines| && forall i :: 0 <= i < |lines| ==> rows[i] == ParseLine(lines[i])
  {
    seq(|lines|, i requires 0 <= i < |lines| => ParseLine(lines[i]))
  }

  /** Lines are parsed one by one: the rows of two blocks of output are the
      rows of the first followed by those of the second. */
  lemma ParseLinesAppend(a: seq<string>, b: seq<string>)
    ensures ParseLines(a + b) == ParseLines(a) + ParseLines(b)
  {
    assert forall i :: 0 <= i < |a| ==> (a + b)[i] == a[i];
    assert forall i :: |a| <= i < |a| + |b| ==> (a + b)[i] == b[i - |a|];
  }

  /** The classification of two blocks of output is that of the second
      block applied to the result of the first. */
  lemma {:induction false} ClassifyRowsAppend(containers: map<string, string>, a: seq<Row>, b: seq<Row>)
    ensures ClassifyRows(containers, a + b) == ClassifyRows(ClassifyRows(containers, a), b)
    decreases |b|
  {
    if b == [] {
      assert a + b == a;
    } else {
      var b' := b[..|b| - 1];
      assert (a + b)[..|a + b| - 1] == a + b';
      ClassifyRowsAppend(containers, a, b');
    }
  }

  function Record(containers: map<string, string>, key: Option<string>, containerName: string): map<string, string> {
    match key
    case None => containers
    case Some(k) => containers[k := containerName]
  }

  /** One iteration of the classification loop. */
  function ClassifyRow(containers: map<string, string>, row: Row): map<string, string> {
    match row
    case None => containers
    case Some((containerName, imageName)) =>
      Record(Record(containers, RouterKey(containerName, imageName), containerName),
             PcKey(containerName, imageName), containerName)
  }

  /** The classification loop over all rows, in order. */
  function ClassifyRows(containers: map<string, string>, rows: seq<Row>): map<string, string> {
    if rows == [] then containers
    else ClassifyRow(ClassifyRows(containers, rows[..|rows| - 1]), rows[|rows| - 1])
  }

  /** The row names `key` among its router or PC keys. */
  predicate Records(row: Row, key: string) {
    match row
    case None => false
    case Some((containerName, imageName)) =>
      RouterKey(containerName, imageName) == Some(key) || PcKey(containerName, imageName) == Some(key)
  }

  /** Blank lines and lines with fewer than two fields change nothing. */
  lemma IgnoredLines(containers: map<string, string>, line: string)
    requires Strip(line) == [] || |SplitOn(line, '\t')| < 2
    ensures ClassifyRow(containers, ParseLine(line)) == containers
  {
  }

  /** One row adds or overwrites exactly the keys it records, with its
      container name, and keeps every other entry. */
  lemma ClassifyRowEffect(containers: map<string, string>, row: Row, key: string)
    ensures key in ClassifyRow(containers, row) <==> key in containers || Records(row, key)
    ensures Records(row, key) ==> ClassifyRow(containers, row)[key] == row.value.0
    ensures !Records(row, key) && key in containers ==> ClassifyRow(containers, row)[key] == containers[key]
  {
    if row.Some? {
      KeysDisjoint(row.value.0, row.value.1);
    }
  }

  /** Every key of the result was recorded by some row. */
  lemma {:induction false} KeyHasRecordingRow(rows: seq<Row>, key: string) returns (i: nat)
    requires key in ClassifyRows(map[], rows)
    ensures i < |rows| && Records(rows[i], key)
  {
    var n := |rows| - 1;
    var init := rows[..n];
    ClassifyRowEffect(ClassifyRows(map[], init), rows[n], key);
    if Records(rows[n], key) {
      i := n;
    } else {
      i := KeyHasRecordingRow(init, key);
      assert init[i] == rows[i];
    }
  }

  /** Every key some row records is a key of the result. */
  lemma {:induction false} RecordingRowGivesKey(rows: seq<Row>, key: string, i: nat)
    requires i < |rows| && Records(rows[i], key)
    ensures key in ClassifyRows(map[], rows)
  {
    var n := |rows| - 1;
    var init := rows[..n];
    ClassifyRowEffect(ClassifyRows(map[], init), rows[n], key);
    if i < n {
      assert init[i] == rows[i];
      RecordingRowGivesKey(init, key, i);
    }
  }

  /** A name is a key of the result exactly when some row records it. */
  lemma ClassifiedKeys(rows: seq<Row>, key: string)
    ensures key in ClassifyRows(map[], rows) <==> exists i :: 0 <= i < |rows| && Records(rows[i], key)
  {
    if key in ClassifyRows(map[], rows) {
      var i := KeyHasRecordingRow(rows, key);
    }
    if exists i :: 0 <= i < |rows| && Records(rows[i], key) {
      var i :| 0 <= i < |rows| && Records(rows[i], key);
      RecordingRowGivesKey(rows, key, i);
    }
  }

  /** The recorded container name comes from the last row that records
      the key. */
  lemma {:induction false} LastRowWins(rows: seq<Row>, key: string, i: nat)
    requires i < |rows| && Records(rows[i], key)
    requires forall j :: i < j < |rows| ==> !Records(rows[j], key)
    ensures key in ClassifyRows(map[], rows)
    ensures ClassifyRows(map[], rows)[key] == rows[i].value.0
  {
    var n := |rows| - 1;
    var init := rows[..n];
    ClassifyRowEffect(ClassifyRows(map[], init), rows[n], key);
    if i < n {
      assert init[i] == rows[i];
      assert forall j :: i < j < n ==> init[j] == rows[j];
      LastRowWins(init, key, i);
    }
  }

  lemma ClassifyRowsStep(rows: seq<Row>, i: nat)
    requires i < |rows|
    ensures ClassifyRows(map[], rows[..i + 1]) == ClassifyRow(ClassifyRows(map[], rows[..i]), rows[i])
  {
    assert rows[..i + 1][..i] == rows[..i];
  }

  /** One pattern loop of the classification: the first pattern the
      container name matches, provided the image test holds; the loop
      stops there. */
  method FindDevice(patterns: seq<string>, containerName: string, imageOk: bool) returns (found: Option<string>)
    ensures found == FirstFrom(patterns, 0, containerName, imageOk)
  {
    found := None;
    var j := 0;
    while j < |patterns|
      invariant 0 <= j <= |patterns|
      invariant FirstFrom(patterns, 0, containerName, imageOk) == FirstFrom(patterns, j, containerName, imageOk)
    {
      var device := patterns[j];
      if NameMatches(containerName, device) {
        if imageOk {
          found := Some(device);
          break;
        }
      }
      j := j + 1;
    }
  }

  /** The body of the classification loop for one line: blank lines and
      lines with fewer than two tab-separated fields are skipped; otherwise
      the router search and then the PC search may each record the
      container name. */
  method ClassifyDockerLine(containers: map<string, string>, line: string) returns (updated: map<string, string>)
    ensures updated == ClassifyRow(containers, ParseLine(line))
  {
    updated := containers;
    if Strip(line) == [] {
      return;
    }
    var parts := SplitOn(line, '\t');
    if |parts| < 2 {
      return;
    }
    var containerName := parts[0];
    var imageName := parts[1];
    var router := FindDevice(RouterPatterns, containerName, IsFrrImage(imageName));
    if router.Some? {
      updated := updated[router.value := containerName];
    }
    var pc := FindDevice(PcPatterns, containerName, IsAlpineImage(imageName));
    if pc.Some? {
      updated := updated[pc.value := containerName];
    }
  }

  /** `get_docker_containers` on the return code and standard output of
      `docker ps`. */
  method GetDockerContainers(returnCode: int, stdout: string) returns (containers: map<string, string>)
    ensures returnCode != 0 ==> containers == map[]
    ensures returnCode == 0 ==> containers == ClassifyRows(map[], ParseLines(SplitOn(Strip(stdout), '\n')))
  {
    if returnCode != 0 {
      return map[];
    }
    containers := map[];
    var lines := SplitOn(Strip(stdout), '\n');
    ghost var rows := ParseLines(lines);
    var i := 0;
    while i < |lines|
      invariant 0 <= i <= |lines|
      invariant containers == ClassifyRows(map[], rows[..i])
    {
      ClassifyRowsStep(rows, i);
      containers := ClassifyDockerLine(containers, lines[i]);
      i := i + 1;
    }
    assert rows[..i] == rows;
  }

  /* ------------------------------------------------------ configuration */

  /** The fields of one router or PC entry of the configuration. */
  type Entry = map<string, string>

  /** `entry.get('container_name', 'N/A')`. */
  function ContainerName(entry: Entry): string {
    if "container_name" in entry then entry["container_name"] else "N/A"
  }

  /** One reported change: device, old container name, new container name. */
  datatype Change = Change(device: string, oldName: string, newName: string)

  /** The device of this entry was detected under a different name. */
  predicate NeedsChange(item: (string, Entry), containers: map<string, string>) {
    item.0 in containers && ContainerName(item.1) != containers[item.0]
  }

  /** An entry after the update: its container name set to the detected one
      when the device was detected under a different name. */
  function PatchEntry(item: (string, Entry), containers: map<string, string>): (string, Entry) {
    if NeedsChange(item, containers)
    then (item.0, item.1["container_name" := containers[item.0]])
    else item
  }

  /** An entry is left as it was exactly when it needs no change. */
  lemma PatchEntryUnchangedIff(item: (string, Entry), containers: map<string, string>)
    ensures PatchEntry(item, containers) == item <==> !NeedsChange(item, containers)
  {
    if NeedsChange(item, containers) {
      assert ContainerName(PatchEntry(item, containers).1) != ContainerName(item.1);
    }
  }

  /** A configuration section (devices in file order) after the update:
      the devices stay in place, every detected device carries the detected
      container name, every other device is left as it was, and no field but
      `container_name` changes. */
  function PatchSection(section: seq<(string, Entry)>, containers: map<string, string>): (patched: seq<(string, Entry)>)
    ensures |patched| == |section|
    ensures forall i :: 0 <= i < |section| ==> patched[i].0 == section[i].0
    ensures forall i :: 0 <= i < |section| && section[i].0 in containers ==>
              ContainerName(patched[i].1) == containers[section[i].0]
    ensures forall i :: 0 <= i < |section| && section[i].0 !in containers ==> patched[i] == section[i]
    ensures forall i, f :: 0 <= i < |section| && f != "container_name" ==> (f in patched[i].1 <==> f in section[i].1)
    ensures forall i, f :: 0 <= i < |section| && f in section[i].1 && f != "container_name" ==>
              patched[i].1[f] == section[i].1[f]
  {
    seq(|section|, i requires 0 <= i < |section| => PatchEntry(section[i], containers))
  }

  /** The change reported for one entry, if any. */
  function EntryChanges(item: (string, Entry), containers: map<string, string>): seq<Change> {
    if NeedsChange(item, containers)
    then [Change(item.0, ContainerName(item.1), containers[item.0])]
    else []
  }

  /** Patching a section is patching each entry on its own. */
  lemma PatchSectionEntries(section: seq<(string, Entry)>, containers: map<string, string>, i: nat)
    requires i < |section|
    ensures PatchSection(section, containers)[i] == PatchEntry(section[i], containers)
  {
  }

  /** The changes the update reports for a section, in file order. */
  function SectionChanges(section: seq<(string, Entry)>, containers: map<string, string>): seq<Change> {
    if section == [] then []
    else SectionChanges(section[..|section| - 1], containers) + EntryChanges(section[|section| - 1], containers)
  }

  /** No change is reported exactly when no entry needs one. */
  lemma {:induction false} NoChangesIffNoneNeeded(section: seq<(string, Entry)>, containers: map<string, string>)
    ensures SectionChanges(section, containers) == []
            <==> forall i :: 0 <= i < |section| ==> !NeedsChange(section[i], containers)
  {
    if section != [] {
      var n := |section| - 1;
      NoChangesIffNoneNeeded(section[..n], containers);
      assert forall i :: 0 <= i < n ==> section[..n][i] == section[i];
    }
  }

  /** A section is left exactly as it was if and only if no change is
      reported for it. */
  lemma NoChangesIffUnchanged(section: seq<(string, Entry)>, containers: map<string, string>)
    ensures SectionChanges(section, containers) == [] <==> PatchSection(section, containers) == section
  {
    NoChangesIffNoneNeeded(section, containers);
    var patched := PatchSection(section, containers);
    forall i | 0 <= i < |section|
      ensures patched[i] == section[i] <==> !NeedsChange(section[i], containers)
    {
      PatchEntryUnchangedIff(section[i], containers);
    }
    if forall i :: 0 <= i < |section| ==> !NeedsChange(section[i], containers) {
      assert patched == section;
    }
  }

  /** A second update with the same containers changes nothing and reports
      nothing. */
  lemma PatchIdempotent(section: seq<(string, Entry)>, containers: map<string, string>)
    ensures PatchSection(PatchSection(section, containers), containers) == PatchSection(section, containers)
    ensures SectionChanges(PatchSection(section, containers), containers) == []
  {
    var once := PatchSection(section, containers);
    assert forall i :: 0 <= i < |once| ==> !NeedsChange(once[i], containers);
    NoChangesIffNoneNeeded(once, containers);
    NoChangesIffUnchanged(once, containers);
  }

  lemma SectionStep(section: seq<(string, Entry)>, containers: map<string, string>, i: nat)
    requires i < |section|
    ensures PatchSection(section[..i + 1], containers) == PatchSection(section[..i], containers) + [PatchEntry(section[i], containers)]
    ensures SectionChanges(section[..i + 1], containers) == SectionChanges(section[..i], containers) + EntryChanges(section[i], containers)
  {
    assert section[..i + 1][..i] == section[..i];
  }

  /** The section loop of `update_routers_yaml`. */
  method UpdateSection(section: seq<(string, Entry)>, containers: map<string, string>)
    returns (patched: seq<(string, Entry)>, changes: seq<Change>)
    ensures patched == PatchSection(section, containers)
    ensures changes == SectionChanges(section, containers)
  {
    patched := [];
    changes := [];
    var i := 0;
    while i < |section|
      invariant 0 <= i <= |section|
      invariant patched == PatchSection(section[..i], containers)
      invariant changes == SectionChanges(section[..i], containers)
    {
      SectionStep(section, containers, i);
      var (name, entry) := section[i];
      if name in containers {
        var oldName := ContainerName(entry);
        var newName := containers[name];
        if oldName != newName {
          entry := entry["container_name" := newName];
          changes := changes + [Change(name, oldName, newName)];
        }
      }
      patched := patched + [(name, entry)];
      i := i + 1;
    }
    assert section[..i] == section;
  }

  /** The lab configuration: the `routers` and `pcs` sections, either of
      which may be absent. */
  class LabConfig {
    var routers: Option<seq<(string, Entry)>>
    var pcs: Option<seq<(string, Entry)>>

    constructor (routers: Option<seq<(string, Entry)>>, pcs: Option<seq<(string, Entry)>>)
      ensures this.routers == routers && this.pcs == pcs
    {
      this.routers := routers;
      this.pcs := pcs;
    }

    /** The update part of `update_routers_yaml`: both sections patched in
        place, and the reported changes for each. */
    method UpdateRoutersYaml(containers: map<string, string>) returns (updatedRouters: seq<Change>, updatedPcs: seq<Change>)
      modifies this
      ensures routers == (if old(routers).Some? then Some(PatchSection(old(routers).value, containers)) else None)
      ensures pcs == (if old(pcs).Some? then Some(PatchSection(old(pcs).value, containers)) else None)
      ensures updatedRouters == (if old(routers).Some? then SectionChanges(old(routers).value, containers) else [])
      ensures updatedPcs == (if old(pcs).Some? then SectionChanges(old(pcs).value, containers) else [])
    {
      updatedRouters := [];
      updatedPcs := [];
      if routers.Some? {
        var patched;
        patched, updatedRouters := UpdateSection(routers.value, containers);
        routers := Some(patched);
      }
      if pcs.Some? {
        var patched;
        patched, updatedPcs := UpdateSection(pcs.value, containers);
        pcs := Some(patched);
      }
    }
  }
}
