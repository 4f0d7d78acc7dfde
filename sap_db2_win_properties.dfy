/**
 * What the manifest promises, proved of the reference description that the
 * builder is shown to meet: how many resources there are and in which
 * order, which optional volumes appear, that every back-reference names the
 * disk resource declared at the matching position and no other, the disk
 * types, the networking of the instance, and the string derivations.
 */
module SapDb2WinProperties {
  import opened Wrappers
  import opened PyStrings
  import opened ComputeUrls
  import opened Deployment
  import opened SapDb2Win

  /** The instance's disk list: the last resource's, when that is the instance. */
  function InstanceDiskList(m: Manifest): seq<AttachedDisk>
  {
    if |m.resources| > 0 && m.resources[|m.resources| - 1].Instance? then
      m.resources[|m.resources| - 1].instanceProperties.disks
    else []
  }

  /** Number of optional volumes that a size enables. */
  function Enabled(size: int): nat
  {
    if size > 0 then 1 else 0
  }

  /** The manifest's parts: the declared volumes' disk resources, then the instance. */
  lemma ManifestParts(ctx: Context)
    ensures var m := ExpectedManifest(ctx); var rs := DiskResources(ctx);
      var vols := DeclaredVolumes(ctx.properties);
      |rs| == |vols|
      && (forall i :: 0 <= i < |vols| ==> rs[i] == VolumeResource(ctx, vols[i]))
      && m.resources == rs + [InstanceResource(ctx, InstanceDisks(ctx, rs))]
      && InstanceDiskList(m) == InstanceDisks(ctx, rs)
  {
  }

  /** The declared volumes position by position. */
  lemma VolumeTable(p: Properties)
    ensures var vols := DeclaredVolumes(p);
      |vols| == 5 + Enabled(p.usrsapSize) + Enabled(p.swapSize)
      && vols[0] == Volume("-db2sid", p.db2sidSize, PdStandard)
      && vols[1] == Volume("-db2saptmp", p.db2saptmpSize, PdStandard)
      && vols[2] == Volume("-db2log", p.db2logSize, DiskTypeFor(p.db2logSSD))
      && vols[3] == Volume("-db2sapdata", p.db2sapdataSize, DiskTypeFor(p.db2sapdataSSD))
      && vols[4] == Volume("-db2backup", p.db2backupSize, PdStandard)
      && (p.usrsapSize > 0 ==> vols[5] == Volume("-usrsap", p.usrsapSize, PdStandard))
      && (p.swapSize > 0 ==> vols[|vols| - 1] == Volume("-swap", p.swapSize, PdStandard))
  {
  }

  // ---------------------------------------------------------------------
  // Shape of the manifest
  // ---------------------------------------------------------------------

  /**
   * Five to seven disk resources, then exactly one instance, named after the
   * instance; the instance lists one disk per resource.
   */
  lemma ResourceCount(ctx: Context)
    ensures var m := ExpectedManifest(ctx);
      |m.resources| == 6 + Enabled(ctx.properties.usrsapSize) + Enabled(ctx.properties.swapSize)
      && 6 <= |m.resources| <= 8
      && |InstanceDiskList(m)| == |m.resources|
    ensures var rs := ExpectedManifest(ctx).resources;
      (forall i :: 0 <= i < |rs| - 1 ==> rs[i].Disk? && rs[i].kind == DiskKind)
      && rs[|rs| - 1].Instance? && rs[|rs| - 1].kind == InstanceKind
      && rs[|rs| - 1].name == ctx.properties.instanceName
  {
    ManifestParts(ctx);
  }

  /** The volume names in order, for instance name `n`. */
  lemma VolumeNames(p: Properties, n: string)
    ensures var vols := DeclaredVolumes(p);
      seq(|vols|, i requires 0 <= i < |vols| => n + vols[i].suffix)
      == [n + "-db2sid", n + "-db2saptmp", n + "-db2log", n + "-db2sapdata", n + "-db2backup"]
        + (if p.usrsapSize > 0 then [n + "-usrsap"] else [])
        + (if p.swapSize > 0 then [n + "-swap"] else [])
  {
  }

  /**
   * The resources come in the fixed order db2sid, db2saptmp, db2log,
   * db2sapdata, db2backup, then usrsap and swap when enabled, then the
   * instance; each disk carries its volume's size.
   */
  lemma ResourceOrder(ctx: Context)
    ensures var p := ctx.properties; var n := p.instanceName;
      var rs := ExpectedManifest(ctx).resources;
      var names := seq(|rs|, i requires 0 <= i < |rs| => rs[i].name);
      names == [n + "-db2sid", n + "-db2saptmp", n + "-db2log", n + "-db2sapdata", n + "-db2backup"]
        + (if p.usrsapSize > 0 then [n + "-usrsap"] else [])
        + (if p.swapSize > 0 then [n + "-swap"] else [])
        + [n]
    ensures var rs := ExpectedManifest(ctx).resources; var vols := DeclaredVolumes(ctx.properties);
      |rs| == |vols| + 1
      && forall i :: 0 <= i < |vols| ==> rs[i].Disk? && rs[i].diskProperties.sizeGb == vols[i].sizeGb
  {
    var p := ctx.properties;
    var n := p.instanceName;
    var rs := ExpectedManifest(ctx).resources;
    var vols := DeclaredVolumes(p);
    var names := seq(|rs|, i requires 0 <= i < |rs| => rs[i].name);
    var vn := seq(|vols|, i requires 0 <= i < |vols| => n + vols[i].suffix);
    ManifestParts(ctx);
    VolumeNames(p, n);
    assert |names| == |vn| + 1;
    forall i | 0 <= i < |names|
      ensures names[i] == (vn + [n])[i]
    {
      if i < |vols| {
        assert rs[i] == VolumeResource(ctx, vols[i]);
      }
    }
    assert names == vn + [n];
  }

  // ---------------------------------------------------------------------
  // Resource names and back-references
  // ---------------------------------------------------------------------

  /** Names built on the same instance name are equal only for equal suffixes. */
  lemma SuffixedNamesDiffer(n: string, s: string, t: string)
    ensures n + s == n + t ==> s == t
  {
    assert (n + s)[|n|..] == s;
    assert (n + t)[|n|..] == t;
  }

  /** The back-reference string determines the name it refers to. */
  lemma SelfLinkRefInjective(a: string, b: string)
    requires SelfLinkRef(a) == SelfLinkRef(b)
    ensures a == b
  {
    var pre := "$(ref.";
    assert |a| == |b|;
    assert SelfLinkRef(a)[|pre|..|pre| + |a|] == a;
    assert SelfLinkRef(b)[|pre|..|pre| + |b|] == b;
  }

  /** No two declared volumes share a suffix, and no suffix is empty. */
  lemma VolumeSuffixesDistinct(p: Properties)
    ensures var vols := DeclaredVolumes(p);
      forall i, j :: 0 <= i < j < |vols| ==> vols[i].suffix != vols[j].suffix
    ensures forall v :: v in DeclaredVolumes(p) ==> |v.suffix| > 0
  {
  }

  /** Every resource of the manifest has a name of its own. */
  lemma ResourceNamesDistinct(ctx: Context)
    ensures var rs := ExpectedManifest(ctx).resources;
      forall i, j :: 0 <= i < j < |rs| ==> rs[i].name != rs[j].name
  {
    var n := ctx.properties.instanceName;
    var vols := DeclaredVolumes(ctx.properties);
    var rs := ExpectedManifest(ctx).resources;
    VolumeSuffixesDistinct(ctx.properties);
    assert |rs| == |vols| + 1;
    forall i, j | 0 <= i < j < |rs|
      ensures rs[i].name != rs[j].name
    {
      assert rs[i].name == n + vols[i].suffix;
      if j < |vols| {
        assert rs[j].name == n + vols[j].suffix;
        SuffixedNamesDiffer(n, vols[i].suffix, vols[j].suffix);
      } else {
        assert vols[i] in vols;
        assert rs[j].name == n;
      }
    }
  }

  /**
   * The instance's first disk is the inline boot disk; every later entry
   * `disks[i]` is an attachment whose device name is the name of resource
   * `i - 1`, a disk resource, and whose source is the back-reference
   * `$(ref.<that name>.selfLink)`.
   */
  lemma InstanceDiskReferences(ctx: Context)
    ensures var m := ExpectedManifest(ctx); var rs := m.resources; var disks := InstanceDiskList(m);
      var p := ctx.properties;
      |disks| == |rs|
      && disks[0] == InlineDisk("boot", "PERSISTENT", true, true,
           InitializeParams(p.instanceName + "-boot", GlobalComputeUrl(p.windowsImageProject, "images", p.windowsImage), "64"))
      && forall i :: 1 <= i < |disks| ==>
           rs[i - 1].Disk?
           && disks[i] == ReferencedDisk(rs[i - 1].name, "PERSISTENT", "$(ref." + rs[i - 1].name + ".selfLink)", true)
  {
    var m := ExpectedManifest(ctx);
    var rs := m.resources;
    var drs := DiskResources(ctx);
    var disks := InstanceDiskList(m);
    ManifestParts(ctx);
    assert disks == InstanceDisks(ctx, drs);
    assert disks[0] == BootDisk(ctx);
    forall i | 1 <= i < |disks|
      ensures rs[i - 1].Disk? && disks[i] == DiskAttachment(rs[i - 1].name)
    {
      assert rs[i - 1] == drs[i - 1];
      assert disks[i] == DiskAttachment(drs[i - 1].name);
    }
  }

  /**
   * Each back-reference names exactly one resource of the manifest: the one
   * declared just before it in the resource list.
   */
  lemma ReferencesResolveUniquely(ctx: Context)
    ensures var m := ExpectedManifest(ctx); var rs := m.resources; var disks := InstanceDiskList(m);
      |disks| == |rs|
      && forall i, j :: 1 <= i < |disks| && 0 <= j < |rs| ==>
           (disks[i].ReferencedDisk? && disks[i].source == SelfLinkRef(rs[j].name) <==> j == i - 1)
  {
    var m := ExpectedManifest(ctx);
    var rs := m.resources;
    var disks := InstanceDiskList(m);
    InstanceDiskReferences(ctx);
    ResourceNamesDistinct(ctx);
    forall i, j | 1 <= i < |disks| && 0 <= j < |rs|
      ensures disks[i].ReferencedDisk? && disks[i].source == SelfLinkRef(rs[j].name) <==> j == i - 1
    {
      if disks[i].source == SelfLinkRef(rs[j].name) {
        SelfLinkRefInjective(rs[i - 1].name, rs[j].name);
      }
    }
  }

  // ---------------------------------------------------------------------
  // Optional volumes
  // ---------------------------------------------------------------------

  /** A declared volume with an optional volume's suffix is that optional volume, and it is enabled. */
  lemma OptionalVolumeDeclared(p: Properties, i: int, suffix: string, size: int)
    requires (suffix == "-usrsap" && size == p.usrsapSize) || (suffix == "-swap" && size == p.swapSize)
    requires 0 <= i < |DeclaredVolumes(p)| && DeclaredVolumes(p)[i].suffix == suffix
    ensures size > 0 && DeclaredVolumes(p)[i] == Volume(suffix, size, PdStandard)
  {
  }

  /**
   * The usrsap and swap volumes: a disk resource and an attachment of that
   * name appear exactly when the volume's size is positive, and the disk
   * resource then carries exactly that size, as a standard disk.
   */
  lemma OptionalVolume(ctx: Context, suffix: string, size: int)
    requires (suffix == "-usrsap" && size == ctx.properties.usrsapSize)
          || (suffix == "-swap" && size == ctx.properties.swapSize)
    ensures var m := ExpectedManifest(ctx); var rs := m.resources; var disks := InstanceDiskList(m);
      var name := ctx.properties.instanceName + suffix;
      ((exists i :: 0 <= i < |rs| && rs[i].name == name) <==> size > 0)
      && ((exists i :: 0 <= i < |disks| && disks[i].deviceName == name) <==> size > 0)
      && forall i :: 0 <= i < |rs| && rs[i].name == name ==>
           rs[i] == Disk(name, DiskKind, DiskProperties(ctx.properties.zone, size,
                      ZonalComputeUrl(ctx.env.project, ctx.properties.zone, "diskTypes", PdStandard)))
  {
    var p := ctx.properties;
    var n := p.instanceName;
    var name := n + suffix;
    var m := ExpectedManifest(ctx);
    var rs := m.resources;
    var disks := InstanceDiskList(m);
    var vols := DeclaredVolumes(p);
    ResourceCount(ctx);
    InstanceDiskReferences(ctx);
    assert |rs| == |vols| + 1;
    forall i | 0 <= i < |rs| && rs[i].name == name
      ensures i < |vols| && size > 0 && rs[i] == VolumeResource(ctx, Volume(suffix, size, PdStandard))
    {
      assert |rs[i].name| > |n|;
      assert i < |vols|;
      assert rs[i].name == n + vols[i].suffix;
      SuffixedNamesDiffer(n, vols[i].suffix, suffix);
      OptionalVolumeDeclared(p, i, suffix, size);
    }
    if size > 0 {
      var k := if suffix == "-usrsap" then 5 else |vols| - 1;
      assert vols[k].suffix == suffix;
      assert rs[k].name == name;
      assert disks[k + 1].deviceName == name;
    }
    assert |disks[0].deviceName| == 4 < |name|;
    forall i | 0 <= i < |disks| && disks[i].deviceName == name
      ensures size > 0
    {
      assert rs[i - 1].name == name;
    }
  }

  // ---------------------------------------------------------------------
  // Disk types
  // ---------------------------------------------------------------------

  /** A URL ending in `/<t>` for a disk type name `t` ends in `/pd-ssd` or `/pd-standard` as `t` says. */
  lemma TypeNameSuffix(url: string, t: string)
    requires t == PdSsd || t == PdStandard
    requires EndsWith(url, "/" + t)
    ensures EndsWith(url, "/pd-ssd") <==> t == PdSsd
    ensures EndsWith(url, "/pd-standard") <==> t == PdStandard
  {
    assert !EndsWith("/pd-standard", "/pd-ssd") by {
      assert "/pd-standard"[5..][0] != "/pd-ssd"[0];
    }
    if t == PdStandard {
      assert "/" + t == "/pd-standard";
      EndsWithBoth(url, "/pd-standard", "/pd-ssd");
    } else {
      assert "/" + t == "/pd-ssd";
      if EndsWith(url, "/pd-standard") {
        EndsWithBoth(url, "/pd-standard", "/pd-ssd");
      }
    }
  }

  /** A disk type URL ends in `/pd-ssd` or in `/pd-standard` according to the type it names. */
  lemma DiskTypeUrlSuffix(project: string, zone: string, t: string)
    requires t == PdSsd || t == PdStandard
    ensures EndsWith(ZonalComputeUrl(project, zone, "diskTypes", t), "/pd-ssd") <==> t == PdSsd
    ensures EndsWith(ZonalComputeUrl(project, zone, "diskTypes", t), "/pd-standard") <==> t == PdStandard
  {
    TypeNameSuffix(ZonalComputeUrl(project, zone, "diskTypes", t), t);
  }

  /** Resource `i`, for each declared volume `i`, is that volume's disk resource. */
  lemma DiskResourceAt(ctx: Context, i: int)
    requires 0 <= i < |DeclaredVolumes(ctx.properties)|
    ensures |ExpectedManifest(ctx).resources| == |DeclaredVolumes(ctx.properties)| + 1
    ensures ExpectedManifest(ctx).resources[i] == VolumeResource(ctx, DeclaredVolumes(ctx.properties)[i])
  {
  }

  /**
   * The log and sapdata disks (resources 2 and 3) are SSDs exactly when
   * their flag reads "True" and standard disks otherwise.
   */
  lemma SsdSelection(ctx: Context)
    ensures var rs := ExpectedManifest(ctx).resources;
      |rs| >= 6 && rs[2].Disk? && rs[3].Disk?
      && rs[2].name == ctx.properties.instanceName + "-db2log"
      && rs[3].name == ctx.properties.instanceName + "-db2sapdata"
    ensures var rs := ExpectedManifest(ctx).resources; var p := ctx.properties;
      (EndsWith(rs[2].diskProperties.diskType, "/pd-ssd") <==> p.db2logSSD == "True")
      && (EndsWith(rs[2].diskProperties.diskType, "/pd-standard") <==> p.db2logSSD != "True")
      && (EndsWith(rs[3].diskProperties.diskType, "/pd-ssd") <==> p.db2sapdataSSD == "True")
      && (EndsWith(rs[3].diskProperties.diskType, "/pd-standard") <==> p.db2sapdataSSD != "True")
  {
    var p := ctx.properties;
    DiskResourceAt(ctx, 2);
    DiskResourceAt(ctx, 3);
    DiskTypeUrlSuffix(ctx.env.project, p.zone, DiskTypeFor(p.db2logSSD));
    DiskTypeUrlSuffix(ctx.env.project, p.zone, DiskTypeFor(p.db2sapdataSSD));
  }

  /** Every declared volume but the log and sapdata ones is a standard disk. */
  lemma StandardVolume(p: Properties, i: int)
    requires 0 <= i < |DeclaredVolumes(p)| && i != 2 && i != 3
    ensures DeclaredVolumes(p)[i].diskType == PdStandard
  {
    VolumeTable(p);
  }

  /** Every disk resource but the log and sapdata ones is a standard disk. */
  lemma StandardDisks(ctx: Context)
    ensures var rs := ExpectedManifest(ctx).resources;
      forall i :: 0 <= i < |rs| - 1 && i != 2 && i != 3 ==>
        rs[i].Disk?
        && rs[i].diskProperties.diskType == ZonalComputeUrl(ctx.env.project, ctx.properties.zone, "diskTypes", PdStandard)
        && EndsWith(rs[i].diskProperties.diskType, "/pd-standard")
  {
    var p := ctx.properties;
    var rs := ExpectedManifest(ctx).resources;
    var vols := DeclaredVolumes(p);
    ManifestParts(ctx);
    DiskTypeUrlSuffix(ctx.env.project, p.zone, PdStandard);
    var standard := ZonalComputeUrl(ctx.env.project, p.zone, "diskTypes", PdStandard);
    forall i | 0 <= i < |rs| - 1 && i != 2 && i != 3
      ensures rs[i].Disk? && rs[i].diskProperties.diskType == standard
    {
      StandardVolume(p, i);
      assert rs[i] == VolumeResource(ctx, vols[i]);
    }
  }

  // ---------------------------------------------------------------------
  // The instance
  // ---------------------------------------------------------------------

  /**
   * The instance runs in the given zone on the given machine type, with IP
   * forwarding, the startup script URL as its one metadata item, one service
   * account holding the seven scopes, the network tags, and one network
   * interface on the derived subnetwork whose access configs are empty
   * exactly when `publicIP` reads "False" and are one external NAT otherwise.
   */
  lemma InstanceSettings(ctx: Context)
    ensures var rs := ExpectedManifest(ctx).resources;
      |rs| > 0 && rs[|rs| - 1].Instance?
    ensures var rs := ExpectedManifest(ctx).resources; var p := ctx.properties;
      var inst := rs[|rs| - 1].instanceProperties;
      inst.zone == p.zone
      && inst.minCpuPlatform == "Automatic"
      && inst.machineType == ZonalComputeUrl(ctx.env.project, p.zone, "machineTypes", p.instanceType)
      && inst.canIpForward
      && inst.metadata == [MetadataItem("windows-startup-script-url", PrimaryStartupUrl)]
      && inst.serviceAccounts == [ServiceAccount(ServiceAccountEmail(ctx), ServiceScopes)]
      && |ServiceScopes| == 7
      && inst.tags == NetworkTags(p.networkTag)
      && |inst.networkInterfaces| == 1
      && inst.networkInterfaces[0].subnetwork == SubnetworkUrl(p.subnetwork, ctx.env.project, Region(p.zone))
      && (inst.networkInterfaces[0].accessConfigs == [] <==> p.publicIP == "False")
      && (p.publicIP != "False" ==>
            inst.networkInterfaces[0].accessConfigs == [AccessConfig("external-nat", "ONE_TO_ONE_NAT")])
  {
    var configs := AccessConfigs(ctx.properties.publicIP);
    assert configs != [] ==> configs == [configs[0]];
  }

  // ---------------------------------------------------------------------
  // Region, subnetwork and tags
  // ---------------------------------------------------------------------

  /** A zone named `<region>-<letter>` lies in `<region>`. */
  lemma RegionOfZone(region: string, letter: string)
    requires '-' !in letter
    ensures Region(region + "-" + letter) == region
  {
    var zone := region + "-" + letter;
    var r := Region(zone);
    assert zone[|region|] == '-';
    assert forall j :: |region| < j < |zone| ==> zone[j] == letter[j - |region| - 1];
    assert |r| == |region|;
  }

  /** Typical zones, and the degenerate zones that give an empty or shortened region. */
  lemma RegionExamples()
    ensures Region("us-central1-a") == "us-central1"
    ensures Region("europe-west3-a") == "europe-west3"
    ensures Region("zone") == "zon"
    ensures Region("") == ""
    ensures Region("a") == ""
    ensures Region("-a") == ""
    ensures Region("-") == ""
  {
    RegionOfZone("us-central1", "a");
    RegionOfZone("europe-west3", "a");
  }

  /** A subnetwork without '/' belongs to the deployment's own project. */
  lemma PlainSubnetwork(subnetwork: string, project: string, region: string)
    requires '/' !in subnetwork
    ensures SubnetworkUrl(subnetwork, project, region) == RegionalComputeUrl(project, region, "subnetworks", subnetwork)
  {
  }

  /**
   * `<host>/<name>` names subnetwork `name` of host project `host`; pieces
   * after a second '/' are ignored.
   */
  lemma SharedVpcSubnetwork(host: string, name: string, project: string, region: string)
    requires '/' !in host && '/' !in name
    ensures SubnetworkUrl(host + "/" + name, project, region) == RegionalComputeUrl(host, region, "subnetworks", name)
  {
    var s := host + "/" + name;
    assert s[|host|] == '/';
    SplitCons(host, '/', name);
    SplitSingle(name, '/');
    assert Split(s, '/') == [host, name];
  }

  /** Pieces after the second '/' of a shared-VPC value are ignored. */
  lemma SharedVpcExtraPieces(host: string, name: string, rest: string, project: string, region: string)
    requires '/' !in host && '/' !in name
    ensures SubnetworkUrl(host + "/" + name + "/" + rest, project, region)
         == RegionalComputeUrl(host, region, "subnetworks", name)
  {
    var t := host + "/" + name + "/" + rest;
    assert t[|host|] == '/';
    assert t == host + "/" + (name + "/" + rest);
    SplitCons(host, '/', name + "/" + rest);
    SplitCons(name, '/', rest);
    assert Split(t, '/')[..2] == [host, name];
  }

  /** Comma-separated tags are recovered piece by piece, empty pieces included. */
  lemma NetworkTagsRoundTrip(items: seq<string>)
    requires |items| >= 1
    requires forall k :: 0 <= k < |items| ==> ',' !in items[k]
    requires Join(items, ',') != ""
    ensures NetworkTags(Some(Join(items, ','))) == items
  {
    SplitJoin(items, ',');
  }

  /** The tag examples: unset and empty give no tags; "a,b" gives two. */
  lemma NetworkTagsExamples()
    ensures NetworkTags(None) == []
    ensures NetworkTags(Some("")) == []
    ensures NetworkTags(Some("a,b")) == ["a", "b"]
    ensures NetworkTags(Some("a,,b")) == ["a", "", "b"]
  {
    assert Join(["b"], ',') == "b";
    assert Join(["a", "b"], ',') == "a,b";
    NetworkTagsRoundTrip(["a", "b"]);
    assert Join(["", "b"], ',') == ",b";
    assert Join(["a", "", "b"], ',') == "a,,b";
    NetworkTagsRoundTrip(["a", "", "b"]);
  }

  // ---------------------------------------------------------------------
  // An end-to-end scenario
  // ---------------------------------------------------------------------

  /**
   * With usrsap disabled, swap enabled and a public IP requested, the
   * manifest holds six disk resources and the instance, the instance lists
   * seven disks, and its interface has one access config.
   */
  lemma PublicInstanceWithSwapOnly(ctx: Context)
    requires ctx.properties.usrsapSize == 0 && ctx.properties.swapSize == 100
    requires ctx.properties.publicIP == "True"
    ensures var m := ExpectedManifest(ctx);
      |m.resources| == 7 && |InstanceDiskList(m)| == 7
      && m.resources[6].Instance?
      && |m.resources[6].instanceProperties.networkInterfaces| == 1
      && |m.resources[6].instanceProperties.networkInterfaces[0].accessConfigs| == 1
      && forall i :: 0 <= i < 7 ==> m.resources[i].name != ctx.properties.instanceName + "-usrsap"
  {
    ResourceCount(ctx);
    InstanceSettings(ctx);
    OptionalVolume(ctx, "-usrsap", 0);
  }
}
