/**
 * The manifest builder of the SAP DB2-on-Windows deployment template: the
 * values it derives from the properties (region, subnetwork, public IP,
 * disk types, tags, service account), the table of volumes it declares,
 * a declarative description of the manifest it must return, and the
 * builder itself, which grows the resource list and the instance's disk
 * list one append at a time.
 */
module SapDb2Win {
  import opened Wrappers
  import opened PyStrings
  import opened ComputeUrls
  import opened Deployment

  const PrimaryStartupUrl: string := "https://storage.googleapis.com/sapdeploy/dm-templates/sap_db2-win/startup.ps1"

  /** The OAuth scopes granted to the instance's service account, in order. */
  const ServiceScopes: seq<string> := [
    "https://www.googleapis.com/auth/compute",
    "https://www.googleapis.com/auth/servicecontrol",
    "https://www.googleapis.com/auth/service.management.readonly",
    "https://www.googleapis.com/auth/logging.write",
    "https://www.googleapis.com/auth/monitoring.write",
    "https://www.googleapis.com/auth/trace.append",
    "https://www.googleapis.com/auth/devstorage.read_write"
  ]

  const ExternalNat: AccessConfig := AccessConfig("external-nat", "ONE_TO_ONE_NAT")

  const DiskKind: string := "compute.v1.disk"
  const InstanceKind: string := "compute.v1.instance"
  const PdSsd: string := "pd-ssd"
  const PdStandard: string := "pd-standard"

  // ---------------------------------------------------------------------
  // Derivations
  // ---------------------------------------------------------------------

  /**
   * `zone[:zone.rfind('-')]`: the zone up to its last '-'. With no '-' in
   * the zone, rfind gives -1 and the slice drops the last character (and an
   * empty zone stays empty).
   */
  function Region(zone: string): (region: string)
    ensures '-' in zone ==>
      |region| < |zone| && region == zone[..|region|] && zone[|region|] == '-'
      && '-' !in zone[|region| + 1..]
    ensures '-' !in zone ==> region == zone[..if |zone| == 0 then 0 else |zone| - 1]
  {
    var cut := RFind(zone, '-');
    assert '-' in zone ==> cut >= 0;
    SliceTo(zone, cut)
  }

  /**
   * The subnetwork URL. A value containing '/' names `<host project>/<subnetwork>`
   * (its first two '/'-separated pieces; any further pieces are ignored);
   * any other value is a subnetwork of the deployment's own project.
   */
  function SubnetworkUrl(subnetwork: string, project: string, region: string): string
  {
    if '/' in subnetwork then
      var sharedVpc := Split(subnetwork, '/');
      RegionalComputeUrl(sharedVpc[0], region, "subnetworks", sharedVpc[1])
    else
      RegionalComputeUrl(project, region, "subnetworks", subnetwork)
  }

  /** No access config exactly when `publicIP` reads "False"; otherwise one external NAT. */
  function AccessConfigs(publicIP: string): (configs: seq<AccessConfig>)
    ensures |configs| <= 1
    ensures configs == [] <==> publicIP == "False"
    ensures forall k :: 0 <= k < |configs| ==> configs[k] == ExternalNat
  {
    if publicIP == "False" then [] else [ExternalNat]
  }

  /** The disk type of an SSD-selectable volume: `pd-ssd` exactly when the flag reads "True". */
  function DiskTypeFor(ssd: string): (diskType: string)
    ensures diskType == PdSsd <==> ssd == "True"
    ensures diskType == PdSsd || diskType == PdStandard
  {
    if ssd == "True" then PdSsd else PdStandard
  }

  /**
   * The network tags: none for an unset or empty `networkTag`, otherwise
   * its comma-separated pieces, empty pieces included.
   */
  function NetworkTags(networkTag: Option<string>): (tags: seq<string>)
    ensures tags == [] <==> networkTag.GetOr("") == ""
    ensures networkTag.GetOr("") != "" ==>
      Join(tags, ',') == networkTag.GetOr("") && forall k :: 0 <= k < |tags| ==> ',' !in tags[k]
  {
    var s := networkTag.GetOr("");
    if |s| > 0 then Split(s, ',') else []
  }

  /** The service account: the one given, or the project's default compute account. */
  function ServiceAccountEmail(ctx: Context): (email: string)
    ensures ctx.properties.serviceAccount.Some? ==> email == ctx.properties.serviceAccount.value
    ensures ctx.properties.serviceAccount.None? ==>
      email == ctx.env.projectNumber + "-compute@developer.gserviceaccount.com"
  {
    ctx.properties.serviceAccount.GetOr(ctx.env.projectNumber + "-compute@developer.gserviceaccount.com")
  }

  // ---------------------------------------------------------------------
  // Building blocks shared by the builder and its specification
  // ---------------------------------------------------------------------

  /** The back-reference to a declared resource's self link. */
  function SelfLinkRef(name: string): string
  {
    "$(ref." + name + ".selfLink)"
  }

  /** A `compute.v1.disk` resource in the instance's zone. */
  function DiskResource(ctx: Context, name: string, sizeGb: int, diskType: string): Resource
  {
    var zone := ctx.properties.zone;
    Disk(name, DiskKind, DiskProperties(zone, sizeGb, ZonalComputeUrl(ctx.env.project, zone, "diskTypes", diskType)))
  }

  /** The instance's entry for a declared disk resource. */
  function DiskAttachment(name: string): AttachedDisk
  {
    ReferencedDisk(name, "PERSISTENT", SelfLinkRef(name), true)
  }

  /** The 64 GB boot disk, created inline from the Windows image. */
  function BootDisk(ctx: Context): AttachedDisk
  {
    var p := ctx.properties;
    InlineDisk("boot", "PERSISTENT", true, true,
      InitializeParams(p.instanceName + "-boot", GlobalComputeUrl(p.windowsImageProject, "images", p.windowsImage), "64"))
  }

  /** The instance resource, given its disk list. */
  function InstanceResource(ctx: Context, disks: seq<AttachedDisk>): Resource
  {
    var p := ctx.properties;
    var project := ctx.env.project;
    Instance(p.instanceName, InstanceKind, InstanceProperties(
      p.zone,
      "Automatic",
      ZonalComputeUrl(project, p.zone, "machineTypes", p.instanceType),
      [MetadataItem("windows-startup-script-url", PrimaryStartupUrl)],
      true,
      [ServiceAccount(ServiceAccountEmail(ctx), ServiceScopes)],
      [NetworkInterface(AccessConfigs(p.publicIP), SubnetworkUrl(p.subnetwork, project, Region(p.zone)))],
      NetworkTags(p.networkTag),
      disks))
  }

  // ---------------------------------------------------------------------
  // What the manifest must be
  // ---------------------------------------------------------------------

  /** A volume the template declares: name suffix, size and disk type name. */
  datatype Volume = Volume(suffix: string, sizeGb: int, diskType: string)

  /**
   * The declared volumes in order: five always, then `usrsap` and `swap`
   * when their size is positive.
   */
  function DeclaredVolumes(p: Properties): seq<Volume>
  {
    [ Volume("-db2sid", p.db2sidSize, PdStandard),
      Volume("-db2saptmp", p.db2saptmpSize, PdStandard),
      Volume("-db2log", p.db2logSize, DiskTypeFor(p.db2logSSD)),
      Volume("-db2sapdata", p.db2sapdataSize, DiskTypeFor(p.db2sapdataSSD)),
      Volume("-db2backup", p.db2backupSize, PdStandard) ]
    + (if p.usrsapSize > 0 then [Volume("-usrsap", p.usrsapSize, PdStandard)] else [])
    + (if p.swapSize > 0 then [Volume("-swap", p.swapSize, PdStandard)] else [])
  }

  /** The disk resource declared for a volume. */
  function VolumeResource(ctx: Context, v: Volume): Resource
  {
    DiskResource(ctx, ctx.properties.instanceName + v.suffix, v.sizeGb, v.diskType)
  }

  /** One disk resource per volume, in the same order. */
  function VolumeResources(ctx: Context, vols: seq<Volume>): seq<Resource>
  {
    seq(|vols|, i requires 0 <= i < |vols| => VolumeResource(ctx, vols[i]))
  }

  /** The disk resources of the declared volumes. */
  function DiskResources(ctx: Context): seq<Resource>
  {
    VolumeResources(ctx, DeclaredVolumes(ctx.properties))
  }

  /** The boot disk, then one back-reference per declared disk resource, in the same order. */
  function InstanceDisks(ctx: Context, rs: seq<Resource>): seq<AttachedDisk>
  {
    [BootDisk(ctx)] + seq(|rs|, i requires 0 <= i < |rs| => DiskAttachment(rs[i].name))
  }

  /** The manifest: the disk resources, then the instance that attaches them. */
  function ExpectedManifest(ctx: Context): Manifest
  {
    var rs := DiskResources(ctx);
    Manifest(rs + [InstanceResource(ctx, InstanceDisks(ctx, rs))])
  }

  /** Declaring one more volume appends its resource and its attachment. */
  lemma DeclareVolume(ctx: Context, vols: seq<Volume>, v: Volume)
    ensures VolumeResources(ctx, vols + [v]) == VolumeResources(ctx, vols) + [VolumeResource(ctx, v)]
    ensures InstanceDisks(ctx, VolumeResources(ctx, vols + [v]))
         == InstanceDisks(ctx, VolumeResources(ctx, vols)) + [DiskAttachment(ctx.properties.instanceName + v.suffix)]
  {
    var rs := VolumeResources(ctx, vols);
    assert VolumeResources(ctx, vols + [v]) == rs + [VolumeResource(ctx, v)];
    assert InstanceDisks(ctx, rs + [VolumeResource(ctx, v)])
        == InstanceDisks(ctx, rs) + [DiskAttachment(VolumeResource(ctx, v).name)];
  }

  // ---------------------------------------------------------------------
  // The builder
  // ---------------------------------------------------------------------

  /**
   * Builds the manifest as the template does: the boot disk first, then for
   * each volume a disk resource and its attachment, the two optional ones
   * only for a positive size, and last the instance.
   */
  method GenerateConfig(ctx: Context) returns (manifest: Manifest)
    ensures manifest == ExpectedManifest(ctx)
  {
    var p := ctx.properties;
    var instanceName := p.instanceName;
    var db2logType := DiskTypeFor(p.db2logSSD);
    var db2sapdataType := DiskTypeFor(p.db2sapdataSSD);

    var sapNode: seq<Resource> := [];
    var disks: seq<AttachedDisk> := [];
    // The volumes declared so far; the two lists always follow them.
    ghost var declared: seq<Volume> := [];

    disks := disks + [BootDisk(ctx)];
    assert sapNode == VolumeResources(ctx, declared) && disks == InstanceDisks(ctx, sapNode);

    sapNode := sapNode + [DiskResource(ctx, instanceName + "-db2sid", p.db2sidSize, PdStandard)];
    disks := disks + [DiskAttachment(instanceName + "-db2sid")];
    DeclareVolume(ctx, declared, Volume("-db2sid", p.db2sidSize, PdStandard));
    declared := declared + [Volume("-db2sid", p.db2sidSize, PdStandard)];

    sapNode := sapNode + [DiskResource(ctx, instanceName + "-db2saptmp", p.db2saptmpSize, PdStandard)];
    disks := disks + [DiskAttachment(instanceName + "-db2saptmp")];
    DeclareVolume(ctx, declared, Volume("-db2saptmp", p.db2saptmpSize, PdStandard));
    declared := declared + [Volume("-db2saptmp", p.db2saptmpSize, PdStandard)];

    sapNode := sapNode + [DiskResource(ctx, instanceName + "-db2log", p.db2logSize, db2logType)];
    disks := disks + [DiskAttachment(instanceName + "-db2log")];
    DeclareVolume(ctx, declared, Volume("-db2log", p.db2logSize, db2logType));
    declared := declared + [Volume("-db2log", p.db2logSize, db2logType)];

    sapNode := sapNode + [DiskResource(ctx, instanceName + "-db2sapdata", p.db2sapdataSize, db2sapdataType)];
    disks := disks + [DiskAttachment(instanceName + "-db2sapdata")];
    DeclareVolume(ctx, declared, Volume("-db2sapdata", p.db2sapdataSize, db2sapdataType));
    declared := declared + [Volume("-db2sapdata", p.db2sapdataSize, db2sapdataType)];

    sapNode := sapNode + [DiskResource(ctx, instanceName + "-db2backup", p.db2backupSize, PdStandard)];
    disks := disks + [DiskAttachment(instanceName + "-db2backup")];
    DeclareVolume(ctx, declared, Volume("-db2backup", p.db2backupSize, PdStandard));
    declared := declared + [Volume("-db2backup", p.db2backupSize, PdStandard)];

    if p.usrsapSize > 0 {
      sapNode := sapNode + [DiskResource(ctx, instanceName + "-usrsap", p.usrsapSize, PdStandard)];
      disks := disks + [DiskAttachment(instanceName + "-usrsap")];
      DeclareVolume(ctx, declared, Volume("-usrsap", p.usrsapSize, PdStandard));
      declared := declared + [Volume("-usrsap", p.usrsapSize, PdStandard)];
    }

    if p.swapSize > 0 {
      sapNode := sapNode + [DiskResource(ctx, instanceName + "-swap", p.swapSize, PdStandard)];
      disks := disks + [DiskAttachment(instanceName + "-swap")];
      DeclareVolume(ctx, declared, Volume("-swap", p.swapSize, PdStandard));
      declared := declared + [Volume("-swap", p.swapSize, PdStandard)];
    }

    assert declared == DeclaredVolumes(p);
    assert sapNode == DiskResources(ctx) && disks == InstanceDisks(ctx, sapNode);
    sapNode := sapNode + [InstanceResource(ctx, disks)];
    manifest := Manifest(sapNode);
  }
}
