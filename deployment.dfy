/**
 * The template's input (the property bag and the deployment environment)
 * and its output (the resource manifest), as typed records in place of the
 * dictionaries the deployment engine hands over and takes back.
 */
module Deployment {
  import opened Wrappers

  /** The template properties, one field per property the template reads. */
  datatype Properties = Properties(
    zone: string,
    instanceName: string,
    instanceType: string,
    windowsImageProject: string,
    windowsImage: string,
    subnetwork: string,
    /** Compared as text against "False". */
    publicIP: string,
    networkTag: Option<string>,
    serviceAccount: Option<string>,
    /** Read by the template and never used. */
    db2SID: Option<string>,
    db2sidSize: int,
    db2saptmpSize: int,
    db2logSize: int,
    /** Compared as text against "True". */
    db2logSSD: string,
    db2sapdataSize: int,
    /** Compared as text against "True". */
    db2sapdataSSD: string,
    db2backupSize: int,
    usrsapSize: int,
    swapSize: int
  )

  /** Facts about the deployment the template runs in. */
  datatype Env = Env(project: string, projectNumber: string)

  datatype Context = Context(properties: Properties, env: Env)

  /** An entry of a network interface's `accessConfigs`. */
  datatype AccessConfig = AccessConfig(name: string, kind: string)

  /** The `initializeParams` of the inline boot disk. */
  datatype InitializeParams = InitializeParams(diskName: string, sourceImage: string, diskSizeGb: string)

  /** An entry of the instance's `disks` list. */
  datatype AttachedDisk =
    | InlineDisk(deviceName: string, kind: string, boot: bool, autoDelete: bool, initializeParams: InitializeParams)
    | ReferencedDisk(deviceName: string, kind: string, source: string, autoDelete: bool)

  /** An entry of the instance metadata's `items`. */
  datatype MetadataItem = MetadataItem(key: string, value: string)

  datatype ServiceAccount = ServiceAccount(email: string, scopes: seq<string>)

  datatype NetworkInterface = NetworkInterface(accessConfigs: seq<AccessConfig>, subnetwork: string)

  /** The `properties` of a `compute.v1.disk` resource. */
  datatype DiskProperties = DiskProperties(zone: string, sizeGb: int, diskType: string)

  /**
   * The `properties` of the `compute.v1.instance` resource; `metadata` and
   * `tags` hold the `items` lists of the two single-key dictionaries.
   */
  datatype InstanceProperties = InstanceProperties(
    zone: string,
    minCpuPlatform: string,
    machineType: string,
    metadata: seq<MetadataItem>,
    canIpForward: bool,
    serviceAccounts: seq<ServiceAccount>,
    networkInterfaces: seq<NetworkInterface>,
    tags: seq<string>,
    disks: seq<AttachedDisk>
  )

  /** One entry of the manifest's `resources`; `kind` is its `type` tag. */
  datatype Resource =
    | Disk(name: string, kind: string, diskProperties: DiskProperties)
    | Instance(name: string, kind: string, instanceProperties: InstanceProperties)

  /** The returned dictionary, whose single key is `resources`. */
  datatype Manifest = Manifest(resources: seq<Resource>)
}
