# SAP DB2 on Windows deployment template, in Dafny

The template `sap/dm-templates/sap_db2-win/sap_db2-win.py` is a Deployment Manager
template. Its `GenerateConfig` takes a deployment's properties (zone, instance
name, machine type, Windows image, subnetwork, public-IP and SSD flags, volume
sizes) and its environment (project, project number). It returns a manifest:
first the disk resources, then the one `compute.v1.instance` resource. The
instance's `disks` list starts with an inline 64 GB boot disk. It then holds
one `$(ref.<name>.selfLink)` back-reference per declared disk. The three
helpers `GlobalComputeUrl`, `ZonalComputeUrl` and `RegionalComputeUrl` build
Compute Engine API URLs by plain concatenation.

Files:

- `wrappers.dfy`: `Option`, for the properties that may be unset.
- `py_strings.dfy` (module `PyStrings`): the Python string operations the
  template uses, with Python's semantics. These are `rfind`, the prefix slice
  `s[:stop]` with a negative `stop`, `split` on one character, and `join`.
- `compute_urls.dfy` (module `ComputeUrls`): the three URL builders. Lemmas
  give each URL's exact shape. They show that splitting it on '/' recovers its
  arguments when the arguments contain no '/', and that on '/'-free arguments the builder is injective.
- `deployment.dfy` (module `Deployment`): typed records for the input context
  and for the output manifest.
- `sap_db2_win.dfy` (module `SapDb2Win`): the derivations (region, subnetwork
  URL, access configs, disk types, tags, service account) and the table of
  declared volumes. `ExpectedManifest` is a declarative description of the
  manifest. `GenerateConfig` is a method that builds the manifest as the
  template does, growing the resource list and the disk list one append at a
  time. It is proved to return `ExpectedManifest(ctx)`.
- `sap_db2_win_properties.dfy` (module `SapDb2WinProperties`): what the
  manifest promises, proved about `ExpectedManifest`.

Two behaviours of the template are easy to miss; the model keeps both:

- A zone without '-' loses its last character: `rfind` returns -1, and the
  slice up to -1 drops the last character. An empty zone, a one-character
  zone, or a zone whose only '-' comes first gives an empty region.
- A shared-VPC subnetwork `a/b/c` ignores every piece after the second.

String comparisons are modelled as written. `publicIP` turns off the external
address only when it is exactly `"False"`. A log or sapdata disk is an SSD
only when its flag is exactly `"True"`.

`GenerateConfig`'s postcondition fixes its result as a function of the input.
So two calls with the same context return equal manifests.

## Model

| member | source | states |
|---|---|---|
| PyStrings.RFind | sap/dm-templates/sap_db2-win/sap_db2-win.py:47 | the result is -1 or an index holding the character, and no later index holds it, so it is the last occurrence or -1 when there is none |
| PyStrings.SliceTo | sap/dm-templates/sap_db2-win/sap_db2-win.py:47 | Python's `s[:stop]` is always a prefix of `s`: of length `stop` when 0 <= stop <= len(s), all of `s` beyond that, of length len(s) + stop for a negative stop down to -len(s), and empty below that |
| PyStrings.Split | sap/dm-templates/sap_db2-win/sap_db2-win.py:69 | at least one piece; no piece contains the separator; joining the pieces with the separator gives back the string; there is exactly one piece iff the separator does not occur |
| PyStrings.SplitJoin | sap/dm-templates/sap_db2-win/sap_db2-win.py:52 | splitting the join of separator-free pieces gives back exactly those pieces, empty pieces included |
| ComputeUrls.GlobalComputeUrl | sap/dm-templates/sap_db2-win/sap_db2-win.py:24-26 | the URL starts with the API base and ends with "/" + name |
| ComputeUrls.ZonalComputeUrl | sap/dm-templates/sap_db2-win/sap_db2-win.py:29-31 | the URL starts with the API base and ends with "/" + name |
| ComputeUrls.RegionalComputeUrl | sap/dm-templates/sap_db2-win/sap_db2-win.py:34-36 | the URL starts with the API base and ends with "/" + name |
| ComputeUrls.GlobalUrlShape | sap/dm-templates/sap_db2-win/sap_db2-win.py:21-26 | for every input, with no validation, the URL is the base followed by projects, project, global, collection and name joined with '/' |
| ComputeUrls.ZonalUrlShape | sap/dm-templates/sap_db2-win/sap_db2-win.py:29-31 | for every input, the URL is the base followed by projects, project, zones, zone, collection and name joined with '/' |
| ComputeUrls.RegionalUrlShape | sap/dm-templates/sap_db2-win/sap_db2-win.py:34-36 | for every input, the URL is the base followed by projects, project, regions, region, collection and name joined with '/' |
| ComputeUrls.GlobalUrlSegments | sap/dm-templates/sap_db2-win/sap_db2-win.py:24-26 | after the base, splitting the URL on '/' gives back projects, project, global, collection and name when none contains '/' |
| ComputeUrls.ZonalUrlSegments | sap/dm-templates/sap_db2-win/sap_db2-win.py:29-31 | after the base, splitting the URL on '/' gives back its six segments when the arguments are '/'-free |
| ComputeUrls.RegionalUrlSegments | sap/dm-templates/sap_db2-win/sap_db2-win.py:34-36 | after the base, splitting the URL on '/' gives back its six segments when the arguments are '/'-free |
| ComputeUrls.GlobalUrlInjective | sap/dm-templates/sap_db2-win/sap_db2-win.py:24-26 | on '/'-free arguments, equal global URLs have equal project, collection and name |
| ComputeUrls.ZonalUrlInjective | sap/dm-templates/sap_db2-win/sap_db2-win.py:29-31 | on '/'-free arguments, equal zonal URLs have equal project, zone, collection and name |
| ComputeUrls.RegionalUrlInjective | sap/dm-templates/sap_db2-win/sap_db2-win.py:34-36 | on '/'-free arguments, equal regional URLs have equal project, region, collection and name |
| SapDb2Win.Region | sap/dm-templates/sap_db2-win/sap_db2-win.py:47 | for a zone with '-', the region is the prefix before the last '-'; for a zone without '-', it is the zone minus its last character, and an empty zone gives an empty region |
| SapDb2Win.AccessConfigs | sap/dm-templates/sap_db2-win/sap_db2-win.py:74-81 | there are no access configs iff publicIP is exactly "False"; otherwise there is exactly one, the external-nat ONE_TO_ONE_NAT config |
| SapDb2Win.DiskTypeFor | sap/dm-templates/sap_db2-win/sap_db2-win.py:83-92 | the type is pd-ssd iff the flag is exactly "True", and pd-standard otherwise |
| SapDb2Win.NetworkTags | sap/dm-templates/sap_db2-win/sap_db2-win.py:50-52 | no tags iff the tag property is unset or empty; otherwise comma-free pieces that join back with ',' to the property |
| SapDb2Win.ServiceAccountEmail | sap/dm-templates/sap_db2-win/sap_db2-win.py:53 | the given service account, or the project number followed by "-compute@developer.gserviceaccount.com" when none is given |
| SapDb2Win.SubnetworkUrl | sap/dm-templates/sap_db2-win/sap_db2-win.py:67-72 | no contract of its own; PlainSubnetwork, SharedVpcSubnetwork and SharedVpcExtraPieces state its result for every input |
| SapDb2Win.BootDisk | sap/dm-templates/sap_db2-win/sap_db2-win.py:99-108 | no contract of its own; InstanceDiskReferences states it as the first disk of the instance: device boot, disk name instance + "-boot", the image URL, size "64" |
| SapDb2Win.InstanceResource | sap/dm-templates/sap_db2-win/sap_db2-win.py:224-258 | no contract of its own; InstanceSettings states every setting of the instance and ResourceCount its kind, name and place as the last resource |
| SapDb2Win.GenerateConfig | sap/dm-templates/sap_db2-win/sap_db2-win.py:94-260 | the manifest built by successive appends is the declarative manifest: the declared volumes' disk resources, then the instance with the boot disk and one back-reference per disk resource |
| SapDb2WinProperties.ResourceCount | sap/dm-templates/sap_db2-win/sap_db2-win.py:111-260 | 6 + (usrsap enabled) + (swap enabled) resources, so 6 to 8; all but the last are compute.v1.disk resources; the last is the compute.v1.instance named after the instance; the disk list is as long as the resource list |
| SapDb2WinProperties.VolumeTable | sap/dm-templates/sap_db2-win/sap_db2-win.py:110-222 | helper for the manifest lemmas, reading the volume table back: the declared volumes position by position, namely five fixed volumes with their sizes and types, then usrsap at position 5 and swap last when enabled |
| SapDb2WinProperties.VolumeNames | sap/dm-templates/sap_db2-win/sap_db2-win.py:110-222 | helper for the manifest lemmas, reading the volume table back: the volume names are, in order, the instance name with -db2sid, -db2saptmp, -db2log, -db2sapdata, -db2backup, then -usrsap and -swap when enabled |
| SapDb2WinProperties.StandardVolume | sap/dm-templates/sap_db2-win/sap_db2-win.py:110-222 | helper for the manifest lemmas, reading the volume table back: every declared volume other than log and sapdata uses pd-standard |
| SapDb2WinProperties.ResourceOrder | sap/dm-templates/sap_db2-win/sap_db2-win.py:110-226 | the resource names are, in order, -db2sid, -db2saptmp, -db2log, -db2sapdata, -db2backup, then -usrsap and -swap when enabled, then the instance name; disk resource i has the size of declared volume i |
| SapDb2WinProperties.SelfLinkRefInjective | sap/dm-templates/sap_db2-win/sap_db2-win.py:120-124 | a "$(ref.<name>.selfLink)" string determines the name it refers to |
| SapDb2WinProperties.ResourceNamesDistinct | sap/dm-templates/sap_db2-win/sap_db2-win.py:111-226 | no two resources of the manifest share a name |
| SapDb2WinProperties.InstanceDiskReferences | sap/dm-templates/sap_db2-win/sap_db2-win.py:99-124 | disks[0] is the inline boot disk (device boot, disk name instance + "-boot", image URL, size "64"); each disks[i], i >= 1, has device name R[i-1].name and source "$(ref." + R[i-1].name + ".selfLink)", where R[i-1] is a disk resource |
| SapDb2WinProperties.ReferencesResolveUniquely | sap/dm-templates/sap_db2-win/sap_db2-win.py:120-222 | the back-reference in disks[i] names resource j iff j == i - 1 |
| SapDb2WinProperties.OptionalVolume | sap/dm-templates/sap_db2-win/sap_db2-win.py:190-222 | a usrsap (or swap) disk resource, and an attachment of that name, appear iff the size is > 0; the resource then has exactly that size and the pd-standard type |
| SapDb2WinProperties.SsdSelection | sap/dm-templates/sap_db2-win/sap_db2-win.py:142-172 | resources 2 and 3 are the log and sapdata disks; each type URL ends in /pd-ssd iff its flag is exactly "True", and in /pd-standard iff it is not |
| SapDb2WinProperties.StandardDisks | sap/dm-templates/sap_db2-win/sap_db2-win.py:110-222 | every other disk resource (db2sid, saptmp, backup, usrsap, swap) has the pd-standard type URL |
| SapDb2WinProperties.InstanceSettings | sap/dm-templates/sap_db2-win/sap_db2-win.py:224-258 | the instance's zone, the "Automatic" CPU platform, machine type URL, IP forwarding, startup-script item, one service account with the seven scopes, and tags; one network interface on the derived subnetwork, with no access configs iff publicIP is "False" and otherwise one external NAT |
| SapDb2WinProperties.RegionOfZone | sap/dm-templates/sap_db2-win/sap_db2-win.py:47 | a zone named region + "-" + letter, where the letter part has no '-', lies in that region |
| SapDb2WinProperties.RegionExamples | sap/dm-templates/sap_db2-win/sap_db2-win.py:47 | us-central1-a gives us-central1, europe-west3-a gives europe-west3, "zone" gives "zon"; "", "a", "-a" and "-" give "" |
| SapDb2WinProperties.PlainSubnetwork | sap/dm-templates/sap_db2-win/sap_db2-win.py:71-72 | a subnetwork without '/' is a regional subnetworks URL in the deployment's own project |
| SapDb2WinProperties.SharedVpcSubnetwork | sap/dm-templates/sap_db2-win/sap_db2-win.py:67-70 | a subnetwork value `host/name` is the subnetwork `name` of the host project `host`, in the deployment's region |
| SapDb2WinProperties.SharedVpcExtraPieces | sap/dm-templates/sap_db2-win/sap_db2-win.py:67-70 | in `host/name/rest` the pieces after the second '/' are ignored |
| SapDb2WinProperties.NetworkTagsRoundTrip | sap/dm-templates/sap_db2-win/sap_db2-win.py:52 | a non-empty comma-joined list of comma-free tags is parsed back to exactly that list, empty tags included |
| SapDb2WinProperties.NetworkTagsExamples | sap/dm-templates/sap_db2-win/sap_db2-win.py:52 | unset and "" give no tags, "a,b" gives [a, b], and "a,,b" gives [a, "", b] |
| SapDb2WinProperties.PublicInstanceWithSwapOnly | sap/dm-templates/sap_db2-win/sap_db2-win.py:190-258 | with usrsap 0, swap 100 and publicIP "True": 7 resources, 7 disks, one network interface with one access config, and no usrsap resource |

## Left out

- The dynamic `context` lookups and the `KeyError` a missing required property raises (lines 43-65). The input is a typed record in which every required property is present.
- Python's `str()` coercion of arbitrary values. `publicIP`, `db2logSSD` and `db2sapdataSSD` are strings already, and sizes are integers.
- `db2SID` is carried in the input record but, as in the source, never used (line 56).
- The orchestration engine that creates the resources and resolves `$(ref.<name>.selfLink)`. Only the exact string format of the reference is modelled.
- The startup script behind `PrimaryStartupUrl` and the OAuth scope URLs. They are carried as literal constants, with no behaviour to verify.
- Dictionary key order and JSON serialisation of the manifest. The output is typed records whose fields mirror the source's keys; `metadata` and `tags` hold their `items` lists directly.
- ComputeUrls.GlobalUrlSegments, ComputeUrls.ZonalUrlSegments, ComputeUrls.RegionalUrlSegments: they recover the arguments only when the arguments contain no '/'. For other arguments the exact shape is still stated by the corresponding `*UrlShape` lemma.
