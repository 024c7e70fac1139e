/**
 * The disk classes. Every disk stores an id and a size (its base class);
 * the provider-folder classes also store a region and optional IOPS, the
 * two legacy top-level classes do not. `ToJson` takes the `created_at`
 * timestamp as a parameter instead of reading the clock.
 */
module Disks {
  import opened Js

  datatype Disk =
      /** src/models/aws/AWSDisk.js */
    | AwsDisk(id: Js, volumeType: Js, sizeGB: Js, encrypted: Js, region: Js, iops: Js)
      /** src/models/azure/AzureDisk.js */
    | AzureDisk(id: Js, diskSku: Js, sizeGB: Js, managedDisk: Js, region: Js, iops: Js)
      /** src/models/gcp/GCPDisk.js */
    | GcpDisk(id: Js, diskType: Js, sizeGB: Js, autoDelete: Js, region: Js, iops: Js)
      /** src/models/onpremise/OnPremiseDisk.js */
    | OnPremDisk(id: Js, storagePool: Js, sizeGB: Js, raidLevel: Js, region: Js, iops: Js)
      /** src/models/AWSDisk.js */
    | LegacyAwsDisk(id: Js, volumeType: Js, sizeGB: Js, encrypted: Js)
      /** src/models/AzureDisk.js */
    | LegacyAzureDisk(id: Js, diskSku: Js, sizeGB: Js, managedDisk: Js)
  {
    /** The classes that store a region and IOPS. */
    predicate Regional() {
      !LegacyAwsDisk? && !LegacyAzureDisk?
    }
  }

  const Provisioned := "provisioned"

  /** `new AWSDisk(...)` of src/models/aws/AWSDisk.js: IOPS are null unless given. */
  function NewAwsDisk(id: Js, volumeType: Js, sizeGB: Js, encrypted: Js, region: Js, iops: Js): (d: Disk)
    ensures d.AwsDisk? && d.id == id && d.volumeType == volumeType && d.sizeGB == sizeGB
    ensures d.encrypted == encrypted && d.region == region
    ensures iops == Undefined ==> d.iops == Null
    ensures iops != Undefined ==> d.iops == iops
  {
    AwsDisk(id, volumeType, sizeGB, encrypted, region, Default(iops, Null))
  }

  /** `new AzureDisk(...)` of src/models/azure/AzureDisk.js: IOPS are null unless given. */
  function NewAzureDisk(id: Js, diskSku: Js, sizeGB: Js, managedDisk: Js, region: Js, iops: Js): (d: Disk)
    ensures d.AzureDisk? && d.id == id && d.diskSku == diskSku && d.sizeGB == sizeGB
    ensures d.managedDisk == managedDisk && d.region == region
    ensures iops == Undefined ==> d.iops == Null
    ensures iops != Undefined ==> d.iops == iops
  {
    AzureDisk(id, diskSku, sizeGB, managedDisk, region, Default(iops, Null))
  }

  /** `new GCPDisk(...)` of src/models/gcp/GCPDisk.js: IOPS are null unless given. */
  function NewGcpDisk(id: Js, diskType: Js, sizeGB: Js, autoDelete: Js, region: Js, iops: Js): (d: Disk)
    ensures d.GcpDisk? && d.id == id && d.diskType == diskType && d.sizeGB == sizeGB
    ensures d.autoDelete == autoDelete && d.region == region
    ensures iops == Undefined ==> d.iops == Null
    ensures iops != Undefined ==> d.iops == iops
  {
    GcpDisk(id, diskType, sizeGB, autoDelete, region, Default(iops, Null))
  }

  /** `new OnPremiseDisk(...)` of src/models/onpremise/OnPremiseDisk.js: IOPS are null unless given. */
  function NewOnPremDisk(id: Js, storagePool: Js, sizeGB: Js, raidLevel: Js, region: Js, iops: Js): (d: Disk)
    ensures d.OnPremDisk? && d.id == id && d.storagePool == storagePool && d.sizeGB == sizeGB
    ensures d.raidLevel == raidLevel && d.region == region
    ensures iops == Undefined ==> d.iops == Null
    ensures iops != Undefined ==> d.iops == iops
  {
    OnPremDisk(id, storagePool, sizeGB, raidLevel, region, Default(iops, Null))
  }

  /** The provider tag each class writes into its serialised form. */
  function ProviderTag(d: Disk): string
  {
    match d
    case AwsDisk(_, _, _, _, _, _) => "aws"
    case LegacyAwsDisk(_, _, _, _) => "aws"
    case AzureDisk(_, _, _, _, _, _) => "azure"
    case LegacyAzureDisk(_, _, _, _) => "azure"
    case GcpDisk(_, _, _, _, _, _) => "gcp"
    case OnPremDisk(_, _, _, _, _, _) => "onpremise"
  }

  /** The two provider-specific attributes, keyed as the class keys them. */
  function Settings(d: Disk): Record
  {
    match d
    case AwsDisk(_, volumeType, _, encrypted, _, _) => map["volumeType" := volumeType, "encrypted" := encrypted]
    case LegacyAwsDisk(_, volumeType, _, encrypted) => map["volumeType" := volumeType, "encrypted" := encrypted]
    case AzureDisk(_, diskSku, _, managedDisk, _, _) => map["diskSku" := diskSku, "managedDisk" := managedDisk]
    case LegacyAzureDisk(_, diskSku, _, managedDisk) => map["diskSku" := diskSku, "managedDisk" := managedDisk]
    case GcpDisk(_, diskType, _, autoDelete, _, _) => map["diskType" := diskType, "autoDelete" := autoDelete]
    case OnPremDisk(_, storagePool, _, raidLevel, _, _) => map["storagePool" := storagePool, "raidLevel" := raidLevel]
  }

  /** `getSize()`: the stored size, the same value `getConfig()` and `toJSON()` report. */
  function GetSize(d: Disk): (r: Js)
    ensures r == GetConfig(d)["sizeGB"]
    ensures forall createdAt :: r == ToJson(d, createdAt)["size_gb"]
  {
    d.sizeGB
  }

  /**
   * `getConfig()`: the two attributes and the size; only the AWS disk of
   * src/models/aws/AWSDisk.js adds its region and IOPS.
   */
  function GetConfig(d: Disk): (r: Record)
    ensures r.Keys == Settings(d).Keys + {"sizeGB"} + (if d.AwsDisk? then {"region", "iops"} else {})
    ensures r["sizeGB"] == d.sizeGB
    ensures forall k :: k in Settings(d) ==> r[k] == Settings(d)[k]
    ensures d.AwsDisk? ==> r["region"] == d.region && r["iops"] == d.iops
  {
    var base := Settings(d)["sizeGB" := d.sizeGB];
    if d.AwsDisk? then base["region" := d.region]["iops" := d.iops] else base
  }

  /** `toJSON()`: the record persisted in the `disks` table. */
  function ToJson(d: Disk, createdAt: string): (r: Record)
    ensures r.Keys == {"disk_id", "provider", "size_gb", "config", "status", "created_at"}
                      + (if d.Regional() then {"region", "iops"} else {})
    ensures "disk_id" in r && r["disk_id"] == d.id
    ensures "provider" in r && r["provider"] == Str(ProviderTag(d))
    ensures "size_gb" in r && r["size_gb"] == d.sizeGB
    ensures "config" in r && r["config"] == Obj(Settings(d))
    ensures "status" in r && r["status"] == Str(Provisioned)
    ensures "created_at" in r && r["created_at"] == Str(createdAt)
    ensures ("region" in r <==> d.Regional()) && ("iops" in r <==> d.Regional())
    ensures d.Regional() ==> r["region"] == d.region && r["iops"] == d.iops
  {
    var common := map["disk_id" := d.id, "provider" := Str(ProviderTag(d)), "size_gb" := d.sizeGB,
                      "config" := Obj(Settings(d)), "status" := Str(Provisioned), "created_at" := Str(createdAt)];
    if d.Regional() then common["region" := d.region]["iops" := d.iops] else common
  }

  /** The serialised `config` is `getConfig()` without the size, region and IOPS. */
  lemma ConfigIsGetConfigWithoutSize(d: Disk, createdAt: string)
    ensures ToJson(d, createdAt)["config"] == Obj(GetConfig(d) - {"sizeGB", "region", "iops"})
  {
    assert GetConfig(d) - {"sizeGB", "region", "iops"} == Settings(d);
  }
}
