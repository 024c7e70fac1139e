/**
 * The two factory families. A family factory (such as src/factories/aws/AWSFactory.js)
 * creates a virtual machine, a network and a disk of one provider; a VM
 * factory (such as src/factories/aws/AWSVMFactory.js) creates a virtual machine only.
 * Each creator reads a fixed list of fields of its parameter object and
 * passes them positionally to one constructor, with an id made of a
 * per-resource prefix and `${Date.now()}-${random}`; that timestamp and
 * random part is the `suffix` parameter here.
 */
module Factories {
  import opened Js
  import opened VirtualMachines
  import N = Networks
  import D = Disks

  datatype FamilyFactory = AwsFactory | AzureFactory | GcpFactory | OnPremFactory
  {
    /** The provider tag the family's resources serialise with. */
    function Tag(): string {
      match this
      case AwsFactory => "aws"
      case AzureFactory => "azure"
      case GcpFactory => "gcp"
      case OnPremFactory => "onpremise"
    }

    /** The id prefix shared by the family's three resources, such as `aws-`. */
    function Prefix(): string {
      match this
      case AwsFactory => "aws-"
      case AzureFactory => "azure-"
      case GcpFactory => "gcp-"
      case OnPremFactory => "onprem-"
    }
  }

  /**
   * `createVirtualMachine(params)`. Only the listed fields are read; the
   * sizing, flags and key pair of the full-field classes are left to their
   * constructor defaults.
   */
  function CreateVirtualMachine(f: FamilyFactory, params: Record, suffix: string): (vm: Vm)
    ensures ProviderTag(vm) == f.Tag() && Constructed(vm)
    ensures vm.id == Str(f.Prefix() + "vm-" + suffix)
    ensures f.AwsFactory? ==>
              && vm.AwsVm? && vm.instanceType == Get(params, "instanceType") && vm.region == Get(params, "region")
              && vm.vpcId == Get(params, "vpcId") && vm.ami == Get(params, "ami")
              && vm.vcpus == Undefined && vm.memoryGB == Undefined
              && vm.memoryOptimization == Bool(false) && vm.diskOptimization == Bool(false) && vm.keyPairName == Null
    ensures f.AzureFactory? ==>
              && vm.PlainAzureVm? && vm.vmSize == Get(params, "vmSize") && vm.location == Get(params, "location")
              && vm.resourceGroup == Get(params, "resourceGroup") && vm.imageReference == Get(params, "imageReference")
              && vm.vcpus == Undefined && vm.memoryGB == Undefined
              && vm.memoryOptimization == Bool(false) && vm.diskOptimization == Bool(false) && vm.keyPairName == Null
    ensures f.GcpFactory? ==>
              && vm.LegacyGcpVm? && vm.machineType == Get(params, "machineType") && vm.zone == Get(params, "zone")
              && vm.disk == Get(params, "project") && vm.project == Get(params, "image")
    ensures f.OnPremFactory? ==>
              && vm.OnPremVm? && vm.instanceType == Get(params, "cpu") && vm.vcpus == Get(params, "ram")
              && vm.memoryGB == Get(params, "hypervisor") && vm.hypervisor == Get(params, "network")
              && vm.datacenter == Undefined
              && vm.memoryOptimization == Bool(false) && vm.diskOptimization == Bool(false) && vm.keyPairName == Null
  {
    var id := Str(f.Prefix() + "vm-" + suffix);
    match f
    case AwsFactory =>
      NewAwsVm(id, Get(params, "instanceType"), Get(params, "region"), Get(params, "vpcId"), Get(params, "ami"),
               Undefined, Undefined, Undefined, Undefined, Undefined)
    case AzureFactory =>
      NewPlainAzureVm(id, Get(params, "vmSize"), Get(params, "location"), Get(params, "resourceGroup"),
                      Get(params, "imageReference"), Undefined, Undefined, Undefined, Undefined, Undefined)
    case GcpFactory =>
      NewLegacyGcpVm(id, Get(params, "machineType"), Get(params, "zone"), Get(params, "project"), Get(params, "image"))
    case OnPremFactory =>
      NewOnPremVm(id, Get(params, "cpu"), Get(params, "ram"), Get(params, "hypervisor"), Get(params, "network"),
                  Undefined, Undefined, Undefined, Undefined)
  }

  /** `createNetwork(params)`: the three names and the region, in the constructor's order. */
  function CreateNetwork(f: FamilyFactory, params: Record, suffix: string): (n: N.Network)
    ensures N.ProviderTag(n) == f.Tag()
    ensures n.id == Str(f.Prefix() + "net-" + suffix) && n.region == Get(params, "region")
    ensures f.AwsFactory? ==>
              && n.AwsNetwork? && n.vpcId == Get(params, "vpcId") && n.subnet == Get(params, "subnet")
              && n.securityGroup == Get(params, "securityGroup")
    ensures f.AzureFactory? ==>
              && n.AzureNetwork? && n.virtualNetwork == Get(params, "virtualNetwork")
              && n.subnetName == Get(params, "subnetName")
              && n.networkSecurityGroup == Get(params, "networkSecurityGroup")
              && n.firewallRules == Arr([]) && n.publicIP == Bool(false)
    ensures f.GcpFactory? ==>
              && n.GcpNetwork? && n.networkName == Get(params, "networkName")
              && n.subnetworkName == Get(params, "subnetworkName") && n.firewallTag == Get(params, "firewallTag")
    ensures f.OnPremFactory? ==>
              && n.OnPremNetwork? && n.physicalInterface == Get(params, "physicalInterface")
              && n.vlanId == Get(params, "vlanId") && n.firewallPolicy == Get(params, "firewallPolicy")
  {
    var id := Str(f.Prefix() + "net-" + suffix);
    match f
    case AwsFactory =>
      N.AwsNetwork(id, Get(params, "vpcId"), Get(params, "subnet"), Get(params, "securityGroup"), Get(params, "region"))
    case AzureFactory =>
      N.NewAzureNetwork(id, Get(params, "virtualNetwork"), Get(params, "subnetName"),
                        Get(params, "networkSecurityGroup"), Get(params, "region"), Undefined, Undefined)
    case GcpFactory =>
      N.GcpNetwork(id, Get(params, "networkName"), Get(params, "subnetworkName"), Get(params, "firewallTag"),
                   Get(params, "region"))
    case OnPremFactory =>
      N.OnPremNetwork(id, Get(params, "physicalInterface"), Get(params, "vlanId"), Get(params, "firewallPolicy"),
                      Get(params, "region"))
  }

  /**
   * `createDisk(params)`: the type, size and boolean (or RAID level) only;
   * the region-carrying classes get an undefined region and null IOPS.
   */
  function CreateDisk(f: FamilyFactory, params: Record, suffix: string): (d: D.Disk)
    ensures D.ProviderTag(d) == f.Tag()
    ensures d.id == Str(f.Prefix() + "disk-" + suffix) && d.sizeGB == Get(params, "sizeGB")
    ensures d.Regional() ==> d.region == Undefined && d.iops == Null
    ensures f.AwsFactory? ==>
              d.AwsDisk? && d.volumeType == Get(params, "volumeType") && d.encrypted == Get(params, "encrypted")
    ensures f.AzureFactory? ==>
              d.LegacyAzureDisk? && d.diskSku == Get(params, "diskSku") && d.managedDisk == Get(params, "managedDisk")
    ensures f.GcpFactory? ==>
              d.GcpDisk? && d.diskType == Get(params, "diskType") && d.autoDelete == Get(params, "autoDelete")
    ensures f.OnPremFactory? ==>
              d.OnPremDisk? && d.storagePool == Get(params, "storagePool") && d.raidLevel == Get(params, "raidLevel")
  {
    var id := Str(f.Prefix() + "disk-" + suffix);
    match f
    case AwsFactory =>
      D.NewAwsDisk(id, Get(params, "volumeType"), Get(params, "sizeGB"), Get(params, "encrypted"), Undefined, Undefined)
    case AzureFactory =>
      D.LegacyAzureDisk(id, Get(params, "diskSku"), Get(params, "sizeGB"), Get(params, "managedDisk"))
    case GcpFactory =>
      D.NewGcpDisk(id, Get(params, "diskType"), Get(params, "sizeGB"), Get(params, "autoDelete"), Undefined, Undefined)
    case OnPremFactory =>
      D.NewOnPremDisk(id, Get(params, "storagePool"), Get(params, "sizeGB"), Get(params, "raidLevel"),
                      Undefined, Undefined)
  }

  /** The fields of the parameter object a family's VM creator reads. */
  function VmFieldsRead(f: FamilyFactory): set<string> {
    match f
    case AwsFactory => {"instanceType", "region", "vpcId", "ami"}
    case AzureFactory => {"vmSize", "location", "resourceGroup", "imageReference"}
    case GcpFactory => {"machineType", "zone", "project", "image"}
    case OnPremFactory => {"cpu", "ram", "hypervisor", "network"}
  }

  /** Two parameter objects that agree on the given fields. */
  predicate AgreeOn(p: Record, q: Record, keys: set<string>) {
    forall k :: k in keys ==> Get(p, k) == Get(q, k)
  }

  /**
   * The VM creators read nothing but their listed fields: vCPUs, memory, the
   * optimisation flags and the key pair of the parameter object never reach
   * the created VM.
   */
  lemma VmCreatorReadsOnlyListedFields(f: FamilyFactory, p: Record, q: Record, suffix: string)
    requires AgreeOn(p, q, VmFieldsRead(f))
    ensures CreateVirtualMachine(f, p, suffix) == CreateVirtualMachine(f, q, suffix)
  {
    match f
    case AwsFactory =>
      assert Get(p, "instanceType") == Get(q, "instanceType") && Get(p, "region") == Get(q, "region");
      assert Get(p, "vpcId") == Get(q, "vpcId") && Get(p, "ami") == Get(q, "ami");
    case AzureFactory =>
      assert Get(p, "vmSize") == Get(q, "vmSize") && Get(p, "location") == Get(q, "location");
      assert Get(p, "resourceGroup") == Get(q, "resourceGroup");
      assert Get(p, "imageReference") == Get(q, "imageReference");
    case GcpFactory =>
      assert Get(p, "machineType") == Get(q, "machineType") && Get(p, "zone") == Get(q, "zone");
      assert Get(p, "project") == Get(q, "project") && Get(p, "image") == Get(q, "image");
    case OnPremFactory =>
      assert Get(p, "cpu") == Get(q, "cpu") && Get(p, "ram") == Get(q, "ram");
      assert Get(p, "hypervisor") == Get(q, "hypervisor") && Get(p, "network") == Get(q, "network");
  }

  /**
   * A family is consistent: its VM, network and disk serialise with the same
   * provider tag, and their ids differ even when the timestamp and random
   * parts coincide.
   */
  lemma FamilyIsConsistent(f: FamilyFactory, params: Record, suffix: string)
    ensures var vm, n, d := CreateVirtualMachine(f, params, suffix), CreateNetwork(f, params, suffix),
                            CreateDisk(f, params, suffix);
            ProviderTag(vm) == N.ProviderTag(n) == D.ProviderTag(d) == f.Tag()
            && vm.id != n.id && vm.id != d.id && n.id != d.id
  {
    var k := |f.Prefix()|;
    var vmId, netId, diskId := f.Prefix() + "vm-" + suffix, f.Prefix() + "net-" + suffix, f.Prefix() + "disk-" + suffix;
    assert vmId[k] == 'v' && netId[k] == 'n' && diskId[k] == 'd';
  }

  /**
   * The shifted positional mappings, as they show in the serialised VM: the
   * GCP family stores `params.project` as the disk and `params.image` as the
   * project; the on-premise family stores `params.ram` as vCPUs and
   * `params.hypervisor` as memory.
   */
  lemma ShiftedMappingsShowInJson(params: Record, suffix: string)
    ensures var r := ToJson(CreateVirtualMachine(GcpFactory, params, suffix));
            r["disk"] == Get(params, "project") && r["project"] == Get(params, "image")
    ensures var r := ToJson(CreateVirtualMachine(OnPremFactory, params, suffix));
            r["instance_type"] == Get(params, "cpu") && r["vcpus"] == Get(params, "ram")
            && r["memory_gb"] == Get(params, "hypervisor") && r["hypervisor"] == Get(params, "network")
            && r["datacenter"] == Undefined
  {
  }

  datatype VmFactory = AwsVmFactory | AzureVmFactory | GcpVmFactory | OnPremVmFactory
  {
    function Tag(): string {
      match this
      case AwsVmFactory => "aws"
      case AzureVmFactory => "azure"
      case GcpVmFactory => "gcp"
      case OnPremVmFactory => "onpremise"
    }

    /** The id prefix, such as `aws-`; the on-premise one is spelled out. */
    function Prefix(): string {
      match this
      case AwsVmFactory => "aws-"
      case AzureVmFactory => "azure-"
      case GcpVmFactory => "gcp-"
      case OnPremVmFactory => "onpremise-"
    }
  }

  /** `createVM(params)`: four fields passed positionally to one constructor; none is validated. */
  function CreateVm(f: VmFactory, params: Record, suffix: string): (vm: Vm)
    ensures ProviderTag(vm) == f.Tag() && Constructed(vm)
    ensures vm.id == Str(f.Prefix() + suffix)
    ensures f.AwsVmFactory? ==>
              && vm.AwsVm? && vm.instanceType == Get(params, "instanceType") && vm.region == Get(params, "region")
              && vm.vpcId == Get(params, "vpcId") && vm.ami == Get(params, "ami")
              && vm.memoryOptimization == Bool(false) && vm.diskOptimization == Bool(false) && vm.keyPairName == Null
    ensures f.AzureVmFactory? ==>
              && vm.PlainAzureVm? && vm.vmSize == Get(params, "vmSize") && vm.location == Get(params, "resourceGroup")
              && vm.resourceGroup == Get(params, "image") && vm.imageReference == Get(params, "virtualNetwork")
              && vm.vcpus == Undefined && vm.memoryGB == Undefined
    ensures f.GcpVmFactory? ==>
              && vm.LegacyGcpVm? && vm.machineType == Get(params, "machineType") && vm.zone == Get(params, "zone")
              && vm.disk == Get(params, "disk") && vm.project == Get(params, "project")
    ensures f.OnPremVmFactory? ==>
              && vm.LegacyOnPremVm? && vm.cpu == Get(params, "cpu") && vm.ram == Get(params, "ram")
              && vm.disk == Get(params, "disk") && vm.network == Get(params, "network")
  {
    var id := Str(f.Prefix() + suffix);
    match f
    case AwsVmFactory =>
      NewAwsVm(id, Get(params, "instanceType"), Get(params, "region"), Get(params, "vpcId"), Get(params, "ami"),
               Undefined, Undefined, Undefined, Undefined, Undefined)
    case AzureVmFactory =>
      NewPlainAzureVm(id, Get(params, "vmSize"), Get(params, "resourceGroup"), Get(params, "image"),
                      Get(params, "virtualNetwork"), Undefined, Undefined, Undefined, Undefined, Undefined)
    case GcpVmFactory =>
      NewLegacyGcpVm(id, Get(params, "machineType"), Get(params, "zone"), Get(params, "disk"), Get(params, "project"))
    case OnPremVmFactory =>
      NewLegacyOnPremVm(id, Get(params, "cpu"), Get(params, "ram"), Get(params, "disk"), Get(params, "network"))
  }

  /** The Azure VM factory's shifted slots, as they show in the serialised VM. */
  lemma AzureVmFactoryShiftShowsInJson(params: Record, suffix: string)
    ensures var r := ToJson(CreateVm(AzureVmFactory, params, suffix));
            r["provider"] == Str("azure") && r["region"] == Get(params, "resourceGroup")
            && r["resource_group"] == Get(params, "image") && r["image"] == Get(params, "virtualNetwork")
            && r["vcpus"] == Undefined && r["memory_gb"] == Undefined
  {
  }
}
