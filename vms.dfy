/**
 * The virtual machine classes. Each JavaScript class is one constructor of
 * `Vm`; its fields are the object's attributes. The `New*` functions are the
 * JavaScript constructors (status 'active', default parameters applied),
 * `ToJson` is `toJSON()` and `Clone` is `clone()` with the fresh id passed in.
 */
module VirtualMachines {
  import opened Js

  datatype Vm =
      /** src/models/aws/AWSVirtualMachine.js */
    | AwsVm(id: Js, status: string, instanceType: Js, region: Js, vpcId: Js, ami: Js,
            vcpus: Js, memoryGB: Js, memoryOptimization: Js, diskOptimization: Js, keyPairName: Js)
      /** src/models/azure/AzureVirtualMachine.js (clonable) */
    | AzureVm(id: Js, status: string, vmSize: Js, location: Js, resourceGroup: Js, imageReference: Js,
              vcpus: Js, memoryGB: Js, memoryOptimization: Js, diskOptimization: Js, keyPairName: Js)
      /** src/models/AzureVirtualMachine.js: the same attributes, no clone() */
    | PlainAzureVm(id: Js, status: string, vmSize: Js, location: Js, resourceGroup: Js, imageReference: Js,
                   vcpus: Js, memoryGB: Js, memoryOptimization: Js, diskOptimization: Js, keyPairName: Js)
      /** src/models/gcp/GCPVirtualMachine.js (clonable) */
    | GcpVm(id: Js, status: string, machineType: Js, zone: Js, disk: Js, project: Js,
            vcpus: Js, memoryGB: Js, memoryOptimization: Js, diskOptimization: Js, keyPairName: Js)
      /** src/models/onpremise/OnPremiseVirtualMachine.js (clonable) */
    | OnPremVm(id: Js, status: string, instanceType: Js, vcpus: Js, memoryGB: Js, hypervisor: Js,
               datacenter: Js, memoryOptimization: Js, diskOptimization: Js, keyPairName: Js)
      /** src/models/AWSVirtualMachine.js */
    | LegacyAwsVm(id: Js, status: string, instanceType: Js, region: Js, vpcId: Js, ami: Js)
      /** src/models/GCPVirtualMachine.js */
    | LegacyGcpVm(id: Js, status: string, machineType: Js, zone: Js, disk: Js, project: Js)
      /** src/models/OnPremiseVirtualMachine.js */
    | LegacyOnPremVm(id: Js, status: string, cpu: Js, ram: Js, disk: Js, network: Js)
  {
    /** The classes that carry vCPU, memory, the two flags and the key pair. */
    predicate FullFields() {
      AwsVm? || AzureVm? || PlainAzureVm? || GcpVm? || OnPremVm?
    }
  }

  /** The status every constructor assigns. */
  const Active := "active"

  /**
   * What every JavaScript constructor guarantees of the object it returns:
   * status 'active' and, where the class has them, flags and key pair that
   * are never `undefined` because their default parameters replaced it.
   */
  predicate Constructed(vm: Vm) {
    vm.status == Active
    && (vm.FullFields() ==>
          vm.memoryOptimization != Undefined && vm.diskOptimization != Undefined && vm.keyPairName != Undefined)
  }

  /** `new AWSVirtualMachine(...)` of src/models/aws/AWSVirtualMachine.js. */
  function NewAwsVm(id: Js, instanceType: Js, region: Js, vpcId: Js, ami: Js, vcpus: Js, memoryGB: Js,
                    memoryOptimization: Js, diskOptimization: Js, keyPairName: Js): (vm: Vm)
    ensures vm.AwsVm? && Constructed(vm)
    ensures vm.id == id && vm.instanceType == instanceType && vm.region == region
    ensures vm.vpcId == vpcId && vm.ami == ami && vm.vcpus == vcpus && vm.memoryGB == memoryGB
    ensures memoryOptimization == Undefined ==> vm.memoryOptimization == Bool(false)
    ensures diskOptimization == Undefined ==> vm.diskOptimization == Bool(false)
    ensures keyPairName == Undefined ==> vm.keyPairName == Null
    ensures memoryOptimization != Undefined ==> vm.memoryOptimization == memoryOptimization
    ensures diskOptimization != Undefined ==> vm.diskOptimization == diskOptimization
    ensures keyPairName != Undefined ==> vm.keyPairName == keyPairName
  {
    AwsVm(id, Active, instanceType, region, vpcId, ami, vcpus, memoryGB,
          Default(memoryOptimization, Bool(false)), Default(diskOptimization, Bool(false)), Default(keyPairName, Null))
  }

  /** `new AzureVirtualMachine(...)` of src/models/azure/AzureVirtualMachine.js. */
  function NewAzureVm(id: Js, vmSize: Js, location: Js, resourceGroup: Js, imageReference: Js, vcpus: Js, memoryGB: Js,
                      memoryOptimization: Js, diskOptimization: Js, keyPairName: Js): (vm: Vm)
    ensures vm.AzureVm? && Constructed(vm)
    ensures vm.id == id && vm.vmSize == vmSize && vm.location == location
    ensures vm.resourceGroup == resourceGroup && vm.imageReference == imageReference
    ensures vm.vcpus == vcpus && vm.memoryGB == memoryGB
    ensures memoryOptimization == Undefined ==> vm.memoryOptimization == Bool(false)
    ensures diskOptimization == Undefined ==> vm.diskOptimization == Bool(false)
    ensures keyPairName == Undefined ==> vm.keyPairName == Null
    ensures memoryOptimization != Undefined ==> vm.memoryOptimization == memoryOptimization
    ensures diskOptimization != Undefined ==> vm.diskOptimization == diskOptimization
    ensures keyPairName != Undefined ==> vm.keyPairName == keyPairName
  {
    AzureVm(id, Active, vmSize, location, resourceGroup, imageReference, vcpus, memoryGB,
            Default(memoryOptimization, Bool(false)), Default(diskOptimization, Bool(false)), Default(keyPairName, Null))
  }

  /** `new AzureVirtualMachine(...)` of src/models/AzureVirtualMachine.js. */
  function NewPlainAzureVm(id: Js, vmSize: Js, location: Js, resourceGroup: Js, imageReference: Js, vcpus: Js, memoryGB: Js,
                           memoryOptimization: Js, diskOptimization: Js, keyPairName: Js): (vm: Vm)
    ensures vm.PlainAzureVm? && Constructed(vm)
    ensures vm.id == id && vm.vmSize == vmSize && vm.location == location
    ensures vm.resourceGroup == resourceGroup && vm.imageReference == imageReference
    ensures vm.vcpus == vcpus && vm.memoryGB == memoryGB
    ensures memoryOptimization == Undefined ==> vm.memoryOptimization == Bool(false)
    ensures diskOptimization == Undefined ==> vm.diskOptimization == Bool(false)
    ensures keyPairName == Undefined ==> vm.keyPairName == Null
    ensures memoryOptimization != Undefined ==> vm.memoryOptimization == memoryOptimization
    ensures diskOptimization != Undefined ==> vm.diskOptimization == diskOptimization
    ensures keyPairName != Undefined ==> vm.keyPairName == keyPairName
  {
    PlainAzureVm(id, Active, vmSize, location, resourceGroup, imageReference, vcpus, memoryGB,
                 Default(memoryOptimization, Bool(false)), Default(diskOptimization, Bool(false)), Default(keyPairName, Null))
  }

  /** `new GCPVirtualMachine(...)` of src/models/gcp/GCPVirtualMachine.js. */
  function NewGcpVm(id: Js, machineType: Js, zone: Js, disk: Js, project: Js, vcpus: Js, memoryGB: Js,
                    memoryOptimization: Js, diskOptimization: Js, keyPairName: Js): (vm: Vm)
    ensures vm.GcpVm? && Constructed(vm)
    ensures vm.id == id && vm.machineType == machineType && vm.zone == zone
    ensures vm.disk == disk && vm.project == project && vm.vcpus == vcpus && vm.memoryGB == memoryGB
    ensures memoryOptimization == Undefined ==> vm.memoryOptimization == Bool(false)
    ensures diskOptimization == Undefined ==> vm.diskOptimization == Bool(false)
    ensures keyPairName == Undefined ==> vm.keyPairName == Null
    ensures memoryOptimization != Undefined ==> vm.memoryOptimization == memoryOptimization
    ensures diskOptimization != Undefined ==> vm.diskOptimization == diskOptimization
    ensures keyPairName != Undefined ==> vm.keyPairName == keyPairName
  {
    GcpVm(id, Active, machineType, zone, disk, project, vcpus, memoryGB,
          Default(memoryOptimization, Bool(false)), Default(diskOptimization, Bool(false)), Default(keyPairName, Null))
  }

  /** `new OnPremiseVirtualMachine(...)` of src/models/onpremise/OnPremiseVirtualMachine.js. */
  function NewOnPremVm(id: Js, instanceType: Js, vcpus: Js, memoryGB: Js, hypervisor: Js, datacenter: Js,
                       memoryOptimization: Js, diskOptimization: Js, keyPairName: Js): (vm: Vm)
    ensures vm.OnPremVm? && Constructed(vm)
    ensures vm.id == id && vm.instanceType == instanceType && vm.vcpus == vcpus && vm.memoryGB == memoryGB
    ensures vm.hypervisor == hypervisor && vm.datacenter == datacenter
    ensures memoryOptimization == Undefined ==> vm.memoryOptimization == Bool(false)
    ensures diskOptimization == Undefined ==> vm.diskOptimization == Bool(false)
    ensures keyPairName == Undefined ==> vm.keyPairName == Null
    ensures memoryOptimization != Undefined ==> vm.memoryOptimization == memoryOptimization
    ensures diskOptimization != Undefined ==> vm.diskOptimization == diskOptimization
    ensures keyPairName != Undefined ==> vm.keyPairName == keyPairName
  {
    OnPremVm(id, Active, instanceType, vcpus, memoryGB, hypervisor, datacenter,
             Default(memoryOptimization, Bool(false)), Default(diskOptimization, Bool(false)), Default(keyPairName, Null))
  }

  /** `new AWSVirtualMachine(...)` of src/models/AWSVirtualMachine.js. */
  function NewLegacyAwsVm(id: Js, instanceType: Js, region: Js, vpcId: Js, ami: Js): (vm: Vm)
    ensures vm.LegacyAwsVm? && Constructed(vm)
    ensures vm.id == id && vm.instanceType == instanceType && vm.region == region && vm.vpcId == vpcId && vm.ami == ami
  {
    LegacyAwsVm(id, Active, instanceType, region, vpcId, ami)
  }

  /** `new GCPVirtualMachine(...)` of src/models/GCPVirtualMachine.js. */
  function NewLegacyGcpVm(id: Js, machineType: Js, zone: Js, disk: Js, project: Js): (vm: Vm)
    ensures vm.LegacyGcpVm? && Constructed(vm)
    ensures vm.id == id && vm.machineType == machineType && vm.zone == zone && vm.disk == disk && vm.project == project
  {
    LegacyGcpVm(id, Active, machineType, zone, disk, project)
  }

  /** `new OnPremiseVirtualMachine(...)` of src/models/OnPremiseVirtualMachine.js. */
  function NewLegacyOnPremVm(id: Js, cpu: Js, ram: Js, disk: Js, network: Js): (vm: Vm)
    ensures vm.LegacyOnPremVm? && Constructed(vm)
    ensures vm.id == id && vm.cpu == cpu && vm.ram == ram && vm.disk == disk && vm.network == network
  {
    LegacyOnPremVm(id, Active, cpu, ram, disk, network)
  }

  /** The provider tag each class writes into its serialised form. */
  function ProviderTag(vm: Vm): string
  {
    match vm
    case AwsVm(_, _, _, _, _, _, _, _, _, _, _) => "aws"
    case LegacyAwsVm(_, _, _, _, _, _) => "aws"
    case AzureVm(_, _, _, _, _, _, _, _, _, _, _) => "azure"
    case PlainAzureVm(_, _, _, _, _, _, _, _, _, _, _) => "azure"
    case GcpVm(_, _, _, _, _, _, _, _, _, _, _) => "gcp"
    case LegacyGcpVm(_, _, _, _, _, _) => "gcp"
    case OnPremVm(_, _, _, _, _, _, _, _, _, _) => "onpremise"
    case LegacyOnPremVm(_, _, _, _, _, _) => "onpremise"
  }

  /** The keys of the full-field classes' records that follow the class-specific ones. */
  const SizingKeys := {"vcpus", "memory_gb", "memory_optimization", "disk_optimization", "key_pair_name"}

  /** `toJSON()` of src/models/aws/AWSVirtualMachine.js. */
  function AwsJson(id: Js, status: string, instanceType: Js, region: Js, vpcId: Js, ami: Js,
                   vcpus: Js, memoryGB: Js, mo: Js, dO: Js, kp: Js): (r: Record)
    ensures r.Keys == {"vm_id", "provider", "status", "instance_type", "region", "vpc_id", "ami"} + SizingKeys
    ensures r["vm_id"] == id && r["provider"] == Str("aws") && r["status"] == Str(status)
    ensures r["instance_type"] == instanceType && r["region"] == region && r["vpc_id"] == vpcId && r["ami"] == ami
    ensures r["vcpus"] == vcpus && r["memory_gb"] == memoryGB
    ensures r["memory_optimization"] == mo && r["disk_optimization"] == dO && r["key_pair_name"] == kp
  {
    map["provider" := Str("aws"), "status" := Str(status),
        "instance_type" := instanceType, "region" := region, "vpc_id" := vpcId, "ami" := ami,
        "vcpus" := vcpus, "memory_gb" := memoryGB, "memory_optimization" := mo, "disk_optimization" := dO,
        "key_pair_name" := kp]["vm_id" := id]
  }

  /** `toJSON()` of both Azure classes: the location is written as `region`, the image reference as `image`. */
  function AzureJson(id: Js, status: string, vmSize: Js, location: Js, resourceGroup: Js, imageReference: Js,
                     vcpus: Js, memoryGB: Js, mo: Js, dO: Js, kp: Js): (r: Record)
    ensures r.Keys == {"vm_id", "provider", "status", "vm_size", "region", "resource_group", "image"} + SizingKeys
    ensures r["vm_id"] == id && r["provider"] == Str("azure") && r["status"] == Str(status)
    ensures r["vm_size"] == vmSize && r["region"] == location
    ensures r["resource_group"] == resourceGroup && r["image"] == imageReference
    ensures r["vcpus"] == vcpus && r["memory_gb"] == memoryGB
    ensures r["memory_optimization"] == mo && r["disk_optimization"] == dO && r["key_pair_name"] == kp
  {
    map["provider" := Str("azure"), "status" := Str(status),
        "vm_size" := vmSize, "region" := location, "resource_group" := resourceGroup, "image" := imageReference,
        "vcpus" := vcpus, "memory_gb" := memoryGB, "memory_optimization" := mo, "disk_optimization" := dO,
        "key_pair_name" := kp]["vm_id" := id]
  }

  /** `toJSON()` of src/models/gcp/GCPVirtualMachine.js. */
  function GcpJson(id: Js, status: string, machineType: Js, zone: Js, disk: Js, project: Js,
                   vcpus: Js, memoryGB: Js, mo: Js, dO: Js, kp: Js): (r: Record)
    ensures r.Keys == {"vm_id", "provider", "status", "machine_type", "zone", "disk", "project"} + SizingKeys
    ensures r["vm_id"] == id && r["provider"] == Str("gcp") && r["status"] == Str(status)
    ensures r["machine_type"] == machineType && r["zone"] == zone && r["disk"] == disk && r["project"] == project
    ensures r["vcpus"] == vcpus && r["memory_gb"] == memoryGB
    ensures r["memory_optimization"] == mo && r["disk_optimization"] == dO && r["key_pair_name"] == kp
  {
    map["provider" := Str("gcp"), "status" := Str(status),
        "machine_type" := machineType, "zone" := zone, "disk" := disk, "project" := project,
        "vcpus" := vcpus, "memory_gb" := memoryGB, "memory_optimization" := mo, "disk_optimization" := dO,
        "key_pair_name" := kp]["vm_id" := id]
  }

  /** `toJSON()` of src/models/onpremise/OnPremiseVirtualMachine.js. */
  function OnPremJson(id: Js, status: string, instanceType: Js, vcpus: Js, memoryGB: Js, hypervisor: Js,
                      datacenter: Js, mo: Js, dO: Js, kp: Js): (r: Record)
    ensures r.Keys == {"vm_id", "provider", "status", "instance_type", "hypervisor", "datacenter"} + SizingKeys
    ensures r["vm_id"] == id && r["provider"] == Str("onpremise") && r["status"] == Str(status)
    ensures r["instance_type"] == instanceType && r["hypervisor"] == hypervisor && r["datacenter"] == datacenter
    ensures r["vcpus"] == vcpus && r["memory_gb"] == memoryGB
    ensures r["memory_optimization"] == mo && r["disk_optimization"] == dO && r["key_pair_name"] == kp
  {
    map["provider" := Str("onpremise"), "status" := Str(status),
        "instance_type" := instanceType, "vcpus" := vcpus, "memory_gb" := memoryGB,
        "hypervisor" := hypervisor, "datacenter" := datacenter,
        "memory_optimization" := mo, "disk_optimization" := dO, "key_pair_name" := kp]["vm_id" := id]
  }

  /** `toJSON()` of src/models/AWSVirtualMachine.js. */
  function LegacyAwsJson(id: Js, status: string, instanceType: Js, region: Js, vpcId: Js, ami: Js): (r: Record)
    ensures r.Keys == {"vm_id", "provider", "status", "instance_type", "region", "vpc_id", "ami"}
    ensures r["vm_id"] == id && r["provider"] == Str("aws") && r["status"] == Str(status)
    ensures r["instance_type"] == instanceType && r["region"] == region && r["vpc_id"] == vpcId && r["ami"] == ami
  {
    map["provider" := Str("aws"), "status" := Str(status),
        "instance_type" := instanceType, "region" := region, "vpc_id" := vpcId, "ami" := ami]["vm_id" := id]
  }

  /** `toJSON()` of src/models/GCPVirtualMachine.js. */
  function LegacyGcpJson(id: Js, status: string, machineType: Js, zone: Js, disk: Js, project: Js): (r: Record)
    ensures r.Keys == {"vm_id", "provider", "status", "machine_type", "zone", "disk", "project"}
    ensures r["vm_id"] == id && r["provider"] == Str("gcp") && r["status"] == Str(status)
    ensures r["machine_type"] == machineType && r["zone"] == zone && r["disk"] == disk && r["project"] == project
  {
    map["provider" := Str("gcp"), "status" := Str(status),
        "machine_type" := machineType, "zone" := zone, "disk" := disk, "project" := project]["vm_id" := id]
  }

  /** `toJSON()` of src/models/OnPremiseVirtualMachine.js. */
  function LegacyOnPremJson(id: Js, status: string, cpu: Js, ram: Js, disk: Js, network: Js): (r: Record)
    ensures r.Keys == {"vm_id", "provider", "status", "cpu", "ram", "disk", "network"}
    ensures r["vm_id"] == id && r["provider"] == Str("onpremise") && r["status"] == Str(status)
    ensures r["cpu"] == cpu && r["ram"] == ram && r["disk"] == disk && r["network"] == network
  {
    map["provider" := Str("onpremise"), "status" := Str(status),
        "cpu" := cpu, "ram" := ram, "disk" := disk, "network" := network]["vm_id" := id]
  }

  /** `toJSON()`: the record persisted in the `virtual_machines` table. */
  function ToJson(vm: Vm): (r: Record)
    ensures r.Keys >= {"vm_id", "provider", "status"}
    ensures r["vm_id"] == vm.id && r["provider"] == Str(ProviderTag(vm)) && r["status"] == Str(vm.status)
    ensures vm.FullFields() <==> r.Keys >= SizingKeys
  {
    match vm
    case AwsVm(id, st, a, b, c, d, e, f, g, h, i) => AwsJson(id, st, a, b, c, d, e, f, g, h, i)
    case AzureVm(id, st, a, b, c, d, e, f, g, h, i) => AzureJson(id, st, a, b, c, d, e, f, g, h, i)
    case PlainAzureVm(id, st, a, b, c, d, e, f, g, h, i) => AzureJson(id, st, a, b, c, d, e, f, g, h, i)
    case GcpVm(id, st, a, b, c, d, e, f, g, h, i) => GcpJson(id, st, a, b, c, d, e, f, g, h, i)
    case OnPremVm(id, st, a, b, c, d, e, f, g, h) => OnPremJson(id, st, a, b, c, d, e, f, g, h)
    case LegacyAwsVm(id, st, a, b, c, d) => LegacyAwsJson(id, st, a, b, c, d)
    case LegacyGcpVm(id, st, a, b, c, d) => LegacyGcpJson(id, st, a, b, c, d)
    case LegacyOnPremVm(id, st, a, b, c, d) => LegacyOnPremJson(id, st, a, b, c, d)
  }

  /** `getId()`: the stored id, which is what `toJSON()` writes as `vm_id`. */
  function GetId(vm: Vm): (r: Js)
    ensures r == ToJson(vm)["vm_id"]
  {
    vm.id
  }

  /** `getStatus()`: the stored status, which is what `toJSON()` writes as `status`. */
  function GetStatus(vm: Vm): (r: string)
    ensures Str(r) == ToJson(vm)["status"]
    ensures Constructed(vm) ==> r == "active"
  {
    vm.status
  }

  /** Whether the class defines a `clone()` method. */
  predicate HasClone(vm: Vm) {
    vm.AzureVm? || vm.GcpVm? || vm.OnPremVm?
  }

  /** The same object with another id. */
  function WithId(vm: Vm, id: Js): Vm
  {
    match vm
    case AwsVm(_, st, a, b, c, d, e, f, g, h, i) => AwsVm(id, st, a, b, c, d, e, f, g, h, i)
    case AzureVm(_, st, a, b, c, d, e, f, g, h, i) => AzureVm(id, st, a, b, c, d, e, f, g, h, i)
    case PlainAzureVm(_, st, a, b, c, d, e, f, g, h, i) => PlainAzureVm(id, st, a, b, c, d, e, f, g, h, i)
    case GcpVm(_, st, a, b, c, d, e, f, g, h, i) => GcpVm(id, st, a, b, c, d, e, f, g, h, i)
    case OnPremVm(_, st, a, b, c, d, e, f, g, h) => OnPremVm(id, st, a, b, c, d, e, f, g, h)
    case LegacyAwsVm(_, st, a, b, c, d) => LegacyAwsVm(id, st, a, b, c, d)
    case LegacyGcpVm(_, st, a, b, c, d) => LegacyGcpVm(id, st, a, b, c, d)
    case LegacyOnPremVm(_, st, a, b, c, d) => LegacyOnPremVm(id, st, a, b, c, d)
  }

  /**
   * `clone()`: a new object of the same class built by its constructor from
   * every attribute of the source except the id, which is `newId`.
   */
  function Clone(vm: Vm, newId: string): (c: Vm)
    requires HasClone(vm)
    ensures HasClone(c) && ProviderTag(c) == ProviderTag(vm) && Constructed(c)
    ensures c.id == Str(newId)
    ensures Constructed(vm) ==> c == WithId(vm, Str(newId))
    ensures vm.id != Str(newId) ==> c != vm
  {
    match vm
    case AzureVm(_, _, vmSize, location, resourceGroup, imageReference, vcpus, memoryGB, mo, dO, kp) =>
      NewAzureVm(Str(newId), vmSize, location, resourceGroup, imageReference, vcpus, memoryGB, mo, dO, kp)
    case GcpVm(_, _, machineType, zone, disk, project, vcpus, memoryGB, mo, dO, kp) =>
      NewGcpVm(Str(newId), machineType, zone, disk, project, vcpus, memoryGB, mo, dO, kp)
    case OnPremVm(_, _, instanceType, vcpus, memoryGB, hypervisor, datacenter, mo, dO, kp) =>
      NewOnPremVm(Str(newId), instanceType, vcpus, memoryGB, hypervisor, datacenter, mo, dO, kp)
  }

  /** Changing the id changes exactly `vm_id` in the serialised record. */
  lemma WithIdJson(vm: Vm, id: Js)
    ensures ToJson(WithId(vm, id)) == ToJson(vm)["vm_id" := id]
  {
    match vm
    case AwsVm(_, _, _, _, _, _, _, _, _, _, _) =>
    case AzureVm(_, _, _, _, _, _, _, _, _, _, _) =>
    case PlainAzureVm(_, _, _, _, _, _, _, _, _, _, _) =>
    case GcpVm(_, _, _, _, _, _, _, _, _, _, _) =>
    case OnPremVm(_, _, _, _, _, _, _, _, _, _) =>
    case LegacyAwsVm(_, _, _, _, _, _) =>
    case LegacyGcpVm(_, _, _, _, _, _) =>
    case LegacyOnPremVm(_, _, _, _, _, _) =>
  }

  /**
   * A clone serialises exactly like its source except for `vm_id`: the same
   * keys, and the same value under every other key.
   */
  lemma CloneJsonDiffersOnlyInId(vm: Vm, newId: string)
    requires HasClone(vm) && Constructed(vm)
    ensures ToJson(Clone(vm, newId)) == ToJson(vm)["vm_id" := Str(newId)]
  {
    WithIdJson(vm, Str(newId));
  }
}
