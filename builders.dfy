/**
 * src/builders/VirtualMachineBuilder.js: a mutable accumulator of three
 * configuration slices, bound to one family factory, that assembles a
 * package when it builds. The provider subclasses only forward their factory
 * to the base constructor, so they are this class with that factory.
 */
module Builders {
  import opened Js
  import opened VirtualMachines
  import N = Networks
  import D = Disks
  import opened Factories
  import opened Packages

  /** The class a builder is instantiated as: the abstract base or a provider subclass. */
  datatype BuilderClass = AbstractBuilder | AwsBuilder | AzureBuilder | GcpBuilder | OnPremBuilder

  const AbstractMessage := "Cannot instantiate abstract class VirtualMachineBuilder"

  /** The package a built package is, as written: the VM goes to the undeclared `vm` property. */
  function AsBuilt(p: VmPackage, vm: Vm, network: N.Network, disk: D.Disk): (r: VmPackage)
    ensures r.vm == Some(vm) && r.network == Some(network) && r.disk == Some(disk)
    ensures r.virtualMachine == p.virtualMachine
  {
    p.(vm := Some(vm), network := Some(network), disk := Some(disk))
  }

  /**
   * Because `build` writes the VM to `vm`, a package built after `reset` has
   * no visible virtual machine and is never valid.
   */
  lemma BuiltPackageIsNeverValid(vm: Vm, network: N.Network, disk: D.Disk)
    ensures var p := AsBuilt(NewPackage(None, None, None), vm, network, disk);
            GetVirtualMachine(p).None? && GetNetwork(p) == Some(network) && GetDisk(p) == Some(disk) && !IsValid(p)
  {
  }

  /**
   * The package `build` evidently means to produce: the factory's three
   * resources in the three declared properties. It is valid, and its members
   * share the factory's provider.
   */
  function Assemble(factory: FamilyFactory, vmConfig: Record, networkConfig: Record, diskConfig: Record,
                    vmSuffix: string, networkSuffix: string, diskSuffix: string): (p: VmPackage)
    ensures IsValid(p) && SameProvider(p)
    ensures ProviderTag(p.virtualMachine.value) == factory.Tag()
    ensures p.virtualMachine == Some(CreateVirtualMachine(factory, vmConfig, vmSuffix))
  {
    NewPackage(Some(CreateVirtualMachine(factory, vmConfig, vmSuffix)),
               Some(CreateNetwork(factory, networkConfig, networkSuffix)),
               Some(CreateDisk(factory, diskConfig, diskSuffix)))
  }

  class VirtualMachineBuilder {
    const factory: FamilyFactory
    var vmConfig: Record
    var networkConfig: Record
    var diskConfig: Record
    var package: VmPackage

    /** The state `reset()` leaves: three empty slices and a fresh empty package. */
    predicate IsReset()
      reads this
    {
      vmConfig == map[] && networkConfig == map[] && diskConfig == map[] && package == NewPackage(None, None, None)
    }

    /** The subclass constructor: binds the factory, then resets. */
    constructor(factory: FamilyFactory)
      ensures this.factory == factory && IsReset()
    {
      this.factory := factory;
      vmConfig, networkConfig, diskConfig := map[], map[], map[];
      package := NewPackage(None, None, None);
    }

    /** `reset()`: empties the three slices and replaces the package. */
    method Reset()
      modifies this
      ensures IsReset()
    {
      vmConfig, networkConfig, diskConfig := map[], map[], map[];
      package := NewPackage(None, None, None);
    }

    /** `setVMConfig(...)`: replaces the VM slice wholesale, dropping earlier flags and key pair. */
    method SetVMConfig(instanceType: Js, vcpus: Js, memoryGB: Js, region: Js) returns (self: VirtualMachineBuilder)
      modifies this
      ensures self == this
      ensures vmConfig == map["instanceType" := instanceType, "vcpus" := vcpus, "memoryGB" := memoryGB, "region" := region]
      ensures networkConfig == old(networkConfig) && diskConfig == old(diskConfig) && package == old(package)
    {
      vmConfig := map["instanceType" := instanceType, "vcpus" := vcpus, "memoryGB" := memoryGB, "region" := region];
      return this;
    }

    /** `setMemoryOptimization(enabled)`: one field of the VM slice. */
    method SetMemoryOptimization(enabled: Js) returns (self: VirtualMachineBuilder)
      modifies this
      ensures self == this && vmConfig == old(vmConfig)["memoryOptimization" := enabled]
      ensures networkConfig == old(networkConfig) && diskConfig == old(diskConfig) && package == old(package)
    {
      vmConfig := vmConfig["memoryOptimization" := enabled];
      return this;
    }

    /** `setDiskOptimization(enabled)`: one field of the VM slice. */
    method SetDiskOptimization(enabled: Js) returns (self: VirtualMachineBuilder)
      modifies this
      ensures self == this && vmConfig == old(vmConfig)["diskOptimization" := enabled]
      ensures networkConfig == old(networkConfig) && diskConfig == old(diskConfig) && package == old(package)
    {
      vmConfig := vmConfig["diskOptimization" := enabled];
      return this;
    }

    /** `setKeyPair(keyPairName)`: one field of the VM slice. */
    method SetKeyPair(keyPairName: Js) returns (self: VirtualMachineBuilder)
      modifies this
      ensures self == this && vmConfig == old(vmConfig)["keyPairName" := keyPairName]
      ensures networkConfig == old(networkConfig) && diskConfig == old(diskConfig) && package == old(package)
    {
      vmConfig := vmConfig["keyPairName" := keyPairName];
      return this;
    }

    /** `setNetworkConfig(region, config)`: `{...config, region}`, the region argument winning. */
    method SetNetworkConfig(region: Js, config: Record) returns (self: VirtualMachineBuilder)
      modifies this
      ensures self == this && networkConfig == config + map["region" := region]
      ensures networkConfig.Keys == config.Keys + {"region"} && networkConfig["region"] == region
      ensures forall k :: k in config && k != "region" ==> networkConfig[k] == config[k]
      ensures vmConfig == old(vmConfig) && diskConfig == old(diskConfig) && package == old(package)
    {
      networkConfig := config + map["region" := region];
      return this;
    }

    /** `setFirewallRules(rules)`: one field of the network slice. */
    method SetFirewallRules(rules: Js) returns (self: VirtualMachineBuilder)
      modifies this
      ensures self == this && networkConfig == old(networkConfig)["firewallRules" := rules]
      ensures vmConfig == old(vmConfig) && diskConfig == old(diskConfig) && package == old(package)
    {
      networkConfig := networkConfig["firewallRules" := rules];
      return this;
    }

    /** `setPublicIP(enabled)`: one field of the network slice. */
    method SetPublicIP(enabled: Js) returns (self: VirtualMachineBuilder)
      modifies this
      ensures self == this && networkConfig == old(networkConfig)["publicIP" := enabled]
      ensures vmConfig == old(vmConfig) && diskConfig == old(diskConfig) && package == old(package)
    {
      networkConfig := networkConfig["publicIP" := enabled];
      return this;
    }

    /** `setDiskConfig(sizeGB, region, config)`: `{sizeGB, region, ...config}`, the config winning. */
    method SetDiskConfig(sizeGB: Js, region: Js, config: Record) returns (self: VirtualMachineBuilder)
      modifies this
      ensures self == this && diskConfig == map["sizeGB" := sizeGB, "region" := region] + config
      ensures diskConfig.Keys == config.Keys + {"sizeGB", "region"}
      ensures forall k :: k in config ==> diskConfig[k] == config[k]
      ensures "sizeGB" !in config ==> diskConfig["sizeGB"] == sizeGB
      ensures "region" !in config ==> diskConfig["region"] == region
      ensures vmConfig == old(vmConfig) && networkConfig == old(networkConfig) && package == old(package)
    {
      diskConfig := map["sizeGB" := sizeGB, "region" := region] + config;
      return this;
    }

    /** `setIOPS(iops)`: one field of the disk slice. */
    method SetIOPS(iops: Js) returns (self: VirtualMachineBuilder)
      modifies this
      ensures self == this && diskConfig == old(diskConfig)["iops" := iops]
      ensures vmConfig == old(vmConfig) && networkConfig == old(networkConfig) && package == old(package)
    {
      diskConfig := diskConfig["iops" := iops];
      return this;
    }

    /**
     * `build()`: calls the factory on the VM, network and disk slices, in
     * that order, stores the three resources on the current package and
     * returns that package. The ids' timestamp and random parts are the
     * three suffixes.
     */
    method Build(vmSuffix: string, networkSuffix: string, diskSuffix: string) returns (p: VmPackage)
      modifies this
      ensures package == AsBuilt(old(package), CreateVirtualMachine(factory, vmConfig, vmSuffix),
                                 CreateNetwork(factory, networkConfig, networkSuffix),
                                 CreateDisk(factory, diskConfig, diskSuffix))
      ensures p == package
      ensures vmConfig == old(vmConfig) && networkConfig == old(networkConfig) && diskConfig == old(diskConfig)
    {
      var vm := CreateVirtualMachine(factory, vmConfig, vmSuffix);
      package := package.(vm := Some(vm));
      var network := CreateNetwork(factory, networkConfig, networkSuffix);
      package := package.(network := Some(network));
      var disk := CreateDisk(factory, diskConfig, diskSuffix);
      package := package.(disk := Some(disk));
      p := package;
    }

    /** The corrected `build()`: the VM goes to `virtualMachine`, where the package reads it. */
    method BuildIntended(vmSuffix: string, networkSuffix: string, diskSuffix: string) returns (p: VmPackage)
      modifies this
      ensures package == Assemble(factory, vmConfig, networkConfig, diskConfig, vmSuffix, networkSuffix, diskSuffix)
      ensures p == package && IsValid(p) && SameProvider(p)
      ensures vmConfig == old(vmConfig) && networkConfig == old(networkConfig) && diskConfig == old(diskConfig)
    {
      package := Assemble(factory, vmConfig, networkConfig, diskConfig, vmSuffix, networkSuffix, diskSuffix);
      p := package;
    }
  }

  /**
   * `new <Class>(factory)`: instantiating the abstract base throws; a
   * provider subclass yields a builder bound to the factory with empty
   * slices.
   */
  method Instantiate(target: BuilderClass, factory: FamilyFactory) returns (r: Result<VirtualMachineBuilder>)
    ensures r.Failure? <==> target.AbstractBuilder?
    ensures r.Failure? ==> r.error == AbstractMessage
    ensures r.Success? ==> fresh(r.value) && r.value.factory == factory && r.value.IsReset()
  {
    if target.AbstractBuilder? {
      return Failure(AbstractMessage);
    }
    var b := new VirtualMachineBuilder(factory);
    return Success(b);
  }
}
