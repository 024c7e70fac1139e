/**
 * src/directors/Director.js: the construction policy. Three sizing tables
 * (provider by size), per-provider network and disk defaults and a default
 * disk size per VM type are pure lookups; the `construct*VM` methods drive a
 * builder through a fixed sequence of calls.
 */
module Directors {
  import opened Js
  import opened Factories
  import opened Packages
  import opened Builders

  /** The three VM categories, one `construct*VM` method each. */
  datatype Category = Standard | MemoryOptimized | ComputeOptimized

  /** One row of a sizing table. */
  datatype Sizing = Sizing(instanceType: string, vcpus: int, memoryGB: int)

  /** The providers each table has rows for. */
  predicate KnownProvider(p: string) {
    p == "aws" || p == "azure" || p == "gcp" || p == "onpremise"
  }

  /** The sizes each provider has rows for. */
  predicate KnownSize(s: string) {
    s == "small" || s == "medium" || s == "large"
  }

  /** The string a value becomes when it is used as a property key. */
  function PropertyKey(v: Js): string {
    Text(v)
  }

  /** The rows of the three tables of src/directors/Director.js. */
  function Table(c: Category, provider: string, size: string): Sizing
    requires KnownProvider(provider) && KnownSize(size)
  {
    match c
    case Standard =>
      if provider == "aws" then
        (if size == "small" then Sizing("t3.medium", 2, 4)
         else if size == "medium" then Sizing("m5.large", 2, 8) else Sizing("m5.xlarge", 4, 16))
      else if provider == "azure" then
        (if size == "small" then Sizing("D2s_v3", 2, 8)
         else if size == "medium" then Sizing("D4s_v3", 4, 16) else Sizing("D8s_v3", 8, 32))
      else if provider == "gcp" then
        (if size == "small" then Sizing("e2-standard-2", 2, 8)
         else if size == "medium" then Sizing("e2-standard-4", 4, 16) else Sizing("e2-standard-8", 8, 32))
      else
        (if size == "small" then Sizing("onprem-std1", 2, 4)
         else if size == "medium" then Sizing("onprem-std2", 4, 8) else Sizing("onprem-std3", 8, 16))
    case MemoryOptimized =>
      if provider == "aws" then
        (if size == "small" then Sizing("r5.large", 2, 16)
         else if size == "medium" then Sizing("r5.xlarge", 4, 32) else Sizing("r5.2xlarge", 8, 64))
      else if provider == "azure" then
        (if size == "small" then Sizing("E2s_v3", 2, 16)
         else if size == "medium" then Sizing("E4s_v3", 4, 32) else Sizing("E8s_v3", 8, 64))
      else if provider == "gcp" then
        (if size == "small" then Sizing("n2-highmem-2", 2, 16)
         else if size == "medium" then Sizing("n2-highmem-4", 4, 32) else Sizing("n2-highmem-8", 8, 64))
      else
        (if size == "small" then Sizing("onprem-mem1", 2, 16)
         else if size == "medium" then Sizing("onprem-mem2", 4, 32) else Sizing("onprem-mem3", 8, 64))
    case ComputeOptimized =>
      if provider == "aws" then
        (if size == "small" then Sizing("c5.large", 2, 4)
         else if size == "medium" then Sizing("c5.xlarge", 4, 8) else Sizing("c5.2xlarge", 8, 16))
      else if provider == "azure" then
        (if size == "small" then Sizing("F2s_v2", 2, 4)
         else if size == "medium" then Sizing("F4s_v2", 4, 8) else Sizing("F8s_v2", 8, 16))
      else if provider == "gcp" then
        (if size == "small" then Sizing("n2-highcpu-2", 2, 2)
         else if size == "medium" then Sizing("n2-highcpu-4", 4, 4) else Sizing("n2-highcpu-8", 8, 8))
      else
        (if size == "small" then Sizing("onprem-cpu1", 2, 2)
         else if size == "medium" then Sizing("onprem-cpu2", 4, 4) else Sizing("onprem-cpu3", 8, 8))
  }

  /**
   * `_get<Category>Config(provider, size)`, i.e.
   * `configs[provider][size] || configs[provider]['small']`: a provider
   * without a table makes the second index throw a TypeError; a size without
   * a row falls back to the 'small' row.
   */
  function SizingFor(c: Category, provider: Js, size: Js): (r: Result<Sizing>)
    ensures r.Success? <==> KnownProvider(PropertyKey(provider))
    ensures r.Failure? ==> r.error == CannotRead(Undefined, PropertyKey(size))
    ensures r.Success? && KnownSize(PropertyKey(size)) ==> r.value == Table(c, PropertyKey(provider), PropertyKey(size))
    ensures r.Success? && !KnownSize(PropertyKey(size)) ==> r.value == Table(c, PropertyKey(provider), "small")
  {
    var p, s := PropertyKey(provider), PropertyKey(size);
    if !KnownProvider(p) then Failure(CannotRead(Undefined, s))
    else if KnownSize(s) then Success(Table(c, p, s))
    else Success(Table(c, p, "small"))
  }

  /** An example row: a medium standard AWS machine is an m5.large with 2 vCPUs and 8 GB. */
  lemma AwsStandardMedium()
    ensures SizingFor(Standard, Str("aws"), Str("medium")) == Success(Sizing("m5.large", 2, 8))
  {
  }

  /** Provider tags are matched exactly: an upper-case tag has no table. */
  lemma ProviderCaseMatters(c: Category, size: Js)
    ensures SizingFor(c, Str("AWS"), size).Failure?
  {
    assert !KnownProvider("AWS") by {
      assert "AWS"[0] != "aws"[0];
    }
  }

  /**
   * Within every table, a larger size never has fewer vCPUs or less memory,
   * and memory-optimized rows have at least the memory of the standard row,
   * which has at least that of the compute-optimized row.
   */
  lemma {:induction false} TablesAreOrdered(provider: string)
    requires KnownProvider(provider)
    ensures forall c: Category ::
              Table(c, provider, "small").vcpus <= Table(c, provider, "medium").vcpus <= Table(c, provider, "large").vcpus
              && Table(c, provider, "small").memoryGB <= Table(c, provider, "medium").memoryGB
                   <= Table(c, provider, "large").memoryGB
    ensures forall s | KnownSize(s) ::
              Table(ComputeOptimized, provider, s).memoryGB <= Table(Standard, provider, s).memoryGB
                <= Table(MemoryOptimized, provider, s).memoryGB
    ensures forall s | KnownSize(s) :: Table(MemoryOptimized, provider, s).memoryGB == 8 * Table(MemoryOptimized, provider, s).vcpus
  {
  }

  /** `(memoryOptimization, diskOptimization)` as each `construct*VM` sets them. */
  function Flags(c: Category): (r: (bool, bool))
    ensures r.0 <==> c.MemoryOptimized?
    ensures r.1 <==> c.ComputeOptimized?
  {
    match c
    case Standard => (false, false)
    case MemoryOptimized => (true, false)
    case ComputeOptimized => (false, true)
  }

  /** The three network keys each provider fills in, and their literal defaults. */
  function NetworkDefaultsOf(provider: string): map<string, Js>
    requires KnownProvider(provider)
  {
    if provider == "aws" then
      map["vpcId" := Str("vpc-default"), "subnet" := Str("10.0.0.0/24"), "securityGroup" := Str("sg-default")]
    else if provider == "azure" then
      map["virtualNetwork" := Str("default-vnet"), "subnetName" := Str("default-subnet"),
          "networkSecurityGroup" := Str("default-nsg")]
    else if provider == "gcp" then
      map["networkName" := Str("default"), "subnetworkName" := Str("default"), "firewallTag" := Str("default-tag")]
    else
      map["physicalInterface" := Str("eth0"), "vlanId" := Num(100), "firewallPolicy" := Str("default-policy")]
  }

  /**
   * `_getNetworkDefaults(provider, params)`: for a known provider, each of
   * its three keys takes the caller's value when truthy and the literal
   * otherwise, and no other caller field is copied; any other provider
   * yields `{}`.
   */
  function NetworkDefaults(provider: Js, params: Record): (r: Record)
    ensures !KnownProvider(PropertyKey(provider)) ==> r == map[]
    ensures KnownProvider(PropertyKey(provider)) ==>
              var lits := NetworkDefaultsOf(PropertyKey(provider));
              r.Keys == lits.Keys && forall k :: k in lits ==> r[k] == Or(Get(params, k), lits[k])
  {
    var p := PropertyKey(provider);
    if KnownProvider(p) then
      var lits := NetworkDefaultsOf(p);
      map k | k in lits :: Or(Get(params, k), lits[k])
    else map[]
  }

  /** `x !== false`. */
  function NotFalse(v: Js): Js {
    Bool(v != Bool(false))
  }

  /**
   * `_getDiskDefaults(provider, params)`: the type (or pool) and, except on
   * premises, a boolean that is true unless the caller passes exactly
   * `false`; on premises the RAID level instead; any other provider yields `{}`.
   */
  function DiskDefaults(provider: Js, params: Record): (r: Record)
    ensures !KnownProvider(PropertyKey(provider)) ==> r == map[]
    ensures PropertyKey(provider) == "aws" ==>
              r == map["volumeType" := Or(Get(params, "volumeType"), Str("gp3")),
                       "encrypted" := NotFalse(Get(params, "encrypted"))]
    ensures PropertyKey(provider) == "azure" ==>
              r == map["diskSku" := Or(Get(params, "diskSku"), Str("Standard_LRS")),
                       "managedDisk" := NotFalse(Get(params, "managedDisk"))]
    ensures PropertyKey(provider) == "gcp" ==>
              r == map["diskType" := Or(Get(params, "diskType"), Str("pd-standard")),
                       "autoDelete" := NotFalse(Get(params, "autoDelete"))]
    ensures PropertyKey(provider) == "onpremise" ==>
              r == map["storagePool" := Or(Get(params, "storagePool"), Str("default-pool")),
                       "raidLevel" := Or(Get(params, "raidLevel"), Str("RAID5"))]
  {
    var p := PropertyKey(provider);
    if p == "aws" then
      map["volumeType" := Or(Get(params, "volumeType"), Str("gp3")), "encrypted" := NotFalse(Get(params, "encrypted"))]
    else if p == "azure" then
      map["diskSku" := Or(Get(params, "diskSku"), Str("Standard_LRS")),
          "managedDisk" := NotFalse(Get(params, "managedDisk"))]
    else if p == "gcp" then
      map["diskType" := Or(Get(params, "diskType"), Str("pd-standard")),
          "autoDelete" := NotFalse(Get(params, "autoDelete"))]
    else if p == "onpremise" then
      map["storagePool" := Or(Get(params, "storagePool"), Str("default-pool")),
          "raidLevel" := Or(Get(params, "raidLevel"), Str("RAID5"))]
    else map[]
  }

  /** The boolean disk defaults are true for every caller value except `false` itself. */
  lemma DiskBooleansDefaultToTrue(provider: Js, params: Record, flag: string)
    requires (PropertyKey(provider), flag) in {("aws", "encrypted"), ("azure", "managedDisk"), ("gcp", "autoDelete")}
    ensures flag in DiskDefaults(provider, params)
    ensures DiskDefaults(provider, params)[flag] == Bool(false) <==> Get(params, flag) == Bool(false)
    ensures DiskDefaults(provider, params)[flag] == Bool(true) <==> Get(params, flag) != Bool(false)
  {
  }

  /** `_getDefaultDiskSize(vmType)`: 100, 200 or 150 GB by VM type, 100 for anything else. */
  function DefaultDiskSize(vmType: Js): (r: int)
    ensures PropertyKey(vmType) == "memory-optimized" <==> r == 200
    ensures PropertyKey(vmType) == "compute-optimized" <==> r == 150
    ensures r == 100 || r == 150 || r == 200
  {
    var t := PropertyKey(vmType);
    if t == "standard" then 100
    else if t == "memory-optimized" then 200
    else if t == "compute-optimized" then 150
    else 100
  }

  /** The VM slice `construct*VM` sets before the additional parameters. */
  function BaseVmConfig(c: Category, s: Sizing, region: Js): Record {
    map["instanceType" := Str(s.instanceType), "vcpus" := Num(s.vcpus), "memoryGB" := Num(s.memoryGB),
        "region" := region, "memoryOptimization" := Bool(Flags(c).0), "diskOptimization" := Bool(Flags(c).1)]
  }

  /** The caller's `params.vm || {}` fields that `Object.assign` merges into the VM slice. */
  function VmOverrides(params: Record): Record {
    Fields(Or(Get(params, "vm"), Obj(map[])))
  }

  /** `params.network || {}`, read as an object. */
  function NetworkParams(params: Record): Record {
    Fields(Or(Get(params, "network"), Obj(map[])))
  }

  /** `params.disk || {}`, read as an object. */
  function DiskParams(params: Record): Record {
    Fields(Or(Get(params, "disk"), Obj(map[])))
  }

  /** The VM slice after `_applyAdditionalConfig`: the key pair if truthy, then the caller's overrides. */
  function AdditionalVm(prior: Record, params: Record): Record {
    var kp := Get(params, "keyPairName");
    (if Truthy(kp) then prior["keyPairName" := kp] else prior) + VmOverrides(params)
  }

  /**
   * The network slice after `_applyAdditionalConfig`: the provider defaults
   * and the region, then the firewall rules if truthy and the public-IP flag
   * if defined.
   */
  function AdditionalNetwork(provider: Js, region: Js, params: Record): Record {
    var np := NetworkParams(params);
    var base := NetworkDefaults(provider, np) + map["region" := region];
    var withRules := if Truthy(Get(np, "firewallRules")) then base["firewallRules" := Get(np, "firewallRules")] else base;
    if Get(np, "publicIP") != Undefined then withRules["publicIP" := Get(np, "publicIP")] else withRules
  }

  /** The disk size `_applyAdditionalConfig` uses: the caller's if truthy, else the default for `params.vmType`. */
  function DiskSize(params: Record): Js {
    Or(Get(DiskParams(params), "sizeGB"), Num(DefaultDiskSize(Or(Get(params, "vmType"), Str("standard")))))
  }

  /**
   * The disk slice after `_applyAdditionalConfig`: size and region, the
   * provider defaults over them, then the IOPS if truthy.
   */
  function AdditionalDisk(provider: Js, region: Js, params: Record): Record {
    var dp := DiskParams(params);
    var base := map["sizeGB" := DiskSize(params), "region" := region] + DiskDefaults(provider, dp);
    if Truthy(Get(dp, "iops")) then base["iops" := Get(dp, "iops")] else base
  }

  /**
   * The flags are fixed by the category unless the caller's `params.vm`
   * supplies them, in which case the caller's values win.
   */
  lemma FlagsFollowCategory(c: Category, s: Sizing, region: Js, params: Record)
    ensures var cfg := AdditionalVm(BaseVmConfig(c, s, region), params);
            && "memoryOptimization" in cfg && "diskOptimization" in cfg
            && (cfg["memoryOptimization"] == if "memoryOptimization" in VmOverrides(params)
                                             then VmOverrides(params)["memoryOptimization"] else Bool(Flags(c).0))
            && (cfg["diskOptimization"] == if "diskOptimization" in VmOverrides(params)
                                           then VmOverrides(params)["diskOptimization"] else Bool(Flags(c).1))
  {
    var base := BaseVmConfig(c, s, region);
    assert base["memoryOptimization"] == Bool(Flags(c).0) && base["diskOptimization"] == Bool(Flags(c).1);
  }

  /**
   * The key pair is set exactly when `params.keyPairName` is truthy (or the
   * caller's `params.vm` carries one), and every field of `params.vm` wins.
   */
  lemma KeyPairAndOverrides(prior: Record, params: Record)
    requires "keyPairName" !in prior
    ensures var cfg := AdditionalVm(prior, params);
            && ("keyPairName" in cfg <==> Truthy(Get(params, "keyPairName")) || "keyPairName" in VmOverrides(params))
            && (forall k :: k in VmOverrides(params) ==> cfg[k] == VmOverrides(params)[k])
            && (forall k :: k in prior && k !in VmOverrides(params) ==> cfg[k] == prior[k])
  {
  }

  /**
   * The network slice holds the provider's three keys, the region and, only
   * when the caller gives them, the firewall rules and public-IP flag; no
   * other caller network field gets in.
   */
  lemma NetworkSliceKeys(provider: Js, region: Js, params: Record)
    ensures var np := NetworkParams(params);
            AdditionalNetwork(provider, region, params).Keys
              == (if KnownProvider(PropertyKey(provider)) then NetworkDefaultsOf(PropertyKey(provider)).Keys else {})
                 + {"region"}
                 + (if Truthy(Get(np, "firewallRules")) then {"firewallRules"} else {})
                 + (if Get(np, "publicIP") != Undefined then {"publicIP"} else {})
    ensures AdditionalNetwork(provider, region, params)["region"] == region
  {
  }

  /**
   * The default disk size is looked up by `params.vmType`, not by the
   * category being constructed: without `vmType` and `disk.sizeGB` every
   * category gets 100 GB.
   */
  lemma DefaultDiskSizeIgnoresCategory(provider: Js, region: Js, params: Record)
    requires Get(params, "vmType") == Undefined && !Truthy(Get(DiskParams(params), "sizeGB"))
    ensures "sizeGB" !in DiskDefaults(provider, DiskParams(params))
    ensures AdditionalDisk(provider, region, params)["sizeGB"] == Num(100)
  {
  }

  /** The message a failed `construct*VM` throws: the sizing lookup's, else the read of a null `additionalParams`. */
  function ConstructError(c: Category, provider: Js, size: Js): string {
    if SizingFor(c, provider, size).Failure? then SizingFor(c, provider, size).error
    else CannotRead(Null, "keyPairName")
  }

  class Director {
    var builder: VirtualMachineBuilder

    constructor(builder: VirtualMachineBuilder)
      ensures this.builder == builder
    {
      this.builder := builder;
    }

    /** `setBuilder(builder)`. */
    method SetBuilder(builder: VirtualMachineBuilder)
      modifies this
      ensures this.builder == builder
    {
      this.builder := builder;
    }

    /**
     * `_applyAdditionalConfig(provider, region, params)`: the key pair, the
     * caller's VM overrides, the network slice and the disk slice, in that
     * order. A nullish `params` throws on its first read, before any change.
     */
    method ApplyAdditionalConfig(provider: Js, region: Js, params: Js) returns (error: Option<string>)
      modifies builder
      ensures params == Undefined || params == Null ==>
                error == Some(CannotRead(params, "keyPairName")) && unchanged(builder)
      ensures params != Undefined && params != Null ==>
                && error.None?
                && builder.vmConfig == AdditionalVm(old(builder.vmConfig), Fields(params))
                && builder.networkConfig == AdditionalNetwork(provider, region, Fields(params))
                && builder.diskConfig == AdditionalDisk(provider, region, Fields(params))
                && builder.package == old(builder.package)
    {
      if params == Undefined || params == Null {
        return Some(CannotRead(params, "keyPairName"));
      }
      var p := Fields(params);
      var b := builder;
      if Truthy(Get(p, "keyPairName")) {
        b := b.SetKeyPair(Get(p, "keyPairName"));
      }
      b.vmConfig := b.vmConfig + VmOverrides(p);
      assert builder.vmConfig == AdditionalVm(old(builder.vmConfig), p);

      var networkParams := NetworkParams(p);
      b := b.SetNetworkConfig(region, NetworkDefaults(provider, networkParams));
      if Truthy(Get(networkParams, "firewallRules")) {
        b := b.SetFirewallRules(Get(networkParams, "firewallRules"));
      }
      if Get(networkParams, "publicIP") != Undefined {
        b := b.SetPublicIP(Get(networkParams, "publicIP"));
      }
      assert builder.networkConfig == AdditionalNetwork(provider, region, p);

      var diskParams := DiskParams(p);
      b := b.SetDiskConfig(DiskSize(p), region, DiskDefaults(provider, diskParams));
      if Truthy(Get(diskParams, "iops")) {
        b := b.SetIOPS(Get(diskParams, "iops"));
      }
      return None;
    }

    /**
     * `construct<Category>VM(provider, size, region, additionalParams = {})`:
     * look the sizing up (before touching the builder), reset, set the VM
     * slice and the category's flags, apply the additional parameters, build.
     * The final slices depend on the arguments only, never on what the
     * builder held before.
     */
    method ConstructVM(c: Category, provider: Js, size: Js, region: Js, additionalParams: Js,
                       vmSuffix: string, networkSuffix: string, diskSuffix: string) returns (r: Result<VmPackage>)
      modifies builder
      ensures SizingFor(c, provider, size).Failure? ==>
                r == Failure(SizingFor(c, provider, size).error) && unchanged(builder)
      ensures SizingFor(c, provider, size).Success? && additionalParams == Null ==>
                && r == Failure(CannotRead(Null, "keyPairName"))
                && builder.vmConfig == BaseVmConfig(c, SizingFor(c, provider, size).value, region)
                && builder.networkConfig == map[] && builder.diskConfig == map[]
                && builder.package == NewPackage(None, None, None)
      ensures SizingFor(c, provider, size).Success? && additionalParams != Null ==>
                var params := Fields(Default(additionalParams, Obj(map[])));
                && builder.vmConfig == AdditionalVm(BaseVmConfig(c, SizingFor(c, provider, size).value, region), params)
                && builder.networkConfig == AdditionalNetwork(provider, region, params)
                && builder.diskConfig == AdditionalDisk(provider, region, params)
                && builder.package == AsBuilt(NewPackage(None, None, None),
                                              CreateVirtualMachine(builder.factory, builder.vmConfig, vmSuffix),
                                              CreateNetwork(builder.factory, builder.networkConfig, networkSuffix),
                                              CreateDisk(builder.factory, builder.diskConfig, diskSuffix))
                && r == Success(builder.package)
    {
      var sizing :- SizingFor(c, provider, size);
      var params := Default(additionalParams, Obj(map[]));
      builder.Reset();
      var b := builder.SetVMConfig(Str(sizing.instanceType), Num(sizing.vcpus), Num(sizing.memoryGB), region);
      b := b.SetMemoryOptimization(Bool(Flags(c).0));
      b := b.SetDiskOptimization(Bool(Flags(c).1));
      assert builder.vmConfig == BaseVmConfig(c, sizing, region);
      var error := ApplyAdditionalConfig(provider, region, params);
      if error.Some? {
        return Failure(error.value);
      }
      var pkg := builder.Build(vmSuffix, networkSuffix, diskSuffix);
      return Success(pkg);
    }

    /**
     * `constructStandardVM(...)`: the VM slice takes this category's row and flags,
     * unless the caller's `params.vm` overrides a flag; the package it returns is
     * the one `build()` leaves, which is never valid.
     */
    method ConstructStandardVM(provider: Js, size: Js, region: Js, additionalParams: Js,
        vmSuffix: string, networkSuffix: string, diskSuffix: string) returns (r: Result<VmPackage>)
      modifies builder
      ensures r.Success? <==> SizingFor(Standard, provider, size).Success? && additionalParams != Null
      ensures r.Failure? ==> r.error == ConstructError(Standard, provider, size)
      ensures SizingFor(Standard, provider, size).Failure? ==> unchanged(builder)
      ensures r.Success? ==>
                var params := Fields(Default(additionalParams, Obj(map[])));
                && builder.networkConfig == AdditionalNetwork(provider, region, params)
                && builder.diskConfig == AdditionalDisk(provider, region, params)
                && builder.package == AsBuilt(NewPackage(None, None, None),
                                              CreateVirtualMachine(builder.factory, builder.vmConfig, vmSuffix),
                                              CreateNetwork(builder.factory, builder.networkConfig, networkSuffix),
                                              CreateDisk(builder.factory, builder.diskConfig, diskSuffix))
                && r == Success(builder.package) && !IsValid(r.value)
      ensures r.Success? ==>
                var params := Fields(Default(additionalParams, Obj(map[])));
                var cfg := builder.vmConfig;
                && cfg == AdditionalVm(BaseVmConfig(Standard, SizingFor(Standard, provider, size).value, region), params)
                && "memoryOptimization" in cfg && "diskOptimization" in cfg
                && ("memoryOptimization" !in VmOverrides(params) ==> cfg["memoryOptimization"] == Bool(false))
                && ("diskOptimization" !in VmOverrides(params) ==> cfg["diskOptimization"] == Bool(false))
    {
      r := ConstructVM(Standard, provider, size, region, additionalParams, vmSuffix, networkSuffix, diskSuffix);
      if r.Success? {
        FlagsFollowCategory(Standard, SizingFor(Standard, provider, size).value, region,
                            Fields(Default(additionalParams, Obj(map[]))));
        BuiltPackageIsNeverValid(CreateVirtualMachine(builder.factory, builder.vmConfig, vmSuffix),
                                 CreateNetwork(builder.factory, builder.networkConfig, networkSuffix),
                                 CreateDisk(builder.factory, builder.diskConfig, diskSuffix));
      }
    }

    /**
     * `constructMemoryOptimizedVM(...)`: the VM slice takes this category's row and flags,
     * unless the caller's `params.vm` overrides a flag; the package it returns is
     * the one `build()` leaves, which is never valid.
     */
    method ConstructMemoryOptimizedVM(provider: Js, size: Js, region: Js, additionalParams: Js,
        vmSuffix: string, networkSuffix: string, diskSuffix: string) returns (r: Result<VmPackage>)
      modifies builder
      ensures r.Success? <==> SizingFor(MemoryOptimized, provider, size).Success? && additionalParams != Null
      ensures r.Failure? ==> r.error == ConstructError(MemoryOptimized, provider, size)
      ensures SizingFor(MemoryOptimized, provider, size).Failure? ==> unchanged(builder)
      ensures r.Success? ==>
                var params := Fields(Default(additionalParams, Obj(map[])));
                && builder.networkConfig == AdditionalNetwork(provider, region, params)
                && builder.diskConfig == AdditionalDisk(provider, region, params)
                && builder.package == AsBuilt(NewPackage(None, None, None),
                                              CreateVirtualMachine(builder.factory, builder.vmConfig, vmSuffix),
                                              CreateNetwork(builder.factory, builder.networkConfig, networkSuffix),
                                              CreateDisk(builder.factory, builder.diskConfig, diskSuffix))
                && r == Success(builder.package) && !IsValid(r.value)
      ensures r.Success? ==>
                var params := Fields(Default(additionalParams, Obj(map[])));
                var cfg := builder.vmConfig;
                && cfg == AdditionalVm(BaseVmConfig(MemoryOptimized, SizingFor(MemoryOptimized, provider, size).value, region), params)
                && "memoryOptimization" in cfg && "diskOptimization" in cfg
                && ("memoryOptimization" !in VmOverrides(params) ==> cfg["memoryOptimization"] == Bool(true))
                && ("diskOptimization" !in VmOverrides(params) ==> cfg["diskOptimization"] == Bool(false))
    {
      r := ConstructVM(MemoryOptimized, provider, size, region, additionalParams, vmSuffix, networkSuffix, diskSuffix);
      if r.Success? {
        FlagsFollowCategory(MemoryOptimized, SizingFor(MemoryOptimized, provider, size).value, region,
                            Fields(Default(additionalParams, Obj(map[]))));
        BuiltPackageIsNeverValid(CreateVirtualMachine(builder.factory, builder.vmConfig, vmSuffix),
                                 CreateNetwork(builder.factory, builder.networkConfig, networkSuffix),
                                 CreateDisk(builder.factory, builder.diskConfig, diskSuffix));
      }
    }

    /**
     * `constructComputeOptimizedVM(...)`: the VM slice takes this category's row and flags,
     * unless the caller's `params.vm` overrides a flag; the package it returns is
     * the one `build()` leaves, which is never valid.
     */
    method ConstructComputeOptimizedVM(provider: Js, size: Js, region: Js, additionalParams: Js,
        vmSuffix: string, networkSuffix: string, diskSuffix: string) returns (r: Result<VmPackage>)
      modifies builder
      ensures r.Success? <==> SizingFor(ComputeOptimized, provider, size).Success? && additionalParams != Null
      ensures r.Failure? ==> r.error == ConstructError(ComputeOptimized, provider, size)
      ensures SizingFor(ComputeOptimized, provider, size).Failure? ==> unchanged(builder)
      ensures r.Success? ==>
                var params := Fields(Default(additionalParams, Obj(map[])));
                && builder.networkConfig == AdditionalNetwork(provider, region, params)
                && builder.diskConfig == AdditionalDisk(provider, region, params)
                && builder.package == AsBuilt(NewPackage(None, None, None),
                                              CreateVirtualMachine(builder.factory, builder.vmConfig, vmSuffix),
                                              CreateNetwork(builder.factory, builder.networkConfig, networkSuffix),
                                              CreateDisk(builder.factory, builder.diskConfig, diskSuffix))
                && r == Success(builder.package) && !IsValid(r.value)
      ensures r.Success? ==>
                var params := Fields(Default(additionalParams, Obj(map[])));
                var cfg := builder.vmConfig;
                && cfg == AdditionalVm(BaseVmConfig(ComputeOptimized, SizingFor(ComputeOptimized, provider, size).value, region), params)
                && "memoryOptimization" in cfg && "diskOptimization" in cfg
                && ("memoryOptimization" !in VmOverrides(params) ==> cfg["memoryOptimization"] == Bool(false))
                && ("diskOptimization" !in VmOverrides(params) ==> cfg["diskOptimization"] == Bool(true))
    {
      r := ConstructVM(ComputeOptimized, provider, size, region, additionalParams, vmSuffix, networkSuffix, diskSuffix);
      if r.Success? {
        FlagsFollowCategory(ComputeOptimized, SizingFor(ComputeOptimized, provider, size).value, region,
                            Fields(Default(additionalParams, Obj(map[]))));
        BuiltPackageIsNeverValid(CreateVirtualMachine(builder.factory, builder.vmConfig, vmSuffix),
                                 CreateNetwork(builder.factory, builder.networkConfig, networkSuffix),
                                 CreateDisk(builder.factory, builder.diskConfig, diskSuffix));
      }
    }
  }
}
