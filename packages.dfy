/**
 * src/models/VirtualMachinePackage.js: the bundle a builder produces. The
 * constructor stores `virtualMachine`, `network` and `disk`; an absent
 * argument leaves that property `undefined` (`None`). The builder also
 * attaches a property `vm` that the class itself never declares or reads.
 */
module Packages {
  import opened Js
  import opened VirtualMachines
  import N = Networks
  import D = Disks

  datatype VmPackage = VmPackage(virtualMachine: Option<Vm>, network: Option<N.Network>, disk: Option<D.Disk>,
                                 vm: Option<Vm>)

  /** `new VirtualMachinePackage(virtualMachine, network, disk)`. */
  function NewPackage(virtualMachine: Option<Vm>, network: Option<N.Network>, disk: Option<D.Disk>): (p: VmPackage)
    ensures p.vm.None?
  {
    VmPackage(virtualMachine, network, disk, None)
  }

  /** `getVirtualMachine()`. */
  function GetVirtualMachine(p: VmPackage): Option<Vm> { p.virtualMachine }

  /** `getNetwork()`. */
  function GetNetwork(p: VmPackage): Option<N.Network> { p.network }

  /** `getDisk()`. */
  function GetDisk(p: VmPackage): Option<D.Disk> { p.disk }

  /** The getters return exactly what the constructor was given. */
  lemma GettersReturnConstructorArguments(virtualMachine: Option<Vm>, network: Option<N.Network>, disk: Option<D.Disk>)
    ensures var p := NewPackage(virtualMachine, network, disk);
            GetVirtualMachine(p) == virtualMachine && GetNetwork(p) == network && GetDisk(p) == disk
  {
  }

  /**
   * `isValid()`: truthy exactly when the three declared properties are all
   * present; the extra `vm` property plays no part.
   */
  function IsValid(p: VmPackage): (r: bool)
    ensures r <==> p.virtualMachine.Some? && p.network.Some? && p.disk.Some?
    ensures r <==> GetVirtualMachine(p).Some? && GetNetwork(p).Some? && GetDisk(p).Some?
  {
    p.virtualMachine.Some? && p.network.Some? && p.disk.Some?
  }

  /** Whether the three members of a package come from one provider. */
  predicate SameProvider(p: VmPackage)
    requires p.virtualMachine.Some? && p.network.Some? && p.disk.Some?
  {
    ProviderTag(p.virtualMachine.value) == N.ProviderTag(p.network.value) == D.ProviderTag(p.disk.value)
  }

  /**
   * `isValid()` checks presence only: a package mixing an AWS VM, an Azure
   * network and a GCP disk is valid.
   */
  lemma ValidityIgnoresProviders()
    ensures exists p :: IsValid(p) && !SameProvider(p)
  {
    var u := Undefined;
    var p := NewPackage(Some(NewLegacyAwsVm(u, u, u, u, u)),
                        Some(N.NewAzureNetwork(u, u, u, u, u, u, u)),
                        Some(D.NewGcpDisk(u, u, u, u, u, u)));
    assert IsValid(p) && !SameProvider(p);
  }

  /** A package constructed without arguments is not valid. */
  lemma EmptyPackageIsInvalid()
    ensures !IsValid(NewPackage(None, None, None))
  {
  }
}
