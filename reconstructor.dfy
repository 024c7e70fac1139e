/**
 * src/utils/VMReconstructor.js: rebuilding a virtual machine object from
 * the record stored in the `virtual_machines` table.
 */
module Reconstructor {
  import opened Js
  import opened VirtualMachines

  /** The provider tags the reconstructor knows. */
  predicate KnownTag(p: string) {
    p == "aws" || p == "azure" || p == "gcp" || p == "onpremise"
  }

  /** The message thrown for any other tag. */
  function UnsupportedMessage(p: string): string {
    "Proveedor '" + p + "' no soportado para reconstrucción"
  }

  /** A flag as the reconstructor reads it: `record.key || false`. */
  function FlagOf(rec: Record, key: string): Js {
    Or(Get(rec, key), Bool(false))
  }

  /**
   * `reconstructVM(vmData)`: lower-cases `vmData.provider` and calls the
   * constructor of that provider's clonable (or, for AWS, full-field) class
   * with the record's fields; the stored status is never read.
   */
  function Reconstruct(rec: Record): (r: Result<Vm>)
    ensures r.Success? <==> Get(rec, "provider").Str? && KnownTag(ToLower(Get(rec, "provider").s))
    ensures Get(rec, "provider").Str? && !KnownTag(ToLower(Get(rec, "provider").s)) ==>
              r == Failure(UnsupportedMessage(ToLower(Get(rec, "provider").s)))
    ensures r.Success? ==>
              var vm := r.value;
              Constructed(vm) && ProviderTag(vm) == ToLower(Get(rec, "provider").s)
              && (vm.AwsVm? || HasClone(vm))
              && vm.id == Get(rec, "vm_id")
              && vm.vcpus == Get(rec, "vcpus") && vm.memoryGB == Get(rec, "memory_gb")
              && vm.memoryOptimization == FlagOf(rec, "memory_optimization")
              && vm.diskOptimization == FlagOf(rec, "disk_optimization")
              && (Get(rec, "key_pair_name") == Undefined ==> vm.keyPairName == Null)
              && (Get(rec, "key_pair_name") != Undefined ==> vm.keyPairName == Get(rec, "key_pair_name"))
    ensures r.Success? && r.value.AwsVm? ==>
              && r.value.instanceType == Get(rec, "instance_type") && r.value.region == Get(rec, "region")
              && r.value.vpcId == Get(rec, "vpc_id") && r.value.ami == Get(rec, "ami")
    ensures r.Success? && r.value.AzureVm? ==>
              && r.value.vmSize == Get(rec, "vm_size") && r.value.location == Get(rec, "region")
              && r.value.resourceGroup == Get(rec, "resource_group") && r.value.imageReference == Get(rec, "image")
    ensures r.Success? && r.value.GcpVm? ==>
              && r.value.machineType == Get(rec, "machine_type") && r.value.zone == Get(rec, "zone")
              && r.value.disk == Get(rec, "disk") && r.value.project == Get(rec, "project")
    ensures r.Success? && r.value.OnPremVm? ==>
              && r.value.instanceType == Get(rec, "instance_type")
              && r.value.hypervisor == Get(rec, "hypervisor") && r.value.datacenter == Get(rec, "datacenter")
  {
    var provider :- CallToLowerCase(Get(rec, "provider"), "vmData.provider");
    Rebuild(provider, rec)
  }

  /** The provider switch of `reconstructVM`, on the already lower-cased tag. */
  function Rebuild(provider: string, rec: Record): Result<Vm>
  {
    var id, mo, dO, kp := Get(rec, "vm_id"), FlagOf(rec, "memory_optimization"), FlagOf(rec, "disk_optimization"),
                          Get(rec, "key_pair_name");
    var vcpus, memoryGB := Get(rec, "vcpus"), Get(rec, "memory_gb");
    if provider == "aws" then
      Success(NewAwsVm(id, Get(rec, "instance_type"), Get(rec, "region"), Get(rec, "vpc_id"), Get(rec, "ami"),
                       vcpus, memoryGB, mo, dO, kp))
    else if provider == "azure" then
      Success(NewAzureVm(id, Get(rec, "vm_size"), Get(rec, "region"), Get(rec, "resource_group"), Get(rec, "image"),
                         vcpus, memoryGB, mo, dO, kp))
    else if provider == "gcp" then
      Success(NewGcpVm(id, Get(rec, "machine_type"), Get(rec, "zone"), Get(rec, "disk"), Get(rec, "project"),
                       vcpus, memoryGB, mo, dO, kp))
    else if provider == "onpremise" then
      Success(NewOnPremVm(id, Get(rec, "instance_type"), vcpus, memoryGB, Get(rec, "hypervisor"), Get(rec, "datacenter"),
                          mo, dO, kp))
    else
      Failure(UnsupportedMessage(provider))
  }

  /** A flag survives `x || false` unchanged exactly when it is truthy or `false` itself. */
  predicate FlagSurvives(v: Js) {
    Truthy(v) || v == Bool(false)
  }

  /** The four classes the reconstructor builds. */
  predicate Reconstructible(vm: Vm) {
    vm.AwsVm? || vm.AzureVm? || vm.GcpVm? || vm.OnPremVm?
  }

  /**
   * Round trip: reconstructing the record a constructed VM of one of the four
   * reconstructible classes serialises to gives back that VM, exactly when
   * both flags survive `|| false` (a falsy non-`false` flag such as `0` or
   * `null` comes back as `false`).
   */
  lemma {:induction false} RoundTrip(vm: Vm)
    requires Reconstructible(vm) && Constructed(vm)
    ensures Reconstruct(ToJson(vm)) == Success(vm) <==>
              FlagSurvives(vm.memoryOptimization) && FlagSurvives(vm.diskOptimization)
  {
    ToLowerOfLower(ProviderTag(vm));
    var rec := ToJson(vm);
    match vm
    case AwsVm(_, _, _, _, _, _, _, _, _, _, _) =>
      assert Reconstruct(rec) == Success(NewAwsVm(vm.id, vm.instanceType, vm.region, vm.vpcId, vm.ami, vm.vcpus,
        vm.memoryGB, Or(vm.memoryOptimization, Bool(false)), Or(vm.diskOptimization, Bool(false)), vm.keyPairName));
    case AzureVm(_, _, _, _, _, _, _, _, _, _, _) =>
      assert Reconstruct(rec) == Success(NewAzureVm(vm.id, vm.vmSize, vm.location, vm.resourceGroup, vm.imageReference,
        vm.vcpus, vm.memoryGB, Or(vm.memoryOptimization, Bool(false)), Or(vm.diskOptimization, Bool(false)),
        vm.keyPairName));
    case GcpVm(_, _, _, _, _, _, _, _, _, _, _) =>
      assert Reconstruct(rec) == Success(NewGcpVm(vm.id, vm.machineType, vm.zone, vm.disk, vm.project, vm.vcpus,
        vm.memoryGB, Or(vm.memoryOptimization, Bool(false)), Or(vm.diskOptimization, Bool(false)), vm.keyPairName));
    case OnPremVm(_, _, _, _, _, _, _, _, _, _) =>
      assert Reconstruct(rec) == Success(NewOnPremVm(vm.id, vm.instanceType, vm.vcpus, vm.memoryGB, vm.hypervisor,
        vm.datacenter, Or(vm.memoryOptimization, Bool(false)), Or(vm.diskOptimization, Bool(false)), vm.keyPairName));
  }

  /**
   * The top-level Azure class, which has no `clone`, comes back as the
   * clonable Azure class with the same serialised form.
   */
  lemma PlainAzureComesBackClonable(vm: Vm)
    requires vm.PlainAzureVm? && Constructed(vm)
    requires FlagSurvives(vm.memoryOptimization) && FlagSurvives(vm.diskOptimization)
    ensures Reconstruct(ToJson(vm)).Success?
    ensures HasClone(Reconstruct(ToJson(vm)).value)
    ensures ToJson(Reconstruct(ToJson(vm)).value) == ToJson(vm)
  {
    ToLowerOfLower("azure");
    assert Reconstruct(ToJson(vm)) == Success(AzureVm(vm.id, vm.status, vm.vmSize, vm.location, vm.resourceGroup,
      vm.imageReference, vm.vcpus, vm.memoryGB, vm.memoryOptimization, vm.diskOptimization, vm.keyPairName));
  }

  /**
   * The provider tag is matched without regard to ASCII case: two records
   * that differ only in the case of their tag reconstruct identically.
   */
  lemma ProviderTagCaseInsensitive(rec: Record, tag: string)
    requires Get(rec, "provider") == Str(tag)
    ensures Reconstruct(rec["provider" := Str(ToLower(tag))]) == Reconstruct(rec)
  {
    ToLowerIdempotent(tag);
    var rec' := rec["provider" := Str(ToLower(tag))];
    assert Reconstruct(rec') == Rebuild(ToLower(tag), rec');
    assert Reconstruct(rec) == Rebuild(ToLower(tag), rec);
    RebuildIgnoresProvider(ToLower(tag), rec, Str(ToLower(tag)));
  }

  /** The provider switch reads every field but the tag itself. */
  lemma RebuildIgnoresProvider(provider: string, rec: Record, tag: Js)
    ensures Rebuild(provider, rec["provider" := tag]) == Rebuild(provider, rec)
  {
    var rec' := rec["provider" := tag];
    forall k | k in {"vm_id", "memory_optimization", "disk_optimization", "key_pair_name", "vcpus", "memory_gb",
                     "instance_type", "region", "vpc_id", "ami", "vm_size", "resource_group", "image",
                     "machine_type", "zone", "disk", "project", "hypervisor", "datacenter"}
      ensures Get(rec', k) == Get(rec, k)
    {
      assert k != "provider";
    }
  }
}
