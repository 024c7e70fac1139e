/**
 * src/services/ProvisioningService.js and
 * src/services/ProvisioningServiceBuilder.js: the two provisioning
 * services. The database is a class holding the three resource tables; what
 * it answers to each insert or select comes in as a parameter, as do the
 * ids' timestamp-and-random suffixes, `created_at` and the result's
 * timestamp. Request and result logging write nothing the model observes.
 */
module Services {
  import opened Js
  import opened VirtualMachines
  import N = Networks
  import D = Disks
  import opened Factories
  import opened Packages
  import opened Builders
  import opened Directors
  import R = Reconstructor
  import Res = Results

  /** The `virtual_machines`, `networks` and `disks` tables, as the rows inserted so far. */
  class Database {
    var virtualMachines: seq<Record>
    var networks: seq<Record>
    var disks: seq<Record>

    constructor()
      ensures virtualMachines == [] && networks == [] && disks == []
    {
      virtualMachines, networks, disks := [], [], [];
    }
  }

  /** The error message the database answers to each of the three inserts, if any. */
  datatype InsertAnswers = InsertAnswers(vm: Option<string>, network: Option<string>, disk: Option<string>)

  /** The three rows to insert; `None` where the package getter returned `undefined`. */
  datatype Rows = Rows(vm: Option<Record>, network: Option<Record>, disk: Option<Record>)

  /** What the database answers to a `select ... maybeSingle()` by `vm_id`. */
  datatype Fetch = Fetched(data: Option<Record>) | FetchError(message: string)

  /** Calling `toJSON()` on an `undefined` resource. */
  const MissingToJson := CannotRead(Undefined, "toJSON")

  /** The VM row goes in. */
  predicate VmSaved(rows: Rows, a: InsertAnswers) {
    rows.vm.Some? && a.vm.None?
  }

  /** The VM row, then the network row, go in. */
  predicate NetworkSaved(rows: Rows, a: InsertAnswers) {
    VmSaved(rows, a) && rows.network.Some? && a.network.None?
  }

  /** All three rows go in. */
  predicate DiskSaved(rows: Rows, a: InsertAnswers) {
    NetworkSaved(rows, a) && rows.disk.Some? && a.disk.None?
  }

  /**
   * The error the insert chain throws: the first `undefined` resource or the first
   * refused insert, in the order VM, network, disk, with a message naming
   * that resource. It throws nothing exactly when all three rows go in.
   */
  function ChainError(rows: Rows, a: InsertAnswers): (r: Option<string>)
    ensures r.None? <==> DiskSaved(rows, a)
    ensures rows.vm.Some? && a.vm.Some? ==> r == Some("Error al guardar VM: " + a.vm.value)
    ensures VmSaved(rows, a) && rows.network.Some? && a.network.Some? ==>
              r == Some("Error al guardar Network: " + a.network.value)
    ensures NetworkSaved(rows, a) && rows.disk.Some? && a.disk.Some? ==>
              r == Some("Error al guardar Disk: " + a.disk.value)
  {
    if rows.vm.None? then Some(MissingToJson)
    else if a.vm.Some? then Some("Error al guardar VM: " + a.vm.value)
    else if rows.network.None? then Some(MissingToJson)
    else if a.network.Some? then Some("Error al guardar Network: " + a.network.value)
    else if rows.disk.None? then Some(MissingToJson)
    else if a.disk.Some? then Some("Error al guardar Disk: " + a.disk.value)
    else None
  }

  /**
   * The awaited insert chain shared by `saveResourceFamily` and
   * `saveVMPackage`: VM, network, disk, stopping at the first failure and
   * keeping the rows already inserted.
   */
  method InsertChain(db: Database, rows: Rows, a: InsertAnswers) returns (error: Option<string>)
    modifies db
    ensures error == ChainError(rows, a)
    ensures db.virtualMachines == old(db.virtualMachines) + (if VmSaved(rows, a) then [rows.vm.value] else [])
    ensures db.networks == old(db.networks) + (if NetworkSaved(rows, a) then [rows.network.value] else [])
    ensures db.disks == old(db.disks) + (if DiskSaved(rows, a) then [rows.disk.value] else [])
  {
    if rows.vm.None? {
      return Some(MissingToJson);
    }
    if a.vm.Some? {
      return Some("Error al guardar VM: " + a.vm.value);
    }
    db.virtualMachines := db.virtualMachines + [rows.vm.value];
    if rows.network.None? {
      return Some(MissingToJson);
    }
    if a.network.Some? {
      return Some("Error al guardar Network: " + a.network.value);
    }
    db.networks := db.networks + [rows.network.value];
    if rows.disk.None? {
      return Some(MissingToJson);
    }
    if a.disk.Some? {
      return Some("Error al guardar Disk: " + a.disk.value);
    }
    db.disks := db.disks + [rows.disk.value];
    return None;
  }

  /** A later row goes in only if every earlier one did: there is no partial row set but a prefix. */
  lemma InsertsFormAPrefix(rows: Rows, a: InsertAnswers)
    ensures DiskSaved(rows, a) ==> NetworkSaved(rows, a)
    ensures NetworkSaved(rows, a) ==> VmSaved(rows, a)
    ensures ChainError(rows, a).Some? && VmSaved(rows, a) && !NetworkSaved(rows, a) ==>
              ChainError(rows, a) == Some(if rows.network.None? then MissingToJson
                                          else "Error al guardar Network: " + a.network.value)
  {
  }

  /** The factory registered under a lower-cased provider tag in `this.factories`. */
  function FactoryFor(tag: string): (f: Option<FamilyFactory>)
    ensures f.Some? <==> R.KnownTag(tag)
    ensures f.Some? ==> f.value.Tag() == tag
  {
    if tag == "aws" then Some(AwsFactory)
    else if tag == "azure" then Some(AzureFactory)
    else if tag == "gcp" then Some(GcpFactory)
    else if tag == "onpremise" then Some(OnPremFactory)
    else None
  }

  function UnsupportedProvider(provider: Js): string {
    "Proveedor '" + Text(provider) + "' no soportado"
  }

  const MissingSections := "Se requieren parámetros para VM, Network y Disk"

  /**
   * The checks `provision` makes before creating anything: the provider
   * tag, lower-cased, must name a factory, and only then must `params`
   * carry truthy `vm`, `network` and `disk` sections.
   */
  function ProvisionPlan(provider: Js, params: Js): (r: Result<FamilyFactory>)
    ensures !provider.Str? ==> r == Failure(CallToLowerCase(provider, "provider").error)
    ensures provider.Str? && !R.KnownTag(ToLower(provider.s)) ==> r == Failure(UnsupportedProvider(provider))
    ensures r.Success? <==>
              && provider.Str? && R.KnownTag(ToLower(provider.s))
              && Truthy(Get(Fields(params), "vm")) && Truthy(Get(Fields(params), "network"))
              && Truthy(Get(Fields(params), "disk"))
    ensures r.Success? ==> r.value.Tag() == ToLower(provider.s)
    ensures provider.Str? && R.KnownTag(ToLower(provider.s)) && r.Failure? ==>
              r.error == (if params == Undefined || params == Null then CannotRead(params, "vm") else MissingSections)
  {
    var tag :- CallToLowerCase(provider, "provider");
    var factory := FactoryFor(tag);
    if factory.None? then Failure(UnsupportedProvider(provider))
    else
      var vm :- ReadProp(params, "vm");
      if !Truthy(vm) || !Truthy(Get(Fields(params), "network")) || !Truthy(Get(Fields(params), "disk")) then
        Failure(MissingSections)
      else Success(factory.value)
  }

  /** An unknown provider is reported whatever the parameters, before they are looked at. */
  lemma UnknownProviderComesFirst(provider: string, params: Js, other: Js)
    requires !R.KnownTag(ToLower(provider))
    ensures ProvisionPlan(Str(provider), params) == ProvisionPlan(Str(provider), other)
    ensures ProvisionPlan(Str(provider), params) == Failure("Proveedor '" + provider + "' no soportado")
  {
  }

  /** The provider is matched without regard to ASCII case, and the same family is used. */
  lemma ProvisionProviderCaseInsensitive(provider: string, params: Js)
    ensures ProvisionPlan(Str(provider), params).Success? <==> ProvisionPlan(Str(ToLower(provider)), params).Success?
    ensures ProvisionPlan(Str(provider), params).Success? ==>
              ProvisionPlan(Str(provider), params) == ProvisionPlan(Str(ToLower(provider)), params)
  {
    ToLowerIdempotent(provider);
  }

  /** The rows `provision` inserts for a family: the three resources' `toJSON()`. */
  function FamilyRows(f: FamilyFactory, params: Record, vmSuffix: string, networkSuffix: string, diskSuffix: string,
                      createdAt: string): Rows
  {
    Rows(Some(ToJson(CreateVirtualMachine(f, Fields(Get(params, "vm")), vmSuffix))),
         Some(N.ToJson(CreateNetwork(f, Fields(Get(params, "network")), networkSuffix), createdAt)),
         Some(D.ToJson(CreateDisk(f, Fields(Get(params, "disk")), diskSuffix), createdAt)))
  }

  /** The three rows of one family carry the same provider tag, the family's. */
  lemma FamilyRowsShareProvider(f: FamilyFactory, params: Record, vmSuffix: string, networkSuffix: string,
                                diskSuffix: string, createdAt: string)
    ensures var rows := FamilyRows(f, params, vmSuffix, networkSuffix, diskSuffix, createdAt);
            rows.vm.value["provider"] == rows.network.value["provider"] == rows.disk.value["provider"] == Str(f.Tag())
  {
    FamilyIsConsistent(f, Fields(Get(params, "vm")), vmSuffix);
    FamilyIsConsistent(f, Fields(Get(params, "network")), networkSuffix);
    FamilyIsConsistent(f, Fields(Get(params, "disk")), diskSuffix);
  }

  const UnsupportedTypeSuffix := "' no soportado. Use: standard, memory-optimized, compute-optimized"

  /** The category a lower-cased `vmType` selects. */
  function CategoryOf(kind: string): (c: Option<Category>)
    ensures c == Some(Standard) <==> kind == "standard"
    ensures c == Some(MemoryOptimized) <==> kind == "memory-optimized"
    ensures c == Some(ComputeOptimized) <==> kind == "compute-optimized"
  {
    if kind == "standard" then Some(Standard)
    else if kind == "memory-optimized" then Some(MemoryOptimized)
    else if kind == "compute-optimized" then Some(ComputeOptimized)
    else None
  }

  const InvalidPackage := "Paquete de VM inválido"

  class ProvisioningService {
    const db: Database

    /** `new ProvisioningService()`: the factory map is `FactoryFor`. */
    constructor(db: Database)
      ensures this.db == db
    {
      this.db := db;
    }

    /**
     * `provision(provider, params)`: check, create the VM, network and disk
     * with one family factory, save them in that order, and turn every
     * thrown error into an error result carrying the provider as passed.
     */
    method Provision(provider: Js, params: Js, vmSuffix: string, networkSuffix: string, diskSuffix: string,
                     createdAt: string, timestamp: Js, answers: InsertAnswers) returns (result: Res.ProvisioningResult)
      modifies db
      ensures ProvisionPlan(provider, params).Failure? ==>
                result == Res.ErrorResult(provider, timestamp, ProvisionPlan(provider, params).error) && unchanged(db)
      ensures ProvisionPlan(provider, params).Success? ==>
                var rows := FamilyRows(ProvisionPlan(provider, params).value, Fields(params),
                                       vmSuffix, networkSuffix, diskSuffix, createdAt);
                && db.virtualMachines == old(db.virtualMachines) + (if VmSaved(rows, answers) then [rows.vm.value] else [])
                && db.networks == old(db.networks) + (if NetworkSaved(rows, answers) then [rows.network.value] else [])
                && db.disks == old(db.disks) + (if DiskSaved(rows, answers) then [rows.disk.value] else [])
                && result == if ChainError(rows, answers).Some?
                             then Res.ErrorResult(provider, timestamp, ChainError(rows, answers).value)
                             else Res.SuccessResult(rows.vm.value["vm_id"], provider, timestamp)
    {
      var plan := ProvisionPlan(provider, params);
      if plan.Failure? {
        return Res.ErrorResult(provider, timestamp, plan.error);
      }
      var factory := plan.value;
      var p := Fields(params);
      var vm := CreateVirtualMachine(factory, Fields(Get(p, "vm")), vmSuffix);
      var network := CreateNetwork(factory, Fields(Get(p, "network")), networkSuffix);
      var disk := CreateDisk(factory, Fields(Get(p, "disk")), diskSuffix);
      var error := SaveResourceFamily(vm, network, disk, createdAt, answers);
      if error.Some? {
        return Res.ErrorResult(provider, timestamp, error.value);
      }
      return Res.SuccessResult(GetId(vm), provider, timestamp);
    }

    /** `saveResourceFamily(vm, network, disk)`: the insert chain on the three `toJSON()` rows. */
    method SaveResourceFamily(vm: Vm, network: N.Network, disk: D.Disk, createdAt: string, answers: InsertAnswers)
      returns (error: Option<string>)
      modifies db
      ensures var rows := Rows(Some(ToJson(vm)), Some(N.ToJson(network, createdAt)), Some(D.ToJson(disk, createdAt)));
              && error == ChainError(rows, answers)
              && db.virtualMachines == old(db.virtualMachines) + (if answers.vm.None? then [ToJson(vm)] else [])
              && db.networks == old(db.networks) + (if NetworkSaved(rows, answers) then [rows.network.value] else [])
              && db.disks == old(db.disks) + (if DiskSaved(rows, answers) then [rows.disk.value] else [])
    {
      error := InsertChain(db, Rows(Some(ToJson(vm)), Some(N.ToJson(network, createdAt)), Some(D.ToJson(disk, createdAt))),
                           answers);
    }

    /**
     * `getVMById(vmId)`: a query error or a missing row throws; otherwise
     * the row is reconstructed, and the reconstructor's error propagates.
     */
    method GetVMById(vmId: Js, fetched: Fetch) returns (r: Result<Vm>)
      ensures fetched.FetchError? ==> r == Failure("Error al obtener VM: " + fetched.message)
      ensures fetched == Fetched(None) ==> r == Failure("VM con ID '" + Text(vmId) + "' no encontrada")
      ensures fetched.Fetched? && fetched.data.Some? ==> r == R.Reconstruct(fetched.data.value)
    {
      if fetched.FetchError? {
        return Failure("Error al obtener VM: " + fetched.message);
      }
      if fetched.data.None? {
        return Failure("VM con ID '" + Text(vmId) + "' no encontrada");
      }
      return R.Reconstruct(fetched.data.value);
    }

    /**
     * `saveVM(vm)`: insert the clone's row; a refused insert is rethrown
     * wrapped twice; otherwise a success result with the VM's id and the
     * provider from its `toJSON()`.
     */
    method SaveVM(vm: Vm, timestamp: Js, answer: Option<string>) returns (r: Result<Res.ProvisioningResult>)
      modifies db
      ensures answer.Some? ==>
                r == Failure("Error al guardar VM clonada: " + ("Error al guardar VM: " + answer.value)) && unchanged(db)
      ensures answer.None? ==>
                && r == Success(Res.SuccessResult(ToJson(vm)["vm_id"], ToJson(vm)["provider"], timestamp))
                && db.virtualMachines == old(db.virtualMachines) + [ToJson(vm)]
                && db.networks == old(db.networks) && db.disks == old(db.disks)
    {
      if answer.Some? {
        var inner := "Error al guardar VM: " + answer.value;
        return Failure("Error al guardar VM clonada: " + inner);
      }
      db.virtualMachines := db.virtualMachines + [ToJson(vm)];
      return Success(Res.SuccessResult(GetId(vm), ToJson(vm)["provider"], timestamp));
    }
  }

  /**
   * Reading back what `saveVM` or `provision` stored: a constructed VM of a
   * reconstructible class whose flags survive `|| false` comes back equal.
   */
  lemma SavedVmReadsBack(vm: Vm)
    requires R.Reconstructible(vm) && Constructed(vm)
    requires R.FlagSurvives(vm.memoryOptimization) && R.FlagSurvives(vm.diskOptimization)
    ensures R.Reconstruct(ToJson(vm)) == Success(vm)
  {
    R.RoundTrip(vm);
  }

  class ProvisioningServiceBuilder {
    const db: Database
    /** `this.builders`: one builder per provider, made once and reused by every call. */
    const builders: map<string, VirtualMachineBuilder>

    /** Each builder is bound to its own provider's family factory. */
    predicate BuildersBound() {
      && builders.Keys == {"aws", "azure", "gcp", "onpremise"}
      && forall k :: k in builders ==> FactoryFor(k) == Some(builders[k].factory)
    }

    /** `new ProvisioningServiceBuilder()`: four fresh builders with empty slices. */
    constructor(db: Database)
      ensures this.db == db && BuildersBound()
      ensures forall k :: k in builders ==> fresh(builders[k]) && builders[k].IsReset()
    {
      this.db := db;
      var aws := new VirtualMachineBuilder(AwsFactory);
      var azure := new VirtualMachineBuilder(AzureFactory);
      var gcp := new VirtualMachineBuilder(GcpFactory);
      var onpremise := new VirtualMachineBuilder(OnPremFactory);
      builders := map["aws" := aws, "azure" := azure, "gcp" := gcp, "onpremise" := onpremise];
    }

    /**
     * `provisionWithBuilder(provider, vmType, size, region, additionalParams = {})`:
     * find the provider's builder (lower-cased tag), hand it to a fresh
     * Director, dispatch on the lower-cased `vmType`, check the package,
     * save it, and turn every thrown error into an error result. The
     * Director receives the provider as passed, not lower-cased.
     */
    method ProvisionWithBuilder(provider: Js, vmType: Js, size: Js, region: Js, additionalParams: Js,
                                vmSuffix: string, networkSuffix: string, diskSuffix: string,
                                createdAt: string, timestamp: Js, answers: InsertAnswers)
      returns (result: Res.ProvisioningResult)
      requires BuildersBound()
      modifies builders.Values, db
      ensures !provider.Str? ==>
                result == Res.ErrorResult(provider, timestamp, CallToLowerCase(provider, "provider").error)
      ensures provider.Str? && ToLower(provider.s) !in builders ==>
                result == Res.ErrorResult(provider, timestamp, UnsupportedProvider(provider))
      ensures provider.Str? && ToLower(provider.s) in builders && !vmType.Str? ==>
                result == Res.ErrorResult(provider, timestamp, CallToLowerCase(vmType, "vmType").error)
      ensures provider.Str? && ToLower(provider.s) in builders && vmType.Str? && CategoryOf(ToLower(vmType.s)).None? ==>
                result == Res.ErrorResult(provider, timestamp, "Tipo de VM '" + vmType.s + UnsupportedTypeSuffix)
      ensures provider.Str? && ToLower(provider.s) in builders && vmType.Str? && CategoryOf(ToLower(vmType.s)).Some?
              && (SizingFor(CategoryOf(ToLower(vmType.s)).value, provider, size).Failure? || additionalParams == Null) ==>
                result == Res.ErrorResult(provider, timestamp,
                                          ConstructError(CategoryOf(ToLower(vmType.s)).value, provider, size))
      ensures result.status != Str("success") ==> result.vmId == Null && result.errorMessage.Str?
      ensures provider.Str? && ToLower(provider.s) in builders && vmType.Str? && CategoryOf(ToLower(vmType.s)).Some?
              && SizingFor(CategoryOf(ToLower(vmType.s)).value, provider, size).Success? && additionalParams != Null ==>
                result == Res.ErrorResult(provider, timestamp, InvalidPackage)
      ensures result.status == Str("error") && unchanged(db)
      ensures forall k | k in builders && (!provider.Str? || k != ToLower(provider.s)) :: unchanged(builders[k])
    {
      var lookup := CallToLowerCase(provider, "provider");
      if lookup.Failure? {
        return Res.ErrorResult(provider, timestamp, lookup.error);
      }
      if lookup.value !in builders {
        return Res.ErrorResult(provider, timestamp, UnsupportedProvider(provider));
      }
      var builder := builders[lookup.value];
      assert forall k | k in builders && k != lookup.value :: builders[k].factory != builder.factory by {
        forall k | k in builders && k != lookup.value
          ensures builders[k].factory != builder.factory
        {
          assert FactoryFor(k).value.Tag() == k;
        }
      }
      result := ProvisionWithFoundBuilder(builder, provider, vmType, size, region, additionalParams,
                                          vmSuffix, networkSuffix, diskSuffix, createdAt, timestamp, answers);
    }

    /**
     * The rest of `provisionWithBuilder` once the provider's builder is
     * found: the Director, the `vmType` switch, the validity gate, the save
     * and the success result.
     */
    method ProvisionWithFoundBuilder(builder: VirtualMachineBuilder, provider: Js, vmType: Js, size: Js, region: Js,
                                     additionalParams: Js, vmSuffix: string, networkSuffix: string, diskSuffix: string,
                                     createdAt: string, timestamp: Js, answers: InsertAnswers)
      returns (result: Res.ProvisioningResult)
      modifies builder, db
      ensures !vmType.Str? ==>
                result == Res.ErrorResult(provider, timestamp, CallToLowerCase(vmType, "vmType").error)
      ensures vmType.Str? && CategoryOf(ToLower(vmType.s)).None? ==>
                result == Res.ErrorResult(provider, timestamp, "Tipo de VM '" + vmType.s + UnsupportedTypeSuffix)
      ensures vmType.Str? && CategoryOf(ToLower(vmType.s)).Some?
              && (SizingFor(CategoryOf(ToLower(vmType.s)).value, provider, size).Failure? || additionalParams == Null) ==>
                result == Res.ErrorResult(provider, timestamp,
                                          ConstructError(CategoryOf(ToLower(vmType.s)).value, provider, size))
      ensures result.status != Str("success") ==> result.vmId == Null && result.errorMessage.Str?
      ensures vmType.Str? && CategoryOf(ToLower(vmType.s)).Some?
              && SizingFor(CategoryOf(ToLower(vmType.s)).value, provider, size).Success? && additionalParams != Null ==>
                result == Res.ErrorResult(provider, timestamp, InvalidPackage)
      ensures result.status == Str("error") && unchanged(db)
    {
      var kind := CallToLowerCase(vmType, "vmType");
      if kind.Failure? {
        return Res.ErrorResult(provider, timestamp, kind.error);
      }
      var category := CategoryOf(kind.value);
      if category.None? {
        return Res.ErrorResult(provider, timestamp, "Tipo de VM '" + vmType.s + UnsupportedTypeSuffix);
      }
      result := DirectAndSave(builder, category.value, provider, size, region, additionalParams,
                              vmSuffix, networkSuffix, diskSuffix, createdAt, timestamp, answers);
    }

    /**
     * The `try` block of `provisionWithBuilder` past the `vmType` switch: a
     * fresh Director constructs the category's package on the builder, and
     * the package goes through the validity gate and the save. The package
     * `build()` leaves never passes the gate, so nothing is saved.
     */
    method DirectAndSave(builder: VirtualMachineBuilder, c: Category, provider: Js, size: Js, region: Js,
                         additionalParams: Js, vmSuffix: string, networkSuffix: string, diskSuffix: string,
                         createdAt: string, timestamp: Js, answers: InsertAnswers)
      returns (result: Res.ProvisioningResult)
      modifies builder, db
      ensures SizingFor(c, provider, size).Failure? || additionalParams == Null ==>
                result == Res.ErrorResult(provider, timestamp, ConstructError(c, provider, size))
      ensures SizingFor(c, provider, size).Success? && additionalParams != Null ==>
                result == Res.ErrorResult(provider, timestamp, InvalidPackage)
      ensures unchanged(db)
    {
      var director := new Director(builder);
      var built := ConstructCategory(director, c, provider, size, region,
                                     Default(additionalParams, Obj(map[])), vmSuffix, networkSuffix, diskSuffix);
      if built.Failure? {
        return Res.ErrorResult(provider, timestamp, built.error);
      }
      result := CheckAndSave(built.value, provider, createdAt, timestamp, answers);
    }

    /**
     * The end of `provisionWithBuilder`'s `try` block: the validity gate,
     * the save, and the success result with the saved VM's id.
     */
    method CheckAndSave(vmPackage: VmPackage, provider: Js, createdAt: string, timestamp: Js, answers: InsertAnswers)
      returns (result: Res.ProvisioningResult)
      modifies db
      ensures !IsValid(vmPackage) ==> result == Res.ErrorResult(provider, timestamp, InvalidPackage) && unchanged(db)
      ensures result.status != Str("success") ==> result.vmId == Null && result.errorMessage.Str?
      ensures result.status == Str("success") <==> IsValid(vmPackage) && DiskSaved(PackageRows(vmPackage, createdAt), answers)
      ensures result.status == Str("success") ==>
                && db.virtualMachines == old(db.virtualMachines) + [PackageRows(vmPackage, createdAt).vm.value]
                && db.networks == old(db.networks) + [PackageRows(vmPackage, createdAt).network.value]
                && db.disks == old(db.disks) + [PackageRows(vmPackage, createdAt).disk.value]
                && result == Res.SuccessResult(GetId(vmPackage.virtualMachine.value), provider, timestamp)
    {
      if !IsValid(vmPackage) {
        return Res.ErrorResult(provider, timestamp, InvalidPackage);
      }
      var error := SaveVMPackage(vmPackage, createdAt, answers);
      if error.Some? {
        return Res.ErrorResult(provider, timestamp, error.value);
      }
      var vm := GetVirtualMachine(vmPackage).value;
      return Res.SuccessResult(GetId(vm), provider, timestamp);
    }

    /** The `switch (vmType.toLowerCase())` of `provisionWithBuilder`: one `construct*VM` call per category. */
    static method ConstructCategory(director: Director, c: Category, provider: Js, size: Js, region: Js, params: Js,
                                    vmSuffix: string, networkSuffix: string, diskSuffix: string)
      returns (built: Result<VmPackage>)
      modifies director.builder
      ensures built.Success? <==> SizingFor(c, provider, size).Success? && params != Null
      ensures built.Failure? ==> built.error == ConstructError(c, provider, size)
      ensures built.Success? ==> !IsValid(built.value)
    {
      match c
      case Standard =>
        built := director.ConstructStandardVM(provider, size, region, params, vmSuffix, networkSuffix, diskSuffix);
      case MemoryOptimized =>
        built := director.ConstructMemoryOptimizedVM(provider, size, region, params, vmSuffix, networkSuffix, diskSuffix);
      case ComputeOptimized =>
        built := director.ConstructComputeOptimizedVM(provider, size, region, params, vmSuffix, networkSuffix, diskSuffix);
    }

    /** `saveVMPackage(vmPackage)`: the insert chain on the package's three getters. */
    method SaveVMPackage(vmPackage: VmPackage, createdAt: string, answers: InsertAnswers) returns (error: Option<string>)
      modifies db
      ensures var rows := PackageRows(vmPackage, createdAt);
              && error == ChainError(rows, answers)
              && db.virtualMachines == old(db.virtualMachines) + (if VmSaved(rows, answers) then [rows.vm.value] else [])
              && db.networks == old(db.networks) + (if NetworkSaved(rows, answers) then [rows.network.value] else [])
              && db.disks == old(db.disks) + (if DiskSaved(rows, answers) then [rows.disk.value] else [])
    {
      error := InsertChain(db, PackageRows(vmPackage, createdAt), answers);
    }
  }

  /** The rows of a package's three getters; an `undefined` getter has no row. */
  function PackageRows(p: VmPackage, createdAt: string): (rows: Rows)
    ensures rows.vm.Some? <==> GetVirtualMachine(p).Some?
    ensures rows.network.Some? <==> GetNetwork(p).Some?
    ensures rows.disk.Some? <==> GetDisk(p).Some?
    ensures IsValid(p) ==> "vm_id" in rows.vm.value && rows.vm.value["vm_id"] == GetId(GetVirtualMachine(p).value)
  {
    Rows(if GetVirtualMachine(p).Some? then Some(ToJson(GetVirtualMachine(p).value)) else None,
         if GetNetwork(p).Some? then Some(N.ToJson(GetNetwork(p).value, createdAt)) else None,
         if GetDisk(p).Some? then Some(D.ToJson(GetDisk(p).value, createdAt)) else None)
  }

  /**
   * A package as `build()` leaves it fails the gate, so its resources would
   * not be saved: the chain would stop at the `undefined` VM before any insert.
   */
  lemma BuiltPackageSavesNothing(vm: Vm, network: N.Network, disk: D.Disk, createdAt: string, a: InsertAnswers)
    ensures var p := AsBuilt(NewPackage(None, None, None), vm, network, disk);
            !IsValid(p) && !VmSaved(PackageRows(p, createdAt), a)
            && ChainError(PackageRows(p, createdAt), a) == Some(MissingToJson)
  {
    BuiltPackageIsNeverValid(vm, network, disk);
  }

  /** A package assembled as intended passes the gate and would be saved whole when the database accepts. */
  lemma AssembledPackageIsSaved(f: FamilyFactory, vmConfig: Record, networkConfig: Record, diskConfig: Record,
                                vmSuffix: string, networkSuffix: string, diskSuffix: string, createdAt: string)
    ensures var p := Assemble(f, vmConfig, networkConfig, diskConfig, vmSuffix, networkSuffix, diskSuffix);
            IsValid(p) && DiskSaved(PackageRows(p, createdAt), InsertAnswers(None, None, None))
            && PackageRows(p, createdAt).vm.value["provider"] == Str(f.Tag())
  {
    var p := Assemble(f, vmConfig, networkConfig, diskConfig, vmSuffix, networkSuffix, diskSuffix);
    FamilyIsConsistent(f, vmConfig, vmSuffix);
  }
}
