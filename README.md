# VM provisioning simulator: construction core in Dafny

This project models the construction core of a multi-provider virtual-machine
provisioning simulator. The simulator provisions a VM, a network and a disk on
one of four providers: AWS, Azure, GCP and on-premise. It does this in two ways:

- **Abstract factory.** `ProvisioningService.provision` picks a family factory
  by provider tag. The factory creates the three resources from positional
  fields of the request, and the service saves them in order.
- **Builder and director.** `ProvisioningServiceBuilder.provisionWithBuilder`
  picks a per-provider builder. A `Director` drives it through a fixed
  sequence of setters: the sizing row for the category (standard, memory-
  or compute-optimised), the caller's overrides, the network and disk
  defaults. It then builds a `VirtualMachinePackage`, checks `isValid` and
  saves it.

Beside these sit a prototype registry of clonable VMs, the `toJSON`/`getConfig`
serialisations of every VM, network and disk class, a reconstructor that turns
a stored VM row back into an object, the `ProvisioningResult` record, and the
logger's redaction of secrets.

JavaScript values are the datatype `Js.Js`: undefined, null, booleans,
integers, strings, arrays and objects. An object's fields are a
`map<string, Js>`. JavaScript's `||`, default-parameter defaults (applied to
`undefined` only), truthiness and
"cannot read properties of undefined" errors are written out in module `Js`.
Objects whose fields the source updates in place are classes:

- `Builders.VirtualMachineBuilder`
- `Directors.Director`
- `Prototypes.PrototypeRegistry`
- `Services.Database`
- the two services

Value objects are datatypes: VMs, networks, disks, packages and results.
The database is an oracle. Each insert is given its answer (accepted, or
refused with a message) as a parameter. Timestamps and random id suffixes are
parameters too.

Modules and files:

- `js.dfy` (`Js`): JavaScript values and operators.
- `vms.dfy` (`VirtualMachines`): all VM classes, their `toJSON`, getters and `clone`.
- `networks.dfy` (`Networks`) and `disks.dfy` (`Disks`): the network and disk classes.
- `factories.dfy` (`Factories`): the family factories and the VM factories.
- `packages.dfy` (`Packages`): `VirtualMachinePackage`.
- `builders.dfy` (`Builders`): `VirtualMachineBuilder`.
- `directors.dfy` (`Directors`): `Director`, its tables and defaults.
- `registry.dfy` (`Prototypes`): `PrototypeRegistry`.
- `reconstructor.dfy` (`Reconstructor`): `VMReconstructor.reconstructVM`.
- `results.dfy` (`Results`): `ProvisioningResult`.
- `logger.dfy` (`Logging`): `Logger.sanitizeParams`.
- `services.dfy` (`Services`): the decision logic of both services.

## Model

| member | source | states |
|---|---|---|
| Js.Or | src/directors/Director.js:234-236 | JavaScript `a \|\| b`: `a` when it is truthy, otherwise `b` |
| Js.Default | src/models/aws/AWSVirtualMachine.js:20 | a default parameter: the argument unless it is undefined, then the default |
| Js.Get | src/factories/aws/AWSFactory.js:26-32 | reading a property: the stored value, or undefined for a missing key |
| Js.ReadProp | src/directors/Director.js:106 | reading a property fails exactly on undefined and null, and reads the field of an object |
| Js.ToLower | src/utils/VMReconstructor.js:8 | lower-casing keeps the length and maps each character |
| Js.ToLowerIdempotent | src/utils/VMReconstructor.js:8 | lower-casing twice equals lower-casing once |
| Js.CallToLowerCase | src/services/ProvisioningService.js:47 | `x.toLowerCase()` succeeds exactly on strings and yields the lower-cased text |
| VirtualMachines.NewAwsVm | src/models/aws/AWSVirtualMachine.js:20-33 | a new AWS VM stores its arguments; flags default to false and the key pair to null |
| VirtualMachines.NewAzureVm | src/models/azure/AzureVirtualMachine.js:22-35 | a new Azure VM stores its arguments with the same defaults |
| VirtualMachines.NewPlainAzureVm | src/models/AzureVirtualMachine.js:20-33 | the top-level Azure VM stores its arguments with the same defaults |
| VirtualMachines.NewGcpVm | src/models/gcp/GCPVirtualMachine.js:22-35 | a new GCP VM stores its arguments with the same defaults |
| VirtualMachines.NewOnPremVm | src/models/onpremise/OnPremiseVirtualMachine.js:22-32 | a new on-premise VM stores its arguments with the same defaults |
| VirtualMachines.NewLegacyAwsVm | src/models/AWSVirtualMachine.js:15-21 | the legacy AWS VM stores its five fields, status active |
| VirtualMachines.NewLegacyGcpVm | src/models/GCPVirtualMachine.js:15-21 | the legacy GCP VM stores its five fields, status active |
| VirtualMachines.NewLegacyOnPremVm | src/models/OnPremiseVirtualMachine.js:15-21 | the legacy on-premise VM stores id, cpu, ram, disk and network, status active |
| VirtualMachines.AwsJson | src/models/aws/AWSVirtualMachine.js:47-62 | the AWS row has exactly the eleven keys, provider "aws", each holding its field |
| VirtualMachines.AzureJson | src/models/azure/AzureVirtualMachine.js:72-87 | the Azure row has provider "azure"; location is emitted as `region` and imageReference as `image` |
| VirtualMachines.GcpJson | src/models/gcp/GCPVirtualMachine.js:72-87 | the GCP row has provider "gcp" with machine_type, zone, disk and project |
| VirtualMachines.OnPremJson | src/models/onpremise/OnPremiseVirtualMachine.js:69-83 | the on-premise row has provider "onpremise" with instance_type, hypervisor and datacenter |
| VirtualMachines.LegacyAwsJson | src/models/AWSVirtualMachine.js:35-45 | the legacy AWS row has exactly seven keys |
| VirtualMachines.LegacyGcpJson | src/models/GCPVirtualMachine.js:35-45 | the legacy GCP row has exactly seven keys |
| VirtualMachines.LegacyOnPremJson | src/models/OnPremiseVirtualMachine.js:35-45 | the legacy on-premise row has exactly vm_id, provider, status, cpu, ram, disk and network |
| VirtualMachines.ToJson | src/models/AzureVirtualMachine.js:47-62 | every VM row carries its id, provider tag and status; the sizing keys appear exactly for the full-field classes |
| VirtualMachines.GetId | src/models/aws/AWSVirtualMachine.js:35-37 | `getId()` is the `vm_id` that `toJSON()` reports |
| VirtualMachines.GetStatus | src/models/aws/AWSVirtualMachine.js:39-41 | `getStatus()` is the status `toJSON()` reports, "active" for a constructed VM |
| VirtualMachines.Clone | src/models/azure/AzureVirtualMachine.js:50-66 | the clone has the new id, the same class and every other field of the source, status active; it differs from the source when the id differs |
| VirtualMachines.CloneJsonDiffersOnlyInId | src/models/gcp/GCPVirtualMachine.js:50-66 | the clone's row is the source's row with only `vm_id` replaced |
| VirtualMachines.WithIdJson | src/models/onpremise/OnPremiseVirtualMachine.js:48-63 | replacing the id changes only `vm_id` in the row |
| Networks.NewAzureNetwork | src/models/azure/AzureNetwork.js:15-22 | firewall rules default to [] and publicIP to false; the other arguments are stored |
| Networks.GetConfig | src/models/AWSNetwork.js:26-33 | `getConfig()` holds the class's three names plus region |
| Networks.ToJson | src/models/azure/AzureNetwork.js:40-55 | the row has id, provider, region, status "provisioned", the names as config; firewall_rules and public_ip appear exactly for Azure |
| Networks.ConfigIsGetConfigWithoutRegion | src/models/GCPNetwork.js:26-51 | the row's config is `getConfig()` without region, and its region is `getConfig().region` |
| Disks.NewAwsDisk | src/models/aws/AWSDisk.js:16-24 | iops defaults to null; region is stored as given |
| Disks.NewAzureDisk | src/models/azure/AzureDisk.js:16-22 | iops defaults to null; region is stored as given |
| Disks.NewGcpDisk | src/models/gcp/GCPDisk.js:15-21 | iops defaults to null; region is stored as given |
| Disks.NewOnPremDisk | src/models/onpremise/OnPremiseDisk.js:15-21 | iops defaults to null; region is stored as given |
| Disks.GetSize | src/models/aws/AWSDisk.js:30-32 | `getSize()` equals `getConfig().sizeGB` and the row's `size_gb` |
| Disks.GetConfig | src/models/aws/AWSDisk.js:34-42 | `getConfig()` holds the type settings and sizeGB; only the AWS disk adds region and iops |
| Disks.ToJson | src/models/gcp/GCPDisk.js:42-56 | the row has id, provider, size_gb, config, status "provisioned"; region and iops appear exactly for the current (non-legacy) classes |
| Disks.ConfigIsGetConfigWithoutSize | src/models/AzureDisk.js:28-51 | the row's config is `getConfig()` without sizeGB, region and iops |
| Factories.CreateVirtualMachine | src/factories/GCPFactory.js:23-33 | the family's VM class, id `<prefix>vm-<suffix>`, fields from the listed params, including the shifted GCP and on-premise positions |
| Factories.CreateNetwork | src/factories/AzureFactory.js:44-54 | the family's network class, id `<prefix>net-<suffix>`, the four fields in order |
| Factories.CreateDisk | src/factories/onpremise/OnPremiseFactory.js:64-73 | the family's disk class, id `<prefix>disk-<suffix>`, no region and null iops |
| Factories.VmCreatorReadsOnlyListedFields | src/factories/aws/AWSFactory.js:23-33 | two requests that agree on the four listed fields give the same VM: vcpus, memory, flags and key pair are dropped |
| Factories.FamilyIsConsistent | src/factories/onpremise/OnPremiseFactory.js:23-73 | a family's VM, network and disk carry the family's provider tag and have pairwise distinct ids |
| Factories.ShiftedMappingsShowInJson | src/factories/GCPFactory.js:26-32 | the GCP row's `disk` shows params.project and its `project` shows params.image; on-premise `vcpus` shows params.ram |
| Factories.CreateVm | src/factories/aws/AWSVMFactory.js:18-28 | the VM factory's class, id `<prefix><suffix>`, fields in argument order |
| Factories.AzureVmFactoryShiftShowsInJson | src/factories/AzureVMFactory.js:18-28 | the Azure VM factory's shifted mapping as it shows in the row |
| Packages.NewPackage | src/models/VirtualMachinePackage.js:12-16 | a new package holds no `vm` property |
| Packages.GettersReturnConstructorArguments | src/models/VirtualMachinePackage.js:12-40 | the three getters return the constructor's arguments unchanged |
| Packages.IsValid | src/models/VirtualMachinePackage.js:46-48 | valid exactly when the VM, network and disk are all present, read directly or through the getters |
| Packages.ValidityIgnoresProviders | src/models/VirtualMachinePackage.js:43-48 | some valid package mixes providers: validity checks presence only |
| Packages.EmptyPackageIsInvalid | src/models/VirtualMachinePackage.js:12-16 | a package built with no arguments is not valid |
| Builders.AsBuilt | src/builders/VirtualMachineBuilder.js:65-70 | `build()` sets `vm`, network and disk and leaves `virtualMachine` as it was |
| Builders.BuiltPackageIsNeverValid | src/builders/VirtualMachineBuilder.js:65-70 | a package as `build()` leaves it is never valid |
| Builders.Assemble | src/models/VirtualMachinePackage.js:46-48 | the corrected build: valid, one provider throughout, the VM from the factory |
| Builders.VirtualMachineBuilder.constructor | src/builders/VirtualMachineBuilder.js:4-10 | the builder is bound to its factory, with empty slices and an empty package |
| Builders.VirtualMachineBuilder.Reset | src/builders/VirtualMachineBuilder.js:12-17 | the three slices become empty and the package is replaced by an empty one |
| Builders.VirtualMachineBuilder.SetVMConfig | src/builders/VirtualMachineBuilder.js:19-22 | the VM slice becomes exactly the four fields; the other slices are unchanged; returns the builder |
| Builders.VirtualMachineBuilder.SetMemoryOptimization | src/builders/VirtualMachineBuilder.js:24-27 | writes one field of the VM slice only; returns the builder |
| Builders.VirtualMachineBuilder.SetDiskOptimization | src/builders/VirtualMachineBuilder.js:29-32 | writes one field of the VM slice only; returns the builder |
| Builders.VirtualMachineBuilder.SetKeyPair | src/builders/VirtualMachineBuilder.js:34-37 | writes one field of the VM slice only; returns the builder |
| Builders.VirtualMachineBuilder.SetNetworkConfig | src/builders/VirtualMachineBuilder.js:39-42 | the network slice is the config plus region, the region argument winning |
| Builders.VirtualMachineBuilder.SetFirewallRules | src/builders/VirtualMachineBuilder.js:44-47 | writes one field of the network slice only; returns the builder |
| Builders.VirtualMachineBuilder.SetPublicIP | src/builders/VirtualMachineBuilder.js:49-52 | writes one field of the network slice only; returns the builder |
| Builders.VirtualMachineBuilder.SetDiskConfig | src/builders/VirtualMachineBuilder.js:54-57 | the disk slice is sizeGB, region and the config, the config winning |
| Builders.VirtualMachineBuilder.SetIOPS | src/builders/VirtualMachineBuilder.js:59-62 | writes one field of the disk slice only; returns the builder |
| Builders.VirtualMachineBuilder.Build | src/builders/VirtualMachineBuilder.js:65-70 | the factory is called on the three slices; the results go to `vm`, network and disk; the same package is returned |
| Builders.VirtualMachineBuilder.BuildIntended | src/builders/VirtualMachineBuilder.js:65-70 | the corrected build returns a valid single-provider package |
| Builders.Instantiate | src/builders/AWSVirtualMachineBuilder.js:3-7 | instantiating the abstract base fails with its message; a subclass gives a fresh builder bound to the factory, reset |
| Directors.SizingFor | src/directors/Director.js:138-163 | a known provider yields its table row, and an unknown size yields the "small" row; an unknown provider (wrong case included) fails |
| Directors.AwsStandardMedium | src/directors/Director.js:139-143 | aws/standard/medium is ("m5.large", 2, 8) |
| Directors.ProviderCaseMatters | src/directors/Director.js:162 | "AWS" is not a known provider of any table |
| Directors.TablesAreOrdered | src/directors/Director.js:138-225 | sizes grow small to large in every table; compute ≤ standard ≤ memory in memory; memory-optimised rows have 8 GB per vCPU |
| Directors.Flags | src/directors/Director.js:45-46 | memory optimisation exactly for memory-optimised, disk optimisation exactly for compute-optimised |
| Directors.NetworkDefaults | src/directors/Director.js:231-256 | each caller field if truthy, else the provider literal, and no other field; {} for an unknown provider |
| Directors.DiskDefaults | src/directors/Director.js:262-283 | the type field if truthy, else the literal; the booleans are true unless exactly false; {} for an unknown provider |
| Directors.DiskBooleansDefaultToTrue | src/directors/Director.js:264-275 | encrypted, managedDisk and autoDelete are false exactly when the caller passes false |
| Directors.DefaultDiskSize | src/directors/Director.js:289-297 | 200 for memory-optimized, 150 for compute-optimized, 100 otherwise |
| Directors.FlagsFollowCategory | src/directors/Director.js:42-51 | the final VM slice carries the category's row and flags unless `params.vm` overrides them |
| Directors.KeyPairAndOverrides | src/directors/Director.js:106-111 | the key pair is set only when truthy, and `params.vm` is merged last |
| Directors.NetworkSliceKeys | src/directors/Director.js:113-122 | firewall rules only when truthy, publicIP only when defined, region from the argument |
| Directors.DefaultDiskSizeIgnoresCategory | src/directors/Director.js:124-127 | with no vmType and no size the disk gets 100 GB, whatever the category |
| Directors.Director.constructor | src/directors/Director.js:19-21 | the director holds the given builder |
| Directors.Director.SetBuilder | src/directors/Director.js:27-29 | the director now holds the given builder |
| Directors.Director.ApplyAdditionalConfig | src/directors/Director.js:104-132 | nullish params fail on the first read with nothing changed; otherwise the three slices become the key pair/override, network and disk results |
| Directors.Director.ConstructVM | src/directors/Director.js:39-52 | sizing failure leaves the builder untouched; otherwise reset, VM slice, flags, additional config, build; the slices depend only on the arguments |
| Directors.Director.ConstructStandardVM | src/directors/Director.js:39-52 | succeeds exactly when the sizing is found and params are not null; standard flags unless overridden; the network and disk slices and the returned package are as `build()` leaves them, which is never valid |
| Directors.Director.ConstructMemoryOptimizedVM | src/directors/Director.js:62-75 | the same for the memory-optimised table and flags, and the same never-valid package |
| Directors.Director.ConstructComputeOptimizedVM | src/directors/Director.js:85-98 | the same for the compute-optimised table and flags, and the same never-valid package |
| Prototypes.Without | src/patterns/PrototypeRegistry.js:57-59 | removing a key keeps exactly the other keys, without duplicates |
| Prototypes.ReplayWellFormed | src/patterns/PrototypeRegistry.js:6-59 | after any sequence of registrations and removals, the keys listed are exactly the entries, each once |
| Prototypes.HasIffLastRegistered | src/patterns/PrototypeRegistry.js:48-59 | a key is present exactly when its last operation was a registration, holding that prototype |
| Prototypes.KeysInFirstRegistrationOrder | src/patterns/PrototypeRegistry.js:39-41 | with registrations only, keys are listed in order of first registration |
| Prototypes.RegisteredKeysListed | src/patterns/PrototypeRegistry.js:15-20 | with registrations only, a key is listed exactly when it was registered |
| Prototypes.PrototypeRegistry.constructor | src/patterns/PrototypeRegistry.js:6-8 | a new registry is empty |
| Prototypes.PrototypeRegistry.RegisterPrototype | src/patterns/PrototypeRegistry.js:15-20 | a missing or non-clonable value is rejected with nothing changed; otherwise the entry is set, a new key listed last |
| Prototypes.PrototypeRegistry.ClonePrototype | src/patterns/PrototypeRegistry.js:27-33 | an absent key fails with not-found; otherwise the entry's clone with the new id |
| Prototypes.PrototypeRegistry.GetPrototypeKeys | src/patterns/PrototypeRegistry.js:39-41 | every registered key once and no other |
| Prototypes.PrototypeRegistry.HasPrototype | src/patterns/PrototypeRegistry.js:48-50 | true exactly when the key's last operation was a registration |
| Prototypes.PrototypeRegistry.UnregisterPrototype | src/patterns/PrototypeRegistry.js:57-59 | true exactly when the key was present; afterwards it is absent and every other entry unchanged |
| Reconstructor.Reconstruct | src/utils/VMReconstructor.js:7-69 | succeeds exactly on the four tags in any case; an unknown tag fails with the unsupported message; the class follows the tag, and each provider field is read from its column (Azure's location from `region`) |
| Reconstructor.RoundTrip | src/utils/VMReconstructor.js:11-64 | reconstructing a VM's row gives the VM back exactly when its flags survive `\|\| false` |
| Reconstructor.PlainAzureComesBackClonable | src/utils/VMReconstructor.js:25-38 | a top-level Azure VM's row comes back as a clonable Azure VM with the same row |
| Reconstructor.ProviderTagCaseInsensitive | src/utils/VMReconstructor.js:8-10 | lower-casing the stored tag changes nothing |
| Reconstructor.RebuildIgnoresProvider | src/utils/VMReconstructor.js:11-64 | the record's own provider field does not reach the rebuilt VM |
| Results.NewResult | src/models/ProvisioningResult.js:13-19 | stores the five fields; the error message defaults to null |
| Results.SuccessResult | src/services/ProvisioningService.js:67-72 | status "success" and a null error message |
| Results.ErrorResult | src/services/ProvisioningService.js:85-97 | status "error", a null VM id and the message |
| Results.ToJson | src/models/ProvisioningResult.js:41-49 | exactly the five stored fields |
| Results.GetStatus | src/models/ProvisioningResult.js:21-23 | the status `toJSON()` reports |
| Results.GetVmId | src/models/ProvisioningResult.js:25-27 | the VM id `toJSON()` reports |
| Results.GetProvider | src/models/ProvisioningResult.js:29-31 | the provider `toJSON()` reports |
| Results.GetErrorMessageId | src/models/ProvisioningResult.js:33-35 | the error message `toJSON()` reports |
| Results.ToJsonIsInjective | src/models/ProvisioningResult.js:41-49 | two results with the same row are the same result |
| Results.SuccessAndErrorDiffer | src/models/ProvisioningResult.js:13-35 | success and error results differ in status and error message |
| Logging.SanitizeParams | src/services/Logger.js:65-76 | the loop's result is the input with every truthy sensitive value redacted |
| Logging.SanitizedShows | src/services/Logger.js:65-76 | each key stays; a truthy sensitive value shows the marker; every other value shows unchanged |
| Logging.SanitizeIdempotent | src/services/Logger.js:65-76 | sanitising twice equals sanitising once |
| Logging.SecretsDoNotReachTheLog | src/services/Logger.js:65-76 | the log reveals nothing of a truthy secret |
| Logging.NestedSecretsAreKept | src/services/Logger.js:67-74 | redaction is shallow: nested objects are logged as given |
| Services.ChainError | src/services/ProvisioningService.js:109-136 | the chain succeeds exactly when the disk is saved; the first refused insert or `undefined` resource gives the error |
| Services.InsertChain | src/services/ProvisioningServiceBuilder.js:130-161 | the inserts happen in order and stop at the first error; only saved rows are appended |
| Services.InsertsFormAPrefix | src/services/ProvisioningService.js:109-136 | a saved disk implies a saved network, which implies a saved VM |
| Services.FactoryFor | src/services/ProvisioningService.js:24-29 | a factory exists exactly for the four tags and carries that tag |
| Services.ProvisionPlan | src/services/ProvisioningService.js:43-62 | a non-string provider throws, an unknown one is unsupported; with a known one, nullish params fail reading `vm` and otherwise missing sections throw; otherwise the tag's factory |
| Services.UnknownProviderComesFirst | src/services/ProvisioningService.js:47-51 | an unknown provider fails the same way whatever the parameters |
| Services.ProvisionProviderCaseInsensitive | src/services/ProvisioningService.js:47 | the provider is matched case-insensitively |
| Services.FamilyRowsShareProvider | src/services/ProvisioningService.js:60-65 | the three saved rows share the provider tag |
| Services.CategoryOf | src/services/ProvisioningServiceBuilder.js:69-81 | exactly the three category names select a category |
| Services.ProvisioningService.Provision | src/services/ProvisioningService.js:43-98 | plan errors return an error result with nothing saved; otherwise the family is saved in order and the result follows the first error, or succeeds with the VM id |
| Services.ProvisioningService.SaveResourceFamily | src/services/ProvisioningService.js:109-136 | the three `toJSON()` rows are inserted in order, stopping at the first refusal |
| Services.ProvisioningService.GetVMById | src/services/ProvisioningService.js:160-176 | a query error and a missing row throw their messages; otherwise the row is reconstructed |
| Services.ProvisioningService.SaveVM | src/services/ProvisioningService.js:202-232 | a refused insert fails with the twice-wrapped message and nothing saved; otherwise the row is appended and the result carries the VM's id and provider |
| Services.SavedVmReadsBack | src/services/ProvisioningService.js:160-176 | a saved VM whose flags survive reads back equal |
| Services.ProvisioningServiceBuilder.constructor | src/services/ProvisioningServiceBuilder.js:35-41 | one fresh, reset builder per provider, each on its own factory |
| Services.ProvisioningServiceBuilder.ProvisionWithBuilder | src/services/ProvisioningServiceBuilder.js:54-123 | each failing stage gives its error result; past construction the result is always the invalid-package error; every call returns an error and saves nothing; other providers' builders are untouched |
| Services.ProvisioningServiceBuilder.ProvisionWithFoundBuilder | src/services/ProvisioningServiceBuilder.js:65-108 | with the builder found: a non-string or unknown `vmType` gives its error; a sizing failure or null params give the Director's error; otherwise the invalid-package error; nothing is saved |
| Services.ProvisioningServiceBuilder.DirectAndSave | src/services/ProvisioningServiceBuilder.js:65-89 | a fresh Director's construction error, or else the invalid-package error, with the database unchanged |
| Services.ProvisioningServiceBuilder.CheckAndSave | src/services/ProvisioningServiceBuilder.js:84-97 | an invalid package fails with nothing saved; success exactly when valid and fully saved |
| Services.ProvisioningServiceBuilder.ConstructCategory | src/services/ProvisioningServiceBuilder.js:69-81 | the category's construct method: success exactly when sizing is found and params are not null, and a built package is never valid |
| Services.ProvisioningServiceBuilder.SaveVMPackage | src/services/ProvisioningServiceBuilder.js:130-161 | the package's getter rows are inserted in order, stopping at the first error |
| Services.PackageRows | src/services/ProvisioningServiceBuilder.js:131-158 | a row exists exactly for each present getter; a valid package's VM row carries its id |
| Services.BuiltPackageSavesNothing | src/services/ProvisioningServiceBuilder.js:84-89 | a package as `build()` leaves it fails the gate, and its save would stop at the `undefined` VM |
| Services.AssembledPackageIsSaved | src/services/ProvisioningServiceBuilder.js:84-97 | a correctly assembled package passes the gate and is saved whole when the database accepts |

## Left out

- Logging, the console and the log table: `Logger` is modelled only through `sanitizeParams`.
- `getAllVMs` and `getLogs` in both services: they only query the database, so there is no decision logic to model.
- The real database is not modelled. Each insert's answer is a parameter, and so is a query's answer. The `select('id')` after an insert is not modelled either.
- `Date.now()`, `new Date()` and `Math.random()` are not modelled: ids take a suffix parameter, and timestamps and `created_at` are parameters.
- Services.ProvisioningService.Provision: the network and disk rows receive one shared `created_at`, where the source calls `new Date()` separately for each.
- JavaScript numbers are integers here, so floating point and NaN are not modelled.
- Js.ToLower: lower-cases ASCII letters only, because Unicode case mapping is not available.
- Js.CallToLowerCase: TypeError messages approximate V8's wording.
- Directors.SizingFor: keys inherited from `Object.prototype` (such as `toString`) count as unknown providers. This also applies to Directors.NetworkDefaults, Directors.DiskDefaults and the services' lookups.
- Directors.SizingFor: an inherited size key such as `constructor` is treated like any unknown size and falls back to the "small" row. In the source the inherited value is a truthy function, so there is no fallback and the VM slice gets undefined fields.
- Directors.DefaultDiskSize: an inherited `vmType` such as `toString` gives 100 here. In the source it yields the inherited function as the disk size.
- Spreading a string or an array into an object is treated as adding no fields.
- Js.Text: the text of an array or object is approximated.
- The abstract interface classes (`IVirtualMachine`, `INetwork`, `IDisk`, `IPrototype`, `AbstractFactory`, `VMFactory`) only throw "must be implemented", so they are not modelled.
- The builder subclasses add nothing to the base class. They are modelled as the base class bound to a factory. This includes a GCP builder, whose source file is not part of this model; it is assumed to follow the AWS, Azure and on-premise subclasses.
- Four family-factory imports point at model files that are not part of this model. Each is resolved to the class of the same name that is modelled: the AWS factory's network to src/models/AWSNetwork.js, the Azure factory's network to src/models/azure/AzureNetwork.js, the GCP factory's disk to src/models/gcp/GCPDisk.js, and the on-premise factory's network to src/models/OnPremiseNetwork.js.
- `Services.Database` stands for the three database tables the services insert into (src/services/ProvisioningService.js:111-134). Only the rows appended to each table are modelled.
- Module imports are assumed to resolve to the classes shown. src/builders/VirtualMachineBuilder.js:1 destructures `{ VirtualMachinePackage }`, but src/models/VirtualMachinePackage.js:51 exports the class itself, so as written `reset()` (src/builders/VirtualMachineBuilder.js:16) would throw "VirtualMachinePackage is not a constructor". The model takes the import to be the class.
- Some modules the services require are not part of this model: the GCP builder and the `factories/AWSFactory` and `factories/OnPremiseFactory` paths (src/services/ProvisioningServiceBuilder.js:13, 16, 19), and the `factories/azure` and `factories/gcp` paths (src/services/ProvisioningService.js:3-4). They are assumed to resolve to the factory and builder classes that are modelled.
- The `async`/`await` scheduling and concurrent requests are not modelled.

## Findings

| source | as written | input that shows it | evidently intended | confidence | as-written member | corrected member |
|---|---|---|---|---|---|---|
| src/builders/VirtualMachineBuilder.js:65-70 | once the imports resolve, `build()` stores the VM under `package.vm`, but the getters and `isValid()` read `virtualMachine` (src/models/VirtualMachinePackage.js:22-24, 46-48), so every built package is invalid and `provisionWithBuilder` always fails the check at src/services/ProvisioningServiceBuilder.js:84-86 | `provisionWithBuilder('aws', 'standard', 'medium', 'us-east-1')` | `build()` stores the VM under `virtualMachine`, so the package is valid and is saved | not executed | Builders.BuiltPackageIsNeverValid | Builders.VirtualMachineBuilder.BuildIntended |

The builder service and the director model the code as written.
Directors.Director.ConstructStandardVM and its two siblings return the package
`build()` leaves, which is never valid. So
Services.ProvisioningServiceBuilder.ProvisionWithBuilder always returns an
error and saves nothing. Builders.Assemble and Services.AssembledPackageIsSaved
state what the corrected build delivers through the same validity check and
insert chain.
