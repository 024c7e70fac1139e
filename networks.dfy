/**
 * The network classes. Every network stores an id and a region (its base
 * class) plus three provider-specific names; the Azure network also keeps
 * firewall rules and a public-IP flag. `ToJson` takes the `created_at`
 * timestamp as a parameter instead of reading the clock.
 */
module Networks {
  import opened Js

  datatype Network =
      /** src/models/AWSNetwork.js */
    | AwsNetwork(id: Js, vpcId: Js, subnet: Js, securityGroup: Js, region: Js)
      /** src/models/azure/AzureNetwork.js */
    | AzureNetwork(id: Js, virtualNetwork: Js, subnetName: Js, networkSecurityGroup: Js, region: Js,
                   firewallRules: Js, publicIP: Js)
      /** src/models/GCPNetwork.js */
    | GcpNetwork(id: Js, networkName: Js, subnetworkName: Js, firewallTag: Js, region: Js)
      /** src/models/OnPremiseNetwork.js */
    | OnPremNetwork(id: Js, physicalInterface: Js, vlanId: Js, firewallPolicy: Js, region: Js)

  /** The status every serialised network reports. */
  const Provisioned := "provisioned"

  /** `new AzureNetwork(...)`: no firewall rules and no public IP unless given. */
  function NewAzureNetwork(id: Js, virtualNetwork: Js, subnetName: Js, networkSecurityGroup: Js, region: Js,
                           firewallRules: Js, publicIP: Js): (n: Network)
    ensures n.AzureNetwork? && n.id == id && n.region == region
    ensures n.virtualNetwork == virtualNetwork && n.subnetName == subnetName
    ensures n.networkSecurityGroup == networkSecurityGroup
    ensures firewallRules == Undefined ==> n.firewallRules == Arr([])
    ensures firewallRules != Undefined ==> n.firewallRules == firewallRules
    ensures publicIP == Undefined ==> n.publicIP == Bool(false)
    ensures publicIP != Undefined ==> n.publicIP == publicIP
  {
    AzureNetwork(id, virtualNetwork, subnetName, networkSecurityGroup, region,
                 Default(firewallRules, Arr([])), Default(publicIP, Bool(false)))
  }

  /** The provider tag each class writes into its serialised form. */
  function ProviderTag(n: Network): string
  {
    match n
    case AwsNetwork(_, _, _, _, _) => "aws"
    case AzureNetwork(_, _, _, _, _, _, _) => "azure"
    case GcpNetwork(_, _, _, _, _) => "gcp"
    case OnPremNetwork(_, _, _, _, _) => "onpremise"
  }

  /** The three provider-specific names, keyed as the class keys them. */
  function Names(n: Network): Record
  {
    match n
    case AwsNetwork(_, vpcId, subnet, securityGroup, _) =>
      map["vpcId" := vpcId, "subnet" := subnet, "securityGroup" := securityGroup]
    case AzureNetwork(_, virtualNetwork, subnetName, networkSecurityGroup, _, _, _) =>
      map["virtualNetwork" := virtualNetwork, "subnetName" := subnetName, "networkSecurityGroup" := networkSecurityGroup]
    case GcpNetwork(_, networkName, subnetworkName, firewallTag, _) =>
      map["networkName" := networkName, "subnetworkName" := subnetworkName, "firewallTag" := firewallTag]
    case OnPremNetwork(_, physicalInterface, vlanId, firewallPolicy, _) =>
      map["physicalInterface" := physicalInterface, "vlanId" := vlanId, "firewallPolicy" := firewallPolicy]
  }

  /** `getConfig()`: the three names plus the region, in every class. */
  function GetConfig(n: Network): (r: Record)
    ensures r.Keys == Names(n).Keys + {"region"}
    ensures r["region"] == n.region
    ensures forall k :: k in Names(n) ==> r[k] == Names(n)[k]
  {
    Names(n)["region" := n.region]
  }

  /** `toJSON()`: the record persisted in the `networks` table. */
  function ToJson(n: Network, createdAt: string): (r: Record)
    ensures r.Keys == {"network_id", "provider", "region", "config", "status", "created_at"}
                      + (if n.AzureNetwork? then {"firewall_rules", "public_ip"} else {})
    ensures "network_id" in r && r["network_id"] == n.id
    ensures "provider" in r && r["provider"] == Str(ProviderTag(n))
    ensures "region" in r && r["region"] == n.region
    ensures "status" in r && r["status"] == Str(Provisioned)
    ensures "created_at" in r && r["created_at"] == Str(createdAt)
    ensures "config" in r && r["config"] == Obj(Names(n))
    ensures ("firewall_rules" in r <==> n.AzureNetwork?) && ("public_ip" in r <==> n.AzureNetwork?)
    ensures n.AzureNetwork? ==> r["firewall_rules"] == n.firewallRules && r["public_ip"] == n.publicIP
  {
    var common := map["network_id" := n.id, "provider" := Str(ProviderTag(n)), "region" := n.region,
                      "config" := Obj(Names(n)), "status" := Str(Provisioned), "created_at" := Str(createdAt)];
    if n.AzureNetwork? then common["firewall_rules" := n.firewallRules]["public_ip" := n.publicIP] else common
  }

  /**
   * The serialised `config` is `getConfig()` without the region, which is
   * serialised at the top level instead.
   */
  lemma ConfigIsGetConfigWithoutRegion(n: Network, createdAt: string)
    ensures ToJson(n, createdAt)["config"] == Obj(GetConfig(n) - {"region"})
    ensures ToJson(n, createdAt)["region"] == GetConfig(n)["region"]
  {
    assert "region" !in Names(n);
    assert GetConfig(n) - {"region"} == Names(n);
  }
}
