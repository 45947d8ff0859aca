/**
  The manual network descriptor of the Azure cloud provider interface
  (`Bosh::AzureCloud::ManualNetwork`): it validates the raw spec of one named
  network, resolves the resource group, and exposes read-only accessors.
 */
module AzureManualNetwork {
  import opened Wrappers
  import opened RawSpec

  /** One error per required field; each is reported as "<field> required for manual network". */
  datatype ConfigError = MissingCloudProperties | MissingVirtualNetworkName | MissingSubnetName
  {
    /** The spec key whose absence this error reports. */
    function FieldName(): (f: string)
      ensures |f| > 0
    {
      match this
      case MissingCloudProperties => "cloud_properties"
      case MissingVirtualNetworkName => "virtual_network_name"
      case MissingSubnetName => "subnet_name"
    }

    /** The text of the error raised by the constructor. */
    function Message(): (m: string)
      ensures |m| == |FieldName()| + |Suffix|
      ensures m[..|FieldName()|] == FieldName() && m[|FieldName()|..] == Suffix
    {
      FieldName() + Suffix
    }
  }

  const Suffix := " required for manual network"

  /**
    A validated manual network. Each field holds the object the Ruby accessor of the
    same name returns; `Null` stands for `nil`. `defaults` is the raw `default` entry,
    from which the two predicates are derived.
   */
  datatype ManualNetwork = ManualNetwork(
    name: string,
    privateIp: Value,
    resourceGroupName: Value,
    virtualNetworkName: Value,
    subnetName: Value,
    securityGroup: Value,
    dns: Value,
    defaults: Value)
  {
    /** True when the `default` list names `behaviour`; absent or nil names nothing. */
    predicate HasDefault(behaviour: string)
      ensures HasDefault(behaviour) <==> defaults.List? && Str(behaviour) in defaults.items
    {
      defaults.List? && Includes(defaults.items, Str(behaviour))
    }

    /** `has_default_dns?` */
    predicate HasDefaultDns()
      ensures HasDefaultDns() <==> defaults.List? && Str("dns") in defaults.items
    {
      HasDefault("dns")
    }

    /** `has_default_gateway?` */
    predicate HasDefaultGateway()
      ensures HasDefaultGateway() <==> defaults.List? && Str("gateway") in defaults.items
    {
      HasDefault("gateway")
    }
  }

  /** The top-level keys the descriptor reads. */
  const TopLevelKeys: set<string> := {"ip", "dns", "default", "cloud_properties"}

  /** The `cloud_properties` keys the descriptor reads. */
  const CloudKeys: set<string> :=
    {"virtual_network_name", "subnet_name", "resource_group_name", "security_group"}

  /** The `cloud_properties` entry of the spec, nil when absent. */
  function CloudProperties(spec: map<string, Value>): (cp: Value)
    ensures "cloud_properties" in spec ==> cp == spec["cloud_properties"]
    ensures "cloud_properties" !in spec ==> cp == Null
  {
    Get(spec, "cloud_properties")
  }

  /** The entry `key` of the spec's `cloud_properties`, nil when there is none. */
  function CloudField(spec: map<string, Value>, key: string): (v: Value)
    ensures CloudProperties(spec).Map? && key in CloudProperties(spec).entries ==>
      v == CloudProperties(spec).entries[key]
    ensures !(CloudProperties(spec).Map? && key in CloudProperties(spec).entries) ==> v == Null
  {
    Field(CloudProperties(spec), key)
  }

  /** The three required fields are present and not nil. */
  predicate Complete(spec: map<string, Value>)
  {
    && CloudProperties(spec) != Null
    && CloudField(spec, "virtual_network_name") != Null
    && CloudField(spec, "subnet_name") != Null
  }

  /**
    `ManualNetwork.new(azure_properties, name, spec)`: the checks run in order and the
    first one that fails decides the error.
   */
  function New(azureProperties: map<string, Value>, name: string, spec: map<string, Value>)
    : (r: Result<ManualNetwork, ConfigError>)
    // construction succeeds exactly when the three required fields are present and not nil
    ensures r.Ok? <==> Complete(spec)
    // each error names a field that really is missing
    ensures r == Err(MissingCloudProperties) <==> CloudProperties(spec) == Null
    ensures r == Err(MissingVirtualNetworkName) ==>
      CloudProperties(spec) != Null && CloudField(spec, "virtual_network_name") == Null
    ensures r == Err(MissingSubnetName) ==>
      CloudProperties(spec) != Null && CloudField(spec, "subnet_name") == Null
    // when only one required name is missing, that one is reported
    ensures (&& CloudProperties(spec) != Null
             && CloudField(spec, "virtual_network_name") == Null
             && CloudField(spec, "subnet_name") != Null) ==> r == Err(MissingVirtualNetworkName)
    ensures (&& CloudProperties(spec) != Null
             && CloudField(spec, "virtual_network_name") != Null
             && CloudField(spec, "subnet_name") == Null) ==> r == Err(MissingSubnetName)
    // the accessors return the spec's own values
    ensures r.Ok? ==>
      && r.value.name == name
      && r.value.privateIp == Get(spec, "ip")
      && r.value.virtualNetworkName == CloudField(spec, "virtual_network_name")
      && r.value.subnetName == CloudField(spec, "subnet_name")
      && r.value.securityGroup == CloudField(spec, "security_group")
      && r.value.dns == Get(spec, "dns")
      && r.value.defaults == Get(spec, "default")
    // the spec's resource group wins; otherwise the global one is used
    ensures r.Ok? && CloudField(spec, "resource_group_name") != Null ==>
      r.value.resourceGroupName == CloudField(spec, "resource_group_name")
    ensures r.Ok? && CloudField(spec, "resource_group_name") == Null ==>
      r.value.resourceGroupName == Get(azureProperties, "resource_group_name")
  {
    var cloudProperties := Get(spec, "cloud_properties");
    if cloudProperties == Null then Err(MissingCloudProperties)
    else
      var resourceGroupName :=
        if Field(cloudProperties, "resource_group_name") != Null
        then Field(cloudProperties, "resource_group_name")
        else Get(azureProperties, "resource_group_name");
      var virtualNetworkName := Field(cloudProperties, "virtual_network_name");
      if virtualNetworkName == Null then Err(MissingVirtualNetworkName)
      else
        var subnetName := Field(cloudProperties, "subnet_name");
        if subnetName == Null then Err(MissingSubnetName)
        else
          Ok(ManualNetwork(
            name,
            Get(spec, "ip"),
            resourceGroupName,
            virtualNetworkName,
            subnetName,
            Field(cloudProperties, "security_group"),
            Get(spec, "dns"),
            Get(spec, "default")))
  }

  /** What every successfully constructed descriptor guarantees. */
  ghost predicate Valid(n: ManualNetwork)
  {
    n.virtualNetworkName != Null && n.subnetName != Null && n.resourceGroupName != Null
  }

  /**
    A raw spec that describes `n`: the inverse of `New`, used to state that the
    accessors lose nothing.
   */
  function ToSpec(n: ManualNetwork): (spec: map<string, Value>)
    ensures spec.Keys == TopLevelKeys
    ensures CloudProperties(spec).Map? && CloudProperties(spec).entries.Keys == CloudKeys
  {
    map[
      "ip" := n.privateIp,
      "dns" := n.dns,
      "default" := n.defaults,
      "cloud_properties" := Map(map[
        "virtual_network_name" := n.virtualNetworkName,
        "subnet_name" := n.subnetName,
        "resource_group_name" := n.resourceGroupName,
        "security_group" := n.securityGroup])]
  }

  /** Rendering a valid descriptor as a spec and constructing it again gives it back unchanged. */
  lemma RoundTrip(azureProperties: map<string, Value>, n: ManualNetwork)
    requires Valid(n)
    ensures New(azureProperties, n.name, ToSpec(n)) == Ok(n)
  {
  }

  /**
    A successful construction keeps the descriptor's invariants: both network names
    are set, and the resource group is set whenever the global properties supply one.
   */
  lemma ConstructedIsValid(azureProperties: map<string, Value>, name: string, spec: map<string, Value>)
    requires New(azureProperties, name, spec).Ok?
    requires Get(azureProperties, "resource_group_name") != Null
    ensures Valid(New(azureProperties, name, spec).value)
  {
  }

  /** The two specs agree on every key the descriptor reads. */
  predicate SameReadings(a: map<string, Value>, b: map<string, Value>)
  {
    && (forall k :: k in TopLevelKeys - {"cloud_properties"} ==> Get(a, k) == Get(b, k))
    && (CloudProperties(a) == Null <==> CloudProperties(b) == Null)
    && (forall k :: k in CloudKeys ==> CloudField(a, k) == CloudField(b, k))
  }

  /** Two specs that agree on every key the descriptor reads give the same outcome. */
  lemma DeterminedByReadings(azureProperties: map<string, Value>, name: string, a: map<string, Value>, b: map<string, Value>)
    requires SameReadings(a, b)
    ensures New(azureProperties, name, a) == New(azureProperties, name, b)
  {
  }

  /** A top-level key bound to nil means the same as the key being absent. */
  lemma NilTopLevelIsAbsent(azureProperties: map<string, Value>, name: string, spec: map<string, Value>, key: string)
    ensures New(azureProperties, name, spec[key := Null]) == New(azureProperties, name, spec - {key})
  {
    DeterminedByReadings(azureProperties, name, spec[key := Null], spec - {key});
  }

  /**
    A `cloud_properties` key bound to nil means the same as the key being absent: for
    `virtual_network_name` and `subnet_name` both give the same error, for
    `resource_group_name` both fall back, for `security_group` both give nil.
   */
  lemma NilCloudFieldIsAbsent(azureProperties: map<string, Value>, name: string,
                              spec: map<string, Value>, cloud: map<string, Value>, key: string)
    ensures New(azureProperties, name, spec["cloud_properties" := Map(cloud[key := Null])])
         == New(azureProperties, name, spec["cloud_properties" := Map(cloud - {key})])
  {
    DeterminedByReadings(azureProperties, name,
      spec["cloud_properties" := Map(cloud[key := Null])],
      spec["cloud_properties" := Map(cloud - {key})]);
  }

  /** Keys the descriptor does not read never change the outcome. */
  lemma UnreadKeyIrrelevant(azureProperties: map<string, Value>, name: string,
                            spec: map<string, Value>, key: string, v: Value)
    requires key !in TopLevelKeys
    ensures New(azureProperties, name, spec[key := v]) == New(azureProperties, name, spec)
  {
    DeterminedByReadings(azureProperties, name, spec[key := v], spec);
  }

  /** Without a `default` entry neither behaviour is defaulted. */
  lemma NoDefaultEntryNoDefaults(azureProperties: map<string, Value>, name: string, spec: map<string, Value>)
    requires New(azureProperties, name, spec).Ok?
    requires Get(spec, "default") == Null
    ensures !New(azureProperties, name, spec).value.HasDefaultDns()
    ensures !New(azureProperties, name, spec).value.HasDefaultGateway()
  {
  }

  /** The exact texts the unit tests match the raised errors against. */
  lemma CloudPropertiesMessage()
    ensures MissingCloudProperties.Message() == "cloud_properties required for manual network"
  {
  }

  lemma VirtualNetworkNameMessage()
    ensures MissingVirtualNetworkName.Message() == "virtual_network_name required for manual network"
  {
  }

  lemma SubnetNameMessage()
    ensures MissingSubnetName.Message() == "subnet_name required for manual network"
  {
  }

  /** An error is identified by its message: distinct errors have distinct messages. */
  lemma MessagesDistinguishErrors(e1: ConfigError, e2: ConfigError)
    requires e1.Message() == e2.Message()
    ensures e1 == e2
  {
  }
}
