/**
  The examples of the manual network unit tests, each stated for every value of the
  global Azure properties (the tests use a mock of them).
 */
module ManualNetworkCases {
  import opened Wrappers
  import opened RawSpec
  import opened AzureManualNetwork

  /** The required part of `cloud_properties` shared by the later examples. */
  const RequiredCloud: map<string, Value> :=
    map["virtual_network_name" := Str("foo"), "subnet_name" := Str("bar")]

  /** A spec with a static IP and only the required cloud properties. */
  const MinimalSpec: map<string, Value> :=
    map["ip" := Str("fake-ip"), "cloud_properties" := Map(RequiredCloud)]

  /** Everything present: every accessor returns its input and both defaults are on. */
  lemma EverythingFine(azureProperties: map<string, Value>)
    ensures
      var spec := map[
        "ip" := Str("fake-ip"),
        "default" := List([Str("dns"), Str("gateway")]),
        "dns" := Str("8.8.8.8"),
        "cloud_properties" := Map(map[
          "virtual_network_name" := Str("foo"),
          "subnet_name" := Str("bar"),
          "resource_group_name" := Str("fake_resource_group"),
          "security_group" := Str("fake_sg")])];
      var r := New(azureProperties, "default", spec);
      && r.Ok?
      && r.value.privateIp == Str("fake-ip")
      && r.value.resourceGroupName == Str("fake_resource_group")
      && r.value.virtualNetworkName == Str("foo")
      && r.value.subnetName == Str("bar")
      && r.value.securityGroup == Str("fake_sg")
      && r.value.dns == Str("8.8.8.8")
      && r.value.HasDefaultDns()
      && r.value.HasDefaultGateway()
  {
  }

  /** No `cloud_properties`; an unrelated key does not help. */
  lemma MissingCloudPropertiesFails(azureProperties: map<string, Value>)
    ensures
      var r := New(azureProperties, "default", map["fake-key" := Str("fake-value")]);
      r == Err(MissingCloudProperties)
      && r.error.Message() == "cloud_properties required for manual network"
  {
    CloudPropertiesMessage();
    assert CloudProperties(map["fake-key" := Str("fake-value")]) == Null;
  }

  lemma MissingVirtualNetworkNameFails(azureProperties: map<string, Value>)
    ensures
      var r := New(azureProperties, "default",
                   map["cloud_properties" := Map(map["subnet_name" := Str("bar")])]);
      r == Err(MissingVirtualNetworkName)
      && r.error.Message() == "virtual_network_name required for manual network"
  {
    VirtualNetworkNameMessage();
    var cloud: map<string, Value> := map["subnet_name" := Str("bar")];
    var spec := map["cloud_properties" := Map(cloud)];
    assert CloudProperties(spec) == Map(cloud);
    assert CloudField(spec, "virtual_network_name") == Null;
    assert CloudField(spec, "subnet_name") == Str("bar");
  }

  lemma NilVirtualNetworkNameFails(azureProperties: map<string, Value>)
    ensures
      var r := New(azureProperties, "default",
                   map["cloud_properties" := Map(map["virtual_network_name" := Null,
                                                     "subnet_name" := Str("bar")])]);
      r == Err(MissingVirtualNetworkName)
      && r.error.Message() == "virtual_network_name required for manual network"
  {
    VirtualNetworkNameMessage();
    var cloud: map<string, Value> := map["virtual_network_name" := Null, "subnet_name" := Str("bar")];
    var spec := map["cloud_properties" := Map(cloud)];
    assert CloudProperties(spec) == Map(cloud);
    assert CloudField(spec, "virtual_network_name") == Null;
    assert CloudField(spec, "subnet_name") == Str("bar");
  }

  lemma MissingSubnetNameFails(azureProperties: map<string, Value>)
    ensures
      var r := New(azureProperties, "default",
                   map["cloud_properties" := Map(map["virtual_network_name" := Str("foo")])]);
      r == Err(MissingSubnetName)
      && r.error.Message() == "subnet_name required for manual network"
  {
    SubnetNameMessage();
    var cloud: map<string, Value> := map["virtual_network_name" := Str("foo")];
    var spec := map["cloud_properties" := Map(cloud)];
    assert CloudProperties(spec) == Map(cloud);
    assert CloudField(spec, "virtual_network_name") == Str("foo");
    assert CloudField(spec, "subnet_name") == Null;
  }

  lemma NilSubnetNameFails(azureProperties: map<string, Value>)
    ensures
      var r := New(azureProperties, "default",
                   map["cloud_properties" := Map(map["virtual_network_name" := Str("foo"),
                                                     "subnet_name" := Null])]);
      r == Err(MissingSubnetName)
      && r.error.Message() == "subnet_name required for manual network"
  {
    SubnetNameMessage();
    var cloud: map<string, Value> := map["virtual_network_name" := Str("foo"), "subnet_name" := Null];
    var spec := map["cloud_properties" := Map(cloud)];
    assert CloudProperties(spec) == Map(cloud);
    assert CloudField(spec, "virtual_network_name") == Str("foo");
    assert CloudField(spec, "subnet_name") == Null;
  }

  /** No `security_group`: construction succeeds and the accessor is nil. */
  lemma WithoutSecurityGroup(azureProperties: map<string, Value>)
    ensures
      var r := New(azureProperties, "default", MinimalSpec);
      r.Ok? && r.value.securityGroup == Null
  {
  }

  /** No `resource_group_name`: the global one is used. */
  lemma WithoutResourceGroupName(azureProperties: map<string, Value>)
    ensures
      var r := New(azureProperties, "default", MinimalSpec);
      r.Ok? && r.value.resourceGroupName == Get(azureProperties, "resource_group_name")
  {
  }

  /**
    Neither `dns` nor `default`: `dns` is nil and `has_default_dns?` is false.
    `has_default_gateway?` is false too, by the same membership rule.
   */
  lemma WithoutDefaultDnsNorGateway(azureProperties: map<string, Value>)
    ensures
      var r := New(azureProperties, "default", MinimalSpec);
      && r.Ok?
      && r.value.dns == Null
      && !r.value.HasDefaultDns()
      && !r.value.HasDefaultGateway()
  {
  }
}
