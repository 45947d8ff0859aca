# Azure manual network descriptor, modelled in Dafny

This project models the manual network descriptor of the BOSH Azure cloud provider
interface (`Bosh::AzureCloud::ManualNetwork`). A BOSH deployment manifest gives each
network a raw, loosely typed spec hash. For a manual network the descriptor is built
from three inputs: the global Azure properties, the network's name and that spec. It
checks that `cloud_properties`, `cloud_properties.virtual_network_name` and
`cloud_properties.subnet_name` are given, and each missing one has its own error,
"`<field>` required for manual network". It takes `resource_group_name` from the spec
and falls back to the global properties when the spec has none. It then exposes
read-only accessors: `private_ip`, `resource_group_name`, `virtual_network_name`,
`subnet_name`, `security_group`, `dns`, and the predicates `has_default_dns?` and
`has_default_gateway?`.

The implementation file of the descriptor is not part of this model. The behaviour
modelled is what its unit tests (`src/bosh_azure_cpi/spec/unit/manual_network_spec.rb`)
pin down, with the checks done in this order: `cloud_properties`, then
`virtual_network_name`, then `subnet_name`.

Files:

- `wrappers.dfy`: `Result`, the outcome of construction: a descriptor or an error.
- `raw_spec.dfy`: `Value`, the raw hash (`Null` is Ruby's `nil`). It also has the Ruby
  lookups the descriptor uses. `Get` and `Field` read a missing key as `nil`.
  `Includes` is `Array#include?`.
- `manual_network.dfy`: `ConfigError` with its messages, the `ManualNetwork` record
  and its predicates, the constructor `New`, and the general properties. These include
  the round trip through `ToSpec`, that nil means the same as absent, and that keys the
  descriptor does not read do not matter.
- `manual_network_cases.dfy`: each unit-test example stated as a lemma. Each lemma holds
  for every value of the global properties, which the tests only mock.

Modelling decisions:

- The construction is a total function, `New`, from its inputs to
  `Result<ManualNetwork, ConfigError>`. A raised error is an `Err`, and no
  partially built descriptor exists.
- A missing key and a key bound to `nil` are the same condition everywhere. For the
  required fields both give the field's error. For `resource_group_name` both fall
  back. For the optional fields both give `nil`.
- Only `nil` is rejected; an empty string is accepted for a required name. The
  descriptor stores whatever non-nil object the spec holds, so the accessors return
  `Value`s.
- The global properties are a map passed in. Nothing requires them to hold
  `resource_group_name`. When they lack it, the fallback is `nil`, as a Ruby hash
  lookup would give. `ConstructedIsValid` states that the resolved resource group is
  non-nil whenever the global properties supply one.
- `has_default_dns?` and `has_default_gateway?` are true exactly when `default` is a
  list that contains `"dns"`, resp. `"gateway"`. They are false when `default` is
  absent or nil.
- The test titled "without default dns nor gateway" checks `has_default_dns?` twice
  (lines 169-170) and never checks `has_default_gateway?`. Its lemma
  `WithoutDefaultDnsNorGateway` states that the gateway predicate is false too. That
  follows from the membership rule, not from an assertion in the test.

## Model

| member | source | states |
|---|---|---|
| `AzureManualNetwork.New` | src/bosh_azure_cpi/spec/unit/manual_network_spec.rb:7-171 | Construction succeeds iff `cloud_properties`, `virtual_network_name` and `subnet_name` are all non-nil. `MissingCloudProperties` is returned iff `cloud_properties` is nil or absent. Every error names a field that is really missing, and when only one network name is missing, its error is the one reported. On success, each accessor returns the spec's own value. The spec's resource group wins over the global one, which is used only when the spec has none. |
| `AzureManualNetwork.ManualNetwork.HasDefault` | src/bosh_azure_cpi/spec/unit/manual_network_spec.rb:11 | A behaviour is defaulted iff `default` is a list containing its name. |
| `AzureManualNetwork.ManualNetwork.HasDefaultDns` | src/bosh_azure_cpi/spec/unit/manual_network_spec.rb:31 | `has_default_dns?` holds iff `default` is a list containing `"dns"`. |
| `AzureManualNetwork.ManualNetwork.HasDefaultGateway` | src/bosh_azure_cpi/spec/unit/manual_network_spec.rb:32 | `has_default_gateway?` holds iff `default` is a list containing `"gateway"`. |
| `RawSpec.Includes` | src/bosh_azure_cpi/spec/unit/manual_network_spec.rb:11 | The front-to-back scan of the `default` list finds an element iff the element is a member of the list. |
| `RawSpec.Get` | src/bosh_azure_cpi/spec/unit/manual_network_spec.rb:51-83 | A hash lookup returns the bound value for a present key, and a non-nil result means the key is present, so an absent key and a key bound to nil read the same. |
| `RawSpec.Field` | src/bosh_azure_cpi/spec/unit/manual_network_spec.rb:51-83 | A key bound in a `cloud_properties` hash reads as its bound value; an absent key, or a value that is not a hash, reads as nil, so an absent key and a nil key read the same. |
| `AzureManualNetwork.ConfigError.Message` | src/bosh_azure_cpi/spec/unit/manual_network_spec.rb:47 | The error text is the missing field's name followed by " required for manual network" (as the tests match at lines 47, 64 and 99). |
| `AzureManualNetwork.ToSpec` | src/bosh_azure_cpi/spec/unit/manual_network_spec.rb:8-20 | Helper inverse of `New` used by `RoundTrip`, not a source operation: it renders a descriptor as a spec of the shape of this literal, with exactly the four top-level keys and the four `cloud_properties` keys the descriptor reads. |
| `AzureManualNetwork.RoundTrip` | src/bosh_azure_cpi/spec/unit/manual_network_spec.rb:22-33 | Rendering a valid descriptor as a spec and constructing it again gives back the same descriptor, so each accessor returns exactly its input. |
| `AzureManualNetwork.ConstructedIsValid` | src/bosh_azure_cpi/spec/unit/manual_network_spec.rb:138-152 | When the global properties supply a resource group, a constructed descriptor has non-nil network names and a non-nil resolved resource group. |
| `AzureManualNetwork.DeterminedByReadings` | src/bosh_azure_cpi/spec/unit/manual_network_spec.rb:37-48 | Two specs that agree on every key the descriptor reads give the same outcome. |
| `AzureManualNetwork.NilTopLevelIsAbsent` | src/bosh_azure_cpi/spec/unit/manual_network_spec.rb:155-171 | Binding any top-level key to nil gives the same outcome as leaving it out. |
| `AzureManualNetwork.NilCloudFieldIsAbsent` | src/bosh_azure_cpi/spec/unit/manual_network_spec.rb:51-118 | Binding any `cloud_properties` key to nil gives the same outcome as leaving it out. For the two network names this means the same error. |
| `AzureManualNetwork.UnreadKeyIrrelevant` | src/bosh_azure_cpi/spec/unit/manual_network_spec.rb:37-48 | Adding or changing a top-level key the descriptor does not read never changes the outcome. |
| `AzureManualNetwork.NoDefaultEntryNoDefaults` | src/bosh_azure_cpi/spec/unit/manual_network_spec.rb:155-171 | Without a `default` entry, neither `has_default_dns?` nor `has_default_gateway?` holds. |
| `AzureManualNetwork.CloudPropertiesMessage` | src/bosh_azure_cpi/spec/unit/manual_network_spec.rb:47 | The missing-`cloud_properties` error reads "cloud_properties required for manual network". |
| `AzureManualNetwork.VirtualNetworkNameMessage` | src/bosh_azure_cpi/spec/unit/manual_network_spec.rb:64 | The missing-`virtual_network_name` error reads "virtual_network_name required for manual network". |
| `AzureManualNetwork.SubnetNameMessage` | src/bosh_azure_cpi/spec/unit/manual_network_spec.rb:99 | The missing-`subnet_name` error reads "subnet_name required for manual network". |
| `AzureManualNetwork.MessagesDistinguishErrors` | src/bosh_azure_cpi/spec/unit/manual_network_spec.rb:44-117 | Two errors with the same message are the same error, so the message alone says which field is missing. |
| `ManualNetworkCases.EverythingFine` | src/bosh_azure_cpi/spec/unit/manual_network_spec.rb:7-33 | For the fully populated spec, construction succeeds and every accessor returns its input. The spec's resource group is used, and both defaults hold. |
| `ManualNetworkCases.MissingCloudPropertiesFails` | src/bosh_azure_cpi/spec/unit/manual_network_spec.rb:37-48 | A spec with only an unrelated key fails with the `cloud_properties` error and its message. |
| `ManualNetworkCases.MissingVirtualNetworkNameFails` | src/bosh_azure_cpi/spec/unit/manual_network_spec.rb:51-66 | An absent `virtual_network_name` fails with its error and message. |
| `ManualNetworkCases.NilVirtualNetworkNameFails` | src/bosh_azure_cpi/spec/unit/manual_network_spec.rb:68-83 | A nil `virtual_network_name` fails with the same error and message. |
| `ManualNetworkCases.MissingSubnetNameFails` | src/bosh_azure_cpi/spec/unit/manual_network_spec.rb:86-101 | An absent `subnet_name` fails with its error and message. |
| `ManualNetworkCases.NilSubnetNameFails` | src/bosh_azure_cpi/spec/unit/manual_network_spec.rb:103-118 | A nil `subnet_name` fails with the same error and message. |
| `ManualNetworkCases.WithoutSecurityGroup` | src/bosh_azure_cpi/spec/unit/manual_network_spec.rb:121-135 | Without `security_group`, construction succeeds and `security_group` is nil. |
| `ManualNetworkCases.WithoutResourceGroupName` | src/bosh_azure_cpi/spec/unit/manual_network_spec.rb:138-152 | Without `resource_group_name`, the accessor equals the global properties' `resource_group_name`. |
| `ManualNetworkCases.WithoutDefaultDnsNorGateway` | src/bosh_azure_cpi/spec/unit/manual_network_spec.rb:155-171 | Without `dns` and `default`, `dns` is nil and both default predicates are false. |

## Left out

- The implementation file of `Bosh::AzureCloud::ManualNetwork` and its base class `Network` are not part of this model. The model follows the behaviour the unit tests fix. Any check the base class makes, such as on the type of the spec, is not modelled.
- `mock_azure_properties` and `spec_helper` are not part of this model. The global properties are an arbitrary map, and every example lemma holds for all of them.
- The network name has no tested effect. It is only carried into the descriptor as `name`.
- When both `virtual_network_name` and `subnet_name` are missing, `New` reports `virtual_network_name` because it checks that name first. No contract states which error wins in that case, because no test covers it.
- A `cloud_properties` value that is not a hash reads as having no entries, so it fails with the `virtual_network_name` error. Ruby would instead raise a type error on an array, or do a substring lookup on a string.
- A `default` value that is not a list names no behaviour. Ruby's `include?` on a string or a hash would instead test for a substring or a key.
- The raw hash holds only strings, lists, hashes and nil; manifest numbers and booleans have no representation. For validation nothing is lost: any non-nil scalar acts like a string that is neither `"dns"` nor `"gateway"`.
- Error messages are exact strings. The tests' regular-expression matching is not modelled.
- What the deployment does with the descriptor (virtual machine and network interface provisioning through the Azure API) is not modelled, because it is outside this component.
