# Continuous-delivery provisioning payload builder

This project models the payload builder of the continuous-delivery samples in
`vsts-dotnet-samples`. A provisioning configuration is one deployment source
(a code repository plus a build configuration) and one or two deployment
targets. The sample data provider assembles it from four inputs:

- an application type;
- a repository-kind string;
- a target provider with a resource-type string;
- an optional map of named overrides, the "additional properties".

The model has three layers, as the program does:

- **Per-axis dispatch** (`SampleDataProvider`).
  - The repository-kind string is upper-cased and matched against five kinds.
  - The application type selects one of nine build configurations.
  - The provider, and for Azure the parsed resource type, selects an
    app-service, scale-set or Service Fabric target. `Enum.TryParse` is a
    parameter, required only to parse the three handled member names.
  - Every dispatch is closed. What C# throws as `NotSupportedException` is a
    `Failure` here, carrying the case's `BuildError`.
- **Override lookup with a default** (`GetPropertyValue`,
  `GetContainerRegistry`).
  - A null map, or a map without the key, gives the default.
  - A present value is cast to the expected type. A value of the wrong type is
    a failure (C#'s `InvalidCastException`), not a fallback.
- **Composition** (`ProvisioningConfigurationsSample`).
  - The source is built first, then the Production target.
  - When asked, the Test target is added second.
  - The first failure is the result.
  - The composition is a `method`, because the C# code builds the target list
    and then adds to it in place.

The ten sample scenarios in the same file become methods. Each one returns the
payload the scenario would submit, and their contracts pin down that payload.
The C# names begin with `Create`; here that prefix is dropped, because the
model does not submit anything.

Files:

- `wrappers.dfy`: `Option` and `Result`.
- `delivery_types.dfy`: the data model.
  - The enums: application type, provider, Azure resource type, environment,
    task runner, Python framework, registry type, authorization scheme and
    parameter. Each enum that a `default:` branch can meet has an `Other…`
    case.
  - Authorizations, repositories and registries.
  - The seven build-configuration variants and the three target variants.
  - Sources, the payload and override values.
  - The error cases.
- `strings.dfy`: ASCII `ToUpperInvariant` and case-insensitive equality.
- `sample_values.dfy` and `scenario_values.dfy`: the literal test values (ids,
  names, paths, placeholder credentials).
- `sample_data_provider.dfy`: the dispatchers, the generators, the override
  lookup and their lemmas.
- `provisioning_configurations_sample.dfy`: the composition and the scenarios.

The inputs that come from the service enter as parameters:

- `GetOrCreateVstsGitRepository` keeps the first listed repository named
  `TestRepo` and otherwise creates one. It is modelled on the service's
  listing and on the repository the service creates.
- The id of the repository it returns is the parameter `vstsGitRepositoryId`
  of the repository dispatch. `TfsGitRepositoryFromListing` passes that id
  through the `tfsgit` kind.
- The project lookup (`FindAnyProject`) is not modelled.

## Model

All source paths are under `Microsoft.TeamServices.Samples.Client/ContinuousDelivery/`.

| member | source | states |
|---|---|---|
| Strings.ToUpperInvariant | Microsoft.TeamServices.Samples.Client/ContinuousDelivery/SampleDataProvider.cs:79 | Upper-casing keeps the length, raises each ASCII lower-case letter by 32 code points and leaves every other character unchanged, so no lower-case letter remains. |
| SampleDataProvider.GetPropertyValue | Microsoft.TeamServices.Samples.Client/ContinuousDelivery/SampleDataProvider.cs:465-476 | A null map or a missing key gives the default. A present key gives exactly the cast stored value, and fails with `InvalidOverrideType(key)` exactly when the cast fails. Failures happen only for present keys. |
| SampleDataProvider.GetContainerRegistry | Microsoft.TeamServices.Samples.Client/ContinuousDelivery/SampleDataProvider.cs:444-463 | Without a `ContainerRegistry` override the result is the default registry. With one, it is the override when that is a registry, and a cast failure otherwise. |
| SampleDataProvider.FindRepository | Microsoft.TeamServices.Samples.Client/ContinuousDelivery/SampleDataProvider.cs:132 | The search gives the position of the first repository with the name. No earlier repository has it. It gives `None` exactly when no repository has the name. |
| SampleDataProvider.GetOrCreateVstsGitRepository | Microsoft.TeamServices.Samples.Client/ContinuousDelivery/SampleDataProvider.cs:125-150 | When no listed repository is named `TestRepo`, the result is the created repository. Otherwise the result is the first listed repository with that name. |
| SampleDataProvider.FindRepositoryAppend | Microsoft.TeamServices.Samples.Client/ContinuousDelivery/SampleDataProvider.cs:132 | Searching a listing with one more repository at its end finds the same repository as before, or the new one when nothing before it matched. |
| SampleDataProvider.GetOrCreateIsIdempotent | Microsoft.TeamServices.Samples.Client/ContinuousDelivery/SampleDataProvider.cs:125-150 | A second call returns the same repository and creates nothing, once the listing also holds the repository the first call returned. This assumes the service creates the repository under the requested name. |
| SampleDataProvider.GetCodeRepository | Microsoft.TeamServices.Samples.Client/ContinuousDelivery/SampleDataProvider.cs:76-191 | A null kind is a null-reference failure. An unmatched kind fails with `UnsupportedCodeRepositoryType` carrying the input. A result's `Type` is one of the five canonical names and equals the input ignoring case. `Name` is never set. `localgit` has no id, branch or authorization. `github` carries Token and `git` UsernamePassword authorization. `tfsgit` and `tfsversioncontrol` carry none. `tfsgit`'s id is the repository id given. Every authorization carries exactly its scheme's parameters. |
| SampleDataProvider.UpperRepositoryTypes | Microsoft.TeamServices.Samples.Client/ContinuousDelivery/SampleDataProvider.cs:80-93 | The upper-cased canonical names are the five switch labels. |
| SampleDataProvider.CodeRepositoryAcceptsExactly | Microsoft.TeamServices.Samples.Client/ContinuousDelivery/SampleDataProvider.cs:76-94 | The dispatch succeeds if and only if the input equals one of the five canonical names ignoring case; for each such name the result's `Type` is that name. |
| SampleDataProvider.CanonicalRepositories | Microsoft.TeamServices.Samples.Client/ContinuousDelivery/SampleDataProvider.cs:76-191 | Each canonical name yields its own generator's repository. |
| SampleDataProvider.TfsGitRepositoryFromListing | Microsoft.TeamServices.Samples.Client/ContinuousDelivery/SampleDataProvider.cs:114-150 | The `tfsgit` repository has as its id the id of the Git repository that get-or-create chose, and that is the created repository's id when no listed repository is named `TestRepo`. |
| SampleDataProvider.CodeRepositoryIgnoresCase | Microsoft.TeamServices.Samples.Client/ContinuousDelivery/SampleDataProvider.cs:79 | Two kinds equal up to case both succeed or both fail, and give the same repository. |
| SampleDataProvider.CodeRepositoryTypeRoundTrip | Microsoft.TeamServices.Samples.Client/ContinuousDelivery/SampleDataProvider.cs:76-191 | Feeding a built repository's `Type` back into the dispatch rebuilds the same repository. |
| SampleDataProvider.GetBuildConfiguration | Microsoft.TeamServices.Samples.Client/ContinuousDelivery/SampleDataProvider.cs:197-214 | A success has the variant of the requested application type. An unlisted type fails with `UnsupportedApplicationType`. Any other failure is a cast failure on a key that the type reads and that the map holds. AspNetCore, AspNetWap and PHP give the plain configuration whose `Type` is the requested type. |
| SampleDataProvider.BuildConfigurationWithoutOverrides | Microsoft.TeamServices.Samples.Client/ContinuousDelivery/SampleDataProvider.cs:197-315 | Every listed application type builds when none of the keys it reads is present, a null map in particular. |
| SampleDataProvider.RegistryOverride | Microsoft.TeamServices.Samples.Client/ContinuousDelivery/SampleDataProvider.cs:252-286 | For DockerImage, ContainerServices and DotNetContainerServices, the `Registry` is the `ContainerRegistry` override when present. Otherwise it is the default: Private type, empty URL, UsernamePassword authorization. |
| SampleDataProvider.RegistryOverrideFailure | Microsoft.TeamServices.Samples.Client/ContinuousDelivery/SampleDataProvider.cs:265-286 | DockerImage and DotNetContainerServices fail if and only if a `ContainerRegistry` value is present and is not a registry. |
| SampleDataProvider.RegistryOnlyOverride | Microsoft.TeamServices.Samples.Client/ContinuousDelivery/SampleDataProvider.cs:252-286 | With the registry as the only override, each of the three registry-carrying types gives its fixed configuration around that registry. The container-services primary image name is then null. |
| SampleDataProvider.ContainerServicesOverrideFailure | Microsoft.TeamServices.Samples.Client/ContinuousDelivery/SampleDataProvider.cs:252-263 | ContainerServices fails if and only if `PrimaryServiceImageName` holds a non-string, or `ContainerRegistry` holds a non-registry. |
| SampleDataProvider.PrimaryServiceImageNameOverride | Microsoft.TeamServices.Samples.Client/ContinuousDelivery/SampleDataProvider.cs:252-263 | `PrimaryServiceImageName` is null without an override, and the override's text with one. |
| SampleDataProvider.NodeJsTaskRunnerOverride | Microsoft.TeamServices.Samples.Client/ContinuousDelivery/SampleDataProvider.cs:288-299 | The Node.js task runner is Gulp without an override and the override's runner with one. A value of another type is a cast failure. |
| SampleDataProvider.PythonBuildConfigurationOverride | Microsoft.TeamServices.Samples.Client/ContinuousDelivery/SampleDataProvider.cs:306-315 | A Python override replaces the whole configuration. Without one, the configuration is Bottle with extension `python353x86`. A value that is not a Python configuration is a cast failure. |
| SampleDataProvider.GetDeploymentSourceData | Microsoft.TeamServices.Samples.Client/ContinuousDelivery/SampleDataProvider.cs:31-41 | It succeeds if and only if both the repository and the build configuration do. The source is exactly that pair. A repository failure takes precedence over a build failure. |
| SampleDataProvider.TryParseAzureResourceType | Microsoft.TeamServices.Samples.Client/ContinuousDelivery/SampleDataProvider.cs:53-56 | A null resource-type string never parses; a non-null one is handed to the `Enum.TryParse` stand-in. |
| SampleDataProvider.MemberNameParse | Microsoft.TeamServices.Samples.Client/ContinuousDelivery/SampleDataProvider.cs:53-56 | One admissible `Enum.TryParse`: every string it accepts is the `ToString` name of the handled member it returns. |
| SampleDataProvider.MemberNameParseParsesNames | Microsoft.TeamServices.Samples.Client/ContinuousDelivery/SampleDataProvider.cs:53-56 | The exact-name parse maps the three handled member names to their members, so the scenarios' requirement on the parse can be met. |
| SampleDataProvider.TryParseAzureResourceTypeName | Microsoft.TeamServices.Samples.Client/ContinuousDelivery/SampleDataProvider.cs:53-56 | For any parse that maps the handled member names to their members, parsing a handled resource type's name gives that type back. |
| SampleDataProvider.GetAzureDeploymentTargetData | Microsoft.TeamServices.Samples.Client/ContinuousDelivery/SampleDataProvider.cs:321-414 | Linux and Windows app service succeed if and only if `SlotSwapConfiguration` is absent or is a slot swap. They then give an app-service target whose `Type` is the requested one. That target has the requested environment, `FriendlyName` "Production Environment", and the slot swap from the override (null without one). Otherwise they give a cast failure on `SlotSwapConfiguration`. The scale-set case gives the constant scale-set target. Any other resource type fails with `UnsupportedAzureResourceType`. |
| SampleDataProvider.GetDeploymentTargetData | Microsoft.TeamServices.Samples.Client/ContinuousDelivery/SampleDataProvider.cs:43-68 | For Azure, a null or unparsable resource type fails with `UnsupportedAzureResourceTypeName`, and a parsed one goes on to the Azure dispatch. Service Fabric always succeeds, whatever the parse and the resource type, with a Service Fabric target for the requested environment with certificate authorization. Any other provider fails with `UnsupportedTargetProvider`. Every successful non-scale-set target has exactly the requested environment. |
| SampleDataProvider.UnhandledResourceTypeFailure | Microsoft.TeamServices.Samples.Client/ContinuousDelivery/SampleDataProvider.cs:321-337 | A string the parse turns into a member this code does not handle, such as a numeric string, fails with `UnsupportedAzureResourceType` from the `default:` branch. |
| SampleDataProvider.TargetDependsOnEnvironmentOnlyThere | Microsoft.TeamServices.Samples.Client/ContinuousDelivery/SampleDataProvider.cs:321-438 | Building the same target for two environments succeeds or fails alike, with the same error. The two results differ at most in the environment field. |
| SampleDataProvider.VmssTargetIsConstant | Microsoft.TeamServices.Samples.Client/ContinuousDelivery/SampleDataProvider.cs:349-373 | The scale-set target always builds, and depends on neither the environment nor the overrides. |
| SampleDataProvider.ServiceFabricIgnoresResourceType | Microsoft.TeamServices.Samples.Client/ContinuousDelivery/SampleDataProvider.cs:416-438 | For Service Fabric, any resource type, null included, and any overrides give the one Service Fabric target of the environment. |
| SampleDataProvider.BuildConfigurationWellFormed | Microsoft.TeamServices.Samples.Client/ContinuousDelivery/SampleDataProvider.cs:216-315 | Every authorization in a built configuration carries exactly its scheme's parameters, provided the registry overrides do. |
| SampleDataProvider.SourceWellFormed | Microsoft.TeamServices.Samples.Client/ContinuousDelivery/SampleDataProvider.cs:31-41 | The same holds for a built deployment source. |
| SampleDataProvider.TargetWellFormed | Microsoft.TeamServices.Samples.Client/ContinuousDelivery/SampleDataProvider.cs:339-438 | Every built target's authorization carries exactly its scheme's parameters. |
| ProvisioningConfigurationsSample.GetPayloadToProvisionContinuousDeployment | Microsoft.TeamServices.Samples.Client/ContinuousDelivery/ProvisioningConfigurationsSample.cs:444-482 | It succeeds if and only if the source, the Production target and, when requested, the Test target all build. The first failure, in that order, is the result. The source is the built source. The targets are `[production]`, or `[production, test]` with the Test environment. Both targets come from the same provider, resource type and overrides, and differ only in the environment field. The payload is well formed when the registry overrides are. |
| ProvisioningConfigurationsSample.ProvisioningConfigurationForDeployingAspDotNetWebAppInGitHubToWindowsAppService | Microsoft.TeamServices.Samples.Client/ContinuousDelivery/ProvisioningConfigurationsSample.cs:24-43 | The payload builds: the GitHub repository with the plain AspNetWap configuration, and one Windows app-service target for Production without slot swap. |
| ProvisioningConfigurationsSample.ProvisioningConfigurationForDeployingAspDotNetCoreWebAppInTfvcToWindowsAppServiceUsingSlotSwap | Microsoft.TeamServices.Samples.Client/ContinuousDelivery/ProvisioningConfigurationsSample.cs:46-77 | The payload builds: the TFVC repository with the plain AspNetCore configuration, and one Windows app-service target whose slot swap targets the "Staging" slot. |
| ProvisioningConfigurationsSample.ProvisioningConfigurationForDeployingNodeJsWithGulpApplicationInExternalGitRepoToWindowsAppService | Microsoft.TeamServices.Samples.Client/ContinuousDelivery/ProvisioningConfigurationsSample.cs:80-108 | The payload builds: the external Git repository with the Gulp Node.js configuration, and one Windows app-service target for Production. |
| ProvisioningConfigurationsSample.ProvisioningConfigurationForDeployingPythonWithDjangoApplicationInTfsGitRepoToWindowsAppService | Microsoft.TeamServices.Samples.Client/ContinuousDelivery/ProvisioningConfigurationsSample.cs:111-144 | The payload builds: the Azure Repos Git repository with the override's Django configuration, settings module "TestDjangoProject.settings", not the Bottle default. It has one Windows app-service target. |
| ProvisioningConfigurationsSample.ProvisioningConfigurationForDeployingPhpApplicationInTfsGitRepoToWindowsAppService | Microsoft.TeamServices.Samples.Client/ContinuousDelivery/ProvisioningConfigurationsSample.cs:147-166 | The payload builds: the Azure Repos Git repository with the plain PHP configuration, and one Windows app-service target. |
| ProvisioningConfigurationsSample.ProvisioningConfigurationForDeployingDockerContainerApplicationInAzureContainerRegistryToLinuxAppService | Microsoft.TeamServices.Samples.Client/ContinuousDelivery/ProvisioningConfigurationsSample.cs:173-220 | The payload builds: a GitHub Docker-image configuration whose registry is the test Azure container registry, and one Linux app-service target. |
| ProvisioningConfigurationsSample.ProvisioningConfigurationForDeployingSingleServiceFromDockerComposeFileInDockerHubToLinuxAppService | Microsoft.TeamServices.Samples.Client/ContinuousDelivery/ProvisioningConfigurationsSample.cs:223-273 | The payload builds: a GitHub container-services configuration with the overridden primary service image and the Docker Hub registry, and one Linux app-service target. |
| ProvisioningConfigurationsSample.ProvisioningConfigurationForDeployingDotNetMultiContainerServicesInAzureContainerRegistryToServiceFabricCluster | Microsoft.TeamServices.Samples.Client/ContinuousDelivery/ProvisioningConfigurationsSample.cs:280-327 | The payload builds despite the null resource type: an Azure Repos Git .NET container-services configuration on the Azure container registry, and exactly the Production Service Fabric target. |
| ProvisioningConfigurationsSample.ProvisioningConfigurationForDeployingGenericMultiContainerServicesInDockerHubToServiceFabricCluster | Microsoft.TeamServices.Samples.Client/ContinuousDelivery/ProvisioningConfigurationsSample.cs:330-376 | The payload builds: a GitHub container-services configuration with a null primary service image and the Docker Hub registry, and exactly the Production Service Fabric target. |
| ProvisioningConfigurationsSample.ProvisioningConfigurationForDeployingVirtualMachineImageToVirtualMachineScaleSetInAzure | Microsoft.TeamServices.Samples.Client/ContinuousDelivery/ProvisioningConfigurationsSample.cs:383-402 | The payload builds: the GitHub repository with the virtual-machine image configuration, and exactly the constant scale-set target. |

## Left out

- Service calls and console output in the scenarios are not modelled: submitting and fetching configurations, obtaining the client and printing. `GetProvisioningConfigurationById` never assigns the `dataProvider` field, unlike every scenario. On a fresh sample instance that field is null, so building the payload throws a `NullReferenceException` before anything is built. Only when an earlier scenario has already set the field does it build the same payload as the first scenario (AspNetWap, `github`, Azure `WindowsAppService`), which is modelled as `ProvisioningConfigurationForDeployingAspDotNetWebAppInGitHubToWindowsAppService`. After that it only creates the configuration and fetches it back by id, so it has no member of its own. The scenarios' assignment of the `dataProvider` field is not modelled either.
- `FindAnyProject` is a network call and is not modelled. In `GetOrCreateVstsGitRepository`, listing and creating repositories are network calls. Their results are parameters: the listing, and the repository the service returns for the create request. The search and the choice between the two results are modelled. The repository dispatch takes the chosen repository's id as the parameter `vstsGitRepositoryId`. The C# code looks up the project before every repository dispatch, so a failing lookup would throw even for kinds that do not need it; the model does not capture that.
- Strings.ToUpperInvariant: maps only the ASCII letters. The culture-invariant mapping of other characters is not modelled, because Dafny has no Unicode case tables. This costs the repository dispatch some inputs. Under the invariant culture 'ı' (U+0131) upper-cases to 'I' and 'ſ' (U+017F) to 'S', so C# selects a repository for "gıthub", "localgıt" or "tfſgit". The model rejects them with `UnsupportedCodeRepositoryType`.
- `Enum.TryParse` is the parameter `parse`, because the SDK's enum definition, which decides what it accepts, is not part of this model. The scenarios that parse a resource type require only `ParsesMemberNames(parse)`: the three handled member names parse to their members. Any other string may give no member (`UnsupportedAzureResourceTypeName`) or an unhandled `Other…` member (`UnsupportedAzureResourceType`), as a numeric string or another member's name does in C#. `MemberNameParse` is one admissible parse, not the exact `Enum.TryParse`.
- The SDK enums may have more members than the code names. Each is one `Other…` case carrying an ordinal, which is enough to reach the `default:` branches.
- Override values are limited to the five kinds `OverrideValue` holds: a string, a Node.js task runner, a container registry, a slot-swap configuration and a build configuration. Other objects are not represented, boxed integers included. The CLR unboxes a boxed `int` or another int-based enum to `NodeJsTaskRunnerType` without an `InvalidCastException`, so in C# such a value would be accepted as a task runner.
- SampleDataProvider.GetPropertyValue: does not model a `null` value stored under a present key. C# casts it to null for reference and nullable types, which can later throw; the override values here are never null.
- The scenarios build their override dictionaries with a case-insensitive key comparer. The model's maps use exact keys, and every key in the code is spelled the same way everywhere, so this changes no outcome here.
- In C#, `GetLinuxAppServiceTargetData` and `GetWindowsAppServiceTargetData` overwrite the `Type` of a freshly built target. The model writes this as a datatype update: the object is new and unshared, so nothing else observes the mutation.
- Fields the code never sets keep their SDK defaults, which are not modelled. Serialization of the payload is not modelled.
- `NotSupportedException` messages are not modelled; each error case carries the rejected input instead.
- The code has two separate errors for the Azure resource type: `UnsupportedAzureResourceTypeName` when the resource-type string does not parse (SampleDataProvider.cs:53-56), and `UnsupportedAzureResourceType` when it parses to a member the dispatch does not handle (SampleDataProvider.cs:334-335). The model keeps both, and `UnhandledResourceTypeFailure` shows that the second is reached from a string.
- Each scenario method's contract states the payload's distinguishing fields and the exact values of its source and targets where that is cheap to prove. The full literal payload is not restated field by field.
