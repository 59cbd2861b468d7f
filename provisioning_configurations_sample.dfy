/** The provisioning-configuration sample: composing one deployment source
    and one or two deployment targets into the payload, and the scenarios
    that build the payloads they submit. Submitting and fetching are calls
    to the service and are not modelled; each scenario here ends with the
    payload it would submit. */
module ProvisioningConfigurationsSample {
  import opened Wrappers
  import opened SampleValues
  import opened ScenarioValues
  import opened DeliveryTypes
  import opened SampleDataProvider

  /** Every authorization in the payload matches its scheme, and there is at
      least one target. */
  predicate WellFormedConfiguration(c: ProvisioningConfiguration) {
    && |c.targets| >= 1
    && WellFormedSource(c.source)
    && forall i :: 0 <= i < |c.targets| ==> WellFormedAuthorization(c.targets[i].authorizationInfo)
  }

  /** Builds the source, then the Production target, then, when asked, the
      Test target, which comes second in the target list (the C# code adds
      it to the one-element list in place; here the two-element list is
      built outright). The first failure is the result. `parse` stands for
      `Enum.TryParse` on the resource type. */
  method GetPayloadToProvisionContinuousDeployment(
    parse: ResourceTypeParser,
    applicationType: ApplicationType,
    sourceRepositoryType: Option<string>,
    targetProvider: DeploymentTargetProvider,
    targetResourceType: Option<string>,
    includeTestEnvironment: bool,
    additionalProperties: AdditionalProperties,
    vstsGitRepositoryId: string)
    returns (r: Result<ProvisioningConfiguration, BuildError>)
    ensures var source := GetDeploymentSourceData(applicationType, sourceRepositoryType, additionalProperties, vstsGitRepositoryId);
      var production := GetDeploymentTargetData(parse, targetProvider, targetResourceType, Production, additionalProperties);
      var test := GetDeploymentTargetData(parse, targetProvider, targetResourceType, Test, additionalProperties);
      && (r.Success? <==> source.Success? && production.Success? && (includeTestEnvironment ==> test.Success?))
      && (source.Failure? ==> r == Failure(source.error))
      && (source.Success? && production.Failure? ==> r == Failure(production.error))
      && (source.Success? && production.Success? && includeTestEnvironment && test.Failure? ==> r == Failure(test.error))
      && (r.Success? ==>
            && r.value.source == source.value
            && r.value.targets == if includeTestEnvironment then [production.value, test.value] else [production.value])
    ensures r.Success? && includeTestEnvironment ==> r.value.targets[1] == WithEnvironment(r.value.targets[0], Test)
    ensures r.Success? && WellFormedOverrides(additionalProperties) ==> WellFormedConfiguration(r.value)
  {
    var source :- GetDeploymentSourceData(applicationType, sourceRepositoryType, additionalProperties, vstsGitRepositoryId);
    var production :- GetDeploymentTargetData(parse, targetProvider, targetResourceType, Production, additionalProperties);
    TargetWellFormed(parse, targetProvider, targetResourceType, Production, additionalProperties);
    var targets := [production];
    if includeTestEnvironment {
      var test :- GetDeploymentTargetData(parse, targetProvider, targetResourceType, Test, additionalProperties);
      TargetWellFormed(parse, targetProvider, targetResourceType, Test, additionalProperties);
      TargetDependsOnEnvironmentOnlyThere(parse, targetProvider, targetResourceType, Production, Test, additionalProperties);
      targets := [production, test];
    }
    if WellFormedOverrides(additionalProperties) {
      SourceWellFormed(applicationType, sourceRepositoryType, additionalProperties, vstsGitRepositoryId);
    }
    r := Success(ProvisioningConfiguration(source, targets));
  }

  // ---------------------------------------------------------------------
  // Override values the scenarios pass
  // ---------------------------------------------------------------------

  function TestAzureContainerRegistry(): ContainerRegistry {
    AzureContainerRegistry(
      AcrRegistryName, AcrRegistryUrl, AcrResourceGroup,
      TestSubscriptionId, TestSubscriptionName, TestTenantId,
      HeadersAuthorization(AcrAuthorizationHeader))
  }

  function DockerHubRegistry(): ContainerRegistry {
    GenericContainerRegistry(None, DockerHubUrl, UsernamePasswordAuthorization(DockerHubUserName, DockerHubUserPassword))
  }

  function DjangoBuildConfiguration(): BuildConfiguration {
    PythonBuildConfiguration(Django, Some(DjangoSettingsModule), Some(DefaultPythonExtensionId))
  }

  // ---------------------------------------------------------------------
  // Scenarios. Only the `tfsgit` repository reads `vstsGitRepositoryId`;
  // the scenarios on other repositories pass an empty one.
  // ---------------------------------------------------------------------

  method ProvisioningConfigurationForDeployingAspDotNetWebAppInGitHubToWindowsAppService(parse: ResourceTypeParser)
    returns (r: Result<ProvisioningConfiguration, BuildError>)
    requires ParsesMemberNames(parse)
    ensures r.Success?
    ensures r.value.source == CodeRepositoryDeploymentSource(GetGitHubRepository(), PlainBuildConfiguration(AspNetWap))
    ensures |r.value.targets| == 1
    ensures IsAppServiceTarget(r.value.targets[0], WindowsAppService, Production, None)
  {
    CanonicalRepositories("");
    TryParseAzureResourceTypeName(parse, WindowsAppService);
    r := GetPayloadToProvisionContinuousDeployment(parse, AspNetWap, Some("github"), Azure, Some("WindowsAppService"), false, None, "");
  }

  method ProvisioningConfigurationForDeployingAspDotNetCoreWebAppInTfvcToWindowsAppServiceUsingSlotSwap(parse: ResourceTypeParser)
    returns (r: Result<ProvisioningConfiguration, BuildError>)
    requires ParsesMemberNames(parse)
    ensures r.Success?
    ensures r.value.source == CodeRepositoryDeploymentSource(GetTfvcRepository(), PlainBuildConfiguration(AspNetCore))
    ensures |r.value.targets| == 1
    ensures r.value.targets[0].AzureAppServiceDeploymentTarget?
    ensures r.value.targets[0].resourceType == Some(WindowsAppService)
    ensures r.value.targets[0].slotSwapConfiguration == Some(SlotSwapConfiguration(StagingSlotName))
  {
    var additionalProperties := Some(map["SlotSwapConfiguration" := SlotSwapValue(SlotSwapConfiguration(StagingSlotName))]);
    CanonicalRepositories("");
    TryParseAzureResourceTypeName(parse, WindowsAppService);
    r := GetPayloadToProvisionContinuousDeployment(
      parse, AspNetCore, Some("tfsversioncontrol"), Azure, Some("WindowsAppService"), false, additionalProperties, "");
  }

  method ProvisioningConfigurationForDeployingNodeJsWithGulpApplicationInExternalGitRepoToWindowsAppService(parse: ResourceTypeParser)
    returns (r: Result<ProvisioningConfiguration, BuildError>)
    requires ParsesMemberNames(parse)
    ensures r.Success?
    ensures r.value.source == CodeRepositoryDeploymentSource(GetExternalGitRepository(), NodeJsBuildConfiguration(Gulp))
    ensures |r.value.targets| == 1
    ensures IsAppServiceTarget(r.value.targets[0], WindowsAppService, Production, None)
  {
    var additionalProperties := Some(map["NodeJsTaskRunnerType" := TaskRunnerValue(Gulp)]);
    CanonicalRepositories("");
    NodeJsTaskRunnerOverride(additionalProperties);
    TryParseAzureResourceTypeName(parse, WindowsAppService);
    r := GetPayloadToProvisionContinuousDeployment(
      parse, NodeJS, Some("git"), Azure, Some("WindowsAppService"), false, additionalProperties, "");
  }

  /** The override, not the default Bottle configuration, is the build
      configuration. */
  method ProvisioningConfigurationForDeployingPythonWithDjangoApplicationInTfsGitRepoToWindowsAppService(parse: ResourceTypeParser, vstsGitRepositoryId: string)
    returns (r: Result<ProvisioningConfiguration, BuildError>)
    requires ParsesMemberNames(parse)
    ensures r.Success?
    ensures r.value.source == CodeRepositoryDeploymentSource(GetVstsGitRepository(vstsGitRepositoryId), DjangoBuildConfiguration())
    ensures |r.value.targets| == 1
    ensures IsAppServiceTarget(r.value.targets[0], WindowsAppService, Production, None)
  {
    var additionalProperties := Some(map["PythonBuildConfiguration" := BuildConfigurationValue(DjangoBuildConfiguration())]);
    CanonicalRepositories(vstsGitRepositoryId);
    PythonBuildConfigurationOverride(additionalProperties);
    TryParseAzureResourceTypeName(parse, WindowsAppService);
    r := GetPayloadToProvisionContinuousDeployment(
      parse, Python, Some("tfsgit"), Azure, Some("WindowsAppService"), false, additionalProperties, vstsGitRepositoryId);
  }

  method ProvisioningConfigurationForDeployingPhpApplicationInTfsGitRepoToWindowsAppService(parse: ResourceTypeParser, vstsGitRepositoryId: string)
    returns (r: Result<ProvisioningConfiguration, BuildError>)
    requires ParsesMemberNames(parse)
    ensures r.Success?
    ensures r.value.source == CodeRepositoryDeploymentSource(GetVstsGitRepository(vstsGitRepositoryId), PlainBuildConfiguration(PHP))
    ensures |r.value.targets| == 1
    ensures IsAppServiceTarget(r.value.targets[0], WindowsAppService, Production, None)
  {
    CanonicalRepositories(vstsGitRepositoryId);
    TryParseAzureResourceTypeName(parse, WindowsAppService);
    r := GetPayloadToProvisionContinuousDeployment(parse, PHP, Some("tfsgit"), Azure, Some("WindowsAppService"), false, None, vstsGitRepositoryId);
  }

  method ProvisioningConfigurationForDeployingDockerContainerApplicationInAzureContainerRegistryToLinuxAppService(parse: ResourceTypeParser)
    returns (r: Result<ProvisioningConfiguration, BuildError>)
    requires ParsesMemberNames(parse)
    ensures r.Success?
    ensures r.value.source.repository == GetGitHubRepository()
    ensures r.value.source.buildConfiguration.DockerImageBuildConfiguration?
    ensures r.value.source.buildConfiguration.registry == TestAzureContainerRegistry()
    ensures |r.value.targets| == 1
    ensures IsAppServiceTarget(r.value.targets[0], LinuxAppService, Production, None)
  {
    var additionalProperties := Some(map["ContainerRegistry" := RegistryValue(TestAzureContainerRegistry())]);
    CanonicalRepositories("");
    RegistryOverrideFailure(DockerImage, additionalProperties);
    RegistryOverride(DockerImage, additionalProperties);
    TryParseAzureResourceTypeName(parse, LinuxAppService);
    r := GetPayloadToProvisionContinuousDeployment(
      parse, DockerImage, Some("github"), Azure, Some("LinuxAppService"), false, additionalProperties, "");
  }

  /** The primary service image name is the override's text. */
  method ProvisioningConfigurationForDeployingSingleServiceFromDockerComposeFileInDockerHubToLinuxAppService(parse: ResourceTypeParser)
    returns (r: Result<ProvisioningConfiguration, BuildError>)
    requires ParsesMemberNames(parse)
    ensures r.Success?
    ensures r.value.source.repository == GetGitHubRepository()
    ensures r.value.source.buildConfiguration.ContainerServicesBuildConfiguration?
    ensures r.value.source.buildConfiguration.primaryServiceImageName == Some(PrimaryServiceImage)
    ensures r.value.source.buildConfiguration.registry == DockerHubRegistry()
    ensures |r.value.targets| == 1
    ensures IsAppServiceTarget(r.value.targets[0], LinuxAppService, Production, None)
  {
    var additionalProperties := Some(map[
      "ContainerRegistry" := RegistryValue(DockerHubRegistry()),
      "PrimaryServiceImageName" := StringValue(PrimaryServiceImage)]);
    CanonicalRepositories("");
    ContainerServicesOverrideFailure(additionalProperties);
    RegistryOverride(ContainerServices, additionalProperties);
    PrimaryServiceImageNameOverride(additionalProperties);
    TryParseAzureResourceTypeName(parse, LinuxAppService);
    r := GetPayloadToProvisionContinuousDeployment(
      parse, ContainerServices, Some("github"), Azure, Some("LinuxAppService"), false, additionalProperties, "");
  }

  /** A null resource type is accepted, since Service Fabric never parses it. */
  method ProvisioningConfigurationForDeployingDotNetMultiContainerServicesInAzureContainerRegistryToServiceFabricCluster(parse: ResourceTypeParser, vstsGitRepositoryId: string)
    returns (r: Result<ProvisioningConfiguration, BuildError>)
    ensures r.Success?
    ensures r.value.source.repository == GetVstsGitRepository(vstsGitRepositoryId)
    ensures r.value.source.buildConfiguration.DotNetContainerServicesBuildConfiguration?
    ensures r.value.source.buildConfiguration.registry == TestAzureContainerRegistry()
    ensures r.value.targets == [GetServiceFabricDeploymentTargetData(Production)]
  {
    var additionalProperties := Some(map["ContainerRegistry" := RegistryValue(TestAzureContainerRegistry())]);
    CanonicalRepositories(vstsGitRepositoryId);
    RegistryOnlyOverride(TestAzureContainerRegistry());
    ServiceFabricIgnoresResourceType(parse, None, Production, additionalProperties);
    r := GetPayloadToProvisionContinuousDeployment(
      parse, DotNetContainerServices, Some("tfsgit"), ServiceFabric, None, false, additionalProperties, vstsGitRepositoryId);
  }

  /** Without a `PrimaryServiceImageName` override the name stays null. */
  method ProvisioningConfigurationForDeployingGenericMultiContainerServicesInDockerHubToServiceFabricCluster(parse: ResourceTypeParser)
    returns (r: Result<ProvisioningConfiguration, BuildError>)
    ensures r.Success?
    ensures r.value.source.repository == GetGitHubRepository()
    ensures r.value.source.buildConfiguration.ContainerServicesBuildConfiguration?
    ensures r.value.source.buildConfiguration.primaryServiceImageName.None?
    ensures r.value.source.buildConfiguration.registry == DockerHubRegistry()
    ensures r.value.targets == [GetServiceFabricDeploymentTargetData(Production)]
  {
    var additionalProperties := Some(map["ContainerRegistry" := RegistryValue(DockerHubRegistry())]);
    CanonicalRepositories("");
    ContainerServicesOverrideFailure(additionalProperties);
    RegistryOverride(ContainerServices, additionalProperties);
    PrimaryServiceImageNameOverride(additionalProperties);
    ServiceFabricIgnoresResourceType(parse, None, Production, additionalProperties);
    r := GetPayloadToProvisionContinuousDeployment(
      parse, ContainerServices, Some("github"), ServiceFabric, None, false, additionalProperties, "");
  }

  /** The scale-set target is the constant one. */
  method ProvisioningConfigurationForDeployingVirtualMachineImageToVirtualMachineScaleSetInAzure(parse: ResourceTypeParser)
    returns (r: Result<ProvisioningConfiguration, BuildError>)
    requires ParsesMemberNames(parse)
    ensures r.Success?
    ensures r.value.source == CodeRepositoryDeploymentSource(GetGitHubRepository(), GetAzureVirtualMachineImageBuildConfiguration())
    ensures r.value.targets == [GetVirtualMachineScaleSetTargetData(Production)]
  {
    CanonicalRepositories("");
    TryParseAzureResourceTypeName(parse, VirtualMachineScaleSets);
    r := GetPayloadToProvisionContinuousDeployment(
      parse, AzureVirtualMachineImage, Some("github"), Azure, Some("VirtualMachineScaleSets"), false, None, "");
  }
}
