/** The continuous-delivery payload entities, restricted to the fields the
    sample data provider sets. A C# `null` reference is `None`. */
module DeliveryTypes {
  import opened Wrappers

  /** The application kinds the build-configuration dispatch knows. A C# enum
      can hold any integer, so `OtherApplicationType` stands for every value
      the dispatch does not list. */
  datatype ApplicationType =
    | AspNetCore
    | AspNetWap
    | AzureVirtualMachineImage
    | ContainerServices
    | DockerImage
    | DotNetContainerServices
    | NodeJS
    | PHP
    | Python
    | OtherApplicationType(ordinal: int)

  datatype DeploymentTargetProvider = Azure | ServiceFabric | OtherTargetProvider(ordinal: int)

  /** `OtherAzureResourceType` is any member of the SDK enumeration that the
      Azure target dispatch does not handle. */
  datatype AzureResourceType =
    | LinuxAppService
    | WindowsAppService
    | VirtualMachineScaleSets
    | OtherAzureResourceType(ordinal: int)

  datatype TargetEnvironmentType = Production | Test

  datatype NodeJsTaskRunnerType = Gulp | OtherTaskRunner(ordinal: int)

  datatype PythonFrameworkType = Bottle | Django | OtherPythonFramework(ordinal: int)

  /** The only registry kind this code names. */
  datatype ContainerRegistryType = Private

  datatype AuthorizationScheme = Token | UsernamePassword | Headers | Certificate

  /** The SDK's `AuthorizationParameters` keys. The SDK's `Certificate` key is
      `ClientCertificate` here, so as not to clash with the scheme constructor
      `Certificate`. */
  datatype AuthorizationParameter = AccessToken | Username | Password | AuthorizationHeader | ClientCertificate

  datatype Authorization = Authorization(scheme: AuthorizationScheme, parameters: map<AuthorizationParameter, string>)

  /** An authorization carries exactly the parameters of its scheme. */
  predicate WellFormedAuthorization(a: Authorization) {
    match a.scheme
    case Token => a.parameters.Keys == {AccessToken}
    case UsernamePassword => a.parameters.Keys == {Username, Password}
    case Headers => a.parameters.Keys == {AuthorizationHeader}
    case Certificate => a.parameters.Keys == {ClientCertificate}
  }

  datatype CodeRepository = CodeRepository(
    repositoryType: string,
    id: Option<string>,
    name: Option<string>,
    defaultBranch: Option<string>,
    authorizationInfo: Option<Authorization>)

  /** A Git repository as the Git service lists or creates it. */
  datatype GitRepository = GitRepository(id: string, name: string)

  datatype AzureStorageAccount = AzureStorageAccount(name: string, resourceGroup: string, authorizationInfo: Authorization)

  /** `GenericContainerRegistry` is the SDK's base `ContainerRegistry` class,
      `AzureContainerRegistry` its subclass. `registryType` is `None` when the
      object initializer leaves `Type` at its default. */
  datatype ContainerRegistry =
    | GenericContainerRegistry(
        registryType: Option<ContainerRegistryType>,
        registryUrl: string,
        authorizationInfo: Authorization)
    | AzureContainerRegistry(
        registryName: string,
        registryUrl: string,
        resourceGroupName: string,
        subscriptionId: string,
        subscriptionName: string,
        tenantId: string,
        authorizationInfo: Authorization)

  datatype SlotSwapConfiguration = SlotSwapConfiguration(slotName: string)

  /** `PlainBuildConfiguration` is the SDK's base class with only `Type` set;
      the other variants are its subclasses. */
  datatype BuildConfiguration =
    | PlainBuildConfiguration(applicationType: ApplicationType)
    | AzureVirtualMachineImageBuildConfiguration(
        baseImageUrn: string,
        deploymentScript: string,
        workingDirectory: string,
        imageStore: AzureStorageAccount)
    | ContainerServicesBuildConfiguration(
        composeFilePath: string,
        ciBuildComposeFilePath: string,
        primaryServiceImageName: Option<string>,
        registry: ContainerRegistry)
    | DockerImageBuildConfiguration(dockerfilePath: string, image: string, registry: ContainerRegistry)
    | DotNetContainerServicesBuildConfiguration(
        composeFilePath: string,
        additionalComposeFilePath: string,
        nugetVersion: string,
        registry: ContainerRegistry)
    | NodeJsBuildConfiguration(nodeJsTaskRunner: NodeJsTaskRunnerType)
    | PythonBuildConfiguration(
        pythonFramework: PythonFrameworkType,
        djangoSettingsModule: Option<string>,
        pythonExtensionId: Option<string>)

  /** The application type a build-configuration variant stands for. */
  function Variant(b: BuildConfiguration): ApplicationType {
    match b
    case PlainBuildConfiguration(t) => t
    case AzureVirtualMachineImageBuildConfiguration(_, _, _, _) => AzureVirtualMachineImage
    case ContainerServicesBuildConfiguration(_, _, _, _) => ContainerServices
    case DockerImageBuildConfiguration(_, _, _) => DockerImage
    case DotNetContainerServicesBuildConfiguration(_, _, _, _) => DotNetContainerServices
    case NodeJsBuildConfiguration(_) => NodeJS
    case PythonBuildConfiguration(_, _, _) => Python
  }

  /** Whether a build configuration carries a container registry. */
  predicate HasRegistry(b: BuildConfiguration) {
    b.ContainerServicesBuildConfiguration? || b.DockerImageBuildConfiguration? || b.DotNetContainerServicesBuildConfiguration?
  }

  /** `resourceType` (the app service's `Type`) and `environmentType` are
      `None` where the code leaves the SDK default in place. */
  datatype DeploymentTarget =
    | AzureAppServiceDeploymentTarget(
        resourceType: Option<AzureResourceType>,
        resourceIdentifier: string,
        resourceGroupName: string,
        location: string,
        subscriptionId: string,
        subscriptionName: string,
        tenantId: string,
        slotSwapConfiguration: Option<SlotSwapConfiguration>,
        environmentType: Option<TargetEnvironmentType>,
        authorizationInfo: Authorization,
        friendlyName: string)
    | AzureVmssDeploymentTarget(
        resourceIdentifier: string,
        resourceGroupName: string,
        location: string,
        subscriptionId: string,
        subscriptionName: string,
        tenantId: string,
        environmentType: Option<TargetEnvironmentType>,
        authorizationInfo: Authorization,
        friendlyName: string)
    | ServiceFabricDeploymentTarget(
        applicationName: string,
        clusterEndpoint: string,
        serverCertificateThumbprint: string,
        environmentType: Option<TargetEnvironmentType>,
        authorizationInfo: Authorization,
        friendlyName: string)

  datatype DeploymentSource = CodeRepositoryDeploymentSource(repository: CodeRepository, buildConfiguration: BuildConfiguration)

  /** The payload submitted to the provisioning service; its id and CI
      status are assigned by the service and are not part of the payload. */
  datatype ProvisioningConfiguration = ProvisioningConfiguration(source: DeploymentSource, targets: seq<DeploymentTarget>)

  /** A value stored in the additional-properties dictionary, tagged with its
      runtime class. */
  datatype OverrideValue =
    | StringValue(text: string)
    | TaskRunnerValue(taskRunner: NodeJsTaskRunnerType)
    | RegistryValue(registry: ContainerRegistry)
    | SlotSwapValue(slotSwap: SlotSwapConfiguration)
    | BuildConfigurationValue(buildConfiguration: BuildConfiguration)

  /** The optional `IReadOnlyDictionary<string, object>`; `None` is `null`. */
  type AdditionalProperties = Option<map<string, OverrideValue>>

  /** The exceptions building a payload can raise. Every `Unsupported…` case is
      a `NotSupportedException`; the two Azure cases are the two distinct
      throw sites (a failed parse, and a parsed member the dispatch lacks). */
  datatype BuildError =
    | NullReference
    | UnsupportedCodeRepositoryType(codeRepositoryType: string)
    | UnsupportedApplicationType(applicationType: ApplicationType)
    | UnsupportedAzureResourceTypeName(targetResourceType: Option<string>)
    | UnsupportedAzureResourceType(resourceType: AzureResourceType)
    | UnsupportedTargetProvider(targetProvider: DeploymentTargetProvider)
    | InvalidOverrideType(propertyName: string)
}
