/** The sample data provider: per-axis dispatch from the requested
    application type, repository kind and deployment target to the payload
    values, with named overrides read from the additional-properties map.

    The provider's client context is used only for network calls; their
    results enter here as the parameter `vstsGitRepositoryId`. */
module SampleDataProvider {
  import opened Wrappers
  import opened SampleValues
  import opened DeliveryTypes
  import opened Strings

  // ---------------------------------------------------------------------
  // Literal payload values
  // ---------------------------------------------------------------------


  /** The repository-kind strings the dispatch accepts, in their canonical
      (lower-case) spelling, which is also the `Type` of the result. */
  const RepositoryTypes: seq<string> := ["tfsgit", "github", "git", "localgit", "tfsversioncontrol"]

  function HeadersAuthorization(token: string): Authorization {
    Authorization(Headers, map[AuthorizationHeader := token])
  }

  function UsernamePasswordAuthorization(user: string, password: string): Authorization {
    Authorization(UsernamePassword, map[Username := user, Password := password])
  }

  // ---------------------------------------------------------------------
  // Additional-properties fetchers
  // ---------------------------------------------------------------------

  /** Whether the (possibly null) map holds the key. */
  predicate HasProperty(properties: AdditionalProperties, propertyName: string) {
    properties.Some? && propertyName in properties.value
  }

  /** `GetPropertyValue<T>`: the stored value cast to `T` when the map is
      non-null and holds the key, the default otherwise. `cast` is the C#
      cast `(T)`; `None` from it is an `InvalidCastException`. */
  function GetPropertyValue<T>(
    propertyName: string,
    properties: AdditionalProperties,
    defaultValue: T,
    cast: OverrideValue -> Option<T>): (r: Result<T, BuildError>)
    ensures !HasProperty(properties, propertyName) ==> r == Success(defaultValue)
    ensures HasProperty(properties, propertyName) ==>
      && (r.Success? <==> cast(properties.value[propertyName]).Some?)
      && (r.Success? ==> cast(properties.value[propertyName]) == Some(r.value))
    ensures r.Failure? ==> HasProperty(properties, propertyName) && r.error == InvalidOverrideType(propertyName)
  {
    if properties.Some? && propertyName in properties.value then
      match cast(properties.value[propertyName])
      case Some(v) => Success(v)
      case None => Failure(InvalidOverrideType(propertyName))
    else
      Success(defaultValue)
  }

  // The casts the provider performs. A nullable `T` is `Option<T>`: casting
  // a non-null object to it yields `Some`.

  function AsNullableString(v: OverrideValue): Option<Option<string>> {
    if v.StringValue? then Some(Some(v.text)) else None
  }

  function AsTaskRunner(v: OverrideValue): Option<NodeJsTaskRunnerType> {
    if v.TaskRunnerValue? then Some(v.taskRunner) else None
  }

  function AsContainerRegistry(v: OverrideValue): Option<ContainerRegistry> {
    if v.RegistryValue? then Some(v.registry) else None
  }

  function AsNullableSlotSwap(v: OverrideValue): Option<Option<SlotSwapConfiguration>> {
    if v.SlotSwapValue? then Some(Some(v.slotSwap)) else None
  }

  function AsPythonBuildConfiguration(v: OverrideValue): Option<BuildConfiguration> {
    if v.BuildConfigurationValue? && v.buildConfiguration.PythonBuildConfiguration? then Some(v.buildConfiguration)
    else None
  }

  /** The registry used when no `ContainerRegistry` override is given. */
  function DefaultContainerRegistry(): ContainerRegistry {
    GenericContainerRegistry(Some(Private), "", UsernamePasswordAuthorization(DockerUserName, DockerUserPassword))
  }

  function GetContainerRegistry(properties: AdditionalProperties): (r: Result<ContainerRegistry, BuildError>)
    ensures !HasProperty(properties, "ContainerRegistry") ==> r == Success(DefaultContainerRegistry())
    ensures HasProperty(properties, "ContainerRegistry") ==>
      match properties.value["ContainerRegistry"]
      case RegistryValue(registry) => r == Success(registry)
      case _ => r == Failure(InvalidOverrideType("ContainerRegistry"))
  {
    GetPropertyValue("ContainerRegistry", properties, DefaultContainerRegistry(), AsContainerRegistry)
  }

  // ---------------------------------------------------------------------
  // Code repository generators
  // ---------------------------------------------------------------------

  function GetGitHubRepository(): CodeRepository {
    CodeRepository(
      "github", Some(GitHubRepositoryId), None, Some(GitHubDefaultBranch),
      Some(Authorization(Token, map[AccessToken := GitHubAccessToken])))
  }

  /** `vstsGitRepositoryId` is the id of the repository that
      `GetOrCreateVstsGitRepository` found or created (its `id` field). */
  function GetVstsGitRepository(vstsGitRepositoryId: string): CodeRepository {
    CodeRepository("tfsgit", Some(vstsGitRepositoryId), None, Some(GitDefaultBranch), None)
  }

  /** The position of the first repository with the given name, as
      `List.Find` picks it, or `None` when no repository has that name. */
  function FindRepository(repos: seq<GitRepository>, repoName: string): (r: Option<nat>)
    ensures r.Some? ==> r.value < |repos| && repos[r.value].name == repoName
    ensures r.Some? ==> forall j :: 0 <= j < r.value ==> repos[j].name != repoName
    ensures r.None? <==> forall j :: 0 <= j < |repos| ==> repos[j].name != repoName
    decreases |repos|
  {
    if |repos| == 0 then None
    else if repos[0].name == repoName then Some(0)
    else
      match FindRepository(repos[1..], repoName)
      case None => None
      case Some(k) => Some(k + 1)
  }

  /** `GetOrCreateVstsGitRepository`: the first listed repository named
      `TestRepo`, or else the one the service creates. `repos` is the
      project's repository list and `created` the repository the service
      would return for the create request; both come from network calls. */
  function GetOrCreateVstsGitRepository(repos: seq<GitRepository>, created: GitRepository): (r: GitRepository)
    ensures (forall j :: 0 <= j < |repos| ==> repos[j].name != VstsGitRepositoryName) ==> r == created
    ensures (exists j :: 0 <= j < |repos| && repos[j].name == VstsGitRepositoryName) ==>
      && r.name == VstsGitRepositoryName
      && exists i :: 0 <= i < |repos| && repos[i] == r && forall j :: 0 <= j < i ==> repos[j].name != VstsGitRepositoryName
  {
    match FindRepository(repos, VstsGitRepositoryName)
    case Some(i) => repos[i]
    case None => created
  }

  /** Searching a list with one more repository at its end finds the same
      repository, or the new one when nothing before it matched. */
  lemma {:induction false} FindRepositoryAppend(repos: seq<GitRepository>, repo: GitRepository, repoName: string)
    ensures FindRepository(repos + [repo], repoName) ==
      if FindRepository(repos, repoName).Some? then FindRepository(repos, repoName)
      else if repo.name == repoName then Some(|repos|)
      else None
    decreases |repos|
  {
    if |repos| > 0 {
      assert (repos + [repo])[1..] == repos[1..] + [repo];
      FindRepositoryAppend(repos[1..], repo, repoName);
    }
  }

  /** Get-or-create is idempotent: once the listing also holds the
      repository a first call returned (which it created under the
      requested name when none existed), a second call returns that same
      repository and creates nothing. */
  lemma {:induction false} GetOrCreateIsIdempotent(repos: seq<GitRepository>, created: GitRepository, createdAgain: GitRepository)
    requires created.name == VstsGitRepositoryName
    ensures var repo := GetOrCreateVstsGitRepository(repos, created);
      GetOrCreateVstsGitRepository(repos + [repo], createdAgain) == repo
  {
    var repo := GetOrCreateVstsGitRepository(repos, created);
    FindRepositoryAppend(repos, repo, VstsGitRepositoryName);
  }

  function GetExternalGitRepository(): CodeRepository {
    CodeRepository(
      "git", Some(ExternalGitRepositoryUrl), None, Some(GitDefaultBranch),
      Some(UsernamePasswordAuthorization(ExternalGitUserName, ExternalGitUserPassword)))
  }

  function GetLocalGitRepository(): CodeRepository {
    CodeRepository("localgit", None, None, None, None)
  }

  function GetTfvcRepository(): CodeRepository {
    CodeRepository("tfsversioncontrol", Some(TfvcRepositoryPath), None, Some(TfvcDefaultBranch), None)
  }

  /** Dispatch on the upper-cased repository-kind string. */
  function GetCodeRepository(codeRepositoryType: Option<string>, vstsGitRepositoryId: string): (r: Result<CodeRepository, BuildError>)
    ensures codeRepositoryType.None? ==> r == Failure(NullReference)
    ensures r.Failure? && codeRepositoryType.Some? ==> r.error == UnsupportedCodeRepositoryType(codeRepositoryType.value)
    ensures r.Success? ==>
      && codeRepositoryType.Some?
      && r.value.repositoryType in RepositoryTypes
      && EqualsIgnoreCase(r.value.repositoryType, codeRepositoryType.value)
    ensures r.Success? ==> r.value.name.None?
    ensures r.Success? && r.value.repositoryType == "localgit" ==>
      r.value.id.None? && r.value.defaultBranch.None? && r.value.authorizationInfo.None?
    ensures r.Success? && r.value.repositoryType == "github" ==>
      r.value.authorizationInfo.Some? && r.value.authorizationInfo.value.scheme == Token
    ensures r.Success? && r.value.repositoryType == "git" ==>
      r.value.authorizationInfo.Some? && r.value.authorizationInfo.value.scheme == UsernamePassword
    ensures r.Success? && r.value.repositoryType in {"tfsgit", "tfsversioncontrol"} ==> r.value.authorizationInfo.None?
    ensures r.Success? && r.value.repositoryType == "tfsgit" ==> r.value.id == Some(vstsGitRepositoryId)
    ensures r.Success? && r.value.authorizationInfo.Some? ==> WellFormedAuthorization(r.value.authorizationInfo.value)
  {
    match codeRepositoryType
    case None => Failure(NullReference)
    case Some(s) =>
      UpperRepositoryTypes();
      var key := ToUpperInvariant(s);
      if key == "TFSGIT" then Success(GetVstsGitRepository(vstsGitRepositoryId))
      else if key == "GITHUB" then Success(GetGitHubRepository())
      else if key == "GIT" then Success(GetExternalGitRepository())
      else if key == "LOCALGIT" then Success(GetLocalGitRepository())
      else if key == "TFSVERSIONCONTROL" then Success(GetTfvcRepository())
      else Failure(UnsupportedCodeRepositoryType(s))
  }

  /** The upper-cased canonical names are the five switch labels. */
  lemma UpperRepositoryTypes()
    ensures ToUpperInvariant("tfsgit") == "TFSGIT"
    ensures ToUpperInvariant("github") == "GITHUB"
    ensures ToUpperInvariant("git") == "GIT"
    ensures ToUpperInvariant("localgit") == "LOCALGIT"
    ensures ToUpperInvariant("tfsversioncontrol") == "TFSVERSIONCONTROL"
  {
  }

  /** The dispatch accepts exactly the strings equal, ignoring case, to one of
      the five canonical names, and answers each with that name's repository. */
  lemma CodeRepositoryAcceptsExactly(s: string, vstsGitRepositoryId: string)
    ensures GetCodeRepository(Some(s), vstsGitRepositoryId).Success? <==>
      exists n :: n in RepositoryTypes && EqualsIgnoreCase(s, n)
    ensures forall n :: n in RepositoryTypes && EqualsIgnoreCase(s, n) ==>
      GetCodeRepository(Some(s), vstsGitRepositoryId).Success?
      && GetCodeRepository(Some(s), vstsGitRepositoryId).value.repositoryType == n
  {
    UpperRepositoryTypes();
    var r := GetCodeRepository(Some(s), vstsGitRepositoryId);
    if r.Success? {
      assert r.value.repositoryType in RepositoryTypes && EqualsIgnoreCase(s, r.value.repositoryType);
    }
  }

  /** Each canonical name selects its own generator. */
  lemma CanonicalRepositories(vstsGitRepositoryId: string)
    ensures GetCodeRepository(Some("tfsgit"), vstsGitRepositoryId) == Success(GetVstsGitRepository(vstsGitRepositoryId))
    ensures GetCodeRepository(Some("github"), vstsGitRepositoryId) == Success(GetGitHubRepository())
    ensures GetCodeRepository(Some("git"), vstsGitRepositoryId) == Success(GetExternalGitRepository())
    ensures GetCodeRepository(Some("localgit"), vstsGitRepositoryId) == Success(GetLocalGitRepository())
    ensures GetCodeRepository(Some("tfsversioncontrol"), vstsGitRepositoryId) == Success(GetTfvcRepository())
  {
    UpperRepositoryTypes();
  }

  /** The `tfsgit` kind builds its repository around the id of the Git
      repository that get-or-create chose: the created one when none named
      `TestRepo` is listed. */
  lemma TfsGitRepositoryFromListing(repos: seq<GitRepository>, created: GitRepository)
    ensures var chosen := GetOrCreateVstsGitRepository(repos, created);
      && GetCodeRepository(Some("tfsgit"), chosen.id) == Success(GetVstsGitRepository(chosen.id))
      && GetVstsGitRepository(chosen.id).id == Some(chosen.id)
      && ((forall j :: 0 <= j < |repos| ==> repos[j].name != VstsGitRepositoryName) ==>
            GetVstsGitRepository(chosen.id).id == Some(created.id))
  {
    CanonicalRepositories(GetOrCreateVstsGitRepository(repos, created).id);
  }

  /** Matching ignores case: inputs equal up to case give the same repository. */
  lemma CodeRepositoryIgnoresCase(s: string, t: string, vstsGitRepositoryId: string)
    requires EqualsIgnoreCase(s, t)
    ensures GetCodeRepository(Some(s), vstsGitRepositoryId).Success? == GetCodeRepository(Some(t), vstsGitRepositoryId).Success?
    ensures GetCodeRepository(Some(s), vstsGitRepositoryId).Success? ==>
      GetCodeRepository(Some(s), vstsGitRepositoryId) == GetCodeRepository(Some(t), vstsGitRepositoryId)
  {
  }

  /** Feeding a repository's `Type` back to the dispatch rebuilds the same
      repository. */
  lemma {:induction false} CodeRepositoryTypeRoundTrip(s: string, vstsGitRepositoryId: string)
    requires GetCodeRepository(Some(s), vstsGitRepositoryId).Success?
    ensures var repo := GetCodeRepository(Some(s), vstsGitRepositoryId).value;
      GetCodeRepository(Some(repo.repositoryType), vstsGitRepositoryId) == Success(repo)
  {
    var repo := GetCodeRepository(Some(s), vstsGitRepositoryId).value;
    CodeRepositoryIgnoresCase(s, repo.repositoryType, vstsGitRepositoryId);
  }

  // ---------------------------------------------------------------------
  // Build configuration generators
  // ---------------------------------------------------------------------

  function GetAspDotNetCoreBuildConfiguration(): BuildConfiguration {
    PlainBuildConfiguration(AspNetCore)
  }

  function GetAspDotNetBuildConfiguration(): BuildConfiguration {
    PlainBuildConfiguration(AspNetWap)
  }

  function GetPhpBuildConfiguration(): BuildConfiguration {
    PlainBuildConfiguration(PHP)
  }

  function GetAzureVirtualMachineImageBuildConfiguration(): BuildConfiguration {
    AzureVirtualMachineImageBuildConfiguration(
      VmBaseImageUrn,
      VmDeploymentScript,
      VmWorkingDirectory,
      AzureStorageAccount(
        ImageStoreAccountName, TestResourceGroup,
        HeadersAuthorization(AppServiceAuthorizationHeader)))
  }

  /** Reads `PrimaryServiceImageName` before `ContainerRegistry`, in the order
      of the object initializer. */
  function GetContainerServicesBuildConfiguration(properties: AdditionalProperties): Result<BuildConfiguration, BuildError> {
    var primaryServiceImageName :- GetPropertyValue("PrimaryServiceImageName", properties, None, AsNullableString);
    var registry :- GetContainerRegistry(properties);
    Success(ContainerServicesBuildConfiguration(
      ComposeFilePath, CiBuildComposeFilePath, primaryServiceImageName, registry))
  }

  function GetDockerImageBuildConfiguration(properties: AdditionalProperties): Result<BuildConfiguration, BuildError> {
    var registry :- GetContainerRegistry(properties);
    Success(DockerImageBuildConfiguration(DockerfilePath, DockerImageName, registry))
  }

  function GetDotNetContainerServicesBuildConfiguration(properties: AdditionalProperties): Result<BuildConfiguration, BuildError> {
    var registry :- GetContainerRegistry(properties);
    Success(DotNetContainerServicesBuildConfiguration(
      ComposeFilePath, DotNetCiComposeFilePath, NugetVersion, registry))
  }

  function GetNodeJsBuildConfiguration(properties: AdditionalProperties): Result<BuildConfiguration, BuildError> {
    var taskRunner :- GetPropertyValue("NodeJsTaskRunnerType", properties, Gulp, AsTaskRunner);
    Success(NodeJsBuildConfiguration(taskRunner))
  }

  /** The Python configuration used when no `PythonBuildConfiguration`
      override is given. */
  function DefaultPythonBuildConfiguration(): BuildConfiguration {
    PythonBuildConfiguration(Bottle, None, Some(DefaultPythonExtensionId))
  }

  /** An override replaces the whole Python configuration. */
  function GetPythonBuildConfiguration(properties: AdditionalProperties): Result<BuildConfiguration, BuildError> {
    GetPropertyValue("PythonBuildConfiguration", properties, DefaultPythonBuildConfiguration(), AsPythonBuildConfiguration)
  }

  /** The override keys a build configuration of the given type reads. */
  function BuildPropertyNames(applicationType: ApplicationType): set<string> {
    match applicationType
    case ContainerServices => {"PrimaryServiceImageName", "ContainerRegistry"}
    case DockerImage => {"ContainerRegistry"}
    case DotNetContainerServices => {"ContainerRegistry"}
    case NodeJS => {"NodeJsTaskRunnerType"}
    case Python => {"PythonBuildConfiguration"}
    case _ => {}
  }

  /** Closed dispatch on the application type. */
  function GetBuildConfiguration(applicationType: ApplicationType, properties: AdditionalProperties): (r: Result<BuildConfiguration, BuildError>)
    ensures r.Success? ==> Variant(r.value) == applicationType
    ensures applicationType.OtherApplicationType? ==> r == Failure(UnsupportedApplicationType(applicationType))
    ensures r.Failure? && !applicationType.OtherApplicationType? ==>
      r.error.InvalidOverrideType? && r.error.propertyName in BuildPropertyNames(applicationType)
        && HasProperty(properties, r.error.propertyName)
    ensures applicationType in {AspNetCore, AspNetWap, PHP} ==> r == Success(PlainBuildConfiguration(applicationType))
  {
    match applicationType
    case AspNetCore => Success(GetAspDotNetCoreBuildConfiguration())
    case AspNetWap => Success(GetAspDotNetBuildConfiguration())
    case AzureVirtualMachineImage => Success(GetAzureVirtualMachineImageBuildConfiguration())
    case ContainerServices => GetContainerServicesBuildConfiguration(properties)
    case DockerImage => GetDockerImageBuildConfiguration(properties)
    case DotNetContainerServices => GetDotNetContainerServicesBuildConfiguration(properties)
    case NodeJS => GetNodeJsBuildConfiguration(properties)
    case PHP => Success(GetPhpBuildConfiguration())
    case Python => GetPythonBuildConfiguration(properties)
    case OtherApplicationType(_) => Failure(UnsupportedApplicationType(applicationType))
  }

  /** Only the keys a type reads matter: with none of them present (a null
      map in particular) every listed application type builds. */
  lemma BuildConfigurationWithoutOverrides(applicationType: ApplicationType, properties: AdditionalProperties)
    requires !applicationType.OtherApplicationType?
    requires forall k :: k in BuildPropertyNames(applicationType) ==> !HasProperty(properties, k)
    ensures GetBuildConfiguration(applicationType, properties).Success?
  {
  }

  /** The registry of a Docker or container-services configuration is the
      `ContainerRegistry` override when one is present, and the default
      private registry with an empty URL and user-name/password
      authorization otherwise. */
  lemma RegistryOverride(applicationType: ApplicationType, properties: AdditionalProperties)
    requires applicationType in {DockerImage, ContainerServices, DotNetContainerServices}
    requires GetBuildConfiguration(applicationType, properties).Success?
    ensures var b := GetBuildConfiguration(applicationType, properties).value;
      && HasRegistry(b)
      && (HasProperty(properties, "ContainerRegistry") ==>
            properties.value["ContainerRegistry"] == RegistryValue(b.registry))
      && (!HasProperty(properties, "ContainerRegistry") ==>
            && b.registry == DefaultContainerRegistry()
            && b.registry.registryType == Some(Private)
            && b.registry.registryUrl == ""
            && b.registry.authorizationInfo.scheme == UsernamePassword)
  {
  }

  /** Docker and .NET container configurations fail only on a
      `ContainerRegistry` override that is not a registry. */
  lemma RegistryOverrideFailure(applicationType: ApplicationType, properties: AdditionalProperties)
    requires applicationType in {DockerImage, DotNetContainerServices}
    ensures GetBuildConfiguration(applicationType, properties).Failure? <==>
      HasProperty(properties, "ContainerRegistry") && !properties.value["ContainerRegistry"].RegistryValue?
  {
  }

  /** With the registry as the only override, each registry-carrying type
      builds its fixed configuration around that registry. */
  lemma RegistryOnlyOverride(registry: ContainerRegistry)
    ensures var properties := Some(map["ContainerRegistry" := RegistryValue(registry)]);
      && GetBuildConfiguration(DockerImage, properties)
         == Success(DockerImageBuildConfiguration(DockerfilePath, DockerImageName, registry))
      && GetBuildConfiguration(DotNetContainerServices, properties)
         == Success(DotNetContainerServicesBuildConfiguration(
              ComposeFilePath, DotNetCiComposeFilePath, NugetVersion, registry))
      && GetBuildConfiguration(ContainerServices, properties)
         == Success(ContainerServicesBuildConfiguration(
              ComposeFilePath, CiBuildComposeFilePath, None, registry))
  {
    var properties := Some(map["ContainerRegistry" := RegistryValue(registry)]);
    assert !HasProperty(properties, "PrimaryServiceImageName");
  }

  /** A container-services configuration fails exactly when one of the two
      keys it reads holds a value of the wrong type. */
  lemma ContainerServicesOverrideFailure(properties: AdditionalProperties)
    ensures GetBuildConfiguration(ContainerServices, properties).Failure? <==>
      || (HasProperty(properties, "PrimaryServiceImageName") && !properties.value["PrimaryServiceImageName"].StringValue?)
      || (HasProperty(properties, "ContainerRegistry") && !properties.value["ContainerRegistry"].RegistryValue?)
  {
  }

  /** `PrimaryServiceImageName` defaults to null and is otherwise the
      override's text. */
  lemma PrimaryServiceImageNameOverride(properties: AdditionalProperties)
    requires GetBuildConfiguration(ContainerServices, properties).Success?
    ensures var b := GetBuildConfiguration(ContainerServices, properties).value;
      && (!HasProperty(properties, "PrimaryServiceImageName") ==> b.primaryServiceImageName.None?)
      && (HasProperty(properties, "PrimaryServiceImageName") ==>
            properties.value["PrimaryServiceImageName"] == StringValue(b.primaryServiceImageName.value))
  {
  }

  /** The Node.js task runner defaults to Gulp; a task-runner override is
      taken as it is, any other value is a cast failure. */
  lemma NodeJsTaskRunnerOverride(properties: AdditionalProperties)
    ensures var r := GetBuildConfiguration(NodeJS, properties);
      && (!HasProperty(properties, "NodeJsTaskRunnerType") ==> r == Success(NodeJsBuildConfiguration(Gulp)))
      && (HasProperty(properties, "NodeJsTaskRunnerType") ==>
            match properties.value["NodeJsTaskRunnerType"]
            case TaskRunnerValue(t) => r == Success(NodeJsBuildConfiguration(t))
            case _ => r == Failure(InvalidOverrideType("NodeJsTaskRunnerType")))
  {
  }

  /** A Python override replaces the whole configuration; without one the
      configuration is Bottle with extension `python353x86`. */
  lemma PythonBuildConfigurationOverride(properties: AdditionalProperties)
    ensures var r := GetBuildConfiguration(Python, properties);
      && (!HasProperty(properties, "PythonBuildConfiguration") ==>
            r == Success(PythonBuildConfiguration(Bottle, None, Some(DefaultPythonExtensionId))))
      && (HasProperty(properties, "PythonBuildConfiguration") ==>
            var v := properties.value["PythonBuildConfiguration"];
            if v.BuildConfigurationValue? && v.buildConfiguration.PythonBuildConfiguration?
            then r == Success(v.buildConfiguration)
            else r == Failure(InvalidOverrideType("PythonBuildConfiguration")))
  {
  }

  // ---------------------------------------------------------------------
  // Deployment source
  // ---------------------------------------------------------------------

  /** The repository is built before the build configuration, so a
      repository error wins. */
  function GetDeploymentSourceData(
    applicationType: ApplicationType,
    sourceRepositoryType: Option<string>,
    properties: AdditionalProperties,
    vstsGitRepositoryId: string): (r: Result<DeploymentSource, BuildError>)
    ensures var repository := GetCodeRepository(sourceRepositoryType, vstsGitRepositoryId);
      var buildConfiguration := GetBuildConfiguration(applicationType, properties);
      && (r.Success? <==> repository.Success? && buildConfiguration.Success?)
      && (r.Success? ==> r.value == CodeRepositoryDeploymentSource(repository.value, buildConfiguration.value))
      && (repository.Failure? ==> r == Failure(repository.error))
      && (repository.Success? && buildConfiguration.Failure? ==> r == Failure(buildConfiguration.error))
  {
    var repository :- GetCodeRepository(sourceRepositoryType, vstsGitRepositoryId);
    var buildConfiguration :- GetBuildConfiguration(applicationType, properties);
    Success(CodeRepositoryDeploymentSource(repository, buildConfiguration))
  }

  // ---------------------------------------------------------------------
  // Deployment target generators
  // ---------------------------------------------------------------------

  /** The member name `ToString` gives a handled Azure resource type. */
  function AzureResourceTypeName(resourceType: AzureResourceType): string
    requires !resourceType.OtherAzureResourceType?
  {
    match resourceType
    case LinuxAppService => "LinuxAppService"
    case WindowsAppService => "WindowsAppService"
    case VirtualMachineScaleSets => "VirtualMachineScaleSets"
  }

  /** `Enum.TryParse` on a non-null string. What it accepts is decided by
      the SDK's enum definition, which is not part of this model: besides the
      member names it takes numeric strings and the names of members this
      code does not handle, all of which give an `OtherAzureResourceType`. */
  type ResourceTypeParser = string -> Option<AzureResourceType>

  /** All that the model demands of `Enum.TryParse`: the names of the three
      handled members parse to those members. */
  predicate ParsesMemberNames(parse: ResourceTypeParser) {
    && parse(AzureResourceTypeName(LinuxAppService)) == Some(LinuxAppService)
    && parse(AzureResourceTypeName(WindowsAppService)) == Some(WindowsAppService)
    && parse(AzureResourceTypeName(VirtualMachineScaleSets)) == Some(VirtualMachineScaleSets)
  }

  /** One parse that meets `ParsesMemberNames`: the exact, case-sensitive
      names of the three handled members and nothing else. */
  function MemberNameParse(s: string): (r: Option<AzureResourceType>)
    ensures r.Some? ==> !r.value.OtherAzureResourceType? && AzureResourceTypeName(r.value) == s
  {
    if s == "LinuxAppService" then Some(LinuxAppService)
    else if s == "WindowsAppService" then Some(WindowsAppService)
    else if s == "VirtualMachineScaleSets" then Some(VirtualMachineScaleSets)
    else None
  }

  /** The exact-name parse is an admissible `Enum.TryParse`. */
  lemma MemberNameParseParsesNames()
    ensures ParsesMemberNames(MemberNameParse)
  {
  }

  /** `Enum.TryParse` on the possibly null resource-type string: a null
      string never parses. */
  function TryParseAzureResourceType(parse: ResourceTypeParser, targetResourceType: Option<string>): (r: Option<AzureResourceType>)
    ensures targetResourceType.None? ==> r.None?
    ensures targetResourceType.Some? ==> r == parse(targetResourceType.value)
  {
    match targetResourceType
    case None => None
    case Some(s) => parse(s)
  }

  /** Parsing the name of a handled resource type gives that type back. */
  lemma TryParseAzureResourceTypeName(parse: ResourceTypeParser, resourceType: AzureResourceType)
    requires ParsesMemberNames(parse)
    requires !resourceType.OtherAzureResourceType?
    ensures TryParseAzureResourceType(parse, Some(AzureResourceTypeName(resourceType))) == Some(resourceType)
  {
  }

  /** The app-service target before its `Type` is set. */
  function GetAzureAppServiceTargetData(targetEnvironmentType: TargetEnvironmentType, properties: AdditionalProperties): Result<DeploymentTarget, BuildError> {
    var slotSwapConfiguration :- GetPropertyValue("SlotSwapConfiguration", properties, None, AsNullableSlotSwap);
    Success(AzureAppServiceDeploymentTarget(
      None, WebAppName, TestResourceGroup, TestLocation,
      TestSubscriptionId, TestSubscriptionName, TestTenantId,
      slotSwapConfiguration, Some(targetEnvironmentType),
      HeadersAuthorization(AppServiceAuthorizationHeader),
      ProductionFriendlyName))
  }

  /** Builds the app-service target, then overwrites its `Type`. */
  function GetLinuxAppServiceTargetData(targetEnvironmentType: TargetEnvironmentType, properties: AdditionalProperties): Result<DeploymentTarget, BuildError> {
    var deploymentTarget :- GetAzureAppServiceTargetData(targetEnvironmentType, properties);
    Success(deploymentTarget.(resourceType := Some(LinuxAppService)))
  }

  function GetWindowsAppServiceTargetData(targetEnvironmentType: TargetEnvironmentType, properties: AdditionalProperties): Result<DeploymentTarget, BuildError> {
    var deploymentTarget :- GetAzureAppServiceTargetData(targetEnvironmentType, properties);
    Success(deploymentTarget.(resourceType := Some(WindowsAppService)))
  }

  /** The environment argument is not used: the result is one constant. */
  function GetVirtualMachineScaleSetTargetData(targetEnvironmentType: TargetEnvironmentType): DeploymentTarget {
    AzureVmssDeploymentTarget(
      VmScaleSetName, TestResourceGroup, TestLocation,
      TestSubscriptionId, TestSubscriptionName, TestTenantId, None,
      HeadersAuthorization(VmScaleSetAuthorizationHeader),
      ProductionFriendlyName)
  }

  function GetServiceFabricDeploymentTargetData(targetEnvironmentType: TargetEnvironmentType): DeploymentTarget {
    ServiceFabricDeploymentTarget(
      FabricApplicationName,
      FabricClusterEndpoint,
      FabricServerCertificateThumbprint,
      Some(targetEnvironmentType),
      Authorization(Certificate, map[ClientCertificate := FabricClientCertificate]),
      FabricFriendlyName)
  }

  /** An app-service target of the given `Type`, built for the given
      environment, with its slot swap taken from the overrides. */
  predicate IsAppServiceTarget(
    t: DeploymentTarget,
    resourceType: AzureResourceType,
    targetEnvironmentType: TargetEnvironmentType,
    properties: AdditionalProperties)
  {
    && t.AzureAppServiceDeploymentTarget?
    && t.resourceType == Some(resourceType)
    && t.environmentType == Some(targetEnvironmentType)
    && t.friendlyName == ProductionFriendlyName
    && (!HasProperty(properties, "SlotSwapConfiguration") ==> t.slotSwapConfiguration.None?)
    && (HasProperty(properties, "SlotSwapConfiguration") ==>
          t.slotSwapConfiguration.Some?
          && properties.value["SlotSwapConfiguration"] == SlotSwapValue(t.slotSwapConfiguration.value))
  }

  function GetAzureDeploymentTargetData(
    resourceType: AzureResourceType,
    targetEnvironmentType: TargetEnvironmentType,
    properties: AdditionalProperties): (r: Result<DeploymentTarget, BuildError>)
    ensures resourceType in {LinuxAppService, WindowsAppService} ==>
      && (r.Success? <==> !HasProperty(properties, "SlotSwapConfiguration")
                          || properties.value["SlotSwapConfiguration"].SlotSwapValue?)
      && (r.Success? ==> IsAppServiceTarget(r.value, resourceType, targetEnvironmentType, properties))
      && (r.Failure? ==> r.error == InvalidOverrideType("SlotSwapConfiguration"))
    ensures resourceType == VirtualMachineScaleSets ==> r == Success(GetVirtualMachineScaleSetTargetData(Production))
    ensures resourceType.OtherAzureResourceType? ==> r == Failure(UnsupportedAzureResourceType(resourceType))
  {
    match resourceType
    case LinuxAppService => GetLinuxAppServiceTargetData(targetEnvironmentType, properties)
    case VirtualMachineScaleSets => Success(GetVirtualMachineScaleSetTargetData(targetEnvironmentType))
    case WindowsAppService => GetWindowsAppServiceTargetData(targetEnvironmentType, properties)
    case OtherAzureResourceType(_) => Failure(UnsupportedAzureResourceType(resourceType))
  }

  /** Closed dispatch on the provider; only Azure reads the resource type. */
  function GetDeploymentTargetData(
    parse: ResourceTypeParser,
    targetProvider: DeploymentTargetProvider,
    targetResourceType: Option<string>,
    targetEnvironmentType: TargetEnvironmentType,
    properties: AdditionalProperties): (r: Result<DeploymentTarget, BuildError>)
    ensures targetProvider == Azure && TryParseAzureResourceType(parse, targetResourceType).None? ==>
      r == Failure(UnsupportedAzureResourceTypeName(targetResourceType))
    ensures targetProvider == Azure && TryParseAzureResourceType(parse, targetResourceType).Some? ==>
      r == GetAzureDeploymentTargetData(TryParseAzureResourceType(parse, targetResourceType).value, targetEnvironmentType, properties)
    ensures targetProvider == ServiceFabric ==>
      && r.Success?
      && r.value.ServiceFabricDeploymentTarget?
      && r.value.environmentType == Some(targetEnvironmentType)
      && r.value.authorizationInfo.scheme == Certificate
    ensures targetProvider.OtherTargetProvider? ==> r == Failure(UnsupportedTargetProvider(targetProvider))
    ensures r.Success? && !r.value.AzureVmssDeploymentTarget? ==> r.value.environmentType == Some(targetEnvironmentType)
  {
    match targetProvider
    case Azure =>
      (match TryParseAzureResourceType(parse, targetResourceType)
       case None => Failure(UnsupportedAzureResourceTypeName(targetResourceType))
       case Some(azureResourceType) => GetAzureDeploymentTargetData(azureResourceType, targetEnvironmentType, properties))
    case ServiceFabric => Success(GetServiceFabricDeploymentTargetData(targetEnvironmentType))
    case OtherTargetProvider(_) => Failure(UnsupportedTargetProvider(targetProvider))
  }

  /** A string that parses to a member this code does not handle (a
      numeric string, say, or another member's name) passes the parse and
      reaches the `default:` branch of the Azure dispatch. */
  lemma UnhandledResourceTypeFailure(
    parse: ResourceTypeParser,
    s: string,
    targetEnvironmentType: TargetEnvironmentType,
    properties: AdditionalProperties)
    requires parse(s).Some? && parse(s).value.OtherAzureResourceType?
    ensures GetDeploymentTargetData(parse, Azure, Some(s), targetEnvironmentType, properties)
         == Failure(UnsupportedAzureResourceType(parse(s).value))
  {
  }

  /** The target a builder gives for another environment: the environment
      field is replaced where the target has one set. */
  function WithEnvironment(t: DeploymentTarget, targetEnvironmentType: TargetEnvironmentType): DeploymentTarget {
    if t.environmentType.Some? then t.(environmentType := Some(targetEnvironmentType)) else t
  }

  /** Building a target for another environment succeeds or fails alike, and
      differs at most in the environment field. */
  lemma {:induction false} TargetDependsOnEnvironmentOnlyThere(
    parse: ResourceTypeParser,
    targetProvider: DeploymentTargetProvider,
    targetResourceType: Option<string>,
    e1: TargetEnvironmentType,
    e2: TargetEnvironmentType,
    properties: AdditionalProperties)
    ensures var r1 := GetDeploymentTargetData(parse, targetProvider, targetResourceType, e1, properties);
      var r2 := GetDeploymentTargetData(parse, targetProvider, targetResourceType, e2, properties);
      && r1.Success? == r2.Success?
      && (r1.Success? ==> r2.value == WithEnvironment(r1.value, e2))
      && (r1.Failure? ==> r2.error == r1.error)
  {
    var r1 := GetDeploymentTargetData(parse, targetProvider, targetResourceType, e1, properties);
    var r2 := GetDeploymentTargetData(parse, targetProvider, targetResourceType, e2, properties);
    if targetProvider == Azure && TryParseAzureResourceType(parse, targetResourceType).Some? {
      var rt := TryParseAzureResourceType(parse, targetResourceType).value;
      if rt == VirtualMachineScaleSets {
        assert r1 == r2;
      } else if r1.Success? {
        assert r2.Success?;
        assert r2.value == WithEnvironment(r1.value, e2);
      }
    }
  }

  /** The scale-set target ignores both the environment and the overrides. */
  lemma VmssTargetIsConstant(
    parse: ResourceTypeParser,
    targetResourceType: Option<string>,
    e1: TargetEnvironmentType,
    e2: TargetEnvironmentType,
    p1: AdditionalProperties,
    p2: AdditionalProperties)
    requires TryParseAzureResourceType(parse, targetResourceType) == Some(VirtualMachineScaleSets)
    ensures GetDeploymentTargetData(parse, Azure, targetResourceType, e1, p1) == GetDeploymentTargetData(parse, Azure, targetResourceType, e2, p2)
    ensures GetDeploymentTargetData(parse, Azure, targetResourceType, e1, p1).Success?
  {
  }

  /** A Service Fabric target looks at neither the resource type (a null one
      is accepted) nor the overrides: it is the one constant target for the
      environment. */
  lemma ServiceFabricIgnoresResourceType(
    parse: ResourceTypeParser,
    targetResourceType: Option<string>,
    targetEnvironmentType: TargetEnvironmentType,
    properties: AdditionalProperties)
    ensures GetDeploymentTargetData(parse, ServiceFabric, targetResourceType, targetEnvironmentType, properties)
         == Success(GetServiceFabricDeploymentTargetData(targetEnvironmentType))
  {
  }

  // ---------------------------------------------------------------------
  // Well-formed authorizations
  // ---------------------------------------------------------------------

  /** Every registry override carries a well-formed authorization. */
  predicate WellFormedOverrides(properties: AdditionalProperties) {
    properties.Some? ==>
      forall k :: k in properties.value && properties.value[k].RegistryValue? ==>
        WellFormedAuthorization(properties.value[k].registry.authorizationInfo)
  }

  predicate WellFormedBuildConfiguration(b: BuildConfiguration) {
    && (b.AzureVirtualMachineImageBuildConfiguration? ==> WellFormedAuthorization(b.imageStore.authorizationInfo))
    && (HasRegistry(b) ==> WellFormedAuthorization(b.registry.authorizationInfo))
  }

  predicate WellFormedSource(s: DeploymentSource) {
    && (s.repository.authorizationInfo.Some? ==> WellFormedAuthorization(s.repository.authorizationInfo.value))
    && WellFormedBuildConfiguration(s.buildConfiguration)
  }

  /** Every authorization in a built configuration matches its scheme, given
      that the registry overrides do. */
  lemma BuildConfigurationWellFormed(applicationType: ApplicationType, properties: AdditionalProperties)
    requires WellFormedOverrides(properties)
    requires GetBuildConfiguration(applicationType, properties).Success?
    ensures WellFormedBuildConfiguration(GetBuildConfiguration(applicationType, properties).value)
  {
    if applicationType in {DockerImage, ContainerServices, DotNetContainerServices} {
      RegistryOverride(applicationType, properties);
    }
  }

  /** Every authorization in a built source matches its scheme, given that
      the registry overrides do. */
  lemma SourceWellFormed(
    applicationType: ApplicationType,
    sourceRepositoryType: Option<string>,
    properties: AdditionalProperties,
    vstsGitRepositoryId: string)
    requires WellFormedOverrides(properties)
    requires GetDeploymentSourceData(applicationType, sourceRepositoryType, properties, vstsGitRepositoryId).Success?
    ensures WellFormedSource(GetDeploymentSourceData(applicationType, sourceRepositoryType, properties, vstsGitRepositoryId).value)
  {
    BuildConfigurationWellFormed(applicationType, properties);
  }

  /** Every built target carries an authorization that matches its scheme. */
  lemma TargetWellFormed(
    parse: ResourceTypeParser,
    targetProvider: DeploymentTargetProvider,
    targetResourceType: Option<string>,
    targetEnvironmentType: TargetEnvironmentType,
    properties: AdditionalProperties)
    requires GetDeploymentTargetData(parse, targetProvider, targetResourceType, targetEnvironmentType, properties).Success?
    ensures WellFormedAuthorization(GetDeploymentTargetData(parse, targetProvider, targetResourceType, targetEnvironmentType, properties).value.authorizationInfo)
  {
    if targetProvider == Azure {
      var rt := TryParseAzureResourceType(parse, targetResourceType).value;
      if rt == VirtualMachineScaleSets {
        assert WellFormedAuthorization(GetVirtualMachineScaleSetTargetData(targetEnvironmentType).authorizationInfo);
      } else {
        var t := GetAzureAppServiceTargetData(targetEnvironmentType, properties).value;
        assert WellFormedAuthorization(t.authorizationInfo);
      }
    }
  }
}
