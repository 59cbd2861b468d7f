/** The literal values the sample data provider fills into the payload: test
    subscription, resource names, paths and placeholder credentials. */
module SampleValues {
  const TestSubscriptionId := "93fc8490-117b-4f36-b64d-f037f1b297f8"
  const TestSubscriptionName := "TestAzureSubscription"
  const TestTenantId := "9cc18817-59be-4b61-b5e6-041ddf88834d"
  const TestResourceGroup := "TestResourceGroup"
  const TestLocation := "SouthCentralUS"
  const ProductionFriendlyName := "Production Environment"
  const DockerUserName := "TestDockerUserName"
  const DockerUserPassword := "TestDockerUserPassword"
  const GitHubRepositoryId := "TestOrg/TestRepo"
  const GitHubDefaultBranch := "master"
  const GitHubAccessToken := "GitHubAccessTokenWithAccessToTestRepo"
  const VstsGitRepositoryName := "TestRepo"
  const GitDefaultBranch := "refs/heads/master"
  const ExternalGitRepositoryUrl := "https://SomeGitProvider.com/TestOrg/TestRepo"
  const ExternalGitUserName := "TestUser"
  const ExternalGitUserPassword := "TestUserPassword"
  const TfvcRepositoryPath := "$/TestRepo"
  const TfvcDefaultBranch := "$/TestRepo/TestBranch"
  const VmBaseImageUrn := "MicrosoftWindowsServer:WindowsServer:2012-R2-Datacenter:windows"
  const VmDeploymentScript := "**/DeployScript.sh"
  const VmWorkingDirectory := "FrontEndWebApp/**/GalleryApp"
  const ImageStoreAccountName := "TestAzureStorageAccount"
  const AppServiceAuthorizationHeader := "Bearer <Bearer_Token_To_Access_Azure_App_Service>"
  const ComposeFilePath := "**/docker-compose.yml"
  const CiBuildComposeFilePath := "**/docker-compose.ci.build.yml"
  const DockerfilePath := "**/Dockerfile"
  const DockerImageName := "TestDockerNamespace/TestDockerRepo"
  const DotNetCiComposeFilePath := "**/docker-compose.ci.yml"
  const NugetVersion := "4.0.0"
  const DefaultPythonExtensionId := "python353x86"
  const WebAppName := "TestWebApp"
  const VmScaleSetName := "TestVmScaleSet"
  const VmScaleSetAuthorizationHeader := "Bearer <Bearer_Token_To_Access_Azure_VM_ScaleSet>"
  const FabricApplicationName := "fabric:/TestSfApplication"
  const FabricClusterEndpoint := "tcp://testsfcluster.southcentralus.cloudapp.azure.com:19000"
  const FabricServerCertificateThumbprint := "<Server_Certificate_Thumbprint>"
  const FabricClientCertificate := "<Put_Base64_Encoded_Client_Certificate_With_Private_Key_Here>"
  const FabricFriendlyName := "TestSfApplication"
}
