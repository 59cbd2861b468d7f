/** The literal override values the provisioning scenarios pass. */
module ScenarioValues {
  const AcrRegistryName := "testacr"
  const AcrRegistryUrl := "testacr.azurecr.io"
  const AcrResourceGroup := "TestAcrResourceGroup"
  const AcrAuthorizationHeader := "Bearer <Bearer_Token_To_Access_The_Azure_Container_Registry>"
  const DockerHubUrl := "https://index.docker.io/v1"
  const DockerHubUserName := "<Docker_User_Name>"
  const DockerHubUserPassword := "<Docker_User_Password>"
  const DjangoSettingsModule := "TestDjangoProject.settings"
  const StagingSlotName := "Staging"
  const PrimaryServiceImage := "TestDockerNamespace/PrimaryService"
}
