/** The value shapes of src/railway/template.rs: the per-service deploy
    request, the deploy answer and a catalog template. */
module Templates {
  import opened Wrappers
  import Config

  datatype NewVolume = NewVolume(mountPath: string)

  datatype NewService = NewService(
    id: string,
    hasDomain: Option<bool>,
    healthcheckPath: Option<string>,
    name: string,
    serviceName: string,
    rootDirectory: Option<string>,
    serviceIcon: Option<string>,
    startCommand: Option<string>,
    tcpProxyApplicationPort: Option<int>,
    template: string,
    variables: map<string, string>,
    volumes: seq<NewVolume>)

  datatype DeployedTemplate = DeployedTemplate(projectId: string, workflowId: Option<string>)

  /** A catalog entry; the `health` float is not part of this model. */
  datatype Template = Template(id: string, code: string, serializedConfig: Config.RawConfig)
}
