/** The template configuration shapes of src/environment.rs, already
    deserialized. HashMaps whose iteration order the pipeline observes are
    sequences in that order; `variables` stays a map because nothing the
    pipeline does depends on the order in which it is visited. */
module Config {
  import opened Wrappers

  datatype Networking = Networking(
    serviceDomains: seq<string>,   // the keys of `serviceDomains`
    tcpProxies: seq<string>)       // the keys of `tcpProxies`, in iteration order

  datatype VolumeMount = VolumeMount(mountPath: string)

  datatype Variable = Variable(
    defaultValue: Option<string>,
    description: Option<string>,
    isOptional: Option<bool>)

  datatype Deploy = Deploy(healthcheckPath: Option<string>, startCommand: Option<string>)

  datatype Source =
    | Image(image: string)
    | Repo(rootDirectory: Option<string>, repo: string)

  datatype Service = Service(
    deploy: Option<Deploy>,
    icon: Option<string>,
    name: string,
    networking: Option<Networking>,
    source: Option<Source>,
    variables: map<string, Variable>,
    volumeMounts: seq<(string, VolumeMount)>)

  /** `services` as (service id, service) pairs in iteration order. */
  datatype Environment = Environment(services: seq<(string, Service)>)

  /** What a template's `serialized_config` JSON value turns out to be:
      JSON null, a value that does not deserialize into an environment, or
      an environment. */
  datatype RawConfig =
    | Null
    | Malformed(reason: string)
    | Wellformed(env: Environment)
}
