/**
 * The Nacos config client's local rules (configcenter/nacos_load.go): the
 * empty-server guard, the request-parameter defaults, and the slot holding
 * the last remote snapshot that parsed. The Nacos SDK and the YAML parser
 * are parameters.
 */
module ConfigCenter {
  import opened Wrappers
  import opened Model

  const KeyDataId := "dataId"
  const KeyGroup := "group"
  const DefaultDataId := "pixiu.yaml"
  const DefaultGroup := "DEFAULT_GROUP"
  const NoServerMessage := "no Nacos server configured"

  /** A connected SDK config client, known only by its identity. */
  datatype ClientHandle = ClientHandle(id: nat)

  /** The dataId and group of a GetConfig or ListenConfig request. */
  datatype ConfigParam = ConfigParam(dataId: string, group: string)

  /** `getOrDefault`: the target unless it is empty, then the fallback. */
  function GetOrDefault(target: string, fallback: string): (r: string)
    ensures r == target || r == fallback
    ensures |target| > 0 ==> r == target
    ensures |target| == 0 ==> r == fallback
  {
    if |target| == 0 then fallback else target
  }

  /** Defaulting twice is defaulting once. */
  lemma GetOrDefaultIdempotent(target: string, fallback: string)
    ensures GetOrDefault(GetOrDefault(target, fallback), fallback) == GetOrDefault(target, fallback)
  {
  }

  /**
   * The request parameters `LoadConfig` and `ListenConfig` send: the given
   * dataId and group, each replaced by its default when empty. The source
   * asserts both entries to be strings, so both must be present.
   */
  function RequestParam(param: map<string, string>): (p: ConfigParam)
    requires KeyDataId in param && KeyGroup in param
    ensures p.dataId != "" && p.group != ""
    ensures param[KeyDataId] != "" ==> p.dataId == param[KeyDataId]
    ensures param[KeyDataId] == "" ==> p.dataId == DefaultDataId
    ensures param[KeyGroup] != "" ==> p.group == param[KeyGroup]
    ensures param[KeyGroup] == "" ==> p.group == DefaultGroup
  {
    ConfigParam(GetOrDefault(param[KeyDataId], DefaultDataId), GetOrDefault(param[KeyGroup], DefaultGroup))
  }

  /** NacosConfig: the SDK client and the last remote snapshot that parsed. */
  class NacosConfig {
    const client: ClientHandle
    var remoteConfig: Option<Bootstrap>

    constructor (client: ClientHandle)
      ensures this.client == client && remoteConfig == None
    {
      this.client := client;
      remoteConfig := None;
    }

    /**
     * `onChange`: empty data, or data that `parse` (the ".yml" parser)
     * rejects, leave the slot alone; otherwise the slot holds the parsed
     * snapshot.
     */
    method OnChange(namespace: string, group: string, dataId: string, data: string,
                    parse: string -> Result<Bootstrap, string>)
      modifies this
      ensures data == "" ==> remoteConfig == old(remoteConfig)
      ensures data != "" && parse(data).Failure? ==> remoteConfig == old(remoteConfig)
      ensures data != "" && parse(data).Success? ==> remoteConfig == Some(parse(data).value)
    {
      if |data| == 0 {
        return;
      }
      var boot := parse(data);
      if boot.Failure? {
        return;
      }
      remoteConfig := Some(boot.value);
    }

    /** `ViewConfig`: the current slot, read without changing it. */
    method ViewConfig() returns (r: Option<Bootstrap>)
      ensures r == remoteConfig
    {
      r := remoteConfig;
    }
  }

  /**
   * `NewNacosConfig`: an empty server list fails before any client is made;
   * otherwise `connect` (the SDK's client constructor) decides, and a
   * client that connects starts with an empty slot.
   */
  method NewNacosConfig(boot: Bootstrap, connect: Bootstrap -> Result<ClientHandle, string>)
    returns (r: Result<NacosConfig, string>)
    ensures boot.nacos.serverConfigs == [] ==> r == Failure(NoServerMessage)
    ensures boot.nacos.serverConfigs != [] && connect(boot).Failure? ==> r == Failure(connect(boot).error)
    ensures boot.nacos.serverConfigs != [] && connect(boot).Success? ==>
              r.Success? && fresh(r.value) && r.value.client == connect(boot).value && r.value.remoteConfig == None
  {
    if |boot.nacos.serverConfigs| == 0 {
      return Failure(NoServerMessage);
    }
    var client := connect(boot);
    if client.Failure? {
      return Failure(client.error);
    }
    var n := new NacosConfig(client.value);
    return Success(n);
  }
}
