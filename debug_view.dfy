/**
 * The configuration screen of the cloud frontend: a list of role
 * configurations, each edited in place by an update-by-id.
 *
 * A configuration is a JavaScript object; its properties are modelled as a
 * map from property name to value, so that `{ ...config, [field]: value }`
 * is exactly a map update. Numbers are opaque.
 */
module DebugView {

  /** The properties of an `AIRoleConfig`. */
  datatype Field = Id | Name | SystemPrompt | Temperature | MaxTokens

  /** A property value: `string | number`. */
  datatype Value = Str(text: string) | Num(number: real)

  type RoleConfig = map<Field, Value>

  /** A configuration with all five properties, as the screen creates them. */
  function Config(id: string, name: string, systemPrompt: string, temperature: real, maxTokens: real): RoleConfig {
    map[Id := Str(id), Name := Str(name), SystemPrompt := Str(systemPrompt),
        Temperature := Num(temperature), MaxTokens := Num(maxTokens)]
  }

  /** The two configurations the screen starts with. */
  function InitialConfigs(): seq<RoleConfig> {
    [Config("1", "Assistant", "You are a helpful AI assistant...", 0.7, 2000.0),
     Config("2", "Analyst", "You are an AI analyst...", 0.5, 4000.0)]
  }

  /** `config.id === id`: strict equality fails for an absent or numeric id. */
  predicate HasId(config: RoleConfig, id: string) {
    Id in config && config[Id] == Str(id)
  }

  /** No two configurations share an id. */
  predicate UniqueIds(configs: seq<RoleConfig>) {
    forall i, j :: 0 <= i < j < |configs| && Id in configs[i] && Id in configs[j] ==> configs[i][Id] != configs[j][Id]
  }

  /** The starting ids are "1" and "2", so each names exactly one configuration. */
  lemma InitialConfigsShape()
    ensures |InitialConfigs()| == 2
    ensures HasId(InitialConfigs()[0], "1") && HasId(InitialConfigs()[1], "2")
    ensures UniqueIds(InitialConfigs())
  {
  }

  /** One element of the `map`: the matching configuration gets the new value, any other is kept. */
  function ChangeOne(config: RoleConfig, id: string, field: Field, value: Value): RoleConfig {
    if HasId(config, id) then config[field := value] else config
  }

  /**
   * `handleConfigChange(id, field, value)` applied to the list `configs`:
   * same length, an entry with another id untouched, an entry with the id
   * holding the new value.
   */
  function HandleConfigChange(configs: seq<RoleConfig>, id: string, field: Field, value: Value): (r: seq<RoleConfig>)
    ensures |r| == |configs|
    ensures forall i :: 0 <= i < |r| && !HasId(configs[i], id) ==> r[i] == configs[i]
    ensures forall i :: 0 <= i < |r| && HasId(configs[i], id) ==> field in r[i] && r[i][field] == value
  {
    seq(|configs|, i requires 0 <= i < |configs| => ChangeOne(configs[i], id, field, value))
  }

  /**
   * The list keeps its length and order; an entry with another id is
   * unchanged; an entry with the id gets `field := value` and keeps every
   * other property.
   */
  lemma ConfigChangeEffect(configs: seq<RoleConfig>, id: string, field: Field, value: Value)
    ensures var r := HandleConfigChange(configs, id, field, value);
      && |r| == |configs|
      && (forall i :: 0 <= i < |r| && !HasId(configs[i], id) ==> r[i] == configs[i])
      && (forall i :: 0 <= i < |r| && HasId(configs[i], id) ==>
            && field in r[i] && r[i][field] == value
            && r[i].Keys == configs[i].Keys + {field}
            && forall f :: f in configs[i] && f != field ==> r[i][f] == configs[i][f])
  {
  }

  /** When no entry has the id, the list is unchanged. */
  lemma ConfigChangeNoMatch(configs: seq<RoleConfig>, id: string, field: Field, value: Value)
    requires forall i :: 0 <= i < |configs| ==> !HasId(configs[i], id)
    ensures HandleConfigChange(configs, id, field, value) == configs
  {
    var r := HandleConfigChange(configs, id, field, value);
    assert forall i :: 0 <= i < |r| ==> r[i] == configs[i];
  }

  /** Applying the same change twice is applying it once. */
  lemma ConfigChangeIdempotent(configs: seq<RoleConfig>, id: string, field: Field, value: Value)
    ensures var once := HandleConfigChange(configs, id, field, value);
      HandleConfigChange(once, id, field, value) == once
  {
    var once := HandleConfigChange(configs, id, field, value);
    var twice := HandleConfigChange(once, id, field, value);
    forall i | 0 <= i < |once|
      ensures twice[i] == once[i]
    {
      if HasId(once[i], id) {
        assert HasId(configs[i], id);
      }
    }
  }

  /** With unique ids, a change to the id of entry `k` changes entry `k` alone. */
  lemma ConfigChangeUnique(configs: seq<RoleConfig>, k: nat, field: Field, value: Value)
    requires UniqueIds(configs) && k < |configs| && Id in configs[k] && configs[k][Id].Str?
    ensures var id := configs[k][Id].text;
      var r := HandleConfigChange(configs, id, field, value);
      && r[k] == configs[k][field := value]
      && forall i :: 0 <= i < |configs| && i != k ==> r[i] == configs[i]
  {
    var id := configs[k][Id].text;
    var r := HandleConfigChange(configs, id, field, value);
    forall i | 0 <= i < |configs| && i != k
      ensures r[i] == configs[i]
    {
      if HasId(configs[i], id) {
        assert false;
      }
    }
  }
}
