/** The example auth functions plugin, second version
    (`ckanext/example_iauthfunctions/plugin_v2.py`): group creation is
    refused to everyone. */
module ExampleIAuthFunctions {
  import opened PyValue

  /** The dictionary an auth function returns. */
  datatype AuthResult = AuthResult(success: bool, msg: string)

  const GroupCreateRefusal: string := "No one is allowed to create groups"

  /** `group_create`: refuses, whatever the context and the data dict. */
  function GroupCreate(context: Value, dataDict: Option<map<string, Value>>): (r: AuthResult)
    ensures !r.success
    ensures r.msg == "No one is allowed to create groups"
  {
    AuthResult(false, GroupCreateRefusal)
  }

  /** The answer depends on neither argument. */
  lemma GroupCreateIgnoresArguments(c1: Value, d1: Option<map<string, Value>>, c2: Value, d2: Option<map<string, Value>>)
    ensures GroupCreate(c1, d1) == GroupCreate(c2, d2)
  {
  }

  /** The auth functions the plugin can hand out. */
  datatype AuthFunction = GroupCreateFunction

  /** Run a registered auth function. */
  function Call(f: AuthFunction, context: Value, dataDict: Option<map<string, Value>>): AuthResult {
    match f
    case GroupCreateFunction => GroupCreate(context, dataDict)
  }

  /** `get_auth_functions`: overrides `group_create` and nothing else. */
  function GetAuthFunctions(): (r: map<string, AuthFunction>)
    ensures r.Keys == {"group_create"}
    ensures forall context, dataDict :: !Call(r["group_create"], context, dataDict).success
  {
    map["group_create" := GroupCreateFunction]
  }
}
