/**
 * pgcrypto/constants.py: settings read from the environment or from Django
 * settings under a "DEFF_" prefix, and the conversion of the salt setting
 * to bytes that runs when the module is imported.
 */
module Constants {
  import opened Wrappers
  import opened Py
  import Utf8

  const SettingPrefix: string := "DEFF_"

  /** "DEFF_{}".format(name) */
  function SettingName(name: string): (r: string)
    ensures |r| == |SettingPrefix| + |name| && r[..|SettingPrefix|] == SettingPrefix
    ensures r[|SettingPrefix|..] == name
  {
    SettingPrefix + name
  }

  /**
   * _get_setting(name): os.getenv("DEFF_" + name, getattr(settings, "DEFF_" + name, None)).
   * env is the process environment (strings only); settings are Django's.
   */
  function GetSetting(env: map<string, string>, settings: map<string, PyValue>, name: string): (r: PyValue)
    ensures SettingName(name) in env ==> r == PyStr(env[SettingName(name)])
    ensures SettingName(name) !in env && SettingName(name) in settings ==> r == settings[SettingName(name)]
    ensures SettingName(name) !in env && SettingName(name) !in settings ==> r == PyNone
  {
    var key := SettingName(name);
    var fallback := if key in settings then settings[key] else PyNone;
    if key in env then PyStr(env[key]) else fallback
  }

  /** An environment variable wins: what settings hold under the name no longer matters. */
  lemma EnvironmentWins(env: map<string, string>, s1: map<string, PyValue>, s2: map<string, PyValue>, name: string)
    requires SettingName(name) in env
    ensures GetSetting(env, s1, name) == GetSetting(env, s2, name) == PyStr(env[SettingName(name)])
  {
  }

  /** Only the prefixed entries count: other names in either source never change the result. */
  lemma OnlyPrefixedNameMatters(env1: map<string, string>, env2: map<string, string>,
                                s1: map<string, PyValue>, s2: map<string, PyValue>, name: string)
    requires (SettingName(name) in env1) == (SettingName(name) in env2)
    requires SettingName(name) in env1 ==> env1[SettingName(name)] == env2[SettingName(name)]
    requires (SettingName(name) in s1) == (SettingName(name) in s2)
    requires SettingName(name) in s1 ==> s1[SettingName(name)] == s2[SettingName(name)]
    ensures GetSetting(env1, s1, name) == GetSetting(env2, s2, name)
  {
  }

  /**
   * get_bytes(v): a str becomes its UTF-8 bytes, bytes pass unchanged, and
   * anything else raises TypeError.
   */
  function GetBytes(v: PyValue): (r: Result<seq<byte>, PyError>)
    ensures r.Success? <==> v.PyStr? || v.PyBytes?
    ensures r.Failure? ==> r.error == TypeError
    ensures v.PyBytes? ==> r == Success(v.b)
    ensures v.PyStr? ==> Utf8.Decode(r.value) == Some(v.s)
  {
    match v
    case PyStr(s) => Utf8.DecodeEncode(s); Success(Utf8.Encode(s))
    case PyBytes(b) => Success(b)
    case _ => Failure(TypeError)
  }

  /** get_bytes is idempotent: its result, passed back in as bytes, comes out unchanged. */
  lemma GetBytesIdempotent(v: PyValue)
    requires GetBytes(v).Success?
    ensures GetBytes(PyBytes(GetBytes(v).value)) == GetBytes(v)
  {
  }

  /** Two different strings never convert to the same bytes. */
  lemma GetBytesInjectiveOnText(s: string, t: string)
    requires GetBytes(PyStr(s)) == GetBytes(PyStr(t))
    ensures s == t
  {
    Utf8.DecodeEncode(s);
    Utf8.DecodeEncode(t);
  }

  /** The module-level constants, computed when constants.py is imported. */
  datatype ModuleConstants = ModuleConstants(salt: seq<byte>, fetchUrlName: PyValue, redisHost: PyValue, redisPort: PyValue)

  /**
   * Importing constants.py: SALT = get_bytes(_get_setting("SALT")) raises
   * TypeError unless DEFF_SALT is a str or bytes; the other three are read as they are.
   */
  function LoadConstants(env: map<string, string>, settings: map<string, PyValue>): (r: Result<ModuleConstants, PyError>)
    ensures r.Success? <==> GetBytes(GetSetting(env, settings, "SALT")).Success?
    ensures r.Failure? ==> r.error == TypeError
    ensures r.Success? ==> r.value.salt == GetBytes(GetSetting(env, settings, "SALT")).value
  {
    match GetBytes(GetSetting(env, settings, "SALT"))
    case Failure(e) => Failure(e)
    case Success(salt) =>
      Success(ModuleConstants(salt, GetSetting(env, settings, "FETCH_URL_NAME"),
                              GetSetting(env, settings, "REDIS_HOST"), GetSetting(env, settings, "REDIS_PORT")))
  }

  /** With DEFF_SALT set in neither place the import fails with TypeError. */
  lemma MissingSaltFailsImport(env: map<string, string>, settings: map<string, PyValue>)
    requires SettingName("SALT") !in env && SettingName("SALT") !in settings
    ensures LoadConstants(env, settings) == Failure(TypeError)
  {
  }

  /** A salt given in the environment is used as its UTF-8 bytes, whatever settings say. */
  lemma SaltFromEnvironment(env: map<string, string>, settings: map<string, PyValue>)
    requires SettingName("SALT") in env
    ensures LoadConstants(env, settings).Success?
    ensures LoadConstants(env, settings).value.salt == Utf8.Encode(env[SettingName("SALT")])
  {
  }
}
