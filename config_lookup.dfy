/** `get_config`: the target name selects a configuration variant, and the two
    key lists are handed to its constructor unchanged. */
module ConfigLookup {
  import opened Wrappers
  import opened Errors
  import opened ConfigModels
  import opened ThinkpadConfig
  import opened NucConfig

  /** The message of the exception for a target without a configuration. */
  function UnknownTargetMessage(name: string): string {
    "No config implemented for " + name
  }

  /** What `get_config(name, root_keys, user_keys)` yields, as values: the NUC
      constructor fails in its base call, the ThinkPad one succeeds, and any
      other name raises `ConfigException`. */
  function SelectConfig(name: string, rootKeys: seq<string>, userKeys: seq<string>, rootSalt: nat, userSalt: nat)
    : Result<ConfigValue, Error>
  {
    if name == "nuc" then
      (match ConfigInitBinding(4)
       case Fail(e) => Failure(e)
       case Pass => Success(NucValue(rootKeys, userKeys, rootSalt, userSalt)))
    else if name == "thinkpad" then
      (match ConfigInitBinding(3)
       case Fail(e) => Failure(e)
       case Pass => Success(ThinkpadValue(rootKeys, userKeys, rootSalt, userSalt)))
    else Failure(ConfigException(UnknownTargetMessage(name)))
  }

  /** Only `thinkpad` yields a configuration. `nuc` fails with the argument
      binding error, any other name with `ConfigException` naming it; a
      configuration that is returned carries the two key lists unchanged and
      keeps the configuration invariant. */
  lemma SelectConfigOutcome(name: string, rootKeys: seq<string>, userKeys: seq<string>, rootSalt: nat, userSalt: nat)
    ensures var r := SelectConfig(name, rootKeys, userKeys, rootSalt, userSalt);
      && (r.Success? <==> name == "thinkpad")
      && (name == "nuc" ==> r == Failure(NucInitError))
      && (name != "nuc" && name != "thinkpad" ==> r == Failure(ConfigException("No config implemented for " + name)))
      && (r.Success? ==> r.value.rootUser.authorizedKeys == rootKeys && |r.value.users| == 1
                         && r.value.users[0].authorizedKeys == userKeys && WellFormed(r.value))
  {
    ConfigInitBindingFour();
    BaseConfigFacts(rootKeys, userKeys, rootSalt, userSalt);
    if name == "thinkpad" {
      ThinkpadOverridesFacts(BaseConfig(rootKeys, userKeys, rootSalt, userSalt));
    }
  }

  /** `get_config`: constructs the selected variant. */
  method GetConfig(name: string, rootKeys: seq<string>, userKeys: seq<string>, rootSalt: nat, userSalt: nat)
    returns (r: Result<Config, Error>)
    ensures r.Failure? <==> SelectConfig(name, rootKeys, userKeys, rootSalt, userSalt).Failure?
    ensures r.Failure? ==> r.error == SelectConfig(name, rootKeys, userKeys, rootSalt, userSalt).error
    ensures r.Success? ==> fresh(r.value) && r.value.Value() == SelectConfig(name, rootKeys, userKeys, rootSalt, userSalt).value
  {
    if name == "nuc" {
      ConfigInitBindingFour();
      r := NewNucConfig(rootKeys, userKeys, rootSalt, userSalt);
    } else if name == "thinkpad" {
      r := NewThinkpadConfig(rootKeys, userKeys, rootSalt, userSalt);
    } else {
      r := Failure(ConfigException(UnknownTargetMessage(name)));
    }
  }

  /** `get_config` with the NUC constructor's base call corrected. */
  function SelectConfigIntended(name: string, rootKeys: seq<string>, userKeys: seq<string>, rootSalt: nat, userSalt: nat)
    : Result<ConfigValue, Error>
  {
    if name == "nuc" then Success(NucValue(rootKeys, userKeys, rootSalt, userSalt))
    else SelectConfig(name, rootKeys, userKeys, rootSalt, userSalt)
  }

  /** With the correction both targets yield a well-formed configuration with
      their own host name, the NUC one with debugging on; unknown names still
      raise `ConfigException`. */
  lemma SelectConfigIntendedOutcome(name: string, rootKeys: seq<string>, userKeys: seq<string>, rootSalt: nat, userSalt: nat)
    ensures var r := SelectConfigIntended(name, rootKeys, userKeys, rootSalt, userSalt);
      && (r.Success? <==> name == "nuc" || name == "thinkpad")
      && (r.Success? ==> WellFormed(r.value) && r.value.hostname == name)
      && (name == "nuc" ==> r.value.debug && r.value.network == DefaultNetworkConfig())
      && (name != "nuc" && name != "thinkpad" ==> r == Failure(ConfigException("No config implemented for " + name)))
  {
    BaseConfigFacts(rootKeys, userKeys, rootSalt, userSalt);
    if name == "nuc" {
      NucOverridesFacts(BaseConfig(rootKeys, userKeys, rootSalt, userSalt));
    } else {
      SelectConfigOutcome(name, rootKeys, userKeys, rootSalt, userSalt);
    }
  }

  /** The intended `get_config`: the NUC branch uses the corrected constructor. */
  method GetConfigIntended(name: string, rootKeys: seq<string>, userKeys: seq<string>, rootSalt: nat, userSalt: nat)
    returns (r: Result<Config, Error>)
    ensures r.Failure? <==> SelectConfigIntended(name, rootKeys, userKeys, rootSalt, userSalt).Failure?
    ensures r.Failure? ==> r.error == SelectConfigIntended(name, rootKeys, userKeys, rootSalt, userSalt).error
    ensures r.Success? ==> fresh(r.value) && r.value.Value() == SelectConfigIntended(name, rootKeys, userKeys, rootSalt, userSalt).value
  {
    if name == "nuc" {
      r := NewNucConfigIntended(rootKeys, userKeys, rootSalt, userSalt);
    } else {
      r := GetConfig(name, rootKeys, userKeys, rootSalt, userSalt);
    }
  }
}
