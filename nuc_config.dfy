/** The NUC target. As written its constructor passes `self` explicitly to the
    bound base constructor, which therefore receives four positional arguments
    and raises `TypeError` before any override runs; the overrides it was meant
    to apply are modelled separately. */
module NucConfig {
  import opened Wrappers
  import opened Errors
  import opened ConfigModels

  /** The message the faulty base call raises with. */
  const NucInitError: Error := TypeError("Config.__init__() takes 3 positional arguments but 4 were given")

  /** `NucConfig(root_auth_keys, user_auth_keys)` as written: the base call
      `super().__init__(self, root_auth_keys, user_auth_keys)` has four
      positional arguments, so it raises and the assignments after it (the
      ones `ApplyNuc` makes) are never reached. */
  method NewNucConfig(rootKeys: seq<string>, userKeys: seq<string>, rootSalt: nat, userSalt: nat)
    returns (r: Result<Config, Error>)
    ensures r == Failure(NucInitError)
  {
    ConfigInitBindingFour();
    r := InitConfig(4, rootKeys, userKeys, rootSalt, userSalt);
  }

  /** The assignments the NUC constructor was meant to make after the base
      constructor: host name, debugging, and the wired interface. */
  function NucOverrides(c: ConfigValue): ConfigValue {
    c.(hostname := "nuc", debug := true, network := c.network.(ethernetInterfaceId := "enp3s0"))
  }

  /** The intended overrides keep the invariant and change nothing but the
      host name, debugging and the interface name; on the base configuration
      the interface name is already `enp3s0`, so the network stays the default. */
  lemma NucOverridesFacts(c: ConfigValue)
    requires WellFormed(c)
    ensures var n := NucOverrides(c);
      && WellFormed(n)
      && n.hostname == "nuc" && n.debug
      && n.network == c.network.(ethernetInterfaceId := "enp3s0")
      && n.(hostname := c.hostname, debug := c.debug, network := c.network) == c
  {
  }

  lemma NucOverridesOnBase(rootKeys: seq<string>, userKeys: seq<string>, rootSalt: nat, userSalt: nat)
    ensures NucOverrides(BaseConfig(rootKeys, userKeys, rootSalt, userSalt))
         == BaseConfig(rootKeys, userKeys, rootSalt, userSalt).(hostname := "nuc", debug := true)
    ensures NucOverrides(BaseConfig(rootKeys, userKeys, rootSalt, userSalt)).network == DefaultNetworkConfig()
  {
  }

  /** The NUC configuration as intended, as values. */
  function NucValue(rootKeys: seq<string>, userKeys: seq<string>, rootSalt: nat, userSalt: nat): ConfigValue {
    NucOverrides(BaseConfig(rootKeys, userKeys, rootSalt, userSalt))
  }

  method ApplyNuc(c: Config)
    modifies c
    ensures c.Value() == NucOverrides(old(c.Value()))
    ensures c.rootUser == old(c.rootUser) && c.users == old(c.users)
  {
    c.hostname := "nuc";
    c.debug := true;
    c.network := c.network.(ethernetInterfaceId := "enp3s0");
  }

  /** The NUC constructor with the base call written `super().__init__(root_auth_keys,
      user_auth_keys)`: three positional arguments, so the overrides run. */
  method NewNucConfigIntended(rootKeys: seq<string>, userKeys: seq<string>, rootSalt: nat, userSalt: nat)
    returns (r: Result<Config, Error>)
    ensures r.Success? && fresh(r.value)
    ensures r.value.Value() == NucValue(rootKeys, userKeys, rootSalt, userSalt)
  {
    r := InitConfig(3, rootKeys, userKeys, rootSalt, userSalt);
    if r.Success? {
      ApplyNuc(r.value);
    }
  }
}
