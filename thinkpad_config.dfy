/** The ThinkPad target: the base configuration with its own host name, a
    preseed step that keeps the machine running with the lid closed, and its
    wired interface. */
module ThinkpadConfig {
  import opened Wrappers
  import opened Errors
  import opened ConfigModels

  /** The two lines appended to the preseed script, in this order. */
  const LidSwitchSteps: seq<string> := [
    "echo 'HandleLidSwitch=ignore' >> /etc/systemd/logind.conf",
    "echo 'HandleLidSwitchDocked=ignore' >> /etc/systemd/logind.conf"
  ]

  /** The assignments the ThinkPad constructor makes after the base constructor. */
  function ThinkpadOverrides(c: ConfigValue): ConfigValue
    requires "preseed" in c.script
  {
    c.(hostname := "thinkpad",
       script := c.script["preseed" := c.script["preseed"].(additionalSteps := LidSwitchSteps)],
       network := c.network.(ethernetInterfaceId := "enp0s25"))
  }

  /** Only the host name, the preseed steps and the interface name change; the
      other script, the users and their keys, debugging, the address range and
      the packages are those of the configuration the overrides start from, and
      the invariant of the configuration is kept. */
  lemma ThinkpadOverridesFacts(c: ConfigValue)
    requires WellFormed(c)
    ensures var t := ThinkpadOverrides(c);
      && WellFormed(t)
      && t.hostname == "thinkpad"
      && t.script["preseed"] == c.script["preseed"].(additionalSteps := LidSwitchSteps)
      && t.script["firstboot"] == c.script["firstboot"]
      && t.network == c.network.(ethernetInterfaceId := "enp0s25")
      && t.(hostname := c.hostname, script := c.script, network := c.network) == c
  {
    var t := ThinkpadOverrides(c);
    assert t.script.Keys == c.script.Keys;
  }

  /** The ThinkPad configuration, as values. */
  function ThinkpadValue(rootKeys: seq<string>, userKeys: seq<string>, rootSalt: nat, userSalt: nat): ConfigValue {
    ThinkpadOverrides(BaseConfig(rootKeys, userKeys, rootSalt, userSalt))
  }

  /** The field assignments of `ThinkpadConfig.__init__` after the base
      constructor: they replace the preseed script's steps inside the script
      map and the interface name inside the network record. */
  method ApplyThinkpad(c: Config)
    requires "preseed" in c.script
    modifies c
    ensures c.Value() == ThinkpadOverrides(old(c.Value()))
    ensures c.rootUser == old(c.rootUser) && c.users == old(c.users)
  {
    c.hostname := "thinkpad";
    c.script := c.script["preseed" := c.script["preseed"].(additionalSteps := LidSwitchSteps)];
    c.network := c.network.(ethernetInterfaceId := "enp0s25");
  }

  /** `ThinkpadConfig(root_auth_keys, user_auth_keys)`: the base constructor is
      called with the two lists (three positional arguments with `self`), then
      the overrides are applied. */
  method NewThinkpadConfig(rootKeys: seq<string>, userKeys: seq<string>, rootSalt: nat, userSalt: nat)
    returns (r: Result<Config, Error>)
    ensures r.Success? && fresh(r.value)
    ensures r.value.Value() == ThinkpadValue(rootKeys, userKeys, rootSalt, userSalt)
  {
    r := InitConfig(3, rootKeys, userKeys, rootSalt, userSalt);
    if r.Success? {
      ApplyThinkpad(r.value);
    }
  }
}
