/** The configuration tree handed to the image templates: users with their
    password hashes, the setup scripts, the network, the emulator user and the
    package list, with the defaults every target starts from. */
module ConfigModels {
  import opened Wrappers
  import opened Errors
  import opened Text

  /** What `md5_crypt.hash(password)` returns, kept symbolic: the hash of
      `password` under the random `salt` the library draws for that call. */
  datatype CryptHash = Md5Crypt(password: string, salt: nat)

  /** `md5_crypt.verify(password, h)`: whether `h` was computed from `password`. */
  predicate Verifies(h: CryptHash, password: string) {
    h.password == password
  }

  /** The fields of a `User`, as `asdict` exposes them. */
  datatype UserValue = UserValue(name: string, password: string, passwordHash: Option<CryptHash>,
                                 libvirtUser: bool, authorizedKeys: seq<string>)

  datatype Script = Script(location: string, additionalSteps: seq<string>)

  datatype NetworkInterface = NetworkInterface(name: string, creationSteps: seq<string>)

  datatype NetworkConfig = NetworkConfig(interfaces: seq<NetworkInterface>, ethernetInterfaceId: string,
                                         cidrRange: string)

  datatype QemuUser = QemuUser(name: string, group: string)

  datatype QemuConfig = QemuConfig(user: QemuUser)

  datatype AptConfig = AptConfig(packages: seq<string>, update: bool, upgrade: bool)

  /** The fields of a `Config`, as `asdict` exposes them to the templates. */
  datatype ConfigValue = ConfigValue(hostname: string, rootUser: UserValue, users: seq<UserValue>,
                                     script: map<string, Script>, network: NetworkConfig,
                                     qemu: QemuConfig, apt: AptConfig, debug: bool)

  // ---------------------------------------------------------------------------
  // Defaults of the records

  /** `Script()` with an explicit location: no additional steps. */
  function ScriptAt(location: string): Script {
    Script(location, [])
  }

  function DefaultNetworkConfig(): NetworkConfig {
    NetworkConfig([], "enp3s0", "192.168.1.80/28")
  }

  function DefaultQemuConfig(): QemuConfig {
    QemuConfig(QemuUser("root", "root"))
  }

  /** The packages installed on every target, in the order they are listed. */
  const DefaultPackages: seq<string> := [
    "openssh-server", "avahi-daemon", "sudo", "build-essential", "zlib1g-dev",
    "libncurses5-dev", "libgdbm-dev", "libnss3-dev", "libssl-dev", "libreadline-dev",
    "libffi-dev", "libsqlite3-dev", "wget", "libbz2-dev", "python3",
    "libvirt-clients", "bridge-utils", "libvirt-daemon-system", "virt-manager"
  ]

  function DefaultAptConfig(): AptConfig {
    AptConfig(DefaultPackages, true, true)
  }

  /** No element occurs twice. */
  predicate Distinct(xs: seq<string>) {
    forall i, j :: 0 <= i < j < |xs| ==> xs[i] != xs[j]
  }

  /** The package list has nineteen entries, from `openssh-server` to
      `virt-manager`, none of them twice, so apt is asked for each package once. */
  lemma DefaultPackagesDistinct()
    ensures |DefaultPackages| == 19
    ensures DefaultPackages[0] == "openssh-server" && DefaultPackages[18] == "virt-manager"
    ensures Distinct(DefaultPackages)
  {
  }

  // ---------------------------------------------------------------------------
  // Users

  /** A user whose password hash is kept in step with the password. */
  class User {
    var name: string
    var password: string
    var passwordHash: Option<CryptHash>
    var libvirtUser: bool
    var authorizedKeys: seq<string>

    function Value(): UserValue
      reads this
    {
      UserValue(name, password, passwordHash, libvirtUser, authorizedKeys)
    }

    /** The stored hash was computed from the current password. */
    predicate HashCurrent()
      reads this
    {
      passwordHash.Some? && Verifies(passwordHash.value, password)
    }

    /** `User(name, password, libvirt_user, authorized_keys)`; the hash field
        starts out as `None` and `__post_init__` fills it in, under the salt
        `salt` drawn by the hash function. */
    constructor(salt: nat, name: string := "debian", password: string := "debian",
                libvirtUser: bool := true, authorizedKeys: seq<string> := [])
      ensures Value() == UserValue(name, password, Some(Md5Crypt(password, salt)), libvirtUser, authorizedKeys)
      ensures HashCurrent()
    {
      this.name := name;
      this.password := password;
      this.passwordHash := None;
      this.libvirtUser := libvirtUser;
      this.authorizedKeys := authorizedKeys;
      new;
      UpdatePasswordHash(salt);
    }

    /** `_update_password_hash`: hashes the current password under a fresh salt. */
    method UpdatePasswordHash(salt: nat)
      modifies this
      ensures Value() == old(Value()).(passwordHash := Some(Md5Crypt(password, salt)))
      ensures HashCurrent()
    {
      passwordHash := Some(Md5Crypt(password, salt));
    }

    /** `set_password`: replaces the password and recomputes the hash; name,
        group membership and keys stay as they are. */
    method SetPassword(password: string, salt: nat)
      modifies this
      ensures Value() == old(Value()).(password := password, passwordHash := Some(Md5Crypt(password, salt)))
      ensures HashCurrent()
    {
      this.password := password;
      UpdatePasswordHash(salt);
    }
  }

  /** The value of `User(salt, name, password, authorized_keys=keys)` with `libvirt_user` left at its default. */
  function NewUserValue(name: string, password: string, keys: seq<string>, salt: nat): UserValue {
    UserValue(name, password, Some(Md5Crypt(password, salt)), true, keys)
  }

  /** What `set_password` does to a user's fields. */
  function WithPassword(u: UserValue, password: string, salt: nat): (r: UserValue)
    ensures r.password == password && UserHashCurrent(r)
    ensures r.name == u.name && r.libvirtUser == u.libvirtUser && r.authorizedKeys == u.authorizedKeys
  {
    u.(password := password, passwordHash := Some(Md5Crypt(password, salt)))
  }

  predicate UserHashCurrent(u: UserValue) {
    u.passwordHash.Some? && Verifies(u.passwordHash.value, u.password)
  }

  /** A user's hash verifies only the password it was computed from: after a
      password change the old password no longer verifies. */
  lemma NewPasswordOnly(u: UserValue, password: string, salt: nat)
    requires password != u.password
    ensures !Verifies(WithPassword(u, password, salt).passwordHash.value, u.password)
    ensures Verifies(WithPassword(u, password, salt).passwordHash.value, password)
  {
  }

  // ---------------------------------------------------------------------------
  // The configuration

  /** The values of a list of users. */
  function UserValues(us: seq<User>): (r: seq<UserValue>)
    reads us
    ensures |r| == |us|
    ensures forall i :: 0 <= i < |us| ==> r[i] == us[i].Value()
  {
    if us == [] then [] else [us[0].Value()] + UserValues(us[1..])
  }

  /** The two setup scripts of every target. */
  function BaseScripts(): map<string, Script> {
    map["preseed" := ScriptAt("/root/preseed-setup.sh"), "firstboot" := ScriptAt("/root/firstboot-setup.sh")]
  }

  /** The configuration `Config(root_keys, user_keys)` builds; the two salts are
      those the hash function draws for the root user and for `debian`. */
  function BaseConfig(rootKeys: seq<string>, userKeys: seq<string>, rootSalt: nat, userSalt: nat): ConfigValue {
    ConfigValue("hostname", NewUserValue("root", "root", rootKeys, rootSalt),
                [NewUserValue("debian", "debian", userKeys, userSalt)], BaseScripts(),
                DefaultNetworkConfig(), DefaultQemuConfig(), DefaultAptConfig(), false)
  }

  /** What every configuration keeps: each user's hash belongs to its current
      password, there are exactly the two setup scripts, and no package is
      listed twice. */
  predicate WellFormed(c: ConfigValue) {
    && UserHashCurrent(c.rootUser)
    && (forall i :: 0 <= i < |c.users| ==> UserHashCurrent(c.users[i]))
    && c.script.Keys == {"preseed", "firstboot"}
    && Distinct(c.apt.packages)
  }

  /** The base configuration: root with password `root` and the root keys, one
      user `debian` with password `debian` and the user keys, host name
      `hostname`, no debugging, the two scripts without extra steps, and the
      default network, emulator user and packages. */
  lemma BaseConfigFacts(rootKeys: seq<string>, userKeys: seq<string>, rootSalt: nat, userSalt: nat)
    ensures var c := BaseConfig(rootKeys, userKeys, rootSalt, userSalt);
      && WellFormed(c)
      && c.rootUser.name == "root" && c.rootUser.password == "root" && c.rootUser.authorizedKeys == rootKeys
      && |c.users| == 1 && c.users[0].name == "debian" && c.users[0].password == "debian"
      && c.users[0].authorizedKeys == userKeys
      && c.script["preseed"] == Script("/root/preseed-setup.sh", [])
      && c.script["firstboot"] == Script("/root/firstboot-setup.sh", [])
      && c.network.interfaces == [] && c.network.ethernetInterfaceId == "enp3s0"
      && c.network.cidrRange == "192.168.1.80/28"
      && c.hostname == "hostname" && !c.debug
      && c.qemu.user.name == "root" && c.qemu.user.group == "root"
      && c.apt.update && c.apt.upgrade && c.apt.packages == DefaultPackages
  {
    DefaultPackagesDistinct();
  }

  /** The configuration object; its fields are reassigned by the target variants. */
  class Config {
    var hostname: string
    var rootUser: User
    var users: seq<User>
    var script: map<string, Script>
    var network: NetworkConfig
    var qemu: QemuConfig
    var apt: AptConfig
    var debug: bool

    function Value(): ConfigValue
      reads this, rootUser, users
    {
      ConfigValue(hostname, rootUser.Value(), UserValues(users), script, network, qemu, apt, debug)
    }

    /** `Config.__init__(root_auth_keys, user_auth_keys)`: assigns every field,
        creating the root user and the one regular user. */
    constructor(rootKeys: seq<string>, userKeys: seq<string>, rootSalt: nat, userSalt: nat)
      ensures Value() == BaseConfig(rootKeys, userKeys, rootSalt, userSalt)
      ensures fresh(rootUser) && |users| == 1 && fresh(users[0])
    {
      hostname := "hostname";
      rootUser := new User(rootSalt, name := "root", password := "root", authorizedKeys := rootKeys);
      var debian := new User(userSalt, name := "debian", password := "debian", authorizedKeys := userKeys);
      users := [debian];
      script := BaseScripts();
      network := DefaultNetworkConfig();
      qemu := DefaultQemuConfig();
      apt := DefaultAptConfig();
      debug := false;
    }
  }

  // ---------------------------------------------------------------------------
  // Calling the base constructor

  /** Python's argument binding for a call of `Config.__init__(self,
      root_auth_keys, user_auth_keys)` with `positional` positional arguments,
      `self` included: exactly three are accepted, more or fewer raise
      `TypeError` before the body runs. */
  function ConfigInitBinding(positional: nat): Outcome<Error> {
    if positional == 3 then Pass else Fail(TypeError(BindingMessage(positional)))
  }

  /** The message of that `TypeError`, for too many or too few arguments. */
  function BindingMessage(positional: nat): string {
    if positional > 3 then
      "Config.__init__() takes 3 positional arguments but " + NatToString(positional) + " were given"
    else if positional == 2 then
      "Config.__init__() missing 1 required positional argument: 'user_auth_keys'"
    else if positional == 1 then
      "Config.__init__() missing 2 required positional arguments: 'root_auth_keys' and 'user_auth_keys'"
    else
      "Config.__init__() missing 3 required positional arguments: 'self', 'root_auth_keys', and 'user_auth_keys'"
  }

  /** One argument too many: the message Python gives for four positional arguments. */
  lemma ConfigInitBindingFour()
    ensures ConfigInitBinding(4) == Fail(TypeError("Config.__init__() takes 3 positional arguments but 4 were given"))
  {
    assert NatToString(4) == "4" by {
      assert DigitChar(4) == '4';
    }
    assert "Config.__init__() takes 3 positional arguments but " + "4" + " were given"
        == "Config.__init__() takes 3 positional arguments but 4 were given";
  }

  /** `super().__init__(...)` from a target variant with `positional`
      positional arguments (the bound `self` included). */
  method InitConfig(positional: nat, rootKeys: seq<string>, userKeys: seq<string>, rootSalt: nat, userSalt: nat)
    returns (r: Result<Config, Error>)
    ensures ConfigInitBinding(positional).Fail? ==> r == Failure(ConfigInitBinding(positional).error)
    ensures ConfigInitBinding(positional).Pass? ==>
      r.Success? && fresh(r.value) && fresh(r.value.rootUser) && |r.value.users| == 1 && fresh(r.value.users[0])
      && r.value.Value() == BaseConfig(rootKeys, userKeys, rootSalt, userSalt)
  {
    var binding := ConfigInitBinding(positional);
    if binding.Fail? {
      return Failure(binding.error);
    }
    var c := new Config(rootKeys, userKeys, rootSalt, userSalt);
    return Success(c);
  }
}
