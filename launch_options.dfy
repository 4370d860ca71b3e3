/** The command-line options a spawned remote process is launched with:
    single-letter keys filled from an Object and a Config. */
module LaunchOptions {
  import opened Values
  import NumberText

  /** The option keys, one per letter the child process is given. */
  datatype Key = L | C | R | I | V | U | G | P | S | D | A | M

  /** The letter each key is passed as on the command line. */
  function Letter(k: Key): char {
    match k
    case L => 'l' case C => 'c' case R => 'r' case I => 'i'
    case V => 'v' case U => 'u' case G => 'g' case P => 'p'
    case S => 's' case D => 'd' case A => 'a' case M => 'm'
  }

  /** Each key is passed under a letter of its own. */
  lemma LetterInjective(a: Key, b: Key)
    ensures Letter(a) == Letter(b) <==> a == b
  {
  }

  /** A `Core::Process::Options`: the host application to run and its options. */
  datatype Options = Options(command: string, args: map<Key, string>)

  function UnlessEmpty(value: string): Option<string> {
    if value != [] then Some(value) else None
  }

  /** The option table: what each key is set to, or None when the key is
      left out. The locator, class name, connector and interface are always
      set; the version only when it is not `~0`; the rest only when non-empty. */
  function Entry(k: Key, instance: Object, config: Config): Option<string> {
    match k
    case L => Some(instance.locator)
    case C => Some(instance.className)
    case R => Some(config.connector)
    case I => Some(NumberText.Text(instance.interfaceId as nat))
    case V => VersionEntry(instance.version)
    case U => UnlessEmpty(instance.user)
    case G => UnlessEmpty(instance.group)
    case P => UnlessEmpty(config.persistentPath)
    case S => UnlessEmpty(config.systemPath)
    case D => UnlessEmpty(config.dataPath)
    case A => UnlessEmpty(config.applicationPath)
    case M => UnlessEmpty(config.proxyStubPath)
  }

  /** `-v` is passed only for a version other than `~0`. */
  function VersionEntry(version: u32): Option<string> {
    if version != Unspecified then Some(NumberText.Text(version as nat)) else None
  }

  /** The value of an optional key, empty when the key was left out. */
  function Optional(args: map<Key, string>, key: Key): string {
    if key in args then args[key] else []
  }

  /** Reads a decimal `uint32_t`. */
  function ReadNumber(text: string): Option<u32> {
    match NumberText.Parse(text)
    case Some(n) => if n < 0x1_0000_0000 then Some(n as u32) else None
    case None => None
  }

  /** The child side's reading of the Object part of the options. */
  function DecodeObject(args: map<Key, string>): Option<Object> {
    if L !in args || C !in args || I !in args then None
    else match (ReadNumber(args[I]), if V in args then ReadNumber(args[V]) else Some(Unspecified))
      case (Some(i), Some(v)) => Some(Object(args[L], args[C], i, v, Optional(args, U), Optional(args, G)))
      case _ => None
  }

  /** The child side's reading of the Config part of the options. */
  function DecodeConfig(options: Options): Option<Config> {
    var args := options.args;
    if R !in args then None
    else Some(Config(args[R], options.command, Optional(args, P), Optional(args, S),
                     Optional(args, D), Optional(args, A), Optional(args, M)))
  }

  /** The child side's reading of the options: the Object and Config they
      were built from, or None when a required key is missing or malformed. */
  function Decode(options: Options): Option<(Object, Config)> {
    match (DecodeObject(options.args), DecodeConfig(options))
    case (Some(instance), Some(config)) => Some((instance, config))
    case _ => None
  }

  /** `args` holds `entry` under `k`, or nothing when `entry` is None. */
  predicate Holds(args: map<Key, string>, k: Key, entry: Option<string>) {
    if entry.Some? then k in args && args[k] == entry.value else k !in args
  }

  /** The four entries every launch carries. */
  predicate RequiredHeld(args: map<Key, string>, instance: Object, config: Config) {
    && Holds(args, L, Some(instance.locator))
    && Holds(args, C, Some(instance.className))
    && Holds(args, R, Some(config.connector))
    && Holds(args, I, Some(NumberText.Text(instance.interfaceId as nat)))
  }

  /** The entries naming the version and the account to run under. */
  predicate IdentityHeld(args: map<Key, string>, instance: Object) {
    && Holds(args, V, VersionEntry(instance.version))
    && Holds(args, U, UnlessEmpty(instance.user))
    && Holds(args, G, UnlessEmpty(instance.group))
  }

  /** The entries naming the directories for stored data. */
  predicate StoragePathsHeld(args: map<Key, string>, config: Config) {
    && Holds(args, P, UnlessEmpty(config.persistentPath))
    && Holds(args, S, UnlessEmpty(config.systemPath))
    && Holds(args, D, UnlessEmpty(config.dataPath))
  }

  /** The entries naming the directories for code. */
  predicate CodePathsHeld(args: map<Key, string>, config: Config) {
    && Holds(args, A, UnlessEmpty(config.applicationPath))
    && Holds(args, M, UnlessEmpty(config.proxyStubPath))
  }

  /** Options holding exactly the table's entries for `instance` and `config`. */
  predicate Encodes(options: Options, instance: Object, config: Config) {
    && options.command == config.hostApplication
    && RequiredHeld(options.args, instance, config)
    && IdentityHeld(options.args, instance)
    && StoragePathsHeld(options.args, config)
    && CodePathsHeld(options.args, config)
  }

  /** Every key holds its table entry. */
  lemma EncodesEveryKey(options: Options, instance: Object, config: Config, k: Key)
    requires Encodes(options, instance, config)
    ensures Holds(options.args, k, Entry(k, instance, config))
  {
    match k
    case L => case C => case R => case I => case V => case U =>
    case G => case P => case S => case D => case A => case M =>
  }

  /** Which keys are set: the four required ones always, `-v` exactly when a
      version is given, and each string key exactly when its value is non-empty. */
  lemma KeysPresent(options: Options, instance: Object, config: Config)
    requires Encodes(options, instance, config)
    ensures L in options.args && C in options.args && R in options.args && I in options.args
    ensures V in options.args <==> instance.version != Unspecified
    ensures U in options.args <==> instance.user != []
    ensures G in options.args <==> instance.group != []
    ensures P in options.args <==> config.persistentPath != []
    ensures S in options.args <==> config.systemPath != []
    ensures D in options.args <==> config.dataPath != []
    ensures A in options.args <==> config.applicationPath != []
    ensures M in options.args <==> config.proxyStubPath != []
  {
  }

  /** A number read back from its text is the number itself. */
  lemma ReadNumberText(n: u32)
    ensures ReadNumber(NumberText.Text(n as nat)) == Some(n)
  {
    NumberText.ParseText(n as nat);
  }

  lemma DecodeObjectEncoded(options: Options, instance: Object, config: Config)
    requires Encodes(options, instance, config)
    ensures DecodeObject(options.args) == Some(instance)
  {
    ReadNumberText(instance.interfaceId);
    ReadNumberText(instance.version);
  }

  lemma DecodeConfigEncoded(options: Options, instance: Object, config: Config)
    requires Encodes(options, instance, config)
    ensures DecodeConfig(options) == Some(config)
  {
  }

  /** The child reads back exactly the Object and Config the options encode. */
  lemma DecodeEncoded(options: Options, instance: Object, config: Config)
    requires Encodes(options, instance, config)
    ensures Decode(options) == Some((instance, config))
  {
    DecodeObjectEncoded(options, instance, config);
    DecodeConfigEncoded(options, instance, config);
  }

  /** The options are determined by the Object and Config: two encodings agree. */
  lemma EncodingUnique(o1: Options, o2: Options, instance: Object, config: Config)
    requires Encodes(o1, instance, config) && Encodes(o2, instance, config)
    ensures o1 == o2
  {
    forall k ensures (k in o1.args <==> k in o2.args) && (k in o1.args ==> o1.args[k] == o2.args[k]) {
      EncodesEveryKey(o1, instance, config, k);
      EncodesEveryKey(o2, instance, config, k);
    }
    assert o1.args == o2.args;
  }

  /** The identity entries: `-v` when a version is given, `-u` and `-g` unless empty. */
  method AddIdentity(args: map<Key, string>, instance: Object, config: Config) returns (r: map<Key, string>)
    requires RequiredHeld(args, instance, config)
    requires V !in args && U !in args && G !in args
    requires P !in args && S !in args && D !in args && A !in args && M !in args
    ensures RequiredHeld(r, instance, config) && IdentityHeld(r, instance)
    ensures P !in r && S !in r && D !in r && A !in r && M !in r
  {
    r := args;
    if instance.version != Unspecified {
      r := r[V := NumberText.Text(instance.version as nat)];
    }
    if instance.user != [] {
      r := r[U := instance.user];
    }
    if instance.group != [] {
      r := r[G := instance.group];
    }
  }

  /** The directories for stored data: persistent, system and data path,
      each one added unless empty. */
  method AddStoragePaths(args: map<Key, string>, instance: Object, config: Config) returns (r: map<Key, string>)
    requires RequiredHeld(args, instance, config) && IdentityHeld(args, instance)
    requires P !in args && S !in args && D !in args && A !in args && M !in args
    ensures RequiredHeld(r, instance, config) && IdentityHeld(r, instance) && StoragePathsHeld(r, config)
    ensures A !in r && M !in r
  {
    r := args;
    if config.persistentPath != [] {
      r := r[P := config.persistentPath];
    }
    if config.systemPath != [] {
      r := r[S := config.systemPath];
    }
    if config.dataPath != [] {
      r := r[D := config.dataPath];
    }
  }

  /** The directories for code: application and proxy-stub path, each one
      added unless empty. */
  method AddCodePaths(args: map<Key, string>, instance: Object, config: Config) returns (r: map<Key, string>)
    requires RequiredHeld(args, instance, config) && IdentityHeld(args, instance) && StoragePathsHeld(args, config)
    requires A !in args && M !in args
    ensures RequiredHeld(r, instance, config) && IdentityHeld(r, instance)
    ensures StoragePathsHeld(r, config) && CodePathsHeld(r, config)
  {
    r := args;
    if config.applicationPath != [] {
      r := r[A := config.applicationPath];
    }
    if config.proxyStubPath != [] {
      r := r[M := config.proxyStubPath];
    }
  }

  /** Builds the launch options of `RemoteProcess::Create(parent, pid, instance, config)`:
      the four required entries, then the identity and the path entries. */
  method Encode(instance: Object, config: Config) returns (options: Options)
    requires instance.locator != [] && instance.className != [] && config.connector != []
    ensures Encodes(options, instance, config)
  {
    var args: map<Key, string> := map[];
    args := args[L := instance.locator];
    args := args[C := instance.className];
    args := args[R := config.connector];
    args := args[I := NumberText.Text(instance.interfaceId as nat)];
    args := AddIdentity(args, instance, config);
    args := AddStoragePaths(args, instance, config);
    args := AddCodePaths(args, instance, config);
    options := Options(config.hostApplication, args);
  }
}
