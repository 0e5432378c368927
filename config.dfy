/** Layered configuration of pkg/config: a compiled-in defaults table, an optional
    YAML file found on a search path, and environment overrides, resolved key by key
    (environment over file over default) and decoded into the typed Config aggregate.
    The viper instance is a class whose methods update its store in place; the file
    system and the process environment are inputs. */
module Config {
  import opened Wrappers

  /** The keys Config is decoded from, one per field. */
  datatype Key =
      ServerPort
    | ServerReadTimeout
    | ServerWriteTimeout
    | ServerHost
    | DatabaseInfluxURL
    | DatabaseInfluxOrg
    | DatabaseInfluxBucket
    | DatabaseInfluxToken
    | DatabaseInfluxPassword
    | RedisHost
    | RedisPort
    | RedisPassword
    | RedisDB
    | KafkaBrokers
    | KafkaTopic
    | KafkaGroupID
    | LoggingLevel
    | LoggingFile
    | JWTSecret
    | JWTExpireMins

  /** The dotted name of a key, as it appears in the file and in setDefaults. */
  function Name(k: Key): string {
    match k
    case ServerPort => "server.port"
    case ServerReadTimeout => "server.readTimeout"
    case ServerWriteTimeout => "server.writeTimeout"
    case ServerHost => "server.host"
    case DatabaseInfluxURL => "database.influxURL"
    case DatabaseInfluxOrg => "database.influxOrg"
    case DatabaseInfluxBucket => "database.influxBucket"
    case DatabaseInfluxToken => "database.influxToken"
    case DatabaseInfluxPassword => "database.influxPassword"
    case RedisHost => "redis.host"
    case RedisPort => "redis.port"
    case RedisPassword => "redis.password"
    case RedisDB => "redis.db"
    case KafkaBrokers => "kafka.brokers"
    case KafkaTopic => "kafka.topic"
    case KafkaGroupID => "kafka.groupID"
    case LoggingLevel => "logging.level"
    case LoggingFile => "logging.file"
    case JWTSecret => "jwt.secret"
    case JWTExpireMins => "jwt.expireMins"
  }

  /** A value held in one of viper's layers. */
  datatype Value = IntVal(i: int) | StrVal(s: string) | ListVal(items: seq<string>)

  /** The defaults layer. */
  type Table = map<Key, Value>

  /** The file layer, keyed by dotted names; it may hold names no field reads. */
  type Layer = map<string, Value>

  /** The process environment as viper's lookup sees it, keyed by variable name. */
  type Env = map<string, string>

  /** What reading the file named "config" in one directory with the YAML codec gives. */
  datatype ConfigFile = Unreadable(cause: string) | Malformed(detail: string) | Yaml(entries: Layer)

  /** The directories that hold a config file, with what reading it gives. */
  type Disk = map<string, ConfigFile>

  /** The outcomes of ReadInConfig other than success. */
  datatype ReadError = ConfigFileNotFound | ReadFailed(cause: string) | ParseFailed(detail: string)

  /** A field whose raw value does not convert to the field's type. */
  datatype DecodeError = CannotDecode(key: Key, raw: Value)

  /** LoadConfig's two wrapped errors. */
  datatype LoadError = ReadingConfigFile(read: ReadError) | DecodingConfig(decode: DecodeError)

  /** The weakly typed conversions the decoder applies; toInt is partial. */
  datatype Coercion = Coercion(
    toInt: string -> Option<int>,
    intToString: int -> string,
    splitList: string -> seq<string>)

  datatype ServerConfig = ServerConfig(port: int, readTimeout: int, writeTimeout: int, host: string)
  datatype DatabaseConfig = DatabaseConfig(
    influxURL: string, influxOrg: string, influxBucket: string, influxToken: string, influxPassword: string)
  datatype RedisConfig = RedisConfig(host: string, port: int, password: string, db: int)
  datatype KafkaConfig = KafkaConfig(brokers: seq<string>, topic: string, groupID: string)
  datatype LoggingConfig = LoggingConfig(level: string, file: string)
  datatype JWTConfig = JWTConfig(secret: string, expireMins: int)
  datatype Config = Config(
    server: ServerConfig, database: DatabaseConfig, redis: RedisConfig,
    kafka: KafkaConfig, logging: LoggingConfig, jwt: JWTConfig)

  /** The environment name of a key: strings.NewReplacer(".", "_") applied to it. */
  function EnvKey(key: string): (name: string)
    ensures |name| == |key|
    ensures forall i :: 0 <= i < |key| ==> name[i] == (if key[i] == '.' then '_' else key[i])
    ensures '.' !in name
  {
    seq(|key|, i requires 0 <= i < |key| => if key[i] == '.' then '_' else key[i])
  }

  /** The sixteen entries setDefaults writes. Every key has one except the database
      token and password, the redis password and the jwt secret, and each value
      already has its field's type. */
  function Defaults(): (t: Table)
    ensures forall k :: k in t <==>
              !(k.DatabaseInfluxToken? || k.DatabaseInfluxPassword? || k.RedisPassword? || k.JWTSecret?)
    ensures forall k :: k in t ==> HasKind(KindOf(k), t[k])
  {
    map[
      ServerPort := IntVal(8080),
      ServerReadTimeout := IntVal(10),
      ServerWriteTimeout := IntVal(10),
      ServerHost := StrVal("0.0.0.0"),
      DatabaseInfluxURL := StrVal("http://localhost:8086"),
      DatabaseInfluxOrg := StrVal("analytics"),
      DatabaseInfluxBucket := StrVal("metrics"),
      RedisHost := StrVal("localhost"),
      RedisPort := IntVal(6379),
      RedisDB := IntVal(0),
      KafkaBrokers := ListVal(["localhost:9092"]),
      KafkaTopic := StrVal("analytics"),
      KafkaGroupID := StrVal("analytics-group"),
      LoggingLevel := StrVal("info"),
      LoggingFile := StrVal(""),
      JWTExpireMins := IntVal(60)
    ]
  }

  /** The value `k` has in `m`, if any. */
  function Lookup(m: Table, k: Key): Option<Value> {
    if k in m then Some(m[k]) else None
  }

  /** A layer keyed by dotted names, re-keyed by the Config keys it names. */
  function ByKey(layer: Layer): Table {
    map k: Key | Name(k) in layer :: layer[Name(k)]
  }

  /** The environment variable viper consults for `k`. */
  function EnvNameOf(k: Key, replaceDots: bool): string {
    if replaceDots then EnvKey(Name(k)) else Name(k)
  }

  /** The environment as a layer: each key whose variable is set, with its text. */
  function EnvLayer(env: Env, replaceDots: bool): Table {
    map k: Key | EnvNameOf(k, replaceDots) in env :: StrVal(env[EnvNameOf(k, replaceDots)])
  }

  /** A snapshot of a viper instance's layers and environment settings. */
  datatype Store = Store(defaults: Table, file: Layer, env: Env, automaticEnv: bool, replaceDots: bool) {

    /** The three layers as one override-merge, each replacing the entries of the
        ones below it: defaults, then the file, then (when enabled) the environment. */
    function Merged(): Table {
      defaults + ByKey(file) + (if automaticEnv then EnvLayer(env, replaceDots) else map[])
    }

    /** viper.Get's lookup: the environment is asked first, then the file, then the
        defaults. */
    function Get(k: Key): (v: Option<Value>)
      ensures v.Some? <==> (automaticEnv && EnvNameOf(k, replaceDots) in env) || Name(k) in file || k in defaults
    {
      if automaticEnv && EnvNameOf(k, replaceDots) in env then Some(StrVal(env[EnvNameOf(k, replaceDots)]))
      else if Name(k) in file then Some(file[Name(k)])
      else if k in defaults then Some(defaults[k])
      else None
    }

    /** Whether `k` is among viper's AllKeys(): it has a default or a file entry.
        AutomaticEnv adds no keys. */
    predicate Known(k: Key) {
      k in defaults || Name(k) in file
    }

    /** What v.Unmarshal reads for `k`: it visits AllKeys() only, so a key that
        nothing but the environment sets reads as absent. */
    function Visible(k: Key): (v: Option<Value>)
      ensures v.Some? <==> Known(k)
      ensures Known(k) ==> v == Get(k)
    {
      if Known(k) then Get(k) else None
    }
  }

  /** Precedence: viper's lookup is the override-merge of its layers, so the
      environment beats the file, which beats the defaults. */
  lemma Precedence(s: Store, k: Key)
    ensures s.Get(k) == Lookup(s.Merged(), k)
  {
    MergedLookup(s, k);
  }

  /** Looking a key up in the merge asks the environment, then the file, then the
      defaults. */
  lemma MergedLookup(s: Store, k: Key)
    ensures Lookup(s.Merged(), k) ==
              if s.automaticEnv && EnvNameOf(k, s.replaceDots) in s.env then Some(StrVal(s.env[EnvNameOf(k, s.replaceDots)]))
              else if Name(k) in s.file then Some(s.file[Name(k)])
              else Lookup(s.defaults, k)
  {
    var upper: Table := if s.automaticEnv then EnvLayer(s.env, s.replaceDots) else map[];
    assert s.Merged() == s.defaults + ByKey(s.file) + upper;
    UnionLookup(s.defaults + ByKey(s.file), upper, k);
    UnionLookup(s.defaults, ByKey(s.file), k);
    ByKeyLookup(s.file, k);
    EnvLayerLookup(s.env, s.replaceDots, k);
  }

  /** Looking a key up in an override-merge asks the upper map first. */
  lemma UnionLookup(lower: Table, upper: Table, k: Key)
    ensures Lookup(lower + upper, k) == if k in upper then Some(upper[k]) else Lookup(lower, k)
  {
  }

  lemma ByKeyLookup(layer: Layer, k: Key)
    ensures Lookup(ByKey(layer), k) == if Name(k) in layer then Some(layer[Name(k)]) else None
  {
  }

  lemma EnvLayerLookup(env: Env, replaceDots: bool, k: Key)
    ensures Lookup(EnvLayer(env, replaceDots), k) ==
              if EnvNameOf(k, replaceDots) in env then Some(StrVal(env[EnvNameOf(k, replaceDots)])) else None
  {
  }

  /** The first directory of `paths` that holds a config file. */
  function FindConfigFile(paths: seq<string>, disk: Disk): (dir: Option<string>)
    ensures dir.None? <==> forall i :: 0 <= i < |paths| ==> paths[i] !in disk
    ensures dir.Some? ==>
              && dir.value in disk
              && exists i :: 0 <= i < |paths| && paths[i] == dir.value &&
                   forall j :: 0 <= j < i ==> paths[j] !in disk
  {
    if paths == [] then None
    else if paths[0] in disk then Some(paths[0])
    else FindConfigFile(paths[1..], disk)
  }

  /** ReadInConfig's outcome over a search path. */
  function ReadConfigFile(paths: seq<string>, disk: Disk): (r: Result<Layer, ReadError>)
    ensures r == Failure(ConfigFileNotFound) <==> forall i :: 0 <= i < |paths| ==> paths[i] !in disk
  {
    match FindConfigFile(paths, disk)
    case None => Failure(ConfigFileNotFound)
    case Some(dir) =>
      match disk[dir]
      case Unreadable(cause) => Failure(ReadFailed(cause))
      case Malformed(detail) => Failure(ParseFailed(detail))
      case Yaml(entries) => Success(entries)
  }

  /** An int field: absent reads as 0, an int is taken as it is, a text must convert,
      and a list is an error naming the key and the value. */
  function DecodeInt(s: Store, c: Coercion, k: Key): (r: Result<int, DecodeError>)
    ensures r.Failure? <==> s.Visible(k).Some? && !Converts(IntField, s.Visible(k).value, c)
    ensures r.Failure? ==> r.error == CannotDecode(k, s.Visible(k).value)
    ensures s.Visible(k).None? ==> r == Success(0)
    ensures s.Visible(k).Some? && s.Visible(k).value.IntVal? ==> r == Success(s.Visible(k).value.i)
    ensures s.Visible(k).Some? && s.Visible(k).value.StrVal? && r.Success? ==>
              c.toInt(s.Visible(k).value.s) == Some(r.value)
  {
    match s.Visible(k)
    case None => Success(0)
    case Some(IntVal(i)) => Success(i)
    case Some(StrVal(t)) =>
      if c.toInt(t).Some? then Success(c.toInt(t).value) else Failure(CannotDecode(k, StrVal(t)))
    case Some(ListVal(xs)) => Failure(CannotDecode(k, ListVal(xs)))
  }

  /** A string field: absent reads as "", an int is rendered, and a list is an error
      naming the key and the value. */
  function DecodeString(s: Store, c: Coercion, k: Key): (r: Result<string, DecodeError>)
    ensures r.Failure? <==> s.Visible(k).Some? && !Converts(StringField, s.Visible(k).value, c)
    ensures r.Failure? ==> r.error == CannotDecode(k, s.Visible(k).value)
    ensures s.Visible(k).None? ==> r == Success("")
    ensures s.Visible(k).Some? && s.Visible(k).value.StrVal? ==> r == Success(s.Visible(k).value.s)
  {
    match s.Visible(k)
    case None => Success("")
    case Some(StrVal(t)) => Success(t)
    case Some(IntVal(i)) => Success(c.intToString(i))
    case Some(ListVal(xs)) => Failure(CannotDecode(k, ListVal(xs)))
  }

  /** A string-list field: absent reads as the empty list, a text is split, a single
      int becomes a one-element list; it never fails. */
  function DecodeList(s: Store, c: Coercion, k: Key): (xs: seq<string>)
    ensures s.Visible(k).None? ==> xs == []
    ensures s.Visible(k).Some? && s.Visible(k).value.ListVal? ==> xs == s.Visible(k).value.items
    ensures s.Visible(k).Some? && s.Visible(k).value.StrVal? ==> xs == c.splitList(s.Visible(k).value.s)
  {
    match s.Visible(k)
    case None => []
    case Some(ListVal(items)) => items
    case Some(StrVal(t)) => c.splitList(t)
    case Some(IntVal(i)) => [c.intToString(i)]
  }

  /** The declared type of each field of Config. */
  datatype Kind = IntField | StringField | ListField

  /** Whether a layer value already has the type of a field of the given kind. */
  predicate HasKind(kind: Kind, v: Value) {
    match kind
    case IntField => v.IntVal?
    case StringField => v.StrVal?
    case ListField => v.ListVal?
  }

  /** Whether mapstructure's weak typing converts `raw` to a field of the given kind:
      an int field takes an int or a text that reads as one, a string field anything
      but a list, a list field anything. */
  predicate Converts(kind: Kind, raw: Value, c: Coercion) {
    match kind
    case IntField => raw.IntVal? || (raw.StrVal? && c.toInt(raw.s).Some?)
    case StringField => !raw.ListVal?
    case ListField => true
  }

  /** `e` names a key whose raw value, as v.Unmarshal reads it, does not convert to its
      field's type. */
  predicate Rejected(s: Store, c: Coercion, e: DecodeError) {
    s.Visible(e.key) == Some(e.raw) && !Converts(KindOf(e.key), e.raw, c)
  }

  function KindOf(k: Key): Kind {
    match k
    case ServerPort => IntField
    case ServerReadTimeout => IntField
    case ServerWriteTimeout => IntField
    case ServerHost => StringField
    case DatabaseInfluxURL => StringField
    case DatabaseInfluxOrg => StringField
    case DatabaseInfluxBucket => StringField
    case DatabaseInfluxToken => StringField
    case DatabaseInfluxPassword => StringField
    case RedisHost => StringField
    case RedisPort => IntField
    case RedisPassword => StringField
    case RedisDB => IntField
    case KafkaBrokers => ListField
    case KafkaTopic => StringField
    case KafkaGroupID => StringField
    case LoggingLevel => StringField
    case LoggingFile => StringField
    case JWTSecret => StringField
    case JWTExpireMins => IntField
  }

  /** The field `k` decodes into, seen as a layer value. */
  function FieldOf(cfg: Config, k: Key): Value {
    match k
    case ServerPort => IntVal(cfg.server.port)
    case ServerReadTimeout => IntVal(cfg.server.readTimeout)
    case ServerWriteTimeout => IntVal(cfg.server.writeTimeout)
    case ServerHost => StrVal(cfg.server.host)
    case DatabaseInfluxURL => StrVal(cfg.database.influxURL)
    case DatabaseInfluxOrg => StrVal(cfg.database.influxOrg)
    case DatabaseInfluxBucket => StrVal(cfg.database.influxBucket)
    case DatabaseInfluxToken => StrVal(cfg.database.influxToken)
    case DatabaseInfluxPassword => StrVal(cfg.database.influxPassword)
    case RedisHost => StrVal(cfg.redis.host)
    case RedisPort => IntVal(cfg.redis.port)
    case RedisPassword => StrVal(cfg.redis.password)
    case RedisDB => IntVal(cfg.redis.db)
    case KafkaBrokers => ListVal(cfg.kafka.brokers)
    case KafkaTopic => StrVal(cfg.kafka.topic)
    case KafkaGroupID => StrVal(cfg.kafka.groupID)
    case LoggingLevel => StrVal(cfg.logging.level)
    case LoggingFile => StrVal(cfg.logging.file)
    case JWTSecret => StrVal(cfg.jwt.secret)
    case JWTExpireMins => IntVal(cfg.jwt.expireMins)
  }

  /** Decoding one field according to its declared type. */
  function DecodeField(s: Store, c: Coercion, k: Key): Result<Value, DecodeError> {
    match KindOf(k)
    case IntField => var i :- DecodeInt(s, c, k); Success(IntVal(i))
    case StringField => var t :- DecodeString(s, c, k); Success(StrVal(t))
    case ListField => Success(ListVal(DecodeList(s, c, k)))
  }

  // v.Unmarshal decodes each sub-struct of Config from its group of keys.

  function DecodeServer(s: Store, c: Coercion): (r: Result<ServerConfig, DecodeError>)
    ensures r.Failure? ==> Rejected(s, c, r.error)
  {
    var port :- DecodeInt(s, c, ServerPort);
    var readTimeout :- DecodeInt(s, c, ServerReadTimeout);
    var writeTimeout :- DecodeInt(s, c, ServerWriteTimeout);
    var host :- DecodeString(s, c, ServerHost);
    Success(ServerConfig(port, readTimeout, writeTimeout, host))
  }

  function DecodeDatabase(s: Store, c: Coercion): (r: Result<DatabaseConfig, DecodeError>)
    ensures r.Failure? ==> Rejected(s, c, r.error)
  {
    var influxURL :- DecodeString(s, c, DatabaseInfluxURL);
    var influxOrg :- DecodeString(s, c, DatabaseInfluxOrg);
    var influxBucket :- DecodeString(s, c, DatabaseInfluxBucket);
    var influxToken :- DecodeString(s, c, DatabaseInfluxToken);
    var influxPassword :- DecodeString(s, c, DatabaseInfluxPassword);
    Success(DatabaseConfig(influxURL, influxOrg, influxBucket, influxToken, influxPassword))
  }

  function DecodeRedis(s: Store, c: Coercion): (r: Result<RedisConfig, DecodeError>)
    ensures r.Failure? ==> Rejected(s, c, r.error)
  {
    var host :- DecodeString(s, c, RedisHost);
    var port :- DecodeInt(s, c, RedisPort);
    var password :- DecodeString(s, c, RedisPassword);
    var db :- DecodeInt(s, c, RedisDB);
    Success(RedisConfig(host, port, password, db))
  }

  function DecodeKafka(s: Store, c: Coercion): (r: Result<KafkaConfig, DecodeError>)
    ensures r.Failure? ==> Rejected(s, c, r.error)
  {
    var brokers := DecodeList(s, c, KafkaBrokers);
    var topic :- DecodeString(s, c, KafkaTopic);
    var groupID :- DecodeString(s, c, KafkaGroupID);
    Success(KafkaConfig(brokers, topic, groupID))
  }

  function DecodeLogging(s: Store, c: Coercion): (r: Result<LoggingConfig, DecodeError>)
    ensures r.Failure? ==> Rejected(s, c, r.error)
  {
    var level :- DecodeString(s, c, LoggingLevel);
    var file :- DecodeString(s, c, LoggingFile);
    Success(LoggingConfig(level, file))
  }

  function DecodeJWT(s: Store, c: Coercion): (r: Result<JWTConfig, DecodeError>)
    ensures r.Failure? ==> Rejected(s, c, r.error)
  {
    var secret :- DecodeString(s, c, JWTSecret);
    var expireMins :- DecodeInt(s, c, JWTExpireMins);
    Success(JWTConfig(secret, expireMins))
  }

  /** v.Unmarshal(&Config{}): each sub-struct in declaration order, each field from its key. */
  function Decode(s: Store, c: Coercion): (r: Result<Config, DecodeError>)
    ensures r.Failure? ==> Rejected(s, c, r.error)
  {
    var server :- DecodeServer(s, c);
    var database :- DecodeDatabase(s, c);
    var redis :- DecodeRedis(s, c);
    var kafka :- DecodeKafka(s, c);
    var logging :- DecodeLogging(s, c);
    var jwt :- DecodeJWT(s, c);
    Success(Config(server, database, redis, kafka, logging, jwt))
  }

  /** A viper.Viper instance, reduced to the state LoadConfig sets and reads. The
      process environment it consults is fixed for its lifetime. */
  class Viper {
    var defaults: Table
    var config: Layer
    var configName: string
    var configType: string
    var configPaths: seq<string>
    var automaticEnv: bool
    var replaceDots: bool
    const env: Env

    /** viper.New(): nothing set yet. */
    constructor (env: Env)
      ensures defaults == map[] && config == map[]
      ensures configName == "" && configType == "" && configPaths == []
      ensures !automaticEnv && !replaceDots && this.env == env
    {
      defaults, config := map[], map[];
      configName, configType, configPaths := "", "", [];
      automaticEnv, replaceDots := false, false;
      this.env := env;
    }

    function View(): Store
      reads this
    {
      Store(defaults, config, env, automaticEnv, replaceDots)
    }

    method SetDefault(k: Key, value: Value)
      modifies this`defaults
      ensures defaults == old(defaults)[k := value]
    {
      defaults := defaults[k := value];
    }

    method SetConfigName(name: string)
      modifies this`configName
      ensures configName == name
    {
      configName := name;
    }

    method SetConfigType(kind: string)
      modifies this`configType
      ensures configType == kind
    {
      configType := kind;
    }

    /** Directories are searched in the order they were added. */
    method AddConfigPath(dir: string)
      modifies this`configPaths
      ensures configPaths == old(configPaths) + [dir]
    {
      configPaths := configPaths + [dir];
    }

    method AutomaticEnv()
      modifies this`automaticEnv
      ensures automaticEnv
    {
      automaticEnv := true;
    }

    /** Installs the "." to "_" key replacer. */
    method SetEnvKeyReplacer()
      modifies this`replaceDots
      ensures replaceDots
    {
      replaceDots := true;
    }

    /** Searches configPaths; on success the file becomes the file layer, on any error
        the layer is left alone and the error returned. */
    method ReadInConfig(disk: Disk) returns (err: Option<ReadError>)
      modifies this`config
      ensures var f := ReadConfigFile(configPaths, disk);
              && (f.Success? ==> err == None && config == f.value)
              && (f.Failure? ==> err == Some(f.error) && config == old(config))
    {
      var f := ReadConfigFile(configPaths, disk);
      if f.Success? {
        config := f.value;
        err := None;
      } else {
        err := Some(f.error);
      }
    }
  }

  /** Updating an override-merge updates its upper layer. */
  lemma UpdateOverUnion<K, V>(lower: map<K, V>, upper: map<K, V>, k: K, value: V)
    ensures (lower + upper)[k := value] == lower + upper[k := value]
  {
  }

  lemma UnionOverEmpty<K, V>(m: map<K, V>)
    ensures map[] + m == m
  {
  }

  /** setDefaults: writes the sixteen entries of the defaults table. */
  method SetDefaults(v: Viper)
    modifies v`defaults
    ensures v.defaults == old(v.defaults) + Defaults()
  {
    ghost var d0 := v.defaults;
    ghost var written: Table := map[];
    assert d0 + written == d0;
    v.SetDefault(ServerPort, IntVal(8080));
    UpdateOverUnion(d0, written, ServerPort, IntVal(8080));
    written := written[ServerPort := IntVal(8080)];
    v.SetDefault(ServerReadTimeout, IntVal(10));
    UpdateOverUnion(d0, written, ServerReadTimeout, IntVal(10));
    written := written[ServerReadTimeout := IntVal(10)];
    v.SetDefault(ServerWriteTimeout, IntVal(10));
    UpdateOverUnion(d0, written, ServerWriteTimeout, IntVal(10));
    written := written[ServerWriteTimeout := IntVal(10)];
    v.SetDefault(ServerHost, StrVal("0.0.0.0"));
    UpdateOverUnion(d0, written, ServerHost, StrVal("0.0.0.0"));
    written := written[ServerHost := StrVal("0.0.0.0")];
    v.SetDefault(DatabaseInfluxURL, StrVal("http://localhost:8086"));
    UpdateOverUnion(d0, written, DatabaseInfluxURL, StrVal("http://localhost:8086"));
    written := written[DatabaseInfluxURL := StrVal("http://localhost:8086")];
    v.SetDefault(DatabaseInfluxOrg, StrVal("analytics"));
    UpdateOverUnion(d0, written, DatabaseInfluxOrg, StrVal("analytics"));
    written := written[DatabaseInfluxOrg := StrVal("analytics")];
    v.SetDefault(DatabaseInfluxBucket, StrVal("metrics"));
    UpdateOverUnion(d0, written, DatabaseInfluxBucket, StrVal("metrics"));
    written := written[DatabaseInfluxBucket := StrVal("metrics")];
    v.SetDefault(RedisHost, StrVal("localhost"));
    UpdateOverUnion(d0, written, RedisHost, StrVal("localhost"));
    written := written[RedisHost := StrVal("localhost")];
    v.SetDefault(RedisPort, IntVal(6379));
    UpdateOverUnion(d0, written, RedisPort, IntVal(6379));
    written := written[RedisPort := IntVal(6379)];
    v.SetDefault(RedisDB, IntVal(0));
    UpdateOverUnion(d0, written, RedisDB, IntVal(0));
    written := written[RedisDB := IntVal(0)];
    v.SetDefault(KafkaBrokers, ListVal(["localhost:9092"]));
    UpdateOverUnion(d0, written, KafkaBrokers, ListVal(["localhost:9092"]));
    written := written[KafkaBrokers := ListVal(["localhost:9092"])];
    v.SetDefault(KafkaTopic, StrVal("analytics"));
    UpdateOverUnion(d0, written, KafkaTopic, StrVal("analytics"));
    written := written[KafkaTopic := StrVal("analytics")];
    v.SetDefault(KafkaGroupID, StrVal("analytics-group"));
    UpdateOverUnion(d0, written, KafkaGroupID, StrVal("analytics-group"));
    written := written[KafkaGroupID := StrVal("analytics-group")];
    v.SetDefault(LoggingLevel, StrVal("info"));
    UpdateOverUnion(d0, written, LoggingLevel, StrVal("info"));
    written := written[LoggingLevel := StrVal("info")];
    v.SetDefault(LoggingFile, StrVal(""));
    UpdateOverUnion(d0, written, LoggingFile, StrVal(""));
    written := written[LoggingFile := StrVal("")];
    v.SetDefault(JWTExpireMins, IntVal(60));
    UpdateOverUnion(d0, written, JWTExpireMins, IntVal(60));
    written := written[JWTExpireMins := IntVal(60)];
    assert written == Defaults();
  }

  /** The directories LoadConfig searches, in order. */
  function SearchPaths(configPath: string): seq<string> {
    [configPath, "."]
  }

  /** The layers LoadConfig ends up with, or the read error it gives up on: a missing
      file is tolerated, every other read error is not. */
  function Layers(configPath: string, disk: Disk, env: Env): (r: Result<Store, ReadError>)
    ensures var read := ReadConfigFile(SearchPaths(configPath), disk);
            && (r.Failure? <==> read.Failure? && read.error != ConfigFileNotFound)
            && (r.Failure? ==> r.error == read.error)
            && (r.Success? ==> r.value == Store(Defaults(), FileEntries(configPath, disk), env, true, true))
  {
    match ReadConfigFile(SearchPaths(configPath), disk)
    case Success(file) => Success(Store(Defaults(), file, env, true, true))
    case Failure(ConfigFileNotFound) => Success(Store(Defaults(), map[], env, true, true))
    case Failure(e) => Failure(e)
  }

  /** What LoadConfig returns. */
  function Load(configPath: string, disk: Disk, env: Env, c: Coercion): (r: Result<Config, LoadError>)
    ensures r.Failure? ==> (r.error.ReadingConfigFile? <==> Layers(configPath, disk, env).Failure?)
    ensures r.Failure? && r.error.ReadingConfigFile? ==> r.error.read != ConfigFileNotFound
    ensures r.Failure? && r.error.DecodingConfig? ==>
              Layers(configPath, disk, env).Success? && Rejected(Layers(configPath, disk, env).value, c, r.error.decode)
  {
    match Layers(configPath, disk, env)
    case Failure(e) => Failure(ReadingConfigFile(e))
    case Success(s) =>
      match Decode(s, c)
      case Failure(e) => Failure(DecodingConfig(e))
      case Success(cfg) => Success(cfg)
  }

  /** LoadConfig, step by step on a fresh viper instance. */
  method LoadConfig(configPath: string, disk: Disk, env: Env, c: Coercion)
    returns (r: Result<Config, LoadError>)
    ensures r == Load(configPath, disk, env, c)
  {
    var v := new Viper(env);
    SetDefaults(v);
    UnionOverEmpty(Defaults());
    assert v.defaults == Defaults();
    v.SetConfigName("config");
    v.SetConfigType("yaml");
    v.AddConfigPath(configPath);
    v.AddConfigPath(".");
    v.AutomaticEnv();
    v.SetEnvKeyReplacer();
    assert v.configPaths == SearchPaths(configPath);
    var err := v.ReadInConfig(disk);
    assert err.None? || err.value == ConfigFileNotFound ==>
      Layers(configPath, disk, env) == Success(v.View());
    if err.Some? && err.value != ConfigFileNotFound {
      return Failure(ReadingConfigFile(err.value));
    }
    var decoded := Decode(v.View(), c);
    if decoded.Failure? {
      return Failure(DecodingConfig(decoded.error));
    }
    return Success(decoded.value);
  }

  /** The Config every field of which comes from the defaults table; the four fields
      without a default hold the zero value "". */
  function DefaultConfig(): Config {
    Config(
      ServerConfig(8080, 10, 10, "0.0.0.0"),
      DatabaseConfig("http://localhost:8086", "analytics", "metrics", "", ""),
      RedisConfig("localhost", 6379, "", 0),
      KafkaConfig(["localhost:9092"], "analytics", "analytics-group"),
      LoggingConfig("info", ""),
      JWTConfig("", 60))
  }

  /** The file is looked for in configPath first, then in the working directory. */
  lemma SearchOrder(configPath: string, disk: Disk)
    ensures configPath in disk ==> FindConfigFile(SearchPaths(configPath), disk) == Some(configPath)
    ensures configPath !in disk && "." in disk ==> FindConfigFile(SearchPaths(configPath), disk) == Some(".")
    ensures configPath !in disk && "." !in disk ==> FindConfigFile(SearchPaths(configPath), disk) == None
  {
  }

  /** v.Unmarshal reads every key's default and nothing else. */
  predicate ShowsDefaults(s: Store) {
    forall k :: s.Visible(k) == Lookup(Defaults(), k)
  }

  // Each sub-struct decoded from a store that shows the defaults alone.

  lemma DefaultServer(s: Store, c: Coercion)
    requires ShowsDefaults(s)
    ensures DecodeServer(s, c) == Success(DefaultConfig().server)
  {
  }

  lemma DefaultDatabase(s: Store, c: Coercion)
    requires ShowsDefaults(s)
    ensures DecodeDatabase(s, c) == Success(DefaultConfig().database)
  {
  }

  lemma DefaultRedis(s: Store, c: Coercion)
    requires ShowsDefaults(s)
    ensures DecodeRedis(s, c) == Success(DefaultConfig().redis)
  {
  }

  lemma DefaultKafka(s: Store, c: Coercion)
    requires ShowsDefaults(s)
    ensures DecodeKafka(s, c) == Success(DefaultConfig().kafka)
  {
  }

  lemma DefaultLogging(s: Store, c: Coercion)
    requires ShowsDefaults(s)
    ensures DecodeLogging(s, c) == Success(DefaultConfig().logging)
  {
  }

  lemma DefaultJWT(s: Store, c: Coercion)
    requires ShowsDefaults(s)
    ensures DecodeJWT(s, c) == Success(DefaultConfig().jwt)
  {
  }

  // Decoding a sub-struct succeeds exactly when each of its fields does.

  lemma ServerIsFieldwise(s: Store, c: Coercion, cfg: Config)
    ensures DecodeServer(s, c).Success? <==>
              DecodeField(s, c, ServerPort).Success? && DecodeField(s, c, ServerReadTimeout).Success? && DecodeField(s, c, ServerWriteTimeout).Success? && DecodeField(s, c, ServerHost).Success?
    ensures DecodeServer(s, c).Success? && cfg.server == DecodeServer(s, c).value ==>
              DecodeField(s, c, ServerPort) == Success(FieldOf(cfg, ServerPort))
              && DecodeField(s, c, ServerReadTimeout) == Success(FieldOf(cfg, ServerReadTimeout))
              && DecodeField(s, c, ServerWriteTimeout) == Success(FieldOf(cfg, ServerWriteTimeout))
              && DecodeField(s, c, ServerHost) == Success(FieldOf(cfg, ServerHost))
    ensures DecodeServer(s, c).Failure? ==>
              DecodeField(s, c, DecodeServer(s, c).error.key) == Failure(DecodeServer(s, c).error)
  {
  }

  lemma DatabaseIsFieldwise(s: Store, c: Coercion, cfg: Config)
    ensures DecodeDatabase(s, c).Success? <==>
              DecodeField(s, c, DatabaseInfluxURL).Success? && DecodeField(s, c, DatabaseInfluxOrg).Success? && DecodeField(s, c, DatabaseInfluxBucket).Success? && DecodeField(s, c, DatabaseInfluxToken).Success? && DecodeField(s, c, DatabaseInfluxPassword).Success?
    ensures DecodeDatabase(s, c).Success? && cfg.database == DecodeDatabase(s, c).value ==>
              DecodeField(s, c, DatabaseInfluxURL) == Success(FieldOf(cfg, DatabaseInfluxURL))
              && DecodeField(s, c, DatabaseInfluxOrg) == Success(FieldOf(cfg, DatabaseInfluxOrg))
              && DecodeField(s, c, DatabaseInfluxBucket) == Success(FieldOf(cfg, DatabaseInfluxBucket))
              && DecodeField(s, c, DatabaseInfluxToken) == Success(FieldOf(cfg, DatabaseInfluxToken))
              && DecodeField(s, c, DatabaseInfluxPassword) == Success(FieldOf(cfg, DatabaseInfluxPassword))
    ensures DecodeDatabase(s, c).Failure? ==>
              DecodeField(s, c, DecodeDatabase(s, c).error.key) == Failure(DecodeDatabase(s, c).error)
  {
  }

  lemma RedisIsFieldwise(s: Store, c: Coercion, cfg: Config)
    ensures DecodeRedis(s, c).Success? <==>
              DecodeField(s, c, RedisHost).Success? && DecodeField(s, c, RedisPort).Success? && DecodeField(s, c, RedisPassword).Success? && DecodeField(s, c, RedisDB).Success?
    ensures DecodeRedis(s, c).Success? && cfg.redis == DecodeRedis(s, c).value ==>
              DecodeField(s, c, RedisHost) == Success(FieldOf(cfg, RedisHost))
              && DecodeField(s, c, RedisPort) == Success(FieldOf(cfg, RedisPort))
              && DecodeField(s, c, RedisPassword) == Success(FieldOf(cfg, RedisPassword))
              && DecodeField(s, c, RedisDB) == Success(FieldOf(cfg, RedisDB))
    ensures DecodeRedis(s, c).Failure? ==>
              DecodeField(s, c, DecodeRedis(s, c).error.key) == Failure(DecodeRedis(s, c).error)
  {
  }

  lemma KafkaIsFieldwise(s: Store, c: Coercion, cfg: Config)
    ensures DecodeKafka(s, c).Success? <==>
              DecodeField(s, c, KafkaBrokers).Success? && DecodeField(s, c, KafkaTopic).Success? && DecodeField(s, c, KafkaGroupID).Success?
    ensures DecodeKafka(s, c).Success? && cfg.kafka == DecodeKafka(s, c).value ==>
              DecodeField(s, c, KafkaBrokers) == Success(FieldOf(cfg, KafkaBrokers))
              && DecodeField(s, c, KafkaTopic) == Success(FieldOf(cfg, KafkaTopic))
              && DecodeField(s, c, KafkaGroupID) == Success(FieldOf(cfg, KafkaGroupID))
    ensures DecodeKafka(s, c).Failure? ==>
              DecodeField(s, c, DecodeKafka(s, c).error.key) == Failure(DecodeKafka(s, c).error)
  {
  }

  lemma LoggingIsFieldwise(s: Store, c: Coercion, cfg: Config)
    ensures DecodeLogging(s, c).Success? <==>
              DecodeField(s, c, LoggingLevel).Success? && DecodeField(s, c, LoggingFile).Success?
    ensures DecodeLogging(s, c).Success? && cfg.logging == DecodeLogging(s, c).value ==>
              DecodeField(s, c, LoggingLevel) == Success(FieldOf(cfg, LoggingLevel))
              && DecodeField(s, c, LoggingFile) == Success(FieldOf(cfg, LoggingFile))
    ensures DecodeLogging(s, c).Failure? ==>
              DecodeField(s, c, DecodeLogging(s, c).error.key) == Failure(DecodeLogging(s, c).error)
  {
  }

  lemma JWTIsFieldwise(s: Store, c: Coercion, cfg: Config)
    ensures DecodeJWT(s, c).Success? <==>
              DecodeField(s, c, JWTSecret).Success? && DecodeField(s, c, JWTExpireMins).Success?
    ensures DecodeJWT(s, c).Success? && cfg.jwt == DecodeJWT(s, c).value ==>
              DecodeField(s, c, JWTSecret) == Success(FieldOf(cfg, JWTSecret))
              && DecodeField(s, c, JWTExpireMins) == Success(FieldOf(cfg, JWTExpireMins))
    ensures DecodeJWT(s, c).Failure? ==>
              DecodeField(s, c, DecodeJWT(s, c).error.key) == Failure(DecodeJWT(s, c).error)
  {
  }

  /** Decode is the six sub-struct decoders in order. */
  lemma DecodeComposition(s: Store, c: Coercion)
    ensures Decode(s, c).Success? <==>
              DecodeServer(s, c).Success? && DecodeDatabase(s, c).Success? && DecodeRedis(s, c).Success? && DecodeKafka(s, c).Success? && DecodeLogging(s, c).Success? && DecodeJWT(s, c).Success?
    ensures Decode(s, c).Success? ==>
              Decode(s, c).value.server == DecodeServer(s, c).value
              && Decode(s, c).value.database == DecodeDatabase(s, c).value
              && Decode(s, c).value.redis == DecodeRedis(s, c).value
              && Decode(s, c).value.kafka == DecodeKafka(s, c).value
              && Decode(s, c).value.logging == DecodeLogging(s, c).value
              && Decode(s, c).value.jwt == DecodeJWT(s, c).value
    ensures Decode(s, c).Failure? ==>
              (DecodeServer(s, c).Failure? && Decode(s, c).error == DecodeServer(s, c).error)
              || (DecodeDatabase(s, c).Failure? && Decode(s, c).error == DecodeDatabase(s, c).error)
              || (DecodeRedis(s, c).Failure? && Decode(s, c).error == DecodeRedis(s, c).error)
              || (DecodeKafka(s, c).Failure? && Decode(s, c).error == DecodeKafka(s, c).error)
              || (DecodeLogging(s, c).Failure? && Decode(s, c).error == DecodeLogging(s, c).error)
              || (DecodeJWT(s, c).Failure? && Decode(s, c).error == DecodeJWT(s, c).error)
  {
  }

  /** v.Unmarshal succeeds exactly when every field's value converts to its declared
      type; then each field holds its key's resolved value, otherwise the error names
      a field that does not convert. */
  lemma DecodeIsFieldwise(s: Store, c: Coercion)
    ensures Decode(s, c).Success? <==> forall k :: DecodeField(s, c, k).Success?
    ensures Decode(s, c).Success? ==>
              forall k :: DecodeField(s, c, k) == Success(FieldOf(Decode(s, c).value, k))
    ensures Decode(s, c).Failure? ==>
              DecodeField(s, c, Decode(s, c).error.key) == Failure(Decode(s, c).error)
  {
    DecodeComposition(s, c);
    var cfg := if Decode(s, c).Success? then Decode(s, c).value else DefaultConfig();
    forall k
      ensures Decode(s, c).Success? ==> DecodeField(s, c, k) == Success(FieldOf(cfg, k))
    {
      match k
      case ServerPort => ServerIsFieldwise(s, c, cfg);
      case ServerReadTimeout => ServerIsFieldwise(s, c, cfg);
      case ServerWriteTimeout => ServerIsFieldwise(s, c, cfg);
      case ServerHost => ServerIsFieldwise(s, c, cfg);
      case DatabaseInfluxURL => DatabaseIsFieldwise(s, c, cfg);
      case DatabaseInfluxOrg => DatabaseIsFieldwise(s, c, cfg);
      case DatabaseInfluxBucket => DatabaseIsFieldwise(s, c, cfg);
      case DatabaseInfluxToken => DatabaseIsFieldwise(s, c, cfg);
      case DatabaseInfluxPassword => DatabaseIsFieldwise(s, c, cfg);
      case RedisHost => RedisIsFieldwise(s, c, cfg);
      case RedisPort => RedisIsFieldwise(s, c, cfg);
      case RedisPassword => RedisIsFieldwise(s, c, cfg);
      case RedisDB => RedisIsFieldwise(s, c, cfg);
      case KafkaBrokers => KafkaIsFieldwise(s, c, cfg);
      case KafkaTopic => KafkaIsFieldwise(s, c, cfg);
      case KafkaGroupID => KafkaIsFieldwise(s, c, cfg);
      case LoggingLevel => LoggingIsFieldwise(s, c, cfg);
      case LoggingFile => LoggingIsFieldwise(s, c, cfg);
      case JWTSecret => JWTIsFieldwise(s, c, cfg);
      case JWTExpireMins => JWTIsFieldwise(s, c, cfg);
    }
    if Decode(s, c).Failure? {
      ServerIsFieldwise(s, c, cfg);
      DatabaseIsFieldwise(s, c, cfg);
      RedisIsFieldwise(s, c, cfg);
      KafkaIsFieldwise(s, c, cfg);
      LoggingIsFieldwise(s, c, cfg);
      JWTIsFieldwise(s, c, cfg);
    }
  }

  /** With no file and no environment, LoadConfig returns the defaults. */
  lemma LoadWithoutFileOrEnv(configPath: string, disk: Disk, c: Coercion)
    requires configPath !in disk && "." !in disk
    ensures Load(configPath, disk, map[], c) == Success(DefaultConfig())
  {
    var s := Store(Defaults(), map[], map[], true, true);
    assert ShowsDefaults(s);
    DecodesToDefaults(s, c);
  }

  /** A store that shows the defaults alone decodes to DefaultConfig(). */
  lemma DecodesToDefaults(s: Store, c: Coercion)
    requires ShowsDefaults(s)
    ensures Decode(s, c) == Success(DefaultConfig())
  {
    DefaultServer(s, c);
    DefaultDatabase(s, c);
    DefaultRedis(s, c);
    DefaultKafka(s, c);
    DefaultLogging(s, c);
    DefaultJWT(s, c);
  }

  /** The entries of the file LoadConfig reads, if it reads one. */
  function FileEntries(configPath: string, disk: Disk): Layer {
    match ReadConfigFile(SearchPaths(configPath), disk)
    case Success(entries) => entries
    case Failure(_) => map[]
  }

  /** The value LoadConfig resolves for a key is its entry in the override-merge of
      the defaults table, the found file and the environment; v.Unmarshal reads that
      value only for a key with a default or a file entry. */
  lemma ResolvedValue(configPath: string, disk: Disk, env: Env, k: Key)
    requires Layers(configPath, disk, env).Success?
    ensures var s := Layers(configPath, disk, env).value;
            var file := FileEntries(configPath, disk);
            var merged := Defaults() + ByKey(file) + EnvLayer(env, true);
            && s.Get(k) == Lookup(merged, k)
            && s.Visible(k) == (if k in Defaults() || Name(k) in file then Lookup(merged, k) else None)
  {
    Precedence(Layers(configPath, disk, env).value, k);
  }

  /** A missing file is not an error: LoadConfig then decodes the defaults under the
      environment. */
  lemma MissingFileIsTolerated(configPath: string, disk: Disk, env: Env, c: Coercion)
    requires configPath !in disk && "." !in disk
    ensures Layers(configPath, disk, env) == Success(Store(Defaults(), map[], env, true, true))
    ensures Load(configPath, disk, env, c).Failure? ==> Load(configPath, disk, env, c).error.DecodingConfig?
  {
  }

  /** A file that is found but cannot be read or parsed makes LoadConfig fail with
      that error. */
  lemma FileErrorIsFatal(configPath: string, disk: Disk, env: Env, c: Coercion)
    requires FindConfigFile(SearchPaths(configPath), disk).Some?
    ensures var f := disk[FindConfigFile(SearchPaths(configPath), disk).value];
            && (f.Unreadable? ==> Load(configPath, disk, env, c) == Failure(ReadingConfigFile(ReadFailed(f.cause))))
            && (f.Malformed? ==> Load(configPath, disk, env, c) == Failure(ReadingConfigFile(ParseFailed(f.detail))))
  {
  }

  /** LoadConfig succeeds exactly when no read error other than a missing file occurs
      and every field converts; its Config then holds each key's resolved value, and
      a decode failure is returned wrapped. */
  lemma LoadOutcome(configPath: string, disk: Disk, env: Env, c: Coercion)
    ensures Load(configPath, disk, env, c).Success? <==>
              && Layers(configPath, disk, env).Success?
              && forall k :: DecodeField(Layers(configPath, disk, env).value, c, k).Success?
    ensures Load(configPath, disk, env, c).Success? ==>
              forall k :: DecodeField(Layers(configPath, disk, env).value, c, k) ==
                          Success(FieldOf(Load(configPath, disk, env, c).value, k))
    ensures Layers(configPath, disk, env).Success? && Decode(Layers(configPath, disk, env).value, c).Failure? ==>
              Load(configPath, disk, env, c) ==
                Failure(DecodingConfig(Decode(Layers(configPath, disk, env).value, c).error))
  {
    if Layers(configPath, disk, env).Success? {
      DecodeIsFieldwise(Layers(configPath, disk, env).value, c);
    }
  }

  /** An environment variable overrides file and default for a key that has a default
      or a file entry: a string field takes its text, an int field the text's
      conversion, the list field the text split. */
  lemma EnvOverrides(configPath: string, disk: Disk, env: Env, c: Coercion, k: Key)
    requires Load(configPath, disk, env, c).Success?
    requires k in Defaults() || Name(k) in FileEntries(configPath, disk)
    requires EnvKey(Name(k)) in env
    ensures var raw := env[EnvKey(Name(k))];
            var field := FieldOf(Load(configPath, disk, env, c).value, k);
            && (KindOf(k) == StringField ==> field == StrVal(raw))
            && (KindOf(k) == IntField ==> c.toInt(raw) == Some(field.i))
            && (KindOf(k) == ListField ==> field == ListVal(c.splitList(raw)))
  {
    var s := Layers(configPath, disk, env).value;
    assert s.env == env && s.Known(k);
    assert Load(configPath, disk, env, c) == Success(Decode(s, c).value);
    StoreEnvOverrides(s, c, k);
  }

  /** In a store with the environment on and the replacer set, a known key's variable
      decides its field. */
  lemma StoreEnvOverrides(s: Store, c: Coercion, k: Key)
    requires s.automaticEnv && s.replaceDots && s.Known(k)
    requires EnvKey(Name(k)) in s.env
    requires Decode(s, c).Success?
    ensures var raw := s.env[EnvKey(Name(k))];
            var field := FieldOf(Decode(s, c).value, k);
            && (KindOf(k) == StringField ==> field == StrVal(raw))
            && (KindOf(k) == IntField ==> c.toInt(raw) == Some(field.i))
            && (KindOf(k) == ListField ==> field == ListVal(c.splitList(raw)))
  {
    assert s.Visible(k) == Some(StrVal(s.env[EnvKey(Name(k))]));
    DecodeIsFieldwise(s, c);
    FieldFromText(s, c, k, s.env[EnvKey(Name(k))], FieldOf(Decode(s, c).value, k));
  }

  /** An int field whose environment text does not convert makes LoadConfig fail with
      a decode error. */
  lemma UnconvertibleEnvIsFatal(configPath: string, disk: Disk, env: Env, c: Coercion, k: Key)
    requires Layers(configPath, disk, env).Success?
    requires KindOf(k) == IntField && EnvKey(Name(k)) in env
    requires c.toInt(env[EnvKey(Name(k))]).None?
    ensures Load(configPath, disk, env, c).Failure?
    ensures Load(configPath, disk, env, c).error.DecodingConfig?
  {
    var s := Layers(configPath, disk, env).value;
    assert s.automaticEnv && s.replaceDots && s.Known(k);
    assert s.Visible(k) == Some(StrVal(env[EnvKey(Name(k))]));
    assert DecodeField(s, c, k).Failure?;
    DecodeIsFieldwise(s, c);
  }

  /** The four fields without a default are "" unless the file sets them, whatever the
      environment holds. */
  lemma UnsetWithoutDefaultIsZero(configPath: string, disk: Disk, env: Env, c: Coercion, k: Key)
    requires Load(configPath, disk, env, c).Success?
    requires k in {DatabaseInfluxToken, DatabaseInfluxPassword, RedisPassword, JWTSecret}
    requires Name(k) !in FileEntries(configPath, disk)
    ensures FieldOf(Load(configPath, disk, env, c).value, k) == StrVal("")
  {
    LoadOutcome(configPath, disk, env, c);
    assert DecodeField(Layers(configPath, disk, env).value, c, k) ==
           Success(FieldOf(Load(configPath, disk, env, c).value, k));
  }

  // The four keys without a default are outside AllKeys() unless the file names them,
  // so their environment variables are never read. Giving them the default "" puts
  // every key among AllKeys() and lets the environment reach every field.

  /** The defaults table completed with "" for the four keys that have none. */
  function CompleteDefaults(): (t: Table)
    ensures forall k :: k in t
    ensures forall k :: k in Defaults() ==> t[k] == Defaults()[k]
    ensures forall k :: HasKind(KindOf(k), t[k])
  {
    Defaults()[DatabaseInfluxToken := StrVal("")][DatabaseInfluxPassword := StrVal("")]
              [RedisPassword := StrVal("")][JWTSecret := StrVal("")]
  }

  /** LoadConfig with the completed defaults table. */
  function CorrectedLoad(configPath: string, disk: Disk, env: Env, c: Coercion): Result<Config, LoadError> {
    match Layers(configPath, disk, env)
    case Failure(e) => Failure(ReadingConfigFile(e))
    case Success(s) =>
      match Decode(s.(defaults := CompleteDefaults()), c)
      case Failure(e) => Failure(DecodingConfig(e))
      case Success(cfg) => Success(cfg)
  }

  /** The variable viper consults for jwt.secret. */
  lemma JWTSecretVariable()
    ensures EnvKey(Name(JWTSecret)) == "jwt_secret"
  {
    assert forall i :: 0 <= i < 10 ==> EnvKey("jwt.secret")[i] == "jwt_secret"[i];
  }

  /** No other key's variable is jwt_secret. */
  lemma OnlyJWTSecretVariable(k: Key)
    requires k != JWTSecret
    ensures EnvKey(Name(k)) != "jwt_secret"
  {
    if k == RedisHost || k == RedisPort {
      assert Name(k)[0] == 'r';
    } else {
      assert |Name(k)| != 10;
    }
  }

  /** Every value v.Unmarshal reads already has its field's type, so decoding succeeds. */
  lemma WellTypedDecodes(s: Store, c: Coercion)
    requires forall k :: s.Visible(k).None? || HasKind(KindOf(k), s.Visible(k).value)
    ensures Decode(s, c).Success?
  {
    DecodeIsFieldwise(s, c);
    forall k ensures DecodeField(s, c, k).Success? {
      assert s.Visible(k).None? || HasKind(KindOf(k), s.Visible(k).value);
    }
  }

  /** As written: with no config file and only JWT_SECRET set, LoadConfig returns the
      defaults, its jwt secret empty. */
  lemma EnvOnlySecretIsIgnored(configPath: string, disk: Disk, c: Coercion)
    requires configPath !in disk && "." !in disk
    ensures Load(configPath, disk, map["jwt_secret" := "s3cr3t"], c) == Success(DefaultConfig())
    ensures DefaultConfig().jwt.secret == ""
  {
    var env := map["jwt_secret" := "s3cr3t"];
    var s := Store(Defaults(), map[], env, true, true);
    assert Layers(configPath, disk, env) == Success(s);
    assert ShowsDefaults(s) by {
      forall k ensures s.Visible(k) == Lookup(Defaults(), k) {
        if k != JWTSecret {
          OnlyJWTSecretVariable(k);
        }
      }
    }
    DecodesToDefaults(s, c);
  }

  /** Under the completed table and JWT_SECRET alone, every value v.Unmarshal reads
      has its field's type. */
  lemma SecretOnlyStoreIsWellTyped()
    ensures var t := Store(CompleteDefaults(), map[], map["jwt_secret" := "s3cr3t"], true, true);
            forall k :: t.Visible(k).None? || HasKind(KindOf(k), t.Visible(k).value)
  {
    var t := Store(CompleteDefaults(), map[], map["jwt_secret" := "s3cr3t"], true, true);
    forall k ensures t.Visible(k).None? || HasKind(KindOf(k), t.Visible(k).value) {
      if k != JWTSecret {
        OnlyJWTSecretVariable(k);
      }
    }
  }

  /** With the completed table the same input yields the environment's secret. */
  lemma CorrectedReadsEnvSecret(configPath: string, disk: Disk, c: Coercion)
    requires configPath !in disk && "." !in disk
    ensures CorrectedLoad(configPath, disk, map["jwt_secret" := "s3cr3t"], c).Success?
    ensures CorrectedLoad(configPath, disk, map["jwt_secret" := "s3cr3t"], c).value.jwt.secret == "s3cr3t"
  {
    var t := Store(CompleteDefaults(), map[], map["jwt_secret" := "s3cr3t"], true, true);
    CorrectedSecretOnlyLoads(configPath, disk, c);
    SecretOnlyJWT(c);
    DecodeComposition(t, c);
  }

  /** The jwt group under the completed table and JWT_SECRET alone. */
  lemma SecretOnlyJWT(c: Coercion)
    ensures DecodeJWT(Store(CompleteDefaults(), map[], map["jwt_secret" := "s3cr3t"], true, true), c) ==
              Success(JWTConfig("s3cr3t", 60))
  {
    var t := Store(CompleteDefaults(), map[], map["jwt_secret" := "s3cr3t"], true, true);
    JWTSecretVariable();
    OnlyJWTSecretVariable(JWTExpireMins);
    assert t.Get(JWTSecret) == Some(StrVal("s3cr3t"));
    assert DecodeString(t, c, JWTSecret) == Success("s3cr3t");
    assert CompleteDefaults()[JWTExpireMins] == IntVal(60);
    assert t.Get(JWTExpireMins) == Some(IntVal(60));
    assert DecodeInt(t, c, JWTExpireMins) == Success(60);
  }

  /** Under the completed table, no config file and JWT_SECRET alone, LoadConfig succeeds. */
  lemma CorrectedSecretOnlyLoads(configPath: string, disk: Disk, c: Coercion)
    requires configPath !in disk && "." !in disk
    ensures var t := Store(CompleteDefaults(), map[], map["jwt_secret" := "s3cr3t"], true, true);
            && Decode(t, c).Success?
            && CorrectedLoad(configPath, disk, map["jwt_secret" := "s3cr3t"], c) == Success(Decode(t, c).value)
  {
    var env := map["jwt_secret" := "s3cr3t"];
    var s := Store(Defaults(), map[], env, true, true);
    assert Layers(configPath, disk, env) == Success(s);
    var t := Store(CompleteDefaults(), map[], env, true, true);
    assert t == s.(defaults := CompleteDefaults());
    SecretOnlyStoreIsWellTyped();
    WellTypedDecodes(t, c);
  }

  /** A field decoded from an environment text: a string field takes the text, an int
      field its conversion, the list field its split. */
  lemma FieldFromText(s: Store, c: Coercion, k: Key, raw: string, field: Value)
    requires s.Visible(k) == Some(StrVal(raw))
    requires DecodeField(s, c, k) == Success(field)
    ensures KindOf(k) == StringField ==> field == StrVal(raw)
    ensures KindOf(k) == IntField ==> c.toInt(raw) == Some(field.i)
    ensures KindOf(k) == ListField ==> field == ListVal(c.splitList(raw))
  {
  }

  /** Corrected: an environment variable decides its field for every key. */
  lemma CorrectedEnvOverrides(configPath: string, disk: Disk, env: Env, c: Coercion, k: Key)
    requires CorrectedLoad(configPath, disk, env, c).Success?
    requires EnvKey(Name(k)) in env
    ensures var raw := env[EnvKey(Name(k))];
            var field := FieldOf(CorrectedLoad(configPath, disk, env, c).value, k);
            && (KindOf(k) == StringField ==> field == StrVal(raw))
            && (KindOf(k) == IntField ==> c.toInt(raw) == Some(field.i))
            && (KindOf(k) == ListField ==> field == ListVal(c.splitList(raw)))
  {
    var s := Layers(configPath, disk, env).value.(defaults := CompleteDefaults());
    assert s.env == env && s.Known(k);
    assert CorrectedLoad(configPath, disk, env, c) == Success(Decode(s, c).value);
    StoreEnvOverrides(s, c, k);
  }
}
