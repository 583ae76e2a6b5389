/** The Helm chart values a branch deployment is rendered with, and
    `_configure_vela_values`, which writes the branch's settings into them.

    A values document is a mapping from keys to nodes; a node is a nested
    mapping or a leaf. Python's `setdefault(key, {})` yields the existing
    node even when it is a leaf, and the next write into that leaf fails with
    an attribute error: `Child` is `None` exactly then. */
module ChartValues {
  import opened Common
  import U = UtilPkg
  import D = Deployment

  datatype Scalar = Str(s: string) | Int(i: int) | Bool(b: bool) | StrList(items: seq<string>)
  datatype Node = Dict(entries: map<string, Node>) | Leaf(value: Scalar)
  type Mapping = map<string, Node>

  /** `parent.setdefault(key, {})`, as the mapping later writes go into. */
  function Child(m: Mapping, key: string): (r: Option<Mapping>)
    ensures r.None? <==> key in m && m[key].Leaf?
    ensures r.Some? && key in m ==> m[key] == Dict(r.value)
    ensures key !in m ==> r == Some(map[])
    ensures r.Some? <==> Opens(m, key)
    ensures r.Some? ==> r.value == Sub(m, key)
  {
    if key !in m then Some(map[])
    else if m[key].Dict? then Some(m[key].entries)
    else None
  }

  /** Writes below `key` can succeed: it is a mapping or absent. */
  predicate Opens(m: Mapping, key: string) {
    !(key in m && m[key].Leaf?)
  }

  /** The mapping at `key`, or the empty one when there is none. */
  function Sub(m: Mapping, key: string): Mapping {
    if key in m && m[key].Dict? then m[key].entries else map[]
  }

  predicate Has(m: Mapping, key: string, x: Node) {
    key in m && m[key] == x
  }

  /** Between `m` and `r` only the entries named in `keys` differ. */
  ghost predicate SameOutside(m: Mapping, r: Mapping, keys: set<string>) {
    forall k :: k !in keys ==> (k in r <==> k in m) && (k in m ==> r[k] == m[k])
  }

  // ---------------------------------------------------------------------
  // The pgbouncer settings

  /** The pgbouncer settings copied into the chart, in the order they are copied. */
  const PgbouncerKeys: seq<string> :=
    ["default_pool_size", "max_client_conn", "reserve_pool_size", "query_wait_timeout", "server_idle_timeout", "server_lifetime"]

  /** The mapping `cfg` after copying the settings `config` gives for
      `keys`, one key after the other. */
  function Copied(cfg: Mapping, keys: seq<string>, config: map<string, int>): Mapping {
    if keys == [] then cfg
    else
      var before := Copied(cfg, keys[..|keys| - 1], config);
      var key := keys[|keys| - 1];
      if key in config then before[key := Leaf(Int(config[key]))] else before
  }

  /** What the copy does: each listed key that `config` sets holds its
      setting, and every other entry is left as it was. */
  lemma {:induction false} CopiedMeaning(cfg: Mapping, keys: seq<string>, config: map<string, int>)
    ensures forall k :: k in keys && k in config ==> Has(Copied(cfg, keys, config), k, Leaf(Int(config[k])))
    ensures forall k :: !(k in keys && k in config) ==>
              (k in Copied(cfg, keys, config) <==> k in cfg) && (k in cfg ==> Copied(cfg, keys, config)[k] == cfg[k])
  {
    if keys != [] {
      var init := keys[..|keys| - 1];
      assert keys == init + [keys[|keys| - 1]];
      CopiedMeaning(cfg, init, config);
    }
  }

  /** `for key in keys: value = config.get(key); if value is not None: cfg[key] = value`. */
  method CopyConfig(cfg: Mapping, keys: seq<string>, config: map<string, int>) returns (r: Mapping)
    ensures r == Copied(cfg, keys, config)
  {
    r := cfg;
    var i := 0;
    while i < |keys|
      invariant 0 <= i <= |keys|
      invariant r == Copied(cfg, keys[..i], config)
    {
      assert keys[..i + 1][..i] == keys[..i];
      if keys[i] in config {
        r := r[keys[i] := Leaf(Int(config[keys[i]]))];
      }
      i := i + 1;
    }
    assert keys[..i] == keys;
  }

  // ---------------------------------------------------------------------
  // The sections of the chart values

  /** The fields of `DeploymentParameters` the chart values use; the image
      is what the database image tag resolves to. */
  datatype ChartParameters = ChartParameters(
    databasePassword: string,
    databaseSize: int,
    storageSize: Option<int>,
    milliVcpu: int,
    memoryBytes: int,
    imageRepository: string,
    imageTag: string)

  /** The per-branch inputs of `_configure_vela_values` and the settings it reads. */
  datatype ChartInputs = ChartInputs(
    parameters: ChartParameters,
    jwtSecret: string,
    pgbouncerAdminPassword: string,
    storageClassName: string,
    useExistingDbPvc: bool,
    pgbouncerConfig: Option<map<string, int>>,
    enableFileStorage: bool,
    enableDbExternalIpv6: bool,
    pgmetaCryptoKey: string,
    release: string)


  function AttributeError(at: string): Failure { Raised("AttributeError", at) }
  function TypeError(at: string): Failure { Raised("TypeError", at) }

  // Each step below works on one section of the values, the mapping under
  // one top-level key: writing into a leaf with `[key] = value` raises a
  // type error, and calling `setdefault`, `update` or `pop` on one raises an attribute
  // error.

  /** Some pgbouncer setting the copy loop writes is given. */
  predicate WritesPgbouncer(config: Option<map<string, int>>) {
    config.Some? && exists k :: k in PgbouncerKeys && k in config.value
  }

  /** The pgbouncer settings `_configure_vela_values` leaves in the section `p`. */
  predicate PgbouncerWritten(p: Mapping, config: Option<map<string, int>>) {
    "config" in p &&
    (config.Some? ==> forall k :: k in PgbouncerKeys && k in config.value ==>
       Has(Sub(p, "config"), k, Leaf(Int(config.value[k]))))
  }

  /** The `pgbouncer` section: `setdefault("config", {})` and, when settings
      are given, the copy loop. A `config` leaf is only an error once the
      loop writes a setting into it. */
  function PgbouncerSection(p: Mapping, config: Option<map<string, int>>): (r: Result<Mapping>)
    ensures r.Ok? <==> (WritesPgbouncer(config) ==> Opens(p, "config"))
    ensures r.Err? ==> r.failure == TypeError("pgbouncer.config")
  {
    match Child(p, "config")
    case None =>
      if WritesPgbouncer(config) then Err(TypeError("pgbouncer.config")) else Ok(p)
    case Some(cfg) =>
      if config.Some? && config.value != map[] then
        Ok(p["config" := Dict(Copied(cfg, PgbouncerKeys, config.value))])
      else
        Ok(p["config" := Dict(cfg)])
  }

  /** The settings given for the copied keys are in `config`; every other
      entry, of the section and of `config`, is as it was. */
  lemma PgbouncerSectionWrites(p: Mapping, config: Option<map<string, int>>)
    ensures var r := PgbouncerSection(p, config);
      r.Ok? ==> PgbouncerWritten(r.value, config) && SameOutside(p, r.value, {"config"})
    ensures var r := PgbouncerSection(p, config);
      r.Ok? ==> forall k :: !(config.Some? && k in PgbouncerKeys && k in config.value) ==>
                  (k in Sub(r.value, "config") <==> k in Sub(p, "config")) &&
                  (k in Sub(p, "config") ==> Sub(r.value, "config")[k] == Sub(p, "config")[k])
  {
    match Child(p, "config")
    case None =>
    case Some(cfg) =>
      if config.Some? && config.value != map[] {
        CopiedMeaning(cfg, PgbouncerKeys, config.value);
      }
  }

  /** The `pgbouncer` section, with the copy loop. */
  method ConfigurePgbouncer(p: Mapping, config: Option<map<string, int>>) returns (r: Result<Mapping>)
    ensures r == PgbouncerSection(p, config)
  {
    var cfg := Child(p, "config");
    if cfg.None? {
      if WritesPgbouncer(config) {
        return Err(TypeError("pgbouncer.config"));
      }
      return Ok(p);
    }
    var copied := cfg.value;
    if config.Some? && config.value != map[] {
      copied := CopyConfig(cfg.value, PgbouncerKeys, config.value);
    }
    r := Ok(p["config" := Dict(copied)]);
  }

  /** `db.setdefault("service", {})["externalEnabled"] = enabled`. */
  function ServiceSwitch(db: Mapping, enabled: bool): (r: Result<Mapping>)
    ensures r.Ok? <==> Opens(db, "service")
    ensures r.Err? ==> r.failure == TypeError("db.service")
    ensures r.Ok? ==> Opens(r.value, "service")
  {
    match Child(db, "service")
    case None => Err(TypeError("db.service"))
    case Some(service) => Ok(db["service" := Dict(service["externalEnabled" := Leaf(Bool(enabled))])])
  }

  /** The switch is set and nothing else in `db` changes. */
  lemma ServiceSwitchWrites(db: Mapping, enabled: bool)
    ensures var r := ServiceSwitch(db, enabled);
      r.Ok? ==> Has(Sub(r.value, "service"), "externalEnabled", Leaf(Bool(enabled)))
    ensures var r := ServiceSwitch(db, enabled);
      r.Ok? ==> SameOutside(db, r.value, {"service"}) &&
                SameOutside(Sub(db, "service"), Sub(r.value, "service"), {"externalEnabled"})
  {
  }

  /** The `secret` section: the JWT secret, the pg-meta crypto key, and the
      database and pgbouncer admin passwords. */
  function Secrets(secret: Mapping, jwtSecret: string, cryptoKey: string, password: string, adminPassword: string): (r: Result<Mapping>)
    ensures r.Ok? <==> Opens(secret, "jwt") && Opens(secret, "db") && Opens(secret, "pgbouncer")
    ensures !Opens(secret, "jwt") ==> r == Err(AttributeError("secret.jwt"))
    ensures Opens(secret, "jwt") && r.Err? ==> r.failure.Raised? && r.failure.kind == "TypeError"
  {
    match Child(secret, "jwt")
    case None => Err(AttributeError("secret.jwt"))
    case Some(jwt) =>
      var s1 := secret["jwt" := Dict(jwt["secret" := Leaf(Str(jwtSecret))])]["pgmeta_crypto_key" := Leaf(Str(cryptoKey))];
      match Child(s1, "db")
      case None => Err(TypeError("secret.db"))
      case Some(db) =>
        var s2 := s1["db" := Dict(db["password" := Leaf(Str(password))])];
        match Child(s2, "pgbouncer")
        case None => Err(TypeError("secret.pgbouncer"))
        case Some(pgbouncer) => Ok(s2["pgbouncer" := Dict(pgbouncer["admin_password" := Leaf(Str(adminPassword))])])
  }

  /** The four secrets are set and nothing else in the section changes. */
  lemma SecretsWrites(secret: Mapping, jwtSecret: string, cryptoKey: string, password: string, adminPassword: string)
    ensures var r := Secrets(secret, jwtSecret, cryptoKey, password, adminPassword);
      r.Ok? ==> Has(Sub(r.value, "jwt"), "secret", Leaf(Str(jwtSecret))) &&
                Has(r.value, "pgmeta_crypto_key", Leaf(Str(cryptoKey))) &&
                Has(Sub(r.value, "db"), "password", Leaf(Str(password))) &&
                Has(Sub(r.value, "pgbouncer"), "admin_password", Leaf(Str(adminPassword)))
    ensures var r := Secrets(secret, jwtSecret, cryptoKey, password, adminPassword);
      r.Ok? ==> SameOutside(secret, r.value, {"jwt", "pgmeta_crypto_key", "db", "pgbouncer"})
    ensures var r := Secrets(secret, jwtSecret, cryptoKey, password, adminPassword);
      r.Ok? ==> SameOutside(Sub(secret, "jwt"), Sub(r.value, "jwt"), {"secret"}) &&
                SameOutside(Sub(secret, "db"), Sub(r.value, "db"), {"password"}) &&
                SameOutside(Sub(secret, "pgbouncer"), Sub(r.value, "pgbouncer"), {"admin_password"})
  {
  }

  /** A size in bytes as the chart's whole-gigabyte quantity. */
  function GbQuantity(bytes: int): string {
    IntToString(U.BytesToGb(bytes)) + "G"
  }

  /** The `storage` section: the volume size (dropped when none is given),
      the storage class and whether file storage is enabled. */
  function StorageSection(storage: Mapping, storageSize: Option<int>, storageClassName: string, enableFileStorage: bool): (r: Result<Mapping>)
    ensures r.Ok? <==> Opens(storage, "persistence")
    ensures r.Err? ==> r.failure == (if storageSize.Some? then TypeError("storage.persistence") else AttributeError("storage.persistence"))
  {
    match Child(storage, "persistence")
    case None => Err(if storageSize.Some? then TypeError("storage.persistence") else AttributeError("storage.persistence"))
    case Some(persistence) =>
      var sized := if storageSize.Some? then persistence["size" := Leaf(Str(GbQuantity(storageSize.value)))]
                   else persistence - {"size"};
      Ok(storage["persistence" := Dict(sized["storageClassName" := Leaf(Str(storageClassName))])]["enabled" := Leaf(Bool(enableFileStorage))])
  }

  /** The size (or its removal), the class and the switch are set and
      nothing else in the section changes. */
  lemma StorageSectionWrites(storage: Mapping, storageSize: Option<int>, storageClassName: string, enableFileStorage: bool)
    ensures var r := StorageSection(storage, storageSize, storageClassName, enableFileStorage);
      r.Ok? ==> (storageSize.Some? ==> Has(Sub(r.value, "persistence"), "size", Leaf(Str(GbQuantity(storageSize.value))))) &&
                (storageSize.None? ==> "size" !in Sub(r.value, "persistence")) &&
                Has(Sub(r.value, "persistence"), "storageClassName", Leaf(Str(storageClassName))) &&
                Has(r.value, "enabled", Leaf(Bool(enableFileStorage)))
    ensures var r := StorageSection(storage, storageSize, storageClassName, enableFileStorage);
      r.Ok? ==> SameOutside(storage, r.value, {"persistence", "enabled"}) &&
                SameOutside(Sub(storage, "persistence"), Sub(r.value, "persistence"), {"size", "storageClassName"})
  {
  }

  /** `db.persistence`: the volume size, `create: false` when the volume is
      reused, and the storage class. */
  function DbVolume(db: Mapping, databaseSize: int, useExistingDbPvc: bool, storageClassName: string): (r: Result<Mapping>)
    ensures r.Ok? <==> Opens(db, "persistence")
    ensures r.Err? ==> r.failure == TypeError("db.persistence")
  {
    match Child(db, "persistence")
    case None => Err(TypeError("db.persistence"))
    case Some(persistence) =>
      var sized := persistence["size" := Leaf(Str(GbQuantity(databaseSize)))];
      var created := if useExistingDbPvc then sized["create" := Leaf(Bool(false))] else sized;
      Ok(db["persistence" := Dict(created["storageClassName" := Leaf(Str(storageClassName))])])
  }

  /** The size, the class and, when the volume is reused, `create: false`
      are set; nothing else in `db` changes. */
  lemma DbVolumeWrites(db: Mapping, databaseSize: int, useExistingDbPvc: bool, storageClassName: string)
    ensures var r := DbVolume(db, databaseSize, useExistingDbPvc, storageClassName);
      r.Ok? ==> Has(Sub(r.value, "persistence"), "size", Leaf(Str(GbQuantity(databaseSize)))) &&
                (useExistingDbPvc ==> Has(Sub(r.value, "persistence"), "create", Leaf(Bool(false)))) &&
                Has(Sub(r.value, "persistence"), "storageClassName", Leaf(Str(storageClassName)))
    ensures var r := DbVolume(db, databaseSize, useExistingDbPvc, storageClassName);
      r.Ok? ==> SameOutside(db, r.value, {"persistence"}) &&
                SameOutside(Sub(db, "persistence"), Sub(r.value, "persistence"),
                            if useExistingDbPvc then {"size", "create", "storageClassName"} else {"size", "storageClassName"})
  {
  }

  /** The `cpus` mapping of the autoscaler VM. */
  function CpusNode(c: D.CpuRange): Node {
    Dict(map["min" := Leaf(Str(c.min)), "use" := Leaf(Str(c.use)), "max" := Leaf(Str(c.max))])
  }

  /** The `memorySlots` mapping of the autoscaler VM. */
  function SlotsNode(s: D.MemorySlots): Node {
    Dict(map["min" := Leaf(Int(s.min)), "use" := Leaf(Int(s.use)), "limit" := Leaf(Int(s.limit)), "max" := Leaf(Int(s.max))])
  }

  const AutoscalerPvcSuffix: string := "-block-data"

  /** The values the autoscaler section receives. */
  datatype AutoscalerSettings = AutoscalerSettings(
    imageRepository: string, imageTag: string, cpus: D.CpuRange, memorySlotSize: string,
    memorySlots: D.MemorySlots, create: bool, claimName: string, size: string, storageClassName: string)

  /** They are computed from the branch's inputs. */
  function AutoscalerSettingsFor(c: ChartInputs): AutoscalerSettings {
    var (slotSize, slots) := D.CalculateAutoscalerVmMemory(c.parameters.memoryBytes);
    AutoscalerSettings(c.parameters.imageRepository, c.parameters.imageTag, D.CalculateAutoscalerVmCpus(c.parameters.milliVcpu),
                       slotSize, slots, !c.useExistingDbPvc, D.AutoscalerVmName(c.release) + AutoscalerPvcSuffix,
                       GbQuantity(c.parameters.databaseSize), c.storageClassName)
  }

  /** The autoscaler receives the image of the branch's database, the CPU
      range and memory slots its resources call for, a claim named after
      its VM, and a volume of the database's size that is created unless
      the existing one is reused. */
  lemma AutoscalerSettingsMeaning(c: ChartInputs)
    ensures var s := AutoscalerSettingsFor(c);
      s.imageRepository == c.parameters.imageRepository && s.imageTag == c.parameters.imageTag &&
      s.cpus == D.CalculateAutoscalerVmCpus(c.parameters.milliVcpu) &&
      (s.memorySlotSize, s.memorySlots) == D.CalculateAutoscalerVmMemory(c.parameters.memoryBytes) &&
      s.claimName == D.AutoscalerVmName(c.release) + AutoscalerPvcSuffix &&
      s.create == !c.useExistingDbPvc && s.size == GbQuantity(c.parameters.databaseSize) &&
      s.storageClassName == c.storageClassName
  {
  }

  const DefaultAccessModes: Node := Leaf(StrList(["ReadWriteMany"]))


  /** Outside the entries `_configure_vela_values` writes, the autoscaler
      section `r` is the section `a` it started from. */
  ghost predicate SectionKept(a: Mapping, r: Mapping) {
    SameOutside(a, r, {"enabled", "image", "resources", "persistence"}) &&
    SameOutside(Sub(a, "image"), Sub(r, "image"), {"repository", "tag"}) &&
    SameOutside(Sub(a, "resources"), Sub(r, "resources"), {"cpus", "memorySlotSize", "memorySlots"}) &&
    SameOutside(Sub(a, "persistence"), Sub(r, "persistence"), {"create", "claimName", "size", "storageClassName", "accessModes"})
  }

  /** The writes into the autoscaler section, whose three sub-mappings are
      known to be mappings or absent. */
  function AutoscalerSection(a: Mapping, c: AutoscalerSettings): (r: Mapping)
    requires AutoscalerOpens(a)
  {
    var image := AutoscalerImage(Child(a, "image").value, c);
    var resources := AutoscalerResources(Child(a, "resources").value, c);
    var persistence := AutoscalerPersistence(Child(a, "persistence").value, c);
    a["enabled" := Leaf(Bool(true))]["image" := Dict(image)]["resources" := Dict(resources)]["persistence" := Dict(persistence)]
  }
  /** Every autoscaler setting is in place and nothing else in the section changes. */
  lemma AutoscalerSectionWrites(a: Mapping, c: AutoscalerSettings)
    requires AutoscalerOpens(a)
    ensures SectionWritten(AutoscalerSection(a, c), c, Sub(a, "persistence"))
    ensures SectionKept(a, AutoscalerSection(a, c))
  {
  }


  predicate ImageWritten(image: Mapping, c: AutoscalerSettings) {
    Has(image, "repository", Leaf(Str(c.imageRepository))) && Has(image, "tag", Leaf(Str(c.imageTag)))
  }

  function AutoscalerImage(image: Mapping, c: AutoscalerSettings): (r: Mapping)
    ensures ImageWritten(r, c)
    ensures SameOutside(image, r, {"repository", "tag"})
  {
    image["repository" := Leaf(Str(c.imageRepository))]["tag" := Leaf(Str(c.imageTag))]
  }

  predicate ResourcesWritten(resources: Mapping, c: AutoscalerSettings) {
    Has(resources, "cpus", CpusNode(c.cpus)) &&
    Has(resources, "memorySlotSize", Leaf(Str(c.memorySlotSize))) &&
    Has(resources, "memorySlots", SlotsNode(c.memorySlots))
  }

  function AutoscalerResources(resources: Mapping, c: AutoscalerSettings): (r: Mapping)
    ensures ResourcesWritten(r, c)
    ensures SameOutside(resources, r, {"cpus", "memorySlotSize", "memorySlots"})
  {
    resources["cpus" := CpusNode(c.cpus)]["memorySlotSize" := Leaf(Str(c.memorySlotSize))]["memorySlots" := SlotsNode(c.memorySlots)]
  }

  /** `before` is the persistence mapping the configuration started from. */
  predicate PersistenceWritten(p: Mapping, c: AutoscalerSettings, before: Mapping) {
    Has(p, "create", Leaf(Bool(c.create))) &&
    Has(p, "claimName", Leaf(Str(c.claimName))) &&
    Has(p, "size", Leaf(Str(c.size))) &&
    Has(p, "storageClassName", Leaf(Str(c.storageClassName))) &&
    "accessModes" in p && ("accessModes" !in before ==> p["accessModes"] == DefaultAccessModes) &&
    ("accessModes" in before ==> p["accessModes"] == before["accessModes"])
  }

  function AutoscalerPersistence(persistence: Mapping, c: AutoscalerSettings): (r: Mapping)
    ensures PersistenceWritten(r, c, persistence)
    ensures SameOutside(persistence, r, {"create", "claimName", "size", "storageClassName", "accessModes"})
  {
    var p := persistence["create" := Leaf(Bool(c.create))]
               ["claimName" := Leaf(Str(c.claimName))]
               ["size" := Leaf(Str(c.size))]
               ["storageClassName" := Leaf(Str(c.storageClassName))];
    if "accessModes" in p then p else p["accessModes" := DefaultAccessModes]
  }

  predicate AutoscalerOpens(a: Mapping) {
    Opens(a, "image") && Opens(a, "resources") && Opens(a, "persistence")
  }

  /** What `_configure_vela_values` leaves in the autoscaler section `a`;
      `before` is the persistence mapping it started from. */
  predicate SectionWritten(a: Mapping, c: AutoscalerSettings, before: Mapping) {
    Has(a, "enabled", Leaf(Bool(true))) && ImageWritten(Sub(a, "image"), c) &&
    ResourcesWritten(Sub(a, "resources"), c) && PersistenceWritten(Sub(a, "persistence"), c, before)
  }

  // ---------------------------------------------------------------------
  // _configure_vela_values

  /** The `db` section as `_configure_vela_values` leaves it: the external
      load balancer switch, then the database volume's size, reuse and class. */
  predicate DbWritten(db: Mapping, c: ChartInputs) {
    Has(Sub(db, "service"), "externalEnabled", Leaf(Bool(c.enableDbExternalIpv6))) &&
    Has(Sub(db, "persistence"), "size", Leaf(Str(GbQuantity(c.parameters.databaseSize)))) &&
    (c.useExistingDbPvc ==> Has(Sub(db, "persistence"), "create", Leaf(Bool(false)))) &&
    Has(Sub(db, "persistence"), "storageClassName", Leaf(Str(c.storageClassName)))
  }

  predicate SecretWritten(secret: Mapping, c: ChartInputs) {
    Has(Sub(secret, "jwt"), "secret", Leaf(Str(c.jwtSecret))) &&
    Has(secret, "pgmeta_crypto_key", Leaf(Str(c.pgmetaCryptoKey))) &&
    Has(Sub(secret, "db"), "password", Leaf(Str(c.parameters.databasePassword))) &&
    Has(Sub(secret, "pgbouncer"), "admin_password", Leaf(Str(c.pgbouncerAdminPassword)))
  }

  predicate StorageWritten(storage: Mapping, c: ChartInputs) {
    (c.parameters.storageSize.Some? ==>
       Has(Sub(storage, "persistence"), "size", Leaf(Str(GbQuantity(c.parameters.storageSize.value))))) &&
    (c.parameters.storageSize.None? ==> "size" !in Sub(storage, "persistence")) &&
    Has(Sub(storage, "persistence"), "storageClassName", Leaf(Str(c.storageClassName))) &&
    Has(storage, "enabled", Leaf(Bool(c.enableFileStorage)))
  }

  /** The shape of the values under which every write succeeds: each
      mapping written into is a mapping or absent. `pgbouncer.config` only
      matters when some setting is copied into it. */
  predicate Shaped(m: Mapping, c: ChartInputs) {
    Opens(m, "pgbouncer") && (WritesPgbouncer(c.pgbouncerConfig) ==> Opens(Sub(m, "pgbouncer"), "config")) &&
    RestShaped(m)
  }

  /** The part of `Shaped` about the sections after pgbouncer. */
  predicate RestShaped(m: Mapping) {
    Opens(m, "db") && Opens(Sub(m, "db"), "service") && Opens(Sub(m, "db"), "persistence") &&
    Opens(m, "secret") && Opens(Sub(m, "secret"), "jwt") && Opens(Sub(m, "secret"), "db") && Opens(Sub(m, "secret"), "pgbouncer") &&
    Opens(m, "storage") && Opens(Sub(m, "storage"), "persistence") &&
    Opens(m, "autoscalerVm") && AutoscalerOpens(Sub(m, "autoscalerVm"))
  }


  /** The values with the five sections `_configure_vela_values` writes
      stored back. */
  function Assemble(values: Mapping, pgbouncer: Mapping, db: Mapping, secret: Mapping, storage: Mapping, autoscaler: Mapping): (r: Mapping)
    ensures Sub(r, "pgbouncer") == pgbouncer && Sub(r, "db") == db && Sub(r, "secret") == secret &&
            Sub(r, "storage") == storage && Sub(r, "autoscalerVm") == autoscaler
    ensures SameOutside(values, r, {"pgbouncer", "db", "secret", "storage", "autoscalerVm"})
  {
    values["pgbouncer" := Dict(pgbouncer)]["db" := Dict(db)]["secret" := Dict(secret)]
          ["storage" := Dict(storage)]["autoscalerVm" := Dict(autoscaler)]
  }

  /** The chart values `_configure_vela_values` produces, or the error it
      raises. Each step reads and writes only its own section (the mapping
      under one top-level key, a missing one read as empty), so the sections
      are computed in the order the source writes them, the first failing
      write deciding the error, and stored back together. */
  function VelaValues(values: Mapping, c: ChartInputs): (r: Result<Mapping>)
    ensures r.Err? ==> r.failure.Raised? && r.failure.kind in {"AttributeError", "TypeError"}
  {
    if !Opens(values, "pgbouncer") then Err(AttributeError("pgbouncer"))
    else
      var pgbouncer := PgbouncerSection(Sub(values, "pgbouncer"), c.pgbouncerConfig);
      if pgbouncer.Err? then pgbouncer
      else ConfigureRest(values, pgbouncer.value, c, AutoscalerSettingsFor(c))
  }

  /** The steps after the pgbouncer one, given the new pgbouncer section. */
  function ConfigureRest(values: Mapping, pgbouncer: Mapping, c: ChartInputs, s: AutoscalerSettings): (r: Result<Mapping>)
    ensures r.Err? ==> r.failure.Raised? && r.failure.kind in {"AttributeError", "TypeError"}
  {
    if !Opens(values, "db") then Err(AttributeError("db"))
    else
      var db1 := ServiceSwitch(Sub(values, "db"), c.enableDbExternalIpv6);
      if db1.Err? then db1
      else if !Opens(values, "secret") then Err(AttributeError("secret"))
      else
        var secret := Secrets(Sub(values, "secret"), c.jwtSecret, c.pgmetaCryptoKey, c.parameters.databasePassword, c.pgbouncerAdminPassword);
        if secret.Err? then secret
        else
          var db2 := ServiceSwitch(db1.value, c.enableDbExternalIpv6).value;
          if !Opens(values, "storage") then Err(AttributeError("storage"))
          else
            var storage := StorageSection(Sub(values, "storage"), c.parameters.storageSize, c.storageClassName, c.enableFileStorage);
            if storage.Err? then storage
            else
              var db := DbVolume(db2, c.parameters.databaseSize, c.useExistingDbPvc, c.storageClassName);
              if db.Err? then db
              else if !Opens(values, "autoscalerVm") || !AutoscalerOpens(Sub(values, "autoscalerVm")) then Err(TypeError("autoscalerVm"))
              else Ok(Assemble(values, pgbouncer, db.value, secret.value, storage.value, AutoscalerSection(Sub(values, "autoscalerVm"), s)))
  }

  /** `_configure_vela_values`: writes the branch's settings into the chart
      values, or raises when a node it writes into is a leaf. */
  method ConfigureVelaValues(values: Mapping, c: ChartInputs) returns (r: Result<Mapping>)
    ensures r == VelaValues(values, c)
  {
    if !Opens(values, "pgbouncer") {
      return Err(AttributeError("pgbouncer"));
    }
    r := ConfigurePgbouncer(Sub(values, "pgbouncer"), c.pgbouncerConfig);
    if r.Ok? {
      r := ConfigureRest(values, r.value, c, AutoscalerSettingsFor(c));
    }
  }

  /** A step that changes only the entries `keys` of `m` leaves the mapping
      below any other key as it was. */
  lemma Kept(m: Mapping, r: Mapping, keys: set<string>, key: string)
    requires SameOutside(m, r, keys) && key !in keys
    ensures Sub(r, key) == Sub(m, key) && (Opens(r, key) <==> Opens(m, key))
  {
  }

  lemma SameOutsideChain(a: Mapping, b: Mapping, c: Mapping, k1: set<string>, k2: set<string>, keys: set<string>)
    requires SameOutside(a, b, k1) && SameOutside(b, c, k2) && k1 <= keys && k2 <= keys
    ensures SameOutside(a, c, keys)
  {
  }

  /** On success, the result is the values with the five new sections
      stored back, each the result of its step. */
  lemma VelaValuesPieces(values: Mapping, c: ChartInputs)
    returns (pgbouncer: Mapping, db1: Mapping, secret: Mapping, db2: Mapping, storage: Mapping, db: Mapping, autoscaler: Mapping)
    requires VelaValues(values, c).Ok?
    ensures PgbouncerSection(Sub(values, "pgbouncer"), c.pgbouncerConfig) == Ok(pgbouncer)
    ensures ServiceSwitch(Sub(values, "db"), c.enableDbExternalIpv6) == Ok(db1)
    ensures Secrets(Sub(values, "secret"), c.jwtSecret, c.pgmetaCryptoKey, c.parameters.databasePassword, c.pgbouncerAdminPassword) == Ok(secret)
    ensures ServiceSwitch(db1, c.enableDbExternalIpv6) == Ok(db2)
    ensures StorageSection(Sub(values, "storage"), c.parameters.storageSize, c.storageClassName, c.enableFileStorage) == Ok(storage)
    ensures DbVolume(db2, c.parameters.databaseSize, c.useExistingDbPvc, c.storageClassName) == Ok(db)
    ensures Opens(values, "autoscalerVm") && AutoscalerOpens(Sub(values, "autoscalerVm"))
    ensures autoscaler == AutoscalerSection(Sub(values, "autoscalerVm"), AutoscalerSettingsFor(c))
    ensures VelaValues(values, c) == Ok(Assemble(values, pgbouncer, db, secret, storage, autoscaler))
  {
    VelaValuesSucceeds(values, c);
    ServiceSwitchKeepsPersistence(Sub(values, "db"), c.enableDbExternalIpv6);
    pgbouncer := PgbouncerSection(Sub(values, "pgbouncer"), c.pgbouncerConfig).value;
    db1 := ServiceSwitch(Sub(values, "db"), c.enableDbExternalIpv6).value;
    secret := Secrets(Sub(values, "secret"), c.jwtSecret, c.pgmetaCryptoKey, c.parameters.databasePassword, c.pgbouncerAdminPassword).value;
    db2 := ServiceSwitch(db1, c.enableDbExternalIpv6).value;
    ServiceSwitchKeepsPersistence(db1, c.enableDbExternalIpv6);
    storage := StorageSection(Sub(values, "storage"), c.parameters.storageSize, c.storageClassName, c.enableFileStorage).value;
    db := DbVolume(db2, c.parameters.databaseSize, c.useExistingDbPvc, c.storageClassName).value;
    autoscaler := AutoscalerSection(Sub(values, "autoscalerVm"), AutoscalerSettingsFor(c));
  }

  /** What each section `VelaValues` computes holds. */
  lemma SectionsWrite(values: Mapping, c: ChartInputs, pgbouncer: Mapping, db1: Mapping, secret: Mapping,
                      db2: Mapping, storage: Mapping, db: Mapping, autoscaler: Mapping)
    requires PgbouncerSection(Sub(values, "pgbouncer"), c.pgbouncerConfig) == Ok(pgbouncer)
    requires ServiceSwitch(Sub(values, "db"), c.enableDbExternalIpv6) == Ok(db1)
    requires Secrets(Sub(values, "secret"), c.jwtSecret, c.pgmetaCryptoKey, c.parameters.databasePassword, c.pgbouncerAdminPassword) == Ok(secret)
    requires ServiceSwitch(db1, c.enableDbExternalIpv6) == Ok(db2)
    requires StorageSection(Sub(values, "storage"), c.parameters.storageSize, c.storageClassName, c.enableFileStorage) == Ok(storage)
    requires DbVolume(db2, c.parameters.databaseSize, c.useExistingDbPvc, c.storageClassName) == Ok(db)
    requires AutoscalerOpens(Sub(values, "autoscalerVm"))
    requires autoscaler == AutoscalerSection(Sub(values, "autoscalerVm"), AutoscalerSettingsFor(c))
    ensures PgbouncerWritten(pgbouncer, c.pgbouncerConfig) && SameOutside(Sub(values, "pgbouncer"), pgbouncer, {"config"})
    ensures DbWritten(db, c) && SameOutside(Sub(values, "db"), db, {"service", "persistence"})
    ensures SecretWritten(secret, c) && SameOutside(Sub(values, "secret"), secret, {"jwt", "pgmeta_crypto_key", "db", "pgbouncer"})
    ensures StorageWritten(storage, c) && SameOutside(Sub(values, "storage"), storage, {"persistence", "enabled"})
    ensures SectionWritten(autoscaler, AutoscalerSettingsFor(c), Sub(Sub(values, "autoscalerVm"), "persistence"))
    ensures SectionKept(Sub(values, "autoscalerVm"), autoscaler)
  {
    PgbouncerSectionWrites(Sub(values, "pgbouncer"), c.pgbouncerConfig);
    ServiceSwitchWrites(Sub(values, "db"), c.enableDbExternalIpv6);
    ServiceSwitchWrites(db1, c.enableDbExternalIpv6);
    SecretsWrites(Sub(values, "secret"), c.jwtSecret, c.pgmetaCryptoKey, c.parameters.databasePassword, c.pgbouncerAdminPassword);
    StorageSectionWrites(Sub(values, "storage"), c.parameters.storageSize, c.storageClassName, c.enableFileStorage);
    DbVolumeWrites(db2, c.parameters.databaseSize, c.useExistingDbPvc, c.storageClassName);
    AutoscalerSectionWrites(Sub(values, "autoscalerVm"), AutoscalerSettingsFor(c));
    Kept(db2, db, {"persistence"}, "service");
    SameOutsideChain(Sub(values, "db"), db1, db2, {"service"}, {"service"}, {"service", "persistence"});
    SameOutsideChain(Sub(values, "db"), db2, db, {"service", "persistence"}, {"persistence"}, {"service", "persistence"});
  }

  /** The service switch leaves the `persistence` entry of `db` below it alone. */
  lemma ServiceSwitchKeepsPersistence(db: Mapping, enabled: bool)
    ensures var r := ServiceSwitch(db, enabled); r.Ok? ==> Opens(r.value, "persistence") == Opens(db, "persistence")
  {
  }

  /** The steps after the pgbouncer one succeed exactly on the shape they need. */
  lemma RestSucceeds(values: Mapping, pgbouncer: Mapping, c: ChartInputs, s: AutoscalerSettings)
    ensures ConfigureRest(values, pgbouncer, c, s).Ok? <==> RestShaped(values)
  {
    var db1 := ServiceSwitch(Sub(values, "db"), c.enableDbExternalIpv6);
    if db1.Ok? {
      ServiceSwitchKeepsPersistence(Sub(values, "db"), c.enableDbExternalIpv6);
      ServiceSwitchKeepsPersistence(db1.value, c.enableDbExternalIpv6);
    }
  }

  /** It succeeds exactly when the values have the shape every write needs. */
  lemma VelaValuesSucceeds(values: Mapping, c: ChartInputs)
    ensures VelaValues(values, c).Ok? <==> Shaped(values, c)
  {
    var pgbouncer := PgbouncerSection(Sub(values, "pgbouncer"), c.pgbouncerConfig);
    if pgbouncer.Ok? {
      RestSucceeds(values, pgbouncer.value, c, AutoscalerSettingsFor(c));
    }
  }

  /** On success every setting is in place: the pgbouncer settings, the
      service switch, the secrets, both volumes and the autoscaler section. */
  lemma VelaValuesWrites(values: Mapping, c: ChartInputs)
    ensures var r := VelaValues(values, c);
      r.Ok? ==> PgbouncerWritten(Sub(r.value, "pgbouncer"), c.pgbouncerConfig) && DbWritten(Sub(r.value, "db"), c) &&
                SecretWritten(Sub(r.value, "secret"), c) && StorageWritten(Sub(r.value, "storage"), c) &&
                SectionWritten(Sub(r.value, "autoscalerVm"), AutoscalerSettingsFor(c), Sub(Sub(values, "autoscalerVm"), "persistence"))
  {
    if VelaValues(values, c).Ok? {
      var pgbouncer, db1, secret, db2, storage, db, autoscaler := VelaValuesPieces(values, c);
      SectionsWrite(values, c, pgbouncer, db1, secret, db2, storage, db, autoscaler);
    }
  }

  /** Nothing else changes: outside the five sections it writes the values
      are as they were, and inside each section only the entries it sets. */
  lemma VelaValuesFrame(values: Mapping, c: ChartInputs)
    ensures var r := VelaValues(values, c);
      r.Ok? ==> SameOutside(values, r.value, {"pgbouncer", "db", "secret", "storage", "autoscalerVm"}) &&
                SameOutside(Sub(values, "pgbouncer"), Sub(r.value, "pgbouncer"), {"config"}) &&
                SameOutside(Sub(values, "db"), Sub(r.value, "db"), {"service", "persistence"}) &&
                SameOutside(Sub(values, "secret"), Sub(r.value, "secret"), {"jwt", "pgmeta_crypto_key", "db", "pgbouncer"}) &&
                SameOutside(Sub(values, "storage"), Sub(r.value, "storage"), {"persistence", "enabled"}) &&
                SectionKept(Sub(values, "autoscalerVm"), Sub(r.value, "autoscalerVm"))
  {
    if VelaValues(values, c).Ok? {
      var pgbouncer, db1, secret, db2, storage, db, autoscaler := VelaValuesPieces(values, c);
      SectionsWrite(values, c, pgbouncer, db1, secret, db2, storage, db, autoscaler);
    }
  }
}
