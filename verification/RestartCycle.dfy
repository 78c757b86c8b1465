/** The connect, persist and reload cycle across restarts of the node. */
module RestartCycle {
  import opened Options

  /** The settings the cycle touches. */
  datatype Key =
    | QPU_ID | QPU_DISPLAY_NAME | NATIVE_GATE_SET | NUM_QUBITS | JWT_KEY_ID | REDIS_URL | WEBAPP_URL | CONNECT_PATH
    | HEARTBEAT_PATH | WEBHOOK_PATH | VPN_REQUIRED | VPN_CHECK_INTERVAL_SEC | VPN_INTERFACE_HINT | VPN_PROBE_TARGETS
    | NODE_AUTO_VPN | NODE_VPN_PROFILE_PATH | NODE_MACHINE_FINGERPRINT | JWT_PRIVATE_KEY | NODE_TOKEN

  /** The keys `load_persisted_runtime_config` copies from the config file. */
  const LOADED: seq<Key> := [
    QPU_ID, QPU_DISPLAY_NAME, NATIVE_GATE_SET, NUM_QUBITS, JWT_KEY_ID, REDIS_URL, WEBAPP_URL, CONNECT_PATH,
    HEARTBEAT_PATH, WEBHOOK_PATH, VPN_REQUIRED, VPN_CHECK_INTERVAL_SEC, VPN_INTERFACE_HINT, VPN_PROBE_TARGETS,
    NODE_AUTO_VPN, NODE_VPN_PROFILE_PATH, NODE_MACHINE_FINGERPRINT]

  const ALL: set<Key> := (set k | k in LOADED) + {JWT_PRIVATE_KEY, NODE_TOKEN}

  datatype Value = Null | Str(s: string) | Int(n: int) | Bool(b: bool) | List(items: seq<Value>) | Object

  type Fields = map<Key, Value>

  predicate StrList(v: Value) { v.List? && forall i :: 0 <= i < |v.items| ==> v.items[i].Str? }

  /** The declared type of each setting. */
  predicate Typed(k: Key, v: Value) {
    match k
    case NUM_QUBITS => v.Int?
    case VPN_CHECK_INTERVAL_SEC => v.Int?
    case VPN_REQUIRED => v.Bool?
    case NODE_AUTO_VPN => v.Bool?
    case VPN_INTERFACE_HINT => v.Str? || v.Null?
    case VPN_PROBE_TARGETS => StrList(v)
    case _ => v.Str?
  }

  function Default(k: Key): (v: Value)
    ensures Typed(k, v)
  {
    match k
    case NATIVE_GATE_SET => Str("cz")
    case NUM_QUBITS => Int(5)
    case WEBAPP_URL => Str("https://coda.conductorquantum.com")
    case WEBHOOK_PATH => Str("/api/internal/qpu/webhook")
    case CONNECT_PATH => Str("/api/internal/qpu/connect")
    case HEARTBEAT_PATH => Str("/api/internal/qpu/heartbeat")
    case VPN_REQUIRED => Bool(true)
    case VPN_CHECK_INTERVAL_SEC => Int(10)
    case VPN_PROBE_TARGETS => List([])
    case VPN_INTERFACE_HINT => Null
    case NODE_AUTO_VPN => Bool(true)
    case NODE_VPN_PROFILE_PATH => Str("/tmp/coda-node.ovpn")
    case _ => Str("")
  }

  ghost predicate Complete(s: Fields) { forall k: Key :: k in s && Typed(k, s[k]) }

  lemma AllKeys(k: Key)
    ensures k in ALL
    ensures k in LOADED <==> k != JWT_PRIVATE_KEY && k != NODE_TOKEN
  {
    if k != JWT_PRIVATE_KEY && k != NODE_TOKEN { IsLoaded(k); } else { NotLoaded(); }
    hide LOADED;
  }

  lemma NotLoaded()
    ensures JWT_PRIVATE_KEY !in LOADED && NODE_TOKEN !in LOADED
  {
  }

  lemma IsLoaded(k: Key)
    requires k != JWT_PRIVATE_KEY && k != NODE_TOKEN
    ensures k in LOADED
  {
    assert LOADED[0] == QPU_ID && LOADED[1] == QPU_DISPLAY_NAME && LOADED[2] == NATIVE_GATE_SET
      && LOADED[3] == NUM_QUBITS;
    assert LOADED[4] == JWT_KEY_ID && LOADED[5] == REDIS_URL && LOADED[6] == WEBAPP_URL && LOADED[7] == CONNECT_PATH;
    assert LOADED[8] == HEARTBEAT_PATH && LOADED[9] == WEBHOOK_PATH && LOADED[10] == VPN_REQUIRED;
    assert LOADED[11] == VPN_CHECK_INTERVAL_SEC && LOADED[12] == VPN_INTERFACE_HINT && LOADED[13] == VPN_PROBE_TARGETS;
    assert LOADED[14] == NODE_AUTO_VPN && LOADED[15] == NODE_VPN_PROFILE_PATH && LOADED[16] == NODE_MACHINE_FINGERPRINT;
  }

  lemma LoadedKeys()
    ensures forall k: Key :: k in LOADED <==> k != JWT_PRIVATE_KEY && k != NODE_TOKEN
    ensures forall k: Key :: k in ALL
  {
    forall k: Key ensures k in ALL && (k in LOADED <==> k != JWT_PRIVATE_KEY && k != NODE_TOKEN) { AllKeys(k); }
    hide LOADED, ALL;
  }

  // ---- the disk ----

  datatype File<T> = File(mode: nat, content: T)

  /** Text of the config file; keyPath is empty when the entry is missing or falsy. */
  datatype ConfigText = Blank | Malformed | NotObject | Entries(fields: Fields, keyPath: string)

  datatype Disk = Disk(config: Option<File<ConfigText>>, texts: map<string, File<string>>)

  const KEY_PATH := "/tmp/coda-private-key"

  const OWNER_ONLY: nat := 384 // 0600

  predicate ModeOk(posix: bool, mode: nat) { posix ==> mode == OWNER_ONLY }

  /** `_write_secure_text`; off POSIX the mode is whatever the system gives. */
  function Write<T>(posix: bool, content: T): File<T> { File(if posix then OWNER_ONLY else 438, content) }

  /** `_read_secure_text`; None when it raises. */
  function ReadSecure(posix: bool, disk: Disk, path: string): Option<string> {
    if path !in disk.texts then Some("")
    else if !ModeOk(posix, disk.texts[path].mode) then None
    else Some(disk.texts[path].content)
  }

  // ---- loading and merging ----

  function WithKey(fields: Fields, secret: string): Fields {
    if secret == "" then fields else fields[JWT_PRIVATE_KEY := Str(secret)]
  }

  function Copied(fields: Fields): Fields { map k | k in fields && k in LOADED :: fields[k] }

  /** What `load_persisted_runtime_config` returns; None when it raises. */
  function Load(posix: bool, disk: Disk): Option<Fields> {
    if disk.config.None? then Some(map[])
    else if !ModeOk(posix, disk.config.value.mode) then None
    else
      match disk.config.value.content
      case Blank => Some(map[])
      case Malformed => None
      case NotObject => None
      case Entries(fields, keyPath) =>
        var secret :- ReadSecure(posix, disk, if keyPath == "" then KEY_PATH else keyPath);
        Some(WithKey(Copied(fields), secret))
  }

  predicate IsBlank(v: Value) { v == Str("") || v == Null || v == List([]) }

  function Merged(env: Fields, persisted: Fields): Fields {
    map k | k in env.Keys + persisted.Keys ::
      if k in persisted && (k !in env || IsBlank(env[k])) then persisted[k] else env[k]
  }

  predicate Truthy(v: Value) {
    match v
    case Null => false
    case Str(s) => s != ""
    case Int(n) => n != 0
    case Bool(b) => b
    case List(items) => items != []
    case Object => true
  }

  predicate HasToken(env: Fields) { NODE_TOKEN in env && Truthy(env[NODE_TOKEN]) }

  function WithDefaults(m: Fields): Fields { map k | k in ALL :: if k in m then m[k] else Default(k) }

  predicate AllTyped(s: Fields) { forall k | k in ALL :: k in s && Typed(k, s[k]) }

  lemma CompleteIsTyped(s: Fields)
    ensures AllTyped(s) <==> Complete(s)
  {
    LoadedKeys();
    hide Typed, ALL;
  }

  datatype BootError = BadConfig | BadField | NoCredentials

  datatype Boot = Up(settings: Fields) | Down(error: BootError)

  /** `check_jwt_or_node_token`. */
  predicate CredentialsOk(s: Fields)
    requires Complete(s)
  {
    s[NODE_TOKEN].s != "" || (s[JWT_PRIVATE_KEY].s != "" && s[JWT_KEY_ID].s != "")
  }

  /** Building the settings object from what the environment gives. */
  function Construct(posix: bool, disk: Disk, env: Fields): Boot {
    var data := if HasToken(env) then Some(env) else
      match Load(posix, disk) case None => None case Some(p) => Some(Merged(env, p));
    if data.None? then Down(BadConfig)
    else
      var s := WithDefaults(data.value);
      CompleteIsTyped(s);
      if !AllTyped(s) then Down(BadField) else if CredentialsOk(s) then Up(s) else Down(NoCredentials)
  }

  /** Precedence without a token: a non-blank environment value, then the persisted one, then the default. */
  lemma Precedence(posix: bool, disk: Disk, env: Fields, p: Fields)
    requires !HasToken(env) && Load(posix, disk) == Some(p) && Construct(posix, disk, env).Up?
    ensures var s := Construct(posix, disk, env).settings;
      forall k: Key :: k in s && s[k] ==
        if k in env && env[k] != Str("") && env[k] != Null && env[k] != List([]) then env[k]
        else if k in p then p[k]
        else if k in env then env[k]
        else Default(k)
  {
    LoadedKeys();
    CompleteIsTyped(WithDefaults(Merged(env, p)));
    hide Load, ALL, LOADED, Default, Typed;
  }

  /** With a token nothing on disk matters. */
  lemma TokenIgnoresDisk(posix: bool, disk: Disk, other: Disk, env: Fields, token: string)
    requires NODE_TOKEN in env && env[NODE_TOKEN] == Str(token) && token != ""
    ensures Construct(posix, disk, env) == Construct(posix, other, env)
  {
    assert HasToken(env);
    hide Load, Merged, WithDefaults, AllTyped;
  }

  // ---- applying a bundle ----

  datatype VpnPart = VpnPart(
    required: Option<Value>, hint: Option<Value>, interval: Option<Value>, targets: Option<Value>,
    profile: Option<Value>)

  /** The cloud's answer: None where the entry is absent; vpn is None unless it is an object. */
  datatype Bundle = Bundle(
    qpuId: Option<Value>, displayName: Option<Value>, qpuLabel: Option<Value>, gateSet: Option<Value>,
    numQubits: Option<Value>, secret: Option<Value>, keyId: Option<Value>, redisUrl: Option<Value>,
    webappUrl: Option<Value>, cloudBaseUrl: Option<Value>, connectPath: Option<Value>, heartbeatPath: Option<Value>,
      webhookPath: Option<Value>, vpn: Option<VpnPart>)

  predicate GivesText(o: Option<Value>) { o.Some? && o.value.Str? && o.value.s != "" }

  /** `_as_str`. */
  function AsStr(o: Option<Value>): Option<Value> { if GivesText(o) then o else None }

  /** A Python bool is an int. */
  function AsNumber(v: Value): Option<Value> {
    match v
    case Int(n) => Some(v)
    case Bool(b) => Some(Int(if b then 1 else 0))
    case _ => None
  }

  /** `_as_int`. */
  function AsInt(o: Option<Value>, default: Value): Option<Value> {
    if o.None? then Some(default) else AsNumber(o.value)
  }

  function DisplayName(b: Bundle): Value {
    if b.displayName.Some? && Truthy(b.displayName.value) then b.displayName.value
    else if b.qpuLabel.Some? && Truthy(b.qpuLabel.value) then b.qpuLabel.value
    else Str("")
  }

  /** An optional entry replaces a setting when it is a non-empty string. */
  function Refreshed(o: Option<Value>, current: Value): Value { if GivesText(o) then o.value else current }

  function Identity(s: Fields, b: Bundle): Option<Fields>
    requires Complete(s)
  {
    var id :- AsStr(b.qpuId);
    if !DisplayName(b).Str? then None
    else
      var gates :- AsStr(b.gateSet);
      var n :- AsInt(b.numQubits, s[NUM_QUBITS]);
      Some(s[QPU_ID := id][QPU_DISPLAY_NAME := DisplayName(b)][NATIVE_GATE_SET := gates][NUM_QUBITS := n])
  }

  function Credentials(s: Fields, b: Bundle): Option<Fields>
    requires Complete(s)
  {
    var secret := Refreshed(b.secret, s[JWT_PRIVATE_KEY]);
    var id := Refreshed(b.keyId, s[JWT_KEY_ID]);
    if secret == Str("") || id == Str("") then None else Some(s[JWT_PRIVATE_KEY := secret][JWT_KEY_ID := id])
  }

  function Endpoints(s: Fields, b: Bundle): Option<Fields>
    requires Complete(s)
  {
    var redis :- AsStr(b.redisUrl);
    var webapp :- AsStr(if b.webappUrl.Some? then b.webappUrl else b.cloudBaseUrl);
    Some(s[REDIS_URL := redis][WEBAPP_URL := webapp]
          [CONNECT_PATH := Refreshed(b.connectPath, s[CONNECT_PATH])]
          [HEARTBEAT_PATH := Refreshed(b.heartbeatPath, s[HEARTBEAT_PATH])]
          [WEBHOOK_PATH := Refreshed(b.webhookPath, s[WEBHOOK_PATH])])
  }

  function VpnSettings(s: Fields, v: VpnPart): Fields
    requires Complete(s)
  {
    var required := if v.required.Some? && v.required.value.Bool? then v.required.value else s[VPN_REQUIRED];
    var hint := if v.hint.None? || v.hint.value.Null? then Null
                else if v.hint.value.Str? then v.hint.value
                else s[VPN_INTERFACE_HINT];
    var number := if v.interval.None? then None else AsNumber(v.interval.value);
    var interval := if number.Some? then number.value else s[VPN_CHECK_INTERVAL_SEC];
    var targets := if v.targets.Some? && StrList(v.targets.value) && v.targets.value.items != [] then v.targets.value
                   else s[VPN_PROBE_TARGETS];
    s[VPN_REQUIRED := required][VPN_INTERFACE_HINT := hint]
     [VPN_CHECK_INTERVAL_SEC := interval][VPN_PROBE_TARGETS := targets]
  }

  /** vpnOk: writing the profile and bringing the tunnel up succeeds, if it is attempted. */
  function Tunnel(s: Fields, b: Bundle, vpnOk: bool): Option<Fields>
    requires Complete(s)
  {
    if b.vpn.None? then Some(s)
    else
      var s1 := VpnSettings(s, b.vpn.value);
      var profile := GivesText(b.vpn.value.profile);
      VpnKeeps(s, b.vpn.value);
      if s1[VPN_REQUIRED] == Bool(true) && !profile then None
      else if s1[NODE_AUTO_VPN] == Bool(true) && profile && !vpnOk then None
      else Some(s1)
  }

  lemma SetField(s: Fields, k: Key, v: Value)
    requires Complete(s) && Typed(k, v)
    ensures Complete(s[k := v])
  {
    hide Typed;
  }

  /** Nothing but these settings changed. */
  ghost predicate Only(ks: set<Key>, s: Fields, r: Fields) {
    Complete(r) && forall k: Key :: k !in ks ==> k in s && k in r && r[k] == s[k]
  }

  lemma OnlySelf(ks: set<Key>, s: Fields)
    requires Complete(s)
    ensures Only(ks, s, s)
  {
    hide Typed;
  }

  lemma OnlySet(ks: set<Key>, s: Fields, r: Fields, k: Key, v: Value)
    requires Only(ks, s, r) && k in ks && Typed(k, v)
    ensures Only(ks, s, r[k := v])
  {
    SetField(r, k, v);
    hide Complete, Typed;
  }

  lemma OnlyMore(ks: set<Key>, ls: set<Key>, s: Fields, r: Fields, t: Fields)
    requires Complete(s) && Only(ks, s, r) && Only(ls, r, t)
    ensures Only(ks + ls, s, t)
  {
    CompleteKeys(s);
    CompleteKeys(t);
    hide Complete;
  }

  lemma IdentityKeeps(s: Fields, b: Bundle)
    requires Complete(s)
    ensures var r := Identity(s, b); r.Some? ==> Only(IDENTITY, s, r.value)
  {
    var r := Identity(s, b);
    assert Typed(NUM_QUBITS, s[NUM_QUBITS]);
    hide Complete, DisplayName;
    if r.Some? {
      var (id, gates, n) := (AsStr(b.qpuId).value, AsStr(b.gateSet).value, AsInt(b.numQubits, s[NUM_QUBITS]).value);
      SetField(s, QPU_ID, id);
      SetField(s[QPU_ID := id], QPU_DISPLAY_NAME, DisplayName(b));
      SetField(s[QPU_ID := id][QPU_DISPLAY_NAME := DisplayName(b)], NATIVE_GATE_SET, gates);
      SetField(s[QPU_ID := id][QPU_DISPLAY_NAME := DisplayName(b)][NATIVE_GATE_SET := gates], NUM_QUBITS, n);
      CompleteKeys(s);
    }
  }

  lemma CompleteKeys(s: Fields)
    requires Complete(s)
    ensures forall k: Key :: k in s
  {
    hide Typed;
  }

  lemma CredentialsKeep(s: Fields, b: Bundle)
    requires Complete(s)
    ensures var r := Credentials(s, b); r.Some? ==> Only(CREDENTIALS, s, r.value) && HasKeys(r.value)
  {
    var r := Credentials(s, b);
    var (secret, id) := (Refreshed(b.secret, s[JWT_PRIVATE_KEY]), Refreshed(b.keyId, s[JWT_KEY_ID]));
    assert Typed(JWT_PRIVATE_KEY, secret) && Typed(JWT_KEY_ID, id);
    CompleteKeys(s);
    hide Complete, Refreshed, Typed;
    if r.Some? {
      SetField(s, JWT_PRIVATE_KEY, secret);
      SetField(s[JWT_PRIVATE_KEY := secret], JWT_KEY_ID, id);
    }
  }

  lemma EndpointsKeep(s: Fields, b: Bundle)
    requires Complete(s)
    ensures var r := Endpoints(s, b);
      r.Some? ==> Only(ENDPOINTS, s, r.value)
  {
    var r := Endpoints(s, b);
    CompleteKeys(s);
    if r.Some? {
      var (redis, webapp) := (r.value[REDIS_URL], r.value[WEBAPP_URL]);
      var (c, h, w) := (r.value[CONNECT_PATH], r.value[HEARTBEAT_PATH], r.value[WEBHOOK_PATH]);
      assert Typed(REDIS_URL, redis) && Typed(WEBAPP_URL, webapp);
      assert Typed(CONNECT_PATH, c) && Typed(HEARTBEAT_PATH, h) && Typed(WEBHOOK_PATH, w);
      hide Complete, Refreshed, Typed, AsStr;
      SetField(s, REDIS_URL, redis);
      SetField(s[REDIS_URL := redis], WEBAPP_URL, webapp);
      SetField(s[REDIS_URL := redis][WEBAPP_URL := webapp], CONNECT_PATH, c);
      SetField(s[REDIS_URL := redis][WEBAPP_URL := webapp][CONNECT_PATH := c], HEARTBEAT_PATH, h);
      SetField(s[REDIS_URL := redis][WEBAPP_URL := webapp][CONNECT_PATH := c][HEARTBEAT_PATH := h], WEBHOOK_PATH, w);
    }
  }

  lemma VpnKeeps(s: Fields, v: VpnPart)
    requires Complete(s)
    ensures Only(TUNNEL, s, VpnSettings(s, v))
  {
    var r := VpnSettings(s, v);
    CompleteKeys(s);
    var (a, b, c, d) := (r[VPN_REQUIRED], r[VPN_INTERFACE_HINT], r[VPN_CHECK_INTERVAL_SEC], r[VPN_PROBE_TARGETS]);
    assert Typed(VPN_REQUIRED, a) && Typed(VPN_INTERFACE_HINT, b);
    assert Typed(VPN_CHECK_INTERVAL_SEC, c) && Typed(VPN_PROBE_TARGETS, d);
    hide Complete, Typed, AsNumber, StrList;
    assert r == s[VPN_REQUIRED := a][VPN_INTERFACE_HINT := b][VPN_CHECK_INTERVAL_SEC := c][VPN_PROBE_TARGETS := d];
    SetField(s, VPN_REQUIRED, a);
    SetField(s[VPN_REQUIRED := a], VPN_INTERFACE_HINT, b);
    SetField(s[VPN_REQUIRED := a][VPN_INTERFACE_HINT := b], VPN_CHECK_INTERVAL_SEC, c);
    SetField(s[VPN_REQUIRED := a][VPN_INTERFACE_HINT := b][VPN_CHECK_INTERVAL_SEC := c], VPN_PROBE_TARGETS, d);
  }

  lemma TunnelKeeps(s: Fields, b: Bundle, vpnOk: bool)
    requires Complete(s)
    ensures var r := Tunnel(s, b, vpnOk);
      r.Some? ==> Only(TUNNEL, s, r.value)
  {
    CompleteKeys(s);
    if b.vpn.Some? { VpnKeeps(s, b.vpn.value); }
    hide Complete, VpnSettings;
  }

  const IDENTITY: set<Key> := {QPU_ID, QPU_DISPLAY_NAME, NATIVE_GATE_SET, NUM_QUBITS}
  const CREDENTIALS: set<Key> := {JWT_PRIVATE_KEY, JWT_KEY_ID}
  const ENDPOINTS: set<Key> := {REDIS_URL, WEBAPP_URL, CONNECT_PATH, HEARTBEAT_PATH, WEBHOOK_PATH}
  const TUNNEL: set<Key> := {VPN_REQUIRED, VPN_INTERFACE_HINT, VPN_CHECK_INTERVAL_SEC, VPN_PROBE_TARGETS}

  /** What `apply_node_bundle` makes of the settings; None when it raises. */
  function Applied(s: Fields, b: Bundle, vpnOk: bool): Option<Fields>
    requires Complete(s)
  {
    IdentityKeeps(s, b);
    var s1 :- Identity(s, b);
    CredentialsKeep(s1, b);
    var s2 :- Credentials(s1, b);
    EndpointsKeep(s2, b);
    var s3 :- Endpoints(s2, b);
    Tunnel(s3, b, vpnOk)
  }

  ghost predicate HasKeys(s: Fields) {
    JWT_PRIVATE_KEY in s && JWT_KEY_ID in s && s[JWT_PRIVATE_KEY] != Str("") && s[JWT_KEY_ID] != Str("")
  }

  /** A bundle that is applied leaves complete settings with both credentials, and never touches the
      fingerprint, the token, or the two local VPN settings. */
  lemma AppliedKeeps(s: Fields, b: Bundle, vpnOk: bool)
    requires Complete(s) && Applied(s, b, vpnOk).Some?
    ensures var r := Applied(s, b, vpnOk).value;
      && Complete(r) && HasKeys(r)
      && r[NODE_MACHINE_FINGERPRINT] == s[NODE_MACHINE_FINGERPRINT] && r[NODE_TOKEN] == s[NODE_TOKEN]
      && r[NODE_AUTO_VPN] == s[NODE_AUTO_VPN] && r[NODE_VPN_PROFILE_PATH] == s[NODE_VPN_PROFILE_PATH]
  {
    hide Complete, Identity, Credentials, Endpoints, Tunnel;
    IdentityKeeps(s, b);
    var s1 := Identity(s, b).value;
    CredentialsKeep(s1, b);
    var s2 := Credentials(s1, b).value;
    EndpointsKeep(s2, b);
    var s3 := Endpoints(s2, b).value;
    TunnelKeeps(s3, b, vpnOk);
    KeptThrough(s, s1, s2, s3, Tunnel(s3, b, vpnOk).value);
    hide Only;
  }

  lemma KeptThrough(s: Fields, s1: Fields, s2: Fields, s3: Fields, r: Fields)
    requires Complete(s) && Only(IDENTITY, s, s1) && Only(CREDENTIALS, s1, s2) && HasKeys(s2)
    requires Only(ENDPOINTS, s2, s3) && Only(TUNNEL, s3, r)
    ensures Complete(r) && HasKeys(r)
    ensures r[NODE_MACHINE_FINGERPRINT] == s[NODE_MACHINE_FINGERPRINT] && r[NODE_TOKEN] == s[NODE_TOKEN]
    ensures r[NODE_AUTO_VPN] == s[NODE_AUTO_VPN] && r[NODE_VPN_PROFILE_PATH] == s[NODE_VPN_PROFILE_PATH]
  {
    hide Complete, Only;
    var kept := {NODE_MACHINE_FINGERPRINT, NODE_TOKEN, NODE_AUTO_VPN, NODE_VPN_PROFILE_PATH};
    KeepsThese(IDENTITY, kept, s, s1);
    KeepsThese(CREDENTIALS, kept, s1, s2);
    KeepsThese(ENDPOINTS, kept, s2, s3);
    KeepsThese(TUNNEL, kept, s3, r);
    KeepsThese(ENDPOINTS, CREDENTIALS, s2, s3);
    KeepsThese(TUNNEL, CREDENTIALS, s3, r);
  }

  lemma KeepsThese(ks: set<Key>, kept: set<Key>, s: Fields, r: Fields)
    requires Only(ks, s, r) && ks !! kept
    ensures Complete(r) && forall k | k in kept :: k in s && k in r && r[k] == s[k]
  {
    hide Complete;
  }

  // ---- connecting ----

  /** `_machine_fingerprint` from the host name and the hardware address. */
  function Generated(host: string, node: string): (f: string)
    ensures f != ""
  {
    host + "-" + node
  }

  /** `_resolve_machine_fingerprint`. */
  function Resolved(s: Fields, host: string, node: string): Fields
    requires Complete(s)
  {
    if s[NODE_MACHINE_FINGERPRINT] == Str("") then s[NODE_MACHINE_FINGERPRINT := Str(Generated(host, node))] else s
  }

  /** Where writing the two files stops. */
  datatype Writing = Both | Neither | KeyOnly

  function Persisted(posix: bool, disk: Disk, s: Fields, writing: Writing): Disk
    requires Complete(s)
  {
    if writing == Neither then disk
    else
      var d1 := disk.(texts := disk.texts[KEY_PATH := Write(posix, s[JWT_PRIVATE_KEY].s)]);
      if writing == KeyOnly then d1
      else d1.(config := Some(Write(posix, Entries(map k | k in LOADED :: s[k], KEY_PATH))))
  }

  /** What the world does during one connect. */
  datatype Weather = Weather(
    host: string, node: string,
    ready: bool,               // the tunnel is restored (without a token) and the request can be signed
    reply: Option<Bundle>,     // None: the request fails
    vpnOk: bool, writing: Writing)

  /** The fingerprints sent, the disk left behind, and whether the connect succeeded. */
  datatype Life = Life(sent: seq<string>, disk: Disk, connected: bool)

  lemma ResolvedComplete(s: Fields, host: string, node: string)
    requires Complete(s)
    ensures Complete(Resolved(s, host, node)) && Resolved(s, host, node)[NODE_MACHINE_FINGERPRINT].s != ""
  {
  }

  /** `connect_settings`. */
  function Connected(posix: bool, disk: Disk, s: Fields, w: Weather): Life
    requires Complete(s)
  {
    var s1 := Resolved(s, w.host, w.node);
    ResolvedComplete(s, w.host, w.node);
    if !w.ready then Life([], disk, false)
    else
      var sent := [s1[NODE_MACHINE_FINGERPRINT].s];
      if w.reply.None? then Life(sent, disk, false)
      else
        var s2 := Applied(s1, w.reply.value, w.vpnOk);
        if s2.None? then Life(sent, disk, false)
        else
          AppliedKeeps(s1, w.reply.value, w.vpnOk);
          Life(sent, Persisted(posix, disk, s2.value, w.writing), w.writing == Both)
  }

  lemma ConstructComplete(posix: bool, disk: Disk, env: Fields)
    ensures var r := Construct(posix, disk, env); r.Up? ==> Complete(r.settings) && CredentialsOk(r.settings)
  {
    var r := Construct(posix, disk, env);
    if r.Up? { CompleteIsTyped(r.settings); }
    hide Load, Merged, WithDefaults, AllTyped;
  }

  /** One process: build the settings, then connect. */
  function Started(posix: bool, disk: Disk, env: Fields, w: Weather): Life {
    var r := Construct(posix, disk, env);
    ConstructComplete(posix, disk, env);
    if r.Down? then Life([], disk, false) else Connected(posix, disk, r.settings, w)
  }

  // ---- the invariant of a provisioned disk ----

  predicate NoToken(env: Fields) { NODE_TOKEN in env ==> env[NODE_TOKEN] == Str("") }

  /** The environment leaves every persisted setting unset or blank. */
  predicate NoOverrides(env: Fields) { forall k | k in env.Keys && k != NODE_TOKEN :: IsBlank(env[k]) }

  ghost predicate Provisioned(posix: bool, disk: Disk, fp: string) {
    && disk.config.Some? && ModeOk(posix, disk.config.value.mode) && disk.config.value.content.Entries?
    && disk.config.value.content.keyPath == KEY_PATH
    && GoodFields(disk.config.value.content.fields, fp)
    && KEY_PATH in disk.texts && ModeOk(posix, disk.texts[KEY_PATH].mode) && disk.texts[KEY_PATH].content != ""
    && fp != ""
  }

  ghost predicate GoodFields(fields: Fields, fp: string) {
    && (forall k: Key :: k in LOADED ==> k in fields && Typed(k, fields[k]))
    && JWT_KEY_ID in fields && fields[JWT_KEY_ID] != Str("")
    && NODE_MACHINE_FINGERPRINT in fields && fields[NODE_MACHINE_FINGERPRINT] == Str(fp)
  }

  /** What a provisioned disk holds for a setting. */
  function OnDisk(disk: Disk, k: Key): Value
    requires disk.config.Some? && disk.config.value.content.Entries?
    requires k in LOADED ==> k in disk.config.value.content.fields
    requires KEY_PATH in disk.texts
  {
    if k in LOADED then disk.config.value.content.fields[k]
    else if k == JWT_PRIVATE_KEY then Str(disk.texts[KEY_PATH].content)
    else Str("")
  }

  /** The loaded settings are those on disk, the private key included, and no token. */
  ghost predicate LoadsAll(disk: Disk, r: Fields) {
    && disk.config.Some? && disk.config.value.content.Entries? && KEY_PATH in disk.texts
    && (forall k: Key :: k in LOADED ==> k in disk.config.value.content.fields)
    && NODE_TOKEN !in r
    && forall k: Key :: k != NODE_TOKEN ==> k in r && r[k] == OnDisk(disk, k)
  }

  lemma LoadsProvisioned(posix: bool, disk: Disk, fp: string)
    requires Provisioned(posix, disk, fp)
    ensures Load(posix, disk).Some? && LoadsAll(disk, Load(posix, disk).value)
  {
    LoadedKeys();
    hide Typed, LOADED, KEY_PATH;
  }

  /** A token-free start from a provisioned disk always passes the credential test and gets every
      persisted setting, the private key included, exactly as it is on disk. */
  lemma StartsFromDisk(posix: bool, disk: Disk, fp: string, env: Fields)
    requires Provisioned(posix, disk, fp) && NoToken(env) && NoOverrides(env)
    ensures var r := Construct(posix, disk, env);
      && r.Up? && Complete(r.settings) && HasKeys(r.settings)
      && r.settings[NODE_MACHINE_FINGERPRINT] == Str(fp) && r.settings[NODE_TOKEN] == Str("")
      && forall k: Key :: r.settings[k] == OnDisk(disk, k)
  {
    LoadsProvisioned(posix, disk, fp);
    DiskTyped(posix, disk, fp);
    var p := Load(posix, disk).value;
    hide LOADED, ALL, KEY_PATH, Load;
    MergedFromDisk(disk, env, p);
    var s := WithDefaults(Merged(env, p));
    hide OnDisk, Provisioned, Typed, Merged, WithDefaults, IsBlank;
    assert Complete(s) && HasKeys(s);
    hide Construct;
    ConstructUp(posix, disk, env, p);
  }

  lemma ConstructUp(posix: bool, disk: Disk, env: Fields, p: Fields)
    requires NoToken(env) && Load(posix, disk) == Some(p)
    requires var s := WithDefaults(Merged(env, p)); Complete(s) && HasKeys(s)
    ensures Construct(posix, disk, env) == Up(WithDefaults(Merged(env, p)))
  {
    CompleteIsTyped(WithDefaults(Merged(env, p)));
    hide Load, Merged, WithDefaults, AllTyped;
  }

  lemma DiskTyped(posix: bool, disk: Disk, fp: string)
    requires Provisioned(posix, disk, fp)
    ensures forall k: Key :: Typed(k, OnDisk(disk, k))
    ensures OnDisk(disk, JWT_KEY_ID) != Str("") && OnDisk(disk, JWT_PRIVATE_KEY) != Str("")
    ensures OnDisk(disk, NODE_MACHINE_FINGERPRINT) == Str(fp) && OnDisk(disk, NODE_TOKEN) == Str("")
  {
    LoadedKeys();
    hide LOADED, ALL, KEY_PATH;
  }

  lemma MergedFromDisk(disk: Disk, env: Fields, p: Fields)
    requires disk.config.Some? && disk.config.value.content.Entries? && KEY_PATH in disk.texts
    requires forall k: Key :: k in LOADED ==> k in disk.config.value.content.fields
    requires NoToken(env) && NoOverrides(env) && NODE_TOKEN !in p
    requires forall k: Key :: k != NODE_TOKEN ==> k in p && p[k] == OnDisk(disk, k)
    ensures var s := WithDefaults(Merged(env, p)); forall k: Key :: k in s && s[k] == OnDisk(disk, k)
  {
    LoadedKeys();
    hide LOADED, ALL, KEY_PATH;
    var s := WithDefaults(Merged(env, p));
    assert Default(NODE_TOKEN) == Str("");
    forall k: Key ensures k in s && s[k] == OnDisk(disk, k) {
      hide Default;
      if k != NODE_TOKEN { assert k in env ==> IsBlank(env[k]); }
    }
  }

  /** A completed or half-completed write keeps, or establishes, a provisioned disk. */
  lemma PersistedProvisioned(posix: bool, disk: Disk, s: Fields, writing: Writing, fp: string)
    requires Complete(s) && HasKeys(s) && s[NODE_MACHINE_FINGERPRINT] == Str(fp) && fp != ""
    requires writing == Both || Provisioned(posix, disk, fp)
    ensures Provisioned(posix, Persisted(posix, disk, s, writing), fp)
    ensures writing == Both ==> forall k: Key :: k != NODE_TOKEN ==>
      OnDisk(Persisted(posix, disk, s, writing), k) == s[k]
  {
    LoadedKeys();
    hide LOADED, ALL, KEY_PATH;
  }

  /** The private key and the key id on disk. */
  function PairOnDisk(disk: Disk): (Value, Value)
    requires disk.config.Some? && disk.config.value.content.Entries? && JWT_KEY_ID in disk.config.value.content.fields
    requires KEY_PATH in disk.texts
  {
    (Str(disk.texts[KEY_PATH].content), disk.config.value.content.fields[JWT_KEY_ID])
  }

  /** Key and key id on disk belong together, being both the old or both the new ones, unless the writing stops
      between the two files while both of them change. */
  lemma KeyPairExact(posix: bool, disk: Disk, s: Fields, writing: Writing, fp: string)
    requires Provisioned(posix, disk, fp) && Complete(s) && HasKeys(s) && s[NODE_MACHINE_FINGERPRINT] == Str(fp)
    ensures Provisioned(posix, Persisted(posix, disk, s, writing), fp)
    ensures var (before, after) := (PairOnDisk(disk), PairOnDisk(Persisted(posix, disk, s, writing)));
      after == before || after == (s[JWT_PRIVATE_KEY], s[JWT_KEY_ID])
      <==> writing != KeyOnly || before.0 == s[JWT_PRIVATE_KEY] || before.1 == s[JWT_KEY_ID]
  {
    PersistedProvisioned(posix, disk, s, writing, fp);
    LoadedKeys();
    assert s[JWT_PRIVATE_KEY] == Str(s[JWT_PRIVATE_KEY].s);
    hide LOADED, ALL, KEY_PATH, Typed, GoodFields;
  }

  /** Persisting and reloading: a later token-free start, if nothing overrides, sees the same settings. */
  lemma ReloadUnchanged(posix: bool, disk: Disk, s: Fields, env: Fields)
    requires Complete(s) && HasKeys(s) && s[NODE_MACHINE_FINGERPRINT] != Str("") && NoToken(env) && NoOverrides(env)
    ensures var r := Construct(posix, Persisted(posix, disk, s, Both), env);
      r.Up? && r.settings.Keys == s.Keys && forall k: Key :: k != NODE_TOKEN ==>
        k in s && k in r.settings && r.settings[k] == s[k]
  {
    hide Construct, Persisted, Provisioned, LOADED, ALL, KEY_PATH, NoToken, NoOverrides;
    var fp := s[NODE_MACHINE_FINGERPRINT].s;
    PersistedProvisioned(posix, disk, s, Both, fp);
    StartsFromDisk(posix, Persisted(posix, disk, s, Both), fp, env);
    CompleteKeys(s);
    CompleteKeys(Construct(posix, Persisted(posix, disk, s, Both), env).settings);
    hide OnDisk, Typed, Complete;
  }

  // ---- any number of restarts ----

  datatype Restart = Restart(env: Fields, weather: Weather)

  function DiskAfter(posix: bool, disk: Disk, rs: seq<Restart>): Disk {
    if rs == [] then disk
    else
      var last := rs[|rs| - 1];
      Started(posix, DiskAfter(posix, disk, rs[..|rs| - 1]), last.env, last.weather).disk
  }

  /** The first connect with a token provisions the disk with the fingerprint it sent. */
  lemma FirstConnect(posix: bool, disk: Disk, env: Fields, w: Weather)
    requires Started(posix, disk, env, w).connected
    ensures var l := Started(posix, disk, env, w); |l.sent| == 1 && Provisioned(posix, l.disk, l.sent[0])
  {
    var s := Construct(posix, disk, env).settings;
    ConstructComplete(posix, disk, env);
    ConnectKeeps(posix, disk, s, w);
    hide Construct, Connected;
  }

  /** A bundle with the required entries and no VPN part. */
  function Basic(x: Option<Value>): Bundle {
    Bundle(x, None, None, x, None, x, x, x, x, None, None, None, None, None)
  }

  lemma BasicApplies(s: Fields, x: Option<Value>)
    requires Complete(s) && GivesText(x)
    ensures Applied(s, Basic(x), true).Some?
  {
    IdentityKeeps(s, Basic(x));
    var s1 := Identity(s, Basic(x)).value;
    CredentialsKeep(s1, Basic(x));
    hide Complete;
  }

  /** From any disk a token and such a bundle give a first connect. */
  lemma FirstConnectHappens(posix: bool, disk: Disk, host: string, node: string, token: string, text: string)
    requires token != "" && text != ""
    ensures var w := Weather(host, node, true, Some(Basic(Some(Str(text)))), true, Both);
      Started(posix, disk, map[NODE_TOKEN := Str(token)], w).connected
  {
    var env: Fields := map[NODE_TOKEN := Str(token)];
    var s := WithDefaults(env);
    TokenStarts(posix, disk, env, s);
    ResolvedComplete(s, host, node);
    BasicApplies(Resolved(s, host, node), Some(Str(text)));
    hide Construct, Complete, Resolved, Applied, WithDefaults, Persisted;
  }

  lemma TokenStarts(posix: bool, disk: Disk, env: Fields, s: Fields)
    requires env.Keys == {NODE_TOKEN} && env[NODE_TOKEN].Str? && env[NODE_TOKEN].s != "" && s == WithDefaults(env)
    ensures Complete(s) && Construct(posix, disk, env) == Up(s)
  {
    LoadedKeys();
    hide ALL, LOADED;
    assert forall k: Key :: k in s && Typed(k, s[k]) && (k == NODE_TOKEN ==> s[k] == env[k]) by {
      hide Typed;
      TokenTyped(env[NODE_TOKEN]);
    }
    CompleteIsTyped(s);
    hide Typed, WithDefaults, AllTyped;
  }

  /** The defaults as the node's documentation lists them. */
  ghost predicate Documented(k: Key, v: Value) {
    match v
    case Null => k == VPN_INTERFACE_HINT
    case List(items) => k == VPN_PROBE_TARGETS && items == []
    case Bool(b) => b && k in {VPN_REQUIRED, NODE_AUTO_VPN}
    case Int(n) => (k == NUM_QUBITS && n == 5) || (k == VPN_CHECK_INTERVAL_SEC && n == 10)
    case Str(t) =>
      || (k in {QPU_ID, QPU_DISPLAY_NAME, REDIS_URL, JWT_PRIVATE_KEY, JWT_KEY_ID, NODE_MACHINE_FINGERPRINT} && t == "")
      || (k == NATIVE_GATE_SET && t == "cz")
      || (k == WEBAPP_URL && t == "https://coda.conductorquantum.com")
      || (k == WEBHOOK_PATH && t == "/api/internal/qpu/webhook")
      || (k == CONNECT_PATH && t == "/api/internal/qpu/connect")
      || (k == HEARTBEAT_PATH && t == "/api/internal/qpu/heartbeat")
      || (k == NODE_VPN_PROFILE_PATH && t == "/tmp/coda-node.ovpn")
    case Object => false
  }

  /** A first start with nothing but a token has the documented defaults. */
  lemma FreshSettings(posix: bool, disk: Disk, token: string)
    requires token != ""
    ensures var r := Construct(posix, disk, map[NODE_TOKEN := Str(token)]);
      && r.Up?
      && (forall k: Key :: k in r.settings)
      && (forall k: Key :: if k == NODE_TOKEN then r.settings[k] == Str(token) else Documented(k, r.settings[k]))
  {
    var env: Fields := map[NODE_TOKEN := Str(token)];
    TokenStarts(posix, disk, env, WithDefaults(env));
    hide Construct, ALL, LOADED, WithDefaults, Complete, Documented, Default;
    forall k: Key
      ensures k in WithDefaults(env)
      ensures if k == NODE_TOKEN then WithDefaults(env)[k] == Str(token) else Documented(k, WithDefaults(env)[k])
    {
      FreshValue(token, k);
      if k != NODE_TOKEN { DefaultDocumented(k); }
    }
  }

  lemma DefaultDocumented(k: Key)
    requires k != NODE_TOKEN
    ensures Documented(k, Default(k))
  {
  }

  lemma FreshValue(token: string, k: Key)
    ensures var s := WithDefaults(map[NODE_TOKEN := Str(token)]);
      k in s && s[k] == if k == NODE_TOKEN then Str(token) else Default(k)
  {
    AllKeys(k);
    hide ALL, LOADED, Default;
  }

  lemma TokenTyped(v: Value)
    requires v.Str?
    ensures Typed(NODE_TOKEN, v)
  {
  }

  lemma ConnectKeeps(posix: bool, disk: Disk, s: Fields, w: Weather)
    requires Complete(s)
    ensures var (l, s1) := (Connected(posix, disk, s, w), Resolved(s, w.host, w.node));
      && s1.Keys == s.Keys && NODE_MACHINE_FINGERPRINT in s1 && s1[NODE_MACHINE_FINGERPRINT].Str?
      && var fp := s1[NODE_MACHINE_FINGERPRINT].s;
      && (l.sent == [] || l.sent == [fp])
      && (l.connected || Provisioned(posix, disk, fp) ==> Provisioned(posix, l.disk, fp))
      && (l.connected ==> l.sent == [fp])
  {
    var s1 := Resolved(s, w.host, w.node);
    ResolvedComplete(s, w.host, w.node);
    var fp := s1[NODE_MACHINE_FINGERPRINT].s;
    assert s1.Keys == s.Keys by { CompleteKeys(s); }
    hide Resolved, Provisioned, Persisted, Applied, Complete, HasKeys;
    if w.ready && w.reply.Some? && Applied(s1, w.reply.value, w.vpnOk).Some? {
      BundlePersisted(posix, disk, s1, w.reply.value, w.vpnOk, w.writing, fp);
    }
  }

  lemma BundlePersisted(posix: bool, disk: Disk, s: Fields, b: Bundle, vpnOk: bool, writing: Writing, fp: string)
    requires Complete(s) && s[NODE_MACHINE_FINGERPRINT] == Str(fp) && fp != "" && Applied(s, b, vpnOk).Some?
    ensures Complete(Applied(s, b, vpnOk).value)
    ensures writing == Both || Provisioned(posix, disk, fp) ==>
      Provisioned(posix, Persisted(posix, disk, Applied(s, b, vpnOk).value, writing), fp)
  {
    AppliedKeeps(s, b, vpnOk);
    hide Applied, Provisioned, Persisted, Complete, HasKeys;
    if writing == Both || Provisioned(posix, disk, fp) {
      PersistedProvisioned(posix, disk, Applied(s, b, vpnOk).value, writing, fp);
    }
  }

  /** One token-free restart, whatever it meets: it starts, sends only the known fingerprint, and leaves
      a provisioned disk. */
  lemma OneRestart(posix: bool, disk: Disk, fp: string, env: Fields, w: Weather)
    requires Provisioned(posix, disk, fp) && NoToken(env) && NoOverrides(env)
    ensures var l := Started(posix, disk, env, w); (l.sent == [] || l.sent == [fp]) && Provisioned(posix, l.disk, fp)
  {
    StartsFromDisk(posix, disk, fp, env);
    var s := Construct(posix, disk, env).settings;
    ConnectKeeps(posix, disk, s, w);
    assert Resolved(s, w.host, w.node) == s by { hide Provisioned, Construct, Connected; }
    hide Construct, Connected, Provisioned, OnDisk, Resolved;
  }

  ghost predicate Plain(rs: seq<Restart>) { forall i :: 0 <= i < |rs| ==> NoToken(rs[i].env) && NoOverrides(rs[i].env) }

  lemma {:induction false} RestartsKeep(posix: bool, disk: Disk, fp: string, rs: seq<Restart>)
    requires Provisioned(posix, disk, fp) && Plain(rs)
    ensures Provisioned(posix, DiskAfter(posix, disk, rs), fp)
    decreases |rs|
  {
    hide Provisioned, Started, NoToken, NoOverrides;
    if rs != [] {
      RestartsKeep(posix, disk, fp, rs[..|rs| - 1]);
      var last := rs[|rs| - 1];
      OneRestart(posix, DiskAfter(posix, disk, rs[..|rs| - 1]), fp, last.env, last.weather);
    }
  }

  /** Restart invariant: after one successful connect and any number of token-free restarts without
      overrides, successful or not, the next such start passes the credential test with the settings on
      disk, sends the first run's fingerprint if it sends any, and leaves key and key id on disk non-empty. */
  lemma RestartInvariant(posix: bool, disk: Disk, env: Fields, w: Weather, rs: seq<Restart>, next: Restart)
    requires Started(posix, disk, env, w).connected && Plain(rs) && NoToken(next.env) && NoOverrides(next.env)
    ensures var first := Started(posix, disk, env, w);
      var d := DiskAfter(posix, first.disk, rs);
      var l := Started(posix, d, next.env, next.weather);
      && |first.sent| == 1
      && Construct(posix, d, next.env).Up?
      && (l.sent == [] || l.sent == first.sent)
      && Provisioned(posix, d, first.sent[0]) && Provisioned(posix, l.disk, first.sent[0])
  {
    var first := Started(posix, disk, env, w);
    FirstConnect(posix, disk, env, w);
    var fp := first.sent[0];
    hide Provisioned, Started, NoToken, NoOverrides, Construct, OnDisk;
    RestartsKeep(posix, first.disk, fp, rs);
    var d := DiskAfter(posix, first.disk, rs);
    StartsFromDisk(posix, d, fp, next.env);
    OneRestart(posix, d, fp, next.env, next.weather);
  }
}
