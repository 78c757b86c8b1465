/** The node's settings object and the files it leaves on disk, updated in place. */
module NodeRuntime {
  import opened Options
  import opened RestartCycle
  import opened BundleLaws

  /** The loop over the persisted keys. */
  method CopyLoaded(data: Fields) returns (persisted: Fields)
    ensures persisted == Copied(data)
  {
    hide LOADED;
    persisted := map[];
    for i := 0 to |LOADED|
      invariant persisted == map k | k in data && k in LOADED[..i] :: data[k]
    {
      var key := LOADED[i];
      assert LOADED[..i + 1] == LOADED[..i] + [key];
      if key in data { persisted := persisted[key := data[key]]; }
    }
    assert LOADED[..|LOADED|] == LOADED;
  }

  /** `load_persisted_runtime_config`. */
  method LoadPersisted(posix: bool, disk: Disk) returns (r: Option<Fields>)
    ensures r == Load(posix, disk)
    ensures forall fp :: Provisioned(posix, disk, fp) ==> r.Some? && LoadsAll(disk, r.value)
    ensures disk.config.None? ==> r == Some(map[])
    ensures disk.config.Some? && posix && disk.config.value.mode != 384 ==> r.None?
    ensures disk.config.Some? && (!posix || disk.config.value.mode == 384) ==>
      match disk.config.value.content
      case Blank => r == Some(map[])
      case Malformed => r.None?
      case NotObject => r.None?
      case Entries(_, path) =>
        var key := if path == "" then KEY_PATH else path;
        r.None? <==> key in disk.texts && posix && disk.texts[key].mode != 384
  {
    forall fp | Provisioned(posix, disk, fp)
      ensures Load(posix, disk).Some? && LoadsAll(disk, Load(posix, disk).value)
    {
      LoadsProvisioned(posix, disk, fp);
    }
    hide Provisioned, LoadsAll;
    hide LOADED, Copied;
    if disk.config.None? { return Some(map[]); }
    var file := disk.config.value;
    if !ModeOk(posix, file.mode) { return None; }
    if file.content.Blank? { return Some(map[]); }
    if !file.content.Entries? { return None; }
    var data := file.content.fields;
    var secret := ReadSecure(posix, disk, if file.content.keyPath == "" then KEY_PATH else file.content.keyPath);
    if secret.None? { return None; }
    var persisted := CopyLoaded(data);
    if secret.value != "" { persisted := persisted[JWT_PRIVATE_KEY := Str(secret.value)]; }
    r := Some(persisted);
  }

  /** The merge loop of `merge_persisted_runtime_config`. */
  method MergePersisted(data: Fields, persisted: Fields) returns (merged: Fields)
    ensures merged == Merged(data, persisted)
  {
    merged := data;
    var todo := persisted.Keys;
    while todo != {}
      invariant todo <= persisted.Keys
      invariant merged == Merged(data, map k | k in persisted && k !in todo :: persisted[k])
    {
      var key :| key in todo;
      if key !in merged || IsBlank(merged[key]) { merged := merged[key := persisted[key]]; }
      todo := todo - {key};
    }
    assert (map k | k in persisted && k !in todo :: persisted[k]) == persisted;
  }

  lemma OnlyWiden(ks: set<Key>, ls: set<Key>, s: Fields, r: Fields)
    requires Only(ks, s, r) && ks <= ls
    ensures Complete(r) && Only(ls, s, r)
  {
    hide Complete;
  }

  lemma KeepsFingerprint(s: Fields, r: Fields)
    requires Only(IDENTITY + CREDENTIALS + ENDPOINTS + TUNNEL, s, r)
    ensures Complete(r) && NODE_MACHINE_FINGERPRINT in s && NODE_MACHINE_FINGERPRINT in r
    ensures r[NODE_MACHINE_FINGERPRINT] == s[NODE_MACHINE_FINGERPRINT]
  {
    hide Complete;
  }

  lemma WrittenModes(posix: bool, disk: Disk, s: Fields)
    requires Complete(s) && posix
    ensures var d := Persisted(posix, disk, s, Both);
      d.config.Some? && d.config.value.mode == 384 && KEY_PATH in d.texts && d.texts[KEY_PATH].mode == 384
  {
    CompleteKeys(s);
    hide LOADED, KEY_PATH;
  }

  class Node {
    const posix: bool
    var disk: Disk
    var settings: Fields
    var sent: seq<string>

    constructor (posix: bool, disk: Disk, settings: Fields)
      ensures this.posix == posix && this.disk == disk && this.settings == settings && sent == []
    {
      this.posix, this.disk, this.settings, sent := posix, disk, settings, [];
    }

    /** `_resolve_machine_fingerprint`. */
    method ResolveFingerprint(host: string, node: string) returns (fp: string)
      requires Complete(settings)
      modifies this`settings
      ensures settings == Resolved(old(settings), host, node)
      ensures var stored := old(settings)[NODE_MACHINE_FINGERPRINT];
        stored.Str? && fp == if stored.s != "" then stored.s else host + "-" + node
      ensures fp != "" && Complete(settings) && settings[NODE_MACHINE_FINGERPRINT] == Str(fp)
    {
      ResolvedComplete(settings, host, node);
      fp := settings[NODE_MACHINE_FINGERPRINT].s;
      if fp == "" { fp := Generated(host, node); }
      assert settings[NODE_MACHINE_FINGERPRINT := Str(fp)] == Resolved(settings, host, node);
      settings := settings[NODE_MACHINE_FINGERPRINT := Str(fp)];
    }

    method Set(ghost ks: set<Key>, ghost s0: Fields, k: Key, v: Value)
      requires Only(ks, s0, settings) && k in ks && Typed(k, v)
      modifies this`settings
      ensures settings == old(settings)[k := v] && Only(ks, s0, settings)
    {
      OnlySet(ks, s0, settings, k, v);
      settings := settings[k := v];
    }

    method ApplyIdentity(b: Bundle) returns (ok: bool)
      requires Complete(settings)
      modifies this`settings
      ensures ok == Identity(old(settings), b).Some?
      ensures ok ==> settings == Identity(old(settings), b).value
      ensures Only(IDENTITY, old(settings), settings)
    {
      ghost var s0 := settings;
      OnlySelf(IDENTITY, s0);
      assert Typed(NUM_QUBITS, s0[NUM_QUBITS]);
      hide Only;
      var id := AsStr(b.qpuId);
      if id.None? { return false; }
      Set(IDENTITY, s0, QPU_ID, id.value);
      if !DisplayName(b).Str? { return false; }
      Set(IDENTITY, s0, QPU_DISPLAY_NAME, DisplayName(b));
      var gates := AsStr(b.gateSet);
      if gates.None? { return false; }
      Set(IDENTITY, s0, NATIVE_GATE_SET, gates.value);
      var n := AsInt(b.numQubits, settings[NUM_QUBITS]);
      if n.None? { return false; }
      Set(IDENTITY, s0, NUM_QUBITS, n.value);
      ok := true;
    }

    /** A non-empty string replaces the setting. */
    method Refresh(ghost ks: set<Key>, ghost s0: Fields, k: Key, o: Option<Value>)
      requires Only(ks, s0, settings) && k in ks && k in settings && forall t :: Typed(k, Str(t))
      modifies this`settings
      ensures settings == old(settings)[k := Refreshed(o, old(settings)[k])] && Only(ks, s0, settings)
    {
      hide Only, Typed;
      ghost var s1 := settings;
      if GivesText(o) { assert o.value == Str(o.value.s); Set(ks, s0, k, o.value); }
      assert settings == s1[k := Refreshed(o, s1[k])];
    }

    method ApplyCredentials(b: Bundle) returns (ok: bool)
      requires Complete(settings)
      modifies this`settings
      ensures ok == Credentials(old(settings), b).Some?
      ensures ok ==> settings == Credentials(old(settings), b).value && HasKeys(settings)
      ensures Complete(settings)
      ensures ok ==> Takes(b.secret, old(settings)[JWT_PRIVATE_KEY], settings[JWT_PRIVATE_KEY])
      ensures ok ==> Takes(b.keyId, old(settings)[JWT_KEY_ID], settings[JWT_KEY_ID])
      ensures Only(CREDENTIALS, old(settings), settings)
    {
      ghost var s0 := settings;
      OnlySelf(CREDENTIALS, s0);
      CompleteKeys(s0);
      hide Only, Complete;
      Refresh(CREDENTIALS, s0, JWT_PRIVATE_KEY, b.secret);
      if settings[JWT_PRIVATE_KEY] == Str("") { return false; }
      Refresh(CREDENTIALS, s0, JWT_KEY_ID, b.keyId);
      ok := settings[JWT_KEY_ID] != Str("");
    }

    method ApplyEndpoints(b: Bundle) returns (ok: bool)
      requires Complete(settings)
      modifies this`settings
      ensures ok == Endpoints(old(settings), b).Some?
      ensures ok ==> settings == Endpoints(old(settings), b).value
      ensures Only(ENDPOINTS, old(settings), settings)
    {
      ghost var s0 := settings;
      OnlySelf(ENDPOINTS, s0);
      CompleteKeys(s0);
      hide Only, Complete;
      var redis := AsStr(b.redisUrl);
      if redis.None? { return false; }
      Set(ENDPOINTS, s0, REDIS_URL, redis.value);
      var webapp := AsStr(if b.webappUrl.Some? then b.webappUrl else b.cloudBaseUrl);
      if webapp.None? { return false; }
      Set(ENDPOINTS, s0, WEBAPP_URL, webapp.value);
      hide AsStr, Refreshed;
      Refresh(ENDPOINTS, s0, CONNECT_PATH, b.connectPath);
      Refresh(ENDPOINTS, s0, HEARTBEAT_PATH, b.heartbeatPath);
      Refresh(ENDPOINTS, s0, WEBHOOK_PATH, b.webhookPath);
      ok := true;
    }

    method ApplyVpnFlags(v: VpnPart)
      requires Complete(settings)
      modifies this`settings
      ensures settings == VpnSettings(old(settings), v)
      ensures Only(TUNNEL, old(settings), settings)
    {
      VpnKeeps(settings, v);
      CompleteKeys(settings);
      hide Complete, AsNumber, StrList, Only;
      ghost var r := VpnSettings(settings, v);
      ghost var s0 := settings;
      if v.required.Some? && v.required.value.Bool? { settings := settings[VPN_REQUIRED := v.required.value]; }
      assert settings == s0[VPN_REQUIRED := r[VPN_REQUIRED]];
      if v.hint.None? || v.hint.value.Null? {
        settings := settings[VPN_INTERFACE_HINT := Null];
      } else if v.hint.value.Str? {
        settings := settings[VPN_INTERFACE_HINT := v.hint.value];
      }
      ghost var s1 := s0[VPN_REQUIRED := r[VPN_REQUIRED]][VPN_INTERFACE_HINT := r[VPN_INTERFACE_HINT]];
      assert settings == s1;
      ApplyVpnNumbers(v, s0, r);
    }

    method ApplyVpnNumbers(v: VpnPart, ghost s0: Fields, ghost r: Fields)
      requires Complete(s0) && r == VpnSettings(s0, v)
      requires settings == s0[VPN_REQUIRED := r[VPN_REQUIRED]][VPN_INTERFACE_HINT := r[VPN_INTERFACE_HINT]]
      modifies this`settings
      ensures settings == r
    {
      CompleteKeys(s0);
      hide Complete, AsNumber, StrList;
      ghost var s1 := settings;
      var number := if v.interval.None? then None else AsNumber(v.interval.value);
      if number.Some? { settings := settings[VPN_CHECK_INTERVAL_SEC := number.value]; }
      assert settings == s1[VPN_CHECK_INTERVAL_SEC := r[VPN_CHECK_INTERVAL_SEC]];
      ghost var s2 := settings;
      if v.targets.Some? && StrList(v.targets.value) && v.targets.value.items != [] {
        settings := settings[VPN_PROBE_TARGETS := v.targets.value];
      }
      assert settings == s2[VPN_PROBE_TARGETS := r[VPN_PROBE_TARGETS]];
    }

    method ApplyTunnel(b: Bundle, vpnOk: bool) returns (ok: bool)
      requires Complete(settings)
      modifies this`settings
      ensures ok == Tunnel(old(settings), b, vpnOk).Some?
      ensures ok ==> settings == Tunnel(old(settings), b, vpnOk).value
      ensures Only(TUNNEL, old(settings), settings)
    {
      OnlySelf(TUNNEL, settings);
      if b.vpn.None? { return true; }
      ApplyVpnFlags(b.vpn.value);
      hide VpnSettings;
      var profile := GivesText(b.vpn.value.profile);
      if settings[VPN_REQUIRED] == Bool(true) && !profile { return false; }
      ok := !(settings[NODE_AUTO_VPN] == Bool(true) && profile) || vpnOk;
    }

    /** `apply_node_bundle`: on success both credentials are set; on failure the settings may be half
        updated, but they stay well typed; and in no case does the bundle reach the fingerprint, the token
        or the two local VPN settings. */
    method ApplyNodeBundle(b: Bundle, vpnOk: bool) returns (ok: bool)
      requires Complete(settings)
      modifies this`settings
      ensures ok <==> BundleOk(old(settings), b, vpnOk)
      ensures Complete(settings) && (ok ==> BundleGives(old(settings), b, settings) && HasKeys(settings))
      ensures Only(IDENTITY + CREDENTIALS + ENDPOINTS + TUNNEL, old(settings), settings)
      ensures ok == Applied(old(settings), b, vpnOk).Some?
      ensures ok ==> settings == Applied(old(settings), b, vpnOk).value
    {
      AppliedExact(settings, b, vpnOk);
      hide BundleOk, BundleGives;
      if Applied(settings, b, vpnOk).Some? { AppliedKeeps(settings, b, vpnOk); }
      ghost var s0 := settings;
      ghost var all := IDENTITY + CREDENTIALS + ENDPOINTS + TUNNEL;
      hide Complete, Identity, Credentials, Endpoints, Tunnel, IDENTITY, CREDENTIALS, ENDPOINTS, TUNNEL;
      ok := ApplyIdentity(b);
      ghost var s1 := settings;
      OnlyWiden(IDENTITY, all, s0, s1);
      if !ok { return; }
      ok := ApplyCredentials(b);
      ghost var s2 := settings;
      OnlyMore(IDENTITY, CREDENTIALS, s0, s1, s2);
      OnlyWiden(IDENTITY + CREDENTIALS, all, s0, s2);
      if !ok { return; }
      ok := ApplyEndpoints(b);
      ghost var s3 := settings;
      OnlyMore(IDENTITY + CREDENTIALS, ENDPOINTS, s0, s2, s3);
      OnlyWiden(IDENTITY + CREDENTIALS + ENDPOINTS, all, s0, s3);
      if !ok { return; }
      ok := ApplyTunnel(b, vpnOk);
      OnlyMore(IDENTITY + CREDENTIALS + ENDPOINTS, TUNNEL, s0, s3, settings);
    }

    /** `_persist_runtime_config`: the key file first, then the config file. Both writes provision the disk
        with the fingerprint of the settings; wherever the writing stops, a disk provisioned with that
        fingerprint stays so. */
    method PersistRuntimeConfig(writing: Writing) returns (ok: bool)
      requires Complete(settings) && HasKeys(settings) && settings[NODE_MACHINE_FINGERPRINT] != Str("")
      modifies this`disk
      ensures disk == Persisted(posix, old(disk), settings, writing) && ok == (writing == Both)
      ensures var fp := settings[NODE_MACHINE_FINGERPRINT].s;
        ok || Provisioned(posix, old(disk), fp) ==> Provisioned(posix, disk, fp)
      ensures posix && ok ==> disk.config.Some? && disk.config.value.mode == 384
      ensures posix && ok ==> KEY_PATH in disk.texts && disk.texts[KEY_PATH].mode == 384
    {
      ghost var fp := settings[NODE_MACHINE_FINGERPRINT].s;
      hide Provisioned, Persisted, HasKeys, KEY_PATH;
      if posix && writing == Both { WrittenModes(posix, disk, settings); }
      if writing == Both || Provisioned(posix, disk, fp) { PersistedProvisioned(posix, disk, settings, writing, fp); }
      ok := WriteFiles(writing);
    }

    method WriteFiles(writing: Writing) returns (ok: bool)
      requires Complete(settings)
      modifies this`disk
      ensures disk == Persisted(posix, old(disk), settings, writing) && ok == (writing == Both)
    {
      CompleteKeys(settings);
      assert settings[JWT_PRIVATE_KEY].Str?;
      hide LOADED, KEY_PATH, Complete;
      if writing == Neither { return false; }
      disk := disk.(texts := disk.texts[KEY_PATH := Write(posix, settings[JWT_PRIVATE_KEY].s)]);
      if writing == KeyOnly { return false; }
      disk := disk.(config := Some(Write(posix, Entries(map k | k in LOADED :: settings[k], KEY_PATH))));
      ok := true;
    }

    /** `connect_settings`: at most one fingerprint is sent, the one in the settings if there is one; success
        provisions the disk with the fingerprint sent, and no outcome spoils a disk provisioned with it. */
    method ConnectSettings(w: Weather) returns (ok: bool)
      requires Complete(settings)
      modifies this
      ensures Complete(settings) && old(sent) <= sent <= old(sent) + [settings[NODE_MACHINE_FINGERPRINT].s]
      ensures old(settings)[NODE_MACHINE_FINGERPRINT] != Str("") ==>
        settings[NODE_MACHINE_FINGERPRINT] == old(settings)[NODE_MACHINE_FINGERPRINT]
      ensures ok ==> |sent| == |old(sent)| + 1
      ensures var fp := settings[NODE_MACHINE_FINGERPRINT].s;
        ok || Provisioned(posix, old(disk), fp) ==> Provisioned(posix, disk, fp)
      ensures Life(sent[|old(sent)|..], disk, ok) == Connected(posix, old(disk), old(settings), w)
    {
      hide Complete, Applied, Persisted, Provisioned;
      var fp := ResolveFingerprint(w.host, w.node);
      hide Resolved;
      ghost var s1 := settings;
      if !w.ready { return false; }
      sent := sent + [fp];
      if w.reply.None? { return false; }
      ok := ApplyNodeBundle(w.reply.value, w.vpnOk);
      KeepsFingerprint(s1, settings);
      if !ok { return; }
      ok := PersistRuntimeConfig(w.writing);
    }
  }
}
