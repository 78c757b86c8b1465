/** Where every setting comes from when a node bundle is applied, and exactly which bundles are refused. */
module BundleLaws {
  import opened Options
  import opened RestartCycle

  // ---- entries ----

  ghost predicate HasText(o: Option<Value>) { o.Some? && o.value.Str? && |o.value.s| > 0 }

  /** The setting is the entry if that is a non-empty string, and otherwise what it was. */
  ghost predicate Takes(o: Option<Value>, before: Value, after: Value) {
    after == if HasText(o) then o.value else before
  }

  /** The value of a number entry; booleans count as 1 and 0. */
  ghost predicate IsNumber(o: Option<Value>, n: int) {
    o == Some(Int(n)) || (o == Some(Bool(true)) && n == 1) || (o == Some(Bool(false)) && n == 0)
  }

  ghost predicate HasNumber(o: Option<Value>) { o.Some? && (o.value.Int? || o.value.Bool?) }

  ghost predicate TakesNumber(o: Option<Value>, before: Value, after: Value) {
    if HasNumber(o) then after.Int? && IsNumber(o, after.n) else after == before
  }

  /** The first of the two entries that is not falsy. */
  function NameEntry(b: Bundle): Option<Value> {
    if b.displayName.Some? && b.displayName.value !in {Null, Str(""), Int(0), Bool(false), List([])} then b.displayName
    else if b.qpuLabel.Some? && b.qpuLabel.value !in {Null, Str(""), Int(0), Bool(false), List([])} then b.qpuLabel
    else None
  }

  function AddressEntry(b: Bundle): Option<Value> { if b.webappUrl.Some? then b.webappUrl else b.cloudBaseUrl }

  // ---- the laws ----

  ghost predicate VpnGives(s: Fields, v: VpnPart, r: Fields)
    requires Complete(s) && Complete(r)
  {
    && r[VPN_REQUIRED] == (if v.required.Some? && v.required.value.Bool? then v.required.value else s[VPN_REQUIRED])
    && (v.hint == None || v.hint == Some(Null) ==> r[VPN_INTERFACE_HINT] == Null)
    && (v.hint.Some? && v.hint.value.Str? ==> r[VPN_INTERFACE_HINT] == v.hint.value)
    && (v.hint.Some? && !v.hint.value.Null? && !v.hint.value.Str? ==> r[VPN_INTERFACE_HINT] == s[VPN_INTERFACE_HINT])
    && TakesNumber(v.interval, s[VPN_CHECK_INTERVAL_SEC], r[VPN_CHECK_INTERVAL_SEC])
    && r[VPN_PROBE_TARGETS] == (if TextList(v.targets) then v.targets.value else s[VPN_PROBE_TARGETS])
  }

  /** A non-empty list of strings. */
  ghost predicate TextList(o: Option<Value>) {
    o.Some? && o.value.List? && o.value.items != [] && forall i :: 0 <= i < |o.value.items| ==> o.value.items[i].Str?
  }

  ghost predicate IdentityGives(s: Fields, b: Bundle, r: Fields)
    requires Complete(s) && Complete(r)
  {
    && b.qpuId == Some(r[QPU_ID]) && b.gateSet == Some(r[NATIVE_GATE_SET])
    && r[QPU_DISPLAY_NAME] == (if NameEntry(b).Some? then NameEntry(b).value else Str(""))
    && TakesNumber(b.numQubits, s[NUM_QUBITS], r[NUM_QUBITS])
  }

  ghost predicate CredentialsGive(s: Fields, b: Bundle, r: Fields)
    requires Complete(s) && Complete(r)
  {
    && Takes(b.secret, s[JWT_PRIVATE_KEY], r[JWT_PRIVATE_KEY])
    && Takes(b.keyId, s[JWT_KEY_ID], r[JWT_KEY_ID])
  }

  ghost predicate EndpointsGive(s: Fields, b: Bundle, r: Fields)
    requires Complete(s) && Complete(r)
  {
    && b.redisUrl == Some(r[REDIS_URL]) && AddressEntry(b) == Some(r[WEBAPP_URL])
    && Takes(b.connectPath, s[CONNECT_PATH], r[CONNECT_PATH])
    && Takes(b.heartbeatPath, s[HEARTBEAT_PATH], r[HEARTBEAT_PATH])
    && Takes(b.webhookPath, s[WEBHOOK_PATH], r[WEBHOOK_PATH])
  }

  ghost predicate TunnelGives(s: Fields, b: Bundle, r: Fields)
    requires Complete(s) && Complete(r)
  {
    if b.vpn.Some? then VpnGives(s, b.vpn.value, r) else Agree(TUNNEL, s, r)
  }

  ghost predicate Agree(ks: set<Key>, s: Fields, r: Fields) { forall k | k in ks :: k in s && k in r && r[k] == s[k] }

  const LOCAL: set<Key> := {NODE_MACHINE_FINGERPRINT, NODE_TOKEN, NODE_AUTO_VPN, NODE_VPN_PROFILE_PATH}

  /** Each setting after the bundle, from the entry of its own name; four settings are out of its reach. */
  ghost predicate BundleGives(s: Fields, b: Bundle, r: Fields)
    requires Complete(s) && Complete(r)
  {
    IdentityGives(s, b, r) && CredentialsGive(s, b, r) && EndpointsGive(s, b, r) && TunnelGives(s, b, r)
      && Agree(LOCAL, s, r)
  }

  /** Whether the tunnel is required once the bundle is applied. */
  function RequiredAfter(s: Fields, v: VpnPart): bool
    requires VPN_REQUIRED in s
  {
    if v.required.Some? && v.required.value.Bool? then v.required.value.b else s[VPN_REQUIRED] == Bool(true)
  }

  ghost predicate IdentityGiven(b: Bundle) {
    && HasText(b.qpuId) && HasText(b.gateSet)
    && (NameEntry(b).Some? ==> NameEntry(b).value.Str?)
    && (b.numQubits.None? || HasNumber(b.numQubits))
  }

  ghost predicate TunnelGiven(s: Fields, b: Bundle, vpnOk: bool)
    requires Complete(s)
  {
    b.vpn.Some? ==>
      && (RequiredAfter(s, b.vpn.value) ==> HasText(b.vpn.value.profile))
      && (s[NODE_AUTO_VPN] == Bool(true) && HasText(b.vpn.value.profile) ==> vpnOk)
  }

  /** The bundles that are not refused. */
  ghost predicate BundleOk(s: Fields, b: Bundle, vpnOk: bool)
    requires Complete(s)
  {
    && IdentityGiven(b)
    && (HasText(b.secret) || s[JWT_PRIVATE_KEY] != Str(""))
    && (HasText(b.keyId) || s[JWT_KEY_ID] != Str(""))
    && HasText(b.redisUrl) && HasText(AddressEntry(b))
    && TunnelGiven(s, b, vpnOk)
  }

  // ---- stage by stage ----

  lemma IdentityLaw(s: Fields, b: Bundle)
    requires Complete(s)
    ensures Identity(s, b).Some? <==> IdentityGiven(b)
    ensures Identity(s, b).Some? ==> var r := Identity(s, b).value; Only(IDENTITY, s, r) && IdentityGives(s, b, r)
  {
    IdentityKeeps(s, b);
    NameLaw(b);
    assert s[NUM_QUBITS].Int? by { assert Typed(NUM_QUBITS, s[NUM_QUBITS]); }
    hide Complete, DisplayName, NameEntry, Only;
  }

  lemma NameLaw(b: Bundle)
    ensures DisplayName(b) == if NameEntry(b).Some? then NameEntry(b).value else Str("")
  {
    if b.displayName.Some? { FalsyLaw(b.displayName.value); }
    if b.qpuLabel.Some? { FalsyLaw(b.qpuLabel.value); }
    hide Truthy;
  }

  lemma FalsyLaw(v: Value)
    ensures Truthy(v) <==> v !in {Null, Str(""), Int(0), Bool(false), List([])}
  {
  }

  lemma CredentialsLaw(s: Fields, b: Bundle)
    requires Complete(s)
    ensures Credentials(s, b).Some? <==>
      (HasText(b.secret) || s[JWT_PRIVATE_KEY] != Str("")) && (HasText(b.keyId) || s[JWT_KEY_ID] != Str(""))
    ensures Credentials(s, b).Some? ==>
      var r := Credentials(s, b).value; Only(CREDENTIALS, s, r) && CredentialsGive(s, b, r)
  {
    CredentialsKeep(s, b);
    CompleteKeys(s);
    hide Complete, Only;
  }

  lemma EndpointsLaw(s: Fields, b: Bundle)
    requires Complete(s)
    ensures Endpoints(s, b).Some? <==> HasText(b.redisUrl) && HasText(AddressEntry(b))
    ensures Endpoints(s, b).Some? ==> var r := Endpoints(s, b).value; Only(ENDPOINTS, s, r) && EndpointsGive(s, b, r)
  {
    EndpointsKeep(s, b);
    CompleteKeys(s);
    hide Complete, Only;
  }

  lemma VpnLaw(s: Fields, v: VpnPart)
    requires Complete(s)
    ensures var r := VpnSettings(s, v);
      Only(TUNNEL, s, r) && VpnGives(s, v, r) && (r[VPN_REQUIRED] == Bool(true) <==> RequiredAfter(s, v))
  {
    VpnKeeps(s, v);
    CompleteKeys(s);
    hide Complete, Only, StrList, TextList;
    if v.targets.Some? { ListLaw(v.targets.value); }
  }

  lemma ListLaw(v: Value)
    ensures StrList(v) && v.items != [] <==> TextList(Some(v))
  {
  }

  lemma TunnelLaw(s: Fields, b: Bundle, vpnOk: bool)
    requires Complete(s)
    ensures Tunnel(s, b, vpnOk).Some? <==> TunnelGiven(s, b, vpnOk)
    ensures Tunnel(s, b, vpnOk).Some? ==>
      var r := Tunnel(s, b, vpnOk).value; Only(TUNNEL, s, r) && TunnelGives(s, b, r)
  {
    TunnelKeeps(s, b, vpnOk);
    CompleteKeys(s);
    if b.vpn.Some? {
      VpnLaw(s, b.vpn.value);
      AutoKept(s, VpnSettings(s, b.vpn.value));
    }
    hide Complete, Only, VpnSettings, VpnGives;
  }

  lemma AutoKept(s: Fields, r: Fields)
    requires Only(TUNNEL, s, r)
    ensures NODE_AUTO_VPN in s && NODE_AUTO_VPN in r && r[NODE_AUTO_VPN] == s[NODE_AUTO_VPN]
  {
    hide Complete;
  }

  // ---- the whole bundle ----

  lemma Outside(ks: set<Key>, ls: set<Key>, s: Fields, r: Fields)
    requires Complete(s) && Only(ks, s, r) && ks !! ls
    ensures Complete(r) && Agree(ls, s, r)
  {
    CompleteKeys(s);
    hide Complete;
  }

  lemma AgreeTwice(ks: set<Key>, s: Fields, t: Fields, r: Fields)
    requires Agree(ks, s, t) && Agree(ks, t, r)
    ensures Agree(ks, s, r)
  {
  }

  /** The first part: when. */
  lemma AppliedWhen(s: Fields, b: Bundle, vpnOk: bool)
    requires Complete(s)
    ensures Applied(s, b, vpnOk).Some? <==> BundleOk(s, b, vpnOk)
  {
    hide Complete, Identity, Credentials, Endpoints, Tunnel, IdentityGiven, TunnelGiven, HasText, AddressEntry,
         IdentityGives, CredentialsGive, EndpointsGive, TunnelGives, Agree, Only;
    IdentityLaw(s, b);
    if Identity(s, b).Some? {
      var s1 := Identity(s, b).value;
      SameKeys(s, s1);
      CredentialsLaw(s1, b);
      if Credentials(s1, b).Some? {
        var s2 := Credentials(s1, b).value;
        OnlyComplete(CREDENTIALS, s1, s2);
        EndpointsLaw(s2, b);
        if Endpoints(s2, b).Some? {
          var s3 := Endpoints(s2, b).value;
          OnlyComplete(ENDPOINTS, s2, s3);
          TunnelLaw(s3, b, vpnOk);
          SameTunnel(s, s1, s2, s3, b, vpnOk);
        }
      }
    }
  }

  lemma SameKeys(s: Fields, s1: Fields)
    requires Complete(s) && Only(IDENTITY, s, s1)
    ensures Complete(s1) && s1[JWT_PRIVATE_KEY] == s[JWT_PRIVATE_KEY] && s1[JWT_KEY_ID] == s[JWT_KEY_ID]
  {
  }

  lemma SameTunnel(s: Fields, s1: Fields, s2: Fields, s3: Fields, b: Bundle, vpnOk: bool)
    requires Complete(s) && Only(IDENTITY, s, s1) && Only(CREDENTIALS, s1, s2) && Only(ENDPOINTS, s2, s3)
    ensures Complete(s3) && (TunnelGiven(s3, b, vpnOk) <==> TunnelGiven(s, b, vpnOk))
  {
    hide Complete, HasText, Only;
    Undisturbed3(s, s1, s2, s3);
  }

  lemma Undisturbed3(s: Fields, s1: Fields, s2: Fields, s3: Fields)
    requires Complete(s) && Only(IDENTITY, s, s1) && Only(CREDENTIALS, s1, s2) && Only(ENDPOINTS, s2, s3)
    ensures Complete(s3) && s3[VPN_REQUIRED] == s[VPN_REQUIRED] && s3[NODE_AUTO_VPN] == s[NODE_AUTO_VPN]
  {
    CompleteKeys(s);
    assert s1[VPN_REQUIRED] == s[VPN_REQUIRED] && s1[NODE_AUTO_VPN] == s[NODE_AUTO_VPN];
    assert s2[VPN_REQUIRED] == s1[VPN_REQUIRED] && s2[NODE_AUTO_VPN] == s1[NODE_AUTO_VPN];
    hide Complete;
  }

  /** The second part: what. */
  lemma AppliedWhat(s: Fields, b: Bundle, vpnOk: bool)
    requires Complete(s) && Applied(s, b, vpnOk).Some?
    ensures Complete(Applied(s, b, vpnOk).value) && BundleGives(s, b, Applied(s, b, vpnOk).value)
  {
    hide Complete, Identity, Credentials, Endpoints, Tunnel, IdentityGives, CredentialsGive, EndpointsGive, TunnelGives,
         IdentityGiven, TunnelGiven, HasText, AddressEntry, Agree, Only, BundleGives;
    IdentityLaw(s, b);
    var s1 := Identity(s, b).value;
    OnlyComplete(IDENTITY, s, s1);
    CredentialsLaw(s1, b);
    var s2 := Credentials(s1, b).value;
    OnlyComplete(CREDENTIALS, s1, s2);
    EndpointsLaw(s2, b);
    var s3 := Endpoints(s2, b).value;
    OnlyComplete(ENDPOINTS, s2, s3);
    TunnelLaw(s3, b, vpnOk);
    var r := Tunnel(s3, b, vpnOk).value;
    OnlyComplete(TUNNEL, s3, r);
    Together(s, s1, s2, s3, r, b);
  }

  lemma OnlyComplete(ks: set<Key>, s: Fields, r: Fields)
    requires Only(ks, s, r)
    ensures Complete(r)
  {
    hide Complete;
  }

  /** The four stages do not disturb each other. */
  lemma Together(s: Fields, s1: Fields, s2: Fields, s3: Fields, r: Fields, b: Bundle)
    requires Complete(s) && Complete(s1) && Complete(s2) && Complete(s3) && Complete(r)
    requires Only(IDENTITY, s, s1) && Only(CREDENTIALS, s1, s2) && Only(ENDPOINTS, s2, s3) && Only(TUNNEL, s3, r)
    requires IdentityGives(s, b, s1) && CredentialsGive(s1, b, s2) && EndpointsGive(s2, b, s3) && TunnelGives(s3, b, r)
    ensures BundleGives(s, b, r)
  {
    hide Complete, Only, IdentityGives, CredentialsGive, EndpointsGive, TunnelGives, Agree, IDENTITY, CREDENTIALS,
         ENDPOINTS, TUNNEL, LOCAL;
    Disjoint();
    Undisturbed(IDENTITY, s, s1, s2, s3, r);
    CarryIdentity(s, s1, r, b);
    Undisturbed(CREDENTIALS, s, s1, s2, s3, r);
    CarryCredentials(s, s1, s2, r, b);
    Undisturbed(ENDPOINTS, s, s1, s2, s3, r);
    CarryEndpoints(s, s2, s3, r, b);
    Undisturbed(TUNNEL, s, s1, s2, s3, r);
    SameVpn(s, s3, b, r);
    Undisturbed(LOCAL, s, s1, s2, s3, r);
  }

  lemma Disjoint()
    ensures IDENTITY !! CREDENTIALS && IDENTITY !! ENDPOINTS && IDENTITY !! TUNNEL && IDENTITY !! LOCAL
    ensures CREDENTIALS !! ENDPOINTS && CREDENTIALS !! TUNNEL && CREDENTIALS !! LOCAL
    ensures ENDPOINTS !! TUNNEL && ENDPOINTS !! LOCAL && TUNNEL !! LOCAL
  {
  }

  lemma CarryIdentity(s: Fields, s1: Fields, r: Fields, b: Bundle)
    requires Complete(s) && Complete(s1) && Complete(r) && IdentityGives(s, b, s1) && Agree(IDENTITY, s1, r)
    ensures IdentityGives(s, b, r)
  {
    AgreeIdentity(s1, r);
    hide Complete, TakesNumber, NameEntry, Agree;
  }

  lemma CarryCredentials(s: Fields, s1: Fields, s2: Fields, r: Fields, b: Bundle)
    requires Complete(s) && Complete(s1) && Complete(s2) && Complete(r) && CredentialsGive(s1, b, s2)
    requires Agree(CREDENTIALS, s, s1) && Agree(CREDENTIALS, s2, r)
    ensures CredentialsGive(s, b, r)
  {
    AgreeCredentials(s, s1);
    AgreeCredentials(s2, r);
    hide Complete, Takes, Agree;
  }

  lemma CarryEndpoints(s: Fields, s2: Fields, s3: Fields, r: Fields, b: Bundle)
    requires Complete(s) && Complete(s2) && Complete(s3) && Complete(r) && EndpointsGive(s2, b, s3)
    requires Agree(ENDPOINTS, s, s2) && Agree(ENDPOINTS, s3, r)
    ensures EndpointsGive(s, b, r)
  {
    AgreeEndpoints(s, s2);
    AgreeEndpoints(s3, r);
    hide Complete, Takes, Agree, AddressEntry;
  }

  /** Before and after the one stage that may change these settings they are the same. */
  lemma Undisturbed(ks: set<Key>, s: Fields, s1: Fields, s2: Fields, s3: Fields, r: Fields)
    requires Complete(s) && Complete(s1) && Complete(s2) && Complete(s3) && Complete(r)
    requires Only(IDENTITY, s, s1) && Only(CREDENTIALS, s1, s2) && Only(ENDPOINTS, s2, s3) && Only(TUNNEL, s3, r)
    ensures ks !! CREDENTIALS && ks !! ENDPOINTS && ks !! TUNNEL ==> Agree(ks, s1, r)
    ensures ks !! IDENTITY ==> Agree(ks, s, s1)
    ensures ks !! ENDPOINTS && ks !! TUNNEL ==> Agree(ks, s2, r)
    ensures ks !! IDENTITY && ks !! CREDENTIALS ==> Agree(ks, s, s2)
    ensures ks !! TUNNEL ==> Agree(ks, s3, r)
    ensures ks !! IDENTITY && ks !! CREDENTIALS && ks !! ENDPOINTS ==> Agree(ks, s, s3)
    ensures ks !! IDENTITY && ks !! CREDENTIALS && ks !! ENDPOINTS && ks !! TUNNEL ==> Agree(ks, s, r)
  {
    hide Complete, Only, Agree, IDENTITY, CREDENTIALS, ENDPOINTS, TUNNEL;
    if ks !! IDENTITY { Outside(IDENTITY, ks, s, s1); }
    if ks !! CREDENTIALS { Outside(CREDENTIALS, ks, s1, s2); }
    if ks !! ENDPOINTS { Outside(ENDPOINTS, ks, s2, s3); }
    if ks !! TUNNEL { Outside(TUNNEL, ks, s3, r); }
    if ks !! IDENTITY && ks !! CREDENTIALS { AgreeTwice(ks, s, s1, s2); }
    if ks !! ENDPOINTS && ks !! TUNNEL { AgreeTwice(ks, s2, s3, r); }
    if ks !! CREDENTIALS && ks !! ENDPOINTS && ks !! TUNNEL { AgreeTwice(ks, s1, s2, r); }
    if ks !! IDENTITY && ks !! CREDENTIALS && ks !! ENDPOINTS { AgreeTwice(ks, s, s2, s3); }
    if ks !! IDENTITY && ks !! CREDENTIALS && ks !! ENDPOINTS && ks !! TUNNEL { AgreeTwice(ks, s, s3, r); }
  }

  lemma AgreeIdentity(s: Fields, r: Fields)
    requires Agree(IDENTITY, s, r)
    ensures QPU_ID in s && QPU_ID in r && r[QPU_ID] == s[QPU_ID]
    ensures NATIVE_GATE_SET in s && NATIVE_GATE_SET in r && r[NATIVE_GATE_SET] == s[NATIVE_GATE_SET]
    ensures QPU_DISPLAY_NAME in s && QPU_DISPLAY_NAME in r && r[QPU_DISPLAY_NAME] == s[QPU_DISPLAY_NAME]
    ensures NUM_QUBITS in s && NUM_QUBITS in r && r[NUM_QUBITS] == s[NUM_QUBITS]
  {
  }

  lemma AgreeCredentials(s: Fields, r: Fields)
    requires Agree(CREDENTIALS, s, r)
    ensures JWT_PRIVATE_KEY in s && JWT_PRIVATE_KEY in r && r[JWT_PRIVATE_KEY] == s[JWT_PRIVATE_KEY]
    ensures JWT_KEY_ID in s && JWT_KEY_ID in r && r[JWT_KEY_ID] == s[JWT_KEY_ID]
  {
  }

  lemma AgreeEndpoints(s: Fields, r: Fields)
    requires Agree(ENDPOINTS, s, r)
    ensures REDIS_URL in s && REDIS_URL in r && r[REDIS_URL] == s[REDIS_URL]
    ensures WEBAPP_URL in s && WEBAPP_URL in r && r[WEBAPP_URL] == s[WEBAPP_URL]
    ensures CONNECT_PATH in s && CONNECT_PATH in r && r[CONNECT_PATH] == s[CONNECT_PATH]
    ensures HEARTBEAT_PATH in s && HEARTBEAT_PATH in r && r[HEARTBEAT_PATH] == s[HEARTBEAT_PATH]
    ensures WEBHOOK_PATH in s && WEBHOOK_PATH in r && r[WEBHOOK_PATH] == s[WEBHOOK_PATH]
  {
  }

  lemma SameVpn(s: Fields, s3: Fields, b: Bundle, r: Fields)
    requires Complete(s) && Complete(s3) && Complete(r) && TunnelGives(s3, b, r) && Agree(TUNNEL, s, s3)
    ensures TunnelGives(s, b, r)
  {
    assert s3[VPN_REQUIRED] == s[VPN_REQUIRED] && s3[VPN_INTERFACE_HINT] == s[VPN_INTERFACE_HINT];
    assert s3[VPN_CHECK_INTERVAL_SEC] == s[VPN_CHECK_INTERVAL_SEC] && s3[VPN_PROBE_TARGETS] == s[VPN_PROBE_TARGETS];
    if b.vpn.None? { AgreeTwice(TUNNEL, s, s3, r); }
    hide Complete, TextList, Agree;
  }

  /** A bundle is applied if and only if no required entry is missing or ill-typed, and then every setting is the
      entry of its own name, or what it was. */
  lemma AppliedExact(s: Fields, b: Bundle, vpnOk: bool)
    requires Complete(s)
    ensures Applied(s, b, vpnOk).Some? <==> BundleOk(s, b, vpnOk)
    ensures Applied(s, b, vpnOk).Some? ==>
      Complete(Applied(s, b, vpnOk).value) && BundleGives(s, b, Applied(s, b, vpnOk).value)
  {
    hide Complete, Applied, BundleOk, BundleGives;
    AppliedWhen(s, b, vpnOk);
    if Applied(s, b, vpnOk).Some? { AppliedWhat(s, b, vpnOk); }
  }
}
