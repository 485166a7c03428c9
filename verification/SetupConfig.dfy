/** server/src/modules/setup-config/setup-config.service.ts: configuration values kept
    encrypted in a table and mirrored in the running configuration. */
module SetupConfig {
  import opened Outcomes

  const ADMIN_PASSWORD_HASH_KEY := "ADMIN_PASSWORD_HASH"
  const ADMIN_PASSWORD_PATH := "admin.pass"
  const GAS_MULTIPLIER_KEY := "WEB3_GAS_MULTIPLIER"

  datatype Entry = Entry(value: string, encrypted: bool, secret: bool)

  /** A value of the running configuration: text, or the gas multiplier. */
  datatype RuntimeValue = Text(text: string) | Multiplier(factor: real)

  /** What is fixed for a deployment: the key-to-path table, the configuration the
      process starts with, whether it has an encryption key, the two directions of the
      encryption under that key, reading and printing numbers, and the password hash. */
  datatype Deployment = Deployment(
    table: map<string, string>, env: map<string, RuntimeValue>, hasKey: bool,
    encrypt: string -> string, decrypt: string -> string, number: string -> Option<real>, show: real -> string,
    hash: string -> string)

  ghost predicate Sound(d: Deployment) {
    && (forall v: string :: d.decrypt(d.encrypt(v)) == v)
    && (forall k1, k2 | k1 in d.table && k2 in d.table :: d.table[k1] == d.table[k2] ==> k1 == k2)
    && ADMIN_PASSWORD_HASH_KEY !in d.table && ADMIN_PASSWORD_PATH !in d.table.Values
  }

  datatype State = State(entries: map<string, Entry>, runtime: map<string, RuntimeValue>)

  predicate HasAt(s: string, part: string, i: nat) { i + |part| <= |s| && s[i..i + |part|] == part }

  predicate Contains(s: string, part: string) { exists i | 0 <= i <= |s| :: HasAt(s, part, i) }

  predicate IsSecretKey(key: string) {
    Contains(key, "SECRET") || Contains(key, "PRIVATE_KEY") || Contains(key, "API_KEY") || Contains(key, "WEBHOOK")
  }

  function EntryFor(d: Deployment, value: string, secret: bool, encryptSecret: bool): Entry {
    var encrypted := secret && encryptSecret && d.hasKey;
    Entry(if encrypted then d.encrypt(value) else value, encrypted, secret)
  }

  /** `key === 'WEB3_GAS_MULTIPLIER' ? Number(value) || 1 : value`. */
  function Normalized(d: Deployment, key: string, value: string): RuntimeValue {
    if key != GAS_MULTIPLIER_KEY then Text(value)
    else
      var n := d.number(value);
      Multiplier(if n.Some? && n.value != 0.0 then n.value else 1.0)
  }

  /** What an entry stands for; without the key, an encrypted one cannot be read. */
  function Decoded(d: Deployment, e: Entry): Option<string> {
    if !e.encrypted then Some(e.value) else if d.hasKey then Some(d.decrypt(e.value)) else None
  }

  function GetStored(d: Deployment, s: State, key: string): Option<string> {
    if key in s.entries then Decoded(d, s.entries[key]) else None
  }

  /** `String(configService.get(path) || '') || null`. */
  function GetFallback(d: Deployment, s: State, key: string): Option<string> {
    if key !in d.table || d.table[key] !in s.runtime then None
    else match s.runtime[d.table[key]]
      case Text(text) => if text == "" then None else Some(text)
      case Multiplier(factor) => if factor == 0.0 || d.show(factor) == "" then None else Some(d.show(factor))
  }

  function SetOne(d: Deployment, s: State, key: string, value: string): State {
    State(s.entries[key := EntryFor(d, value, IsSecretKey(key), true)],
          if key in d.table then s.runtime[d.table[key] := Normalized(d, key, value)] else s.runtime)
  }

  function SetAll(d: Deployment, s: State, values: seq<(string, string)>): State {
    if values == [] then s else
      var (key, value) := values[|values| - 1];
      SetOne(d, SetAll(d, s, values[..|values| - 1]), key, value)
  }

  /** The entries whose value is put into the running configuration at startup. */
  predicate Loads(d: Deployment, entries: map<string, Entry>, key: string) {
    && key in entries && key in d.table && key != ADMIN_PASSWORD_HASH_KEY
    && Decoded(d, entries[key]).Some? && Decoded(d, entries[key]).value != ""
  }

  /** The running configuration after startup, path by path. */
  ghost predicate IsStartupOf(d: Deployment, entries: map<string, Entry>, runtime: map<string, RuntimeValue>) {
    && (forall key | Loads(d, entries, key) ::
         d.table[key] in runtime && runtime[d.table[key]] == Normalized(d, key, Decoded(d, entries[key]).value))
    && (forall path | forall key | Loads(d, entries, key) :: d.table[key] != path ::
         (path in runtime <==> path in d.env) && (path in runtime ==> runtime[path] == d.env[path]))
  }

  class SetupConfigService {
    const deployment: Deployment
    var entries: map<string, Entry>
    var runtime: map<string, RuntimeValue>

    ghost function View(): State
      reads this
    {
      State(entries, runtime)
    }

    constructor (d: Deployment, entries: map<string, Entry>)
      ensures deployment == d && View() == State(entries, d.env)
    {
      deployment, this.entries, runtime := d, entries, d.env;
    }

    /** Reads every stored entry but the password hash into the running configuration. */
    method OnModuleInit()
      requires Sound(deployment) && runtime == deployment.env
      modifies this`runtime
      ensures IsStartupOf(deployment, entries, runtime)
    {
      hide Normalized, IsSecretKey;
      var left := entries.Keys;
      while left != {}
        invariant left <= entries.Keys
        invariant forall key | Loads(deployment, entries, key) && key !in left ::
          deployment.table[key] in runtime
          && runtime[deployment.table[key]] == Normalized(deployment, key, Decoded(deployment, entries[key]).value)
        invariant forall path
          | forall key | Loads(deployment, entries, key) && key !in left :: deployment.table[key] != path ::
          (path in runtime <==> path in deployment.env) && (path in runtime ==> runtime[path] == deployment.env[path])
      {
        var key :| key in left;
        left := left - {key};
        if key == ADMIN_PASSWORD_HASH_KEY {
          continue;
        }
        var value := GetValue(key);
        if value.Some? && value.value != "" {
          ApplyRuntimeValue(key, value.value);
        }
      }
    }

    method ApplyRuntimeValue(key: string, value: string)
      modifies this`runtime
      ensures runtime == if key in deployment.table
        then old(runtime)[deployment.table[key] := Normalized(deployment, key, value)] else old(runtime)
    {
      if key !in deployment.table {
        return;
      }
      var n := deployment.number(value);
      runtime := runtime[deployment.table[key] :=
        if key == GAS_MULTIPLIER_KEY then Multiplier(if n.Some? && n.value != 0.0 then n.value else 1.0)
        else Text(value)];
    }

    method SaveEntry(key: string, value: string, secret: bool, encryptSecret: bool)
      modifies this`entries
      ensures entries == old(entries)[key := EntryFor(deployment, value, secret, encryptSecret)]
    {
      var encrypted := secret && encryptSecret && deployment.hasKey;
      var storedValue := if encrypted then deployment.encrypt(value) else value;
      entries := entries[key := Entry(storedValue, encrypted, secret)];
    }

    method SetValues(values: seq<(string, string)>) returns (saved: seq<string>)
      modifies this
      ensures View() == SetAll(deployment, old(View()), values)
      ensures |saved| == |values| && forall i | 0 <= i < |saved| :: saved[i] == values[i].0
    {
      saved := [];
      for i := 0 to |values|
        invariant View() == SetAll(deployment, old(View()), values[..i])
        invariant |saved| == i && forall k | 0 <= k < i :: saved[k] == values[k].0
      {
        var (key, value) := values[i];
        SaveEntry(key, value, IsSecretKey(key), true);
        ApplyRuntimeValue(key, value);
        saved := saved + [key];
        assert values[..i + 1][..i] == values[..i];
      }
      assert values[..|values|] == values;
    }

    method SetAdminPassword(password: string) returns (hash: string)
      modifies this
      ensures hash == deployment.hash(password)
      ensures View() == State(old(entries)[ADMIN_PASSWORD_HASH_KEY := Entry(hash, false, true)],
                              old(runtime)[ADMIN_PASSWORD_PATH := Text(password)])
    {
      hash := deployment.hash(password);
      SaveEntry(ADMIN_PASSWORD_HASH_KEY, hash, true, false);
      runtime := runtime[ADMIN_PASSWORD_PATH := Text(password)];
    }

    /** A stored value, decrypted if need be; for a key that is not stored, what the
        running configuration holds. */
    method GetValue(key: string) returns (value: Option<string>)
      ensures value == if key in entries then GetStored(deployment, View(), key)
                       else GetFallback(deployment, View(), key)
    {
      if key !in entries {
        return GetFallback(deployment, State(entries, runtime), key);
      }
      var entry := entries[key];
      if !entry.encrypted {
        return Some(entry.value);
      }
      if deployment.hasKey {
        return Some(deployment.decrypt(entry.value));
      }
      return None;
    }
  }

  // ---- runs ----

  datatype Event =
    | Write(values: seq<(string, string)>)
    | WritePassword(password: string)
    | Restart(runtime: map<string, RuntimeValue>)

  /** A restart may end in any running configuration that startup allows. */
  ghost predicate Legal(d: Deployment, s: State, e: Event) {
    e.Restart? ==> IsStartupOf(d, s.entries, e.runtime)
  }

  function Step(d: Deployment, s: State, e: Event): State {
    match e
    case Write(values) => SetAll(d, s, values)
    case WritePassword(password) =>
      State(s.entries[ADMIN_PASSWORD_HASH_KEY := Entry(d.hash(password), false, true)],
            s.runtime[ADMIN_PASSWORD_PATH := Text(password)])
    case Restart(runtime) => s.(runtime := runtime)
  }

  function Run(d: Deployment, s: State, events: seq<Event>): State {
    if events == [] then s else Step(d, Run(d, s, events[..|events| - 1]), events[|events| - 1])
  }

  ghost predicate LegalRun(d: Deployment, s: State, events: seq<Event>) {
    events == [] || (
      && LegalRun(d, s, events[..|events| - 1])
      && Legal(d, Run(d, s, events[..|events| - 1]), events[|events| - 1]))
  }

  /** The last value written for each key, in a list of pairs and in a run. */
  function LastIn(values: seq<(string, string)>, before: map<string, string>): map<string, string> {
    if values == [] then before
    else LastIn(values[..|values| - 1], before)[values[|values| - 1].0 := values[|values| - 1].1]
  }

  function LastWritten(d: Deployment, events: seq<Event>): map<string, string> {
    if events == [] then map[] else
      var before := LastWritten(d, events[..|events| - 1]);
      match events[|events| - 1]
      case Write(values) => LastIn(values, before)
      case WritePassword(password) => before[ADMIN_PASSWORD_HASH_KEY := d.hash(password)]
      case Restart(_) => before
  }

  /** The store holds what was last written, decrypted. */
  ghost predicate StoreAgrees(d: Deployment, s: State, last: map<string, string>) {
    forall key <- last :: key in s.entries && Decoded(d, s.entries[key]) == Some(last[key])
  }

  predicate RuntimeAgrees(d: Deployment, s: State, key: string, value: string) {
    key in d.table ==> d.table[key] in s.runtime && s.runtime[d.table[key]] == Normalized(d, key, value)
  }

  /** ... and so does the running configuration, for values that are not empty. */
  ghost predicate ConfigAgrees(d: Deployment, s: State, last: map<string, string>) {
    forall key <- last :: last[key] != "" ==> RuntimeAgrees(d, s, key, last[key])
  }

  lemma SetOneAgrees(d: Deployment, s: State, key: string, value: string, last: map<string, string>)
    requires Sound(d) && StoreAgrees(d, s, last)
    ensures StoreAgrees(d, SetOne(d, s, key, value), last[key := value])
    ensures ConfigAgrees(d, s, last) ==> ConfigAgrees(d, SetOne(d, s, key, value), last[key := value])
    ensures RuntimeAgrees(d, SetOne(d, s, key, value), key, value)
  {
    hide IsSecretKey, Normalized;
    var s' := SetOne(d, s, key, value);
    assert Decoded(d, s'.entries[key]) == Some(value);
  }

  lemma {:induction false} SetAllAgrees(d: Deployment, s: State, values: seq<(string, string)>, last: map<string,
                                        string>)
    requires Sound(d) && StoreAgrees(d, s, last)
    ensures StoreAgrees(d, SetAll(d, s, values), LastIn(values, last))
    ensures ConfigAgrees(d, s, last) ==> ConfigAgrees(d, SetAll(d, s, values), LastIn(values, last))
  {
    if values != [] {
      hide SetOne, StoreAgrees, ConfigAgrees;
      var init, pair := values[..|values| - 1], values[|values| - 1];
      SetAllAgrees(d, s, init, last);
      SetOneAgrees(d, SetAll(d, s, init), pair.0, pair.1, LastIn(init, last));
    }
  }

  lemma RestartAgrees(d: Deployment, s: State, runtime: map<string, RuntimeValue>, last: map<string, string>)
    requires Sound(d) && StoreAgrees(d, s, last) && IsStartupOf(d, s.entries, runtime)
    ensures ConfigAgrees(d, s.(runtime := runtime), last)
  {
    hide Normalized;
    forall key | key in last && last[key] != "" && key in d.table ensures Loads(d, s.entries, key) {
    }
  }

  /** In every run of writes, password changes and restarts from an empty store: reading
      a written key gives its last value, and every mapped key whose last value is not
      empty is in the running configuration with that value. */
  lemma {:induction false} ConfigFollowsStore(d: Deployment, events: seq<Event>)
    requires Sound(d) && LegalRun(d, State(map[], d.env), events)
    ensures var s := Run(d, State(map[], d.env), events);
      StoreAgrees(d, s, LastWritten(d, events)) && ConfigAgrees(d, s, LastWritten(d, events))
  {
    if events != [] {
      var init, e := events[..|events| - 1], events[|events| - 1];
      var s, last := Run(d, State(map[], d.env), init), LastWritten(d, init);
      ConfigFollowsStore(d, init);
      match e
      case Write(values) => SetAllAgrees(d, s, values, last);
      case WritePassword(password) => PasswordAgrees(d, s, password, last);
      case Restart(runtime) => RestartAgrees(d, s, runtime, last);
    }
  }

  lemma PasswordAgrees(d: Deployment, s: State, password: string, last: map<string, string>)
    requires Sound(d) && StoreAgrees(d, s, last) && ConfigAgrees(d, s, last)
    ensures var s' := Step(d, s, WritePassword(password));
      var last' := last[ADMIN_PASSWORD_HASH_KEY := d.hash(password)];
      StoreAgrees(d, s', last') && ConfigAgrees(d, s', last')
  {
    hide Normalized;
    forall key | key in last && key in d.table ensures d.table[key] != ADMIN_PASSWORD_PATH {
      assert d.table[key] in d.table.Values;
    }
  }

  /** An empty value does not survive a restart: the path then holds what the process
      started with, so it agrees exactly when that happens to be the same. */
  lemma EmptyValueAfterRestart(d: Deployment, s: State, runtime: map<string, RuntimeValue>, key: string)
    requires Sound(d) && IsStartupOf(d, s.entries, runtime)
    requires key in d.table && key in s.entries && Decoded(d, s.entries[key]) == Some("")
    ensures RuntimeAgrees(d, s.(runtime := runtime), key, "")
      <==> d.table[key] in d.env && d.env[d.table[key]] == Normalized(d, key, "")
  {
    hide Normalized;
    forall k | Loads(d, s.entries, k) ensures d.table[k] != d.table[key] {
    }
  }

  // ---- the table that ships ----

  function ConfigPathByEnvKey(): map<string, string> {
    map[
      "MIXIN_APP_ID" := "mixin.app_id",
      "MIXIN_SESSION_ID" := "mixin.session_id",
      "MIXIN_SERVER_PUBLIC_KEY" := "mixin.server_public_key",
      "MIXIN_SESSION_PRIVATE_KEY" := "mixin.session_private_key",
      "MIXIN_SPEND_PRIVATE_KEY" := "mixin.spend_private_key",
      "MIXIN_OAUTH_SECRET" := "mixin.oauth_secret",
      "WEB3_MAINNET_RPC_URL" := "web3.network.mainnet.rpc_url",
      "WEB3_SEPOLIA_RPC_URL" := "web3.network.sepolia.rpc_url",
      "WEB3_POLYGON_RPC_URL" := "web3.network.polygon.rpc_url",
      "WEB3_POLYGON_AMOY_RPC_URL" := "web3.network.polygon_amoy.rpc_url",
      "WEB3_BSC_MAINNET_RPC_URL" := "web3.network.bsc.rpc_url",
      "WEB3_BSC_TESTNET_RPC_URL" := "web3.network.bsc_testnet.rpc_url",
      "WEB3_PRIVATE_KEY" := "web3.private_key",
      "WEB3_GAS_MULTIPLIER" := "web3.gas_multiplier",
      "COINGECKO_API_KEY" := "coingecko.api_key",
      "REWARD_MIXIN_VAULT_USER_ID" := "reward.mixin_vault_user_id"]
  }

  /** No two keys of the shipped table share a path, and none meets the password's. */
  lemma ShippedTableIsInjective()
    ensures var t := ConfigPathByEnvKey();
      && (forall k1, k2 | k1 in t && k2 in t :: t[k1] == t[k2] ==> k1 == k2)
      && ADMIN_PASSWORD_HASH_KEY !in t && ADMIN_PASSWORD_PATH !in t.Values
  {
    PathsDiffer();
  }

  lemma PathsDiffer()
    ensures var t := ConfigPathByEnvKey();
      forall k1, k2 | k1 in t && k2 in t && |t[k1]| == |t[k2]| :: t[k1] == t[k2] ==> k1 == k2
  {
  }

  /** So every deployment with that table and an encryption that can be undone is sound. */
  lemma ShippedDeploymentIsSound(d: Deployment)
    requires d.table == ConfigPathByEnvKey() && forall v: string :: d.decrypt(d.encrypt(v)) == v
    ensures Sound(d)
  {
    hide ConfigPathByEnvKey;
    ShippedTableIsInjective();
  }

  // ---- how entries are stored ----

  /** A key is secret exactly when one of four words is part of it. */
  lemma SecretKeys(key: string)
    ensures IsSecretKey(key) <==>
      exists front, back :: key == front + "SECRET" + back || key == front + "PRIVATE_KEY" + back
        || key == front + "API_KEY" + back || key == front + "WEBHOOK" + back
  {
    hide Contains;
    forall part: string ensures Contains(key, part) <==> exists front, back :: key == front + part + back {
      ContainsExactly(key, part);
    }
  }

  lemma ContainsExactly(s: string, part: string)
    ensures Contains(s, part) <==> exists front, back :: s == front + part + back
  {
    if Contains(s, part) {
      var i :| 0 <= i <= |s| && HasAt(s, part, i);
      assert s == s[..i] + part + s[i + |part|..];
    }
    if front, back :| s == front + part + back { assert HasAt(s, part, |front|); }
  }

  /** In every run, what is stored for a key that was written: secret ones encrypted if
      there is a key to encrypt with, others as they are. */
  lemma {:induction false} SecretsAreEncrypted(d: Deployment, events: seq<Event>)
    requires forall e <- events :: !e.WritePassword?
    ensures var (s, last) := (Run(d, State(map[], d.env), events), LastWritten(d, events));
      s.entries.Keys == last.Keys
      && forall key <- last ::
           s.entries[key] == if IsSecretKey(key) && d.hasKey then Entry(d.encrypt(last[key]), true, true)
                             else Entry(last[key], false, IsSecretKey(key))
  {
    hide IsSecretKey, Normalized;
    if events != [] {
      var (init, e) := (events[..|events| - 1], events[|events| - 1]);
      assert e in events && forall x <- init :: x in events;
      SecretsAreEncrypted(d, init);
      if e.Write? { AllStored(d, Run(d, State(map[], d.env), init), e.values, LastWritten(d, init)); }
    }
  }

  ghost predicate StoredAs(d: Deployment, s: State, last: map<string, string>) {
    s.entries.Keys == last.Keys
    && forall key <- last ::
         s.entries[key] == if IsSecretKey(key) && d.hasKey then Entry(d.encrypt(last[key]), true, true)
                           else Entry(last[key], false, IsSecretKey(key))
  }

  lemma {:induction false} AllStored(d: Deployment, s: State, values: seq<(string, string)>, last: map<string, string>)
    requires StoredAs(d, s, last)
    ensures StoredAs(d, SetAll(d, s, values), LastIn(values, last))
  {
    hide IsSecretKey, Normalized;
    if values != [] { AllStored(d, s, values[..|values| - 1], last); }
  }

  /** The gas multiplier is a number, one where the text is none or zero; all else is text. */
  lemma RuntimeValues(d: Deployment, key: string, value: string)
    ensures key != "WEB3_GAS_MULTIPLIER" ==> Normalized(d, key, value) == Text(value)
    ensures key == "WEB3_GAS_MULTIPLIER" ==>
      Normalized(d, key, value)
      == if d.number(value) in {None, Some(0.0)} then Multiplier(1.0) else Multiplier(d.number(value).value)
  {
  }

  /** A key that was never written reads as what is running under its path, unless that is
      empty or zero. */
  lemma UnwrittenReads(d: Deployment, s: State, key: string)
    ensures var r := GetFallback(d, s, key);
      && (r.Some? ==> key in d.table && d.table[key] in s.runtime)
      && (key in d.table && d.table[key] in s.runtime ==>
           match s.runtime[d.table[key]]
           case Text(text) => (text == "" ==> r == None) && (text != "" ==> r == Some(text))
           case Multiplier(factor) =>
             (factor == 0.0 || d.show(factor) == "" ==> r == None)
             && (factor != 0.0 && d.show(factor) != "" ==> r == Some(d.show(factor))))
  {
  }
}
