/** cmd/buddy.go: the orchestrator of the command. NewBuddy prepares the
    directories, the ACME account key, the registry and the stores;
    EnsureCerts then makes sure a valid certificate is stored, creating the
    ACME client on the first run that needs it and succeeds. The key
    generator's outcome, the clock reading, the outcome of creating the
    ACME client on each run and the outcome of connecting to Consul are
    parameters. */
module Buddy {
  import opened Types
  import opened Paths
  import opened Pem
  import opened FileSystem
  import opened Cert
  import opened CA
  import FileStore
  import opened Consul

  datatype BuddyConfig = BuddyConfig(
    email: string,
    domains: seq<string>,
    keyPath: string,
    certPath: string,
    validBefore: int,
    webrootPath: string,
    accountKeyPath: string,
    serviceName: string,
    registryAddress: string)

  /** The ACME account: its e-mail and its key. */
  datatype User = User(email: string, privateKey: PrivateKey)

  /** The Registry interface: dummyRegistry, whose calls do nothing, or the
      Consul registry. */
  datatype Registry = DummyRegistry | ConsulAgent(consul: ConsulRegistry)
  {
    method CertAvailable(cert: Certificate) returns (err: Option<Error>)
      modifies if this.ConsulAgent? then {this.consul.agent} else {}
      ensures this.DummyRegistry? ==> err.None?
      ensures this.ConsulAgent? ==>
        (consul.agent.View(), err) == CertAvailableOutcome(consul.serviceName, consul.agent.refused, old(consul.agent.View()), cert)
    {
      match this
      case DummyRegistry => err := None;
      case ConsulAgent(c) => err := c.CertAvailable(cert);
    }

    method CertsExpired(cert: Certificate) returns (err: Option<Error>)
      modifies if this.ConsulAgent? then {this.consul.agent} else {}
      ensures this.DummyRegistry? ==> err.None?
      ensures this.ConsulAgent? ==>
        (consul.agent.View(), err) == CertsExpiredOutcome(consul.agent.refused, old(consul.agent.View()), cert)
    {
      match this
      case DummyRegistry => err := None;
      case ConsulAgent(c) => err := c.CertsExpired(cert);
    }
  }

  // ---------------------------------------------------------------- NewBuddy

  /** The store of the ACME account key. */
  function AccountKeyStore(config: BuddyConfig): FileStore.FileStorage
  {
    FileStore.FileStorage(config.accountKeyPath, false)
  }

  /** The first half of NewBuddy: the parent directories of the account
      key, the certificate and the webroot, then the account key, generated
      and saved when absent, loaded otherwise. */
  function Bootstrap(config: BuddyConfig, fs: Fs, generated: Result<PrivateKey>): (r: (Fs, Result<PrivateKey>))
    ensures r.0.denied == fs.denied
    ensures EnsureParent(fs, config.accountKeyPath).1.Some? ==>
      r == (fs, Err(Wrap("Can't create parent path for account key", EnsureParent(fs, config.accountKeyPath).1.value)))
    ensures r.0.files == fs.files
      || (generated.Ok? && r.0.files == fs.files[FileStore.KeyPath(AccountKeyStore(config)) := ToPemBlock(Key(generated.value))])
  {
    var (fs1, e1) := EnsureParent(fs, config.accountKeyPath);
    if e1.Some? then (fs1, Err(Wrap("Can't create parent path for account key", e1.value)))
    else
      var (fs2, e2) := EnsureParent(fs1, config.certPath);
      if e2.Some? then (fs2, Err(Wrap("Can't create parent path for certificate", e2.value)))
      else
        var (fs3, e3) := EnsureParent(fs2, Join(config.webrootPath, ".keep"));
        if e3.Some? then (fs3, Err(Wrap("Can't create parent directory for webroot", e3.value)))
        else AccountKey(AccountKeyStore(config), fs3, generated)
  }

  /** The account key: generated and saved when the store has none, loaded
      otherwise. */
  function AccountKey(store: FileStore.FileStorage, fs: Fs, generated: Result<PrivateKey>): (r: (Fs, Result<PrivateKey>))
    ensures FileStore.KeyExistsIn(store, fs) ==> r == (fs, if FileStore.LoadKeyOutcome(store, fs).Ok? then FileStore.LoadKeyOutcome(store, fs)
                                                           else Err(Wrap("Unable to load private key for ACME account", FileStore.LoadKeyOutcome(store, fs).error)))
    ensures r.0.denied == fs.denied
  {
    if !FileStore.KeyExistsIn(store, fs) then
      if generated.Err? then (fs, Err(Wrap("Can't generate new RSA account key", generated.error)))
      else
        var (fs1, e) := FileStore.SaveKeyOutcome(store, fs, generated.value);
        if e.Some? then (fs1, Err(Wrap("Can't write private account key", e.value))) else (fs1, generated)
    else
      match FileStore.LoadKeyOutcome(store, fs)
      case Err(e) => (fs, Err(Wrap("Unable to load private key for ACME account", e)))
      case Ok(k) => (fs, Ok(k))
  }

  /** The registry: the dummy one iff no registry address is configured;
      otherwise the Consul registry, whose connection errors are wrapped. */
  function ChooseRegistry(config: BuddyConfig, agent: Agent, clientErr: Option<Error>, leaderErr: Option<Error>): (r: Result<Registry>)
    ensures r.Ok? && r.value.DummyRegistry? <==> config.registryAddress == ""
    ensures config.registryAddress != "" ==> (r.Ok? <==> clientErr.None? && leaderErr.None?)
    ensures r.Ok? && r.value.ConsulAgent? ==> r.value.consul == ConsulRegistry(agent, config.serviceName)
  {
    if config.registryAddress != "" then
      match NewConsulRegistry(agent, config.serviceName, clientErr, leaderErr)
      case Err(e) => Err(Wrap("Unable to connect to Consul Registry", e))
      case Ok(reg) => Ok(ConsulAgent(reg))
    else Ok(DummyRegistry)
  }

  // ---------------------------------------------------------------- EnsureCerts

  /** Everything EnsureCerts depends on besides the filesystem, whether the
      CA client exists yet and the calls it has seen. `clientError` is what
      acme.NewAcmeClient reports on this run, should the run try to create
      the client. */
  datatype Setup = Setup(certStore: FileStore.FileStorage, privateKeyStore: FileStore.FileStorage,
                         clientError: Option<Error>, obtainReply: ObtainReply, renewReply: RenewReply,
                         checker: Checker, domains: seq<string>)

  /** The state after EnsureCerts: the filesystem, whether the CA client
      exists, the calls it has seen, and the error returned. */
  datatype EnsureRun = EnsureRun(fs: Fs, caSet: bool, calls: seq<CACall>, err: Option<Error>)

  /** Where the key phase leaves a run: the filesystem, the key variable
      that the rest of the run reads, the error that ends the run if any,
      and whether obtaining is forced. */
  datatype KeyStep = KeyStep(fs: Fs, key: Option<PrivateKey>, err: Option<Error>, forced: bool)

  /** A missing key is generated and saved under a variable that shadows
      the one read afterwards, so the rest of the run sees no key; a
      present key is loaded. */
  function KeyPhase(store: FileStore.FileStorage, fs: Fs, generated: Result<PrivateKey>): (r: KeyStep)
    ensures r.forced <==> !FileStore.KeyExistsIn(store, fs)
    ensures r.forced ==> r.key.None?
    ensures !r.forced ==> r.fs == fs && (r.err.None? <==> FileStore.LoadKeyOutcome(store, fs).Ok?)
    ensures !r.forced && r.err.None? ==> r.key == Some(FileStore.LoadKeyOutcome(store, fs).value)
  {
    if !FileStore.KeyExistsIn(store, fs) then
      if generated.Err? then KeyStep(fs, None, Some(Wrap("Unable to generate missing private key", generated.error)), true)
      else
        var (fs1, e) := FileStore.SaveKeyOutcome(store, fs, generated.value);
        if e.Some? then KeyStep(fs1, None, Some(Wrap("Unable to save private key", e.value)), true)
        else KeyStep(fs1, None, None, true)
    else
      match FileStore.LoadKeyOutcome(store, fs)
      case Err(e) => KeyStep(fs, None, Some(Wrap("Unable to load private key", e)), false)
      case Ok(k) => KeyStep(fs, Some(k), None, false)
  }

  /** The existing-certificate path: load, check the first certificate
      (indexed without a length check), renew when it is invalid. The
      renewal error is dropped and the result is used regardless. */
  ghost function CheckExisting(setup: Setup, caSet: bool, fs: Fs, calls: seq<CACall>, key: Option<PrivateKey>, now: int): EnsureRun
  {
    var loaded := FileStore.LoadCertsOutcome(setup.certStore, fs);
    if loaded.err.Some? then EnsureRun(fs, caSet, calls, Some(Wrap("Unable to load certificates", loaded.err.value)))
    else if |loaded.certs| == 0 then EnsureRun(fs, caSet, calls, Some(Crash(IndexOutOfRange)))
    else
      var (valid, checkErr) := IsValid(setup.checker, loaded.certs[0], now);
      if checkErr.Some? then EnsureRun(fs, caSet, calls, Some(Wrap("Unable to validate certificate", checkErr.value)))
      else if valid then EnsureRun(fs, caSet, calls, None)
      else if !caSet && setup.clientError.Some? then
        EnsureRun(fs, false, calls, Some(Wrap("Can't create ACME CA", setup.clientError.value)))
      else
        var calls1 := calls + [RenewCall(loaded.certs[0], key)];
        if setup.renewReply.result.None? then EnsureRun(fs, true, calls1, Some(Crash(NilPointer)))
        else
          var (fs1, e) := FileStore.SaveCertsOutcome(setup.certStore, fs, setup.renewReply.result.value.AllCerts());
          EnsureRun(fs1, true, calls1, WrapOpt("Unable to save renewed Certificate", e))
  }

  /** The obtain path: create the client if needed, obtain, save the
      bundle. Any failure map, even an empty one, is an error, and nothing
      checks what was saved. */
  function Obtain(setup: Setup, caSet: bool, fs: Fs, calls: seq<CACall>, key: Option<PrivateKey>): EnsureRun
  {
    if !caSet && setup.clientError.Some? then
      EnsureRun(fs, false, calls, Some(Wrap("Can't create ACME CA", setup.clientError.value)))
    else
      var calls1 := calls + [ObtainCall(setup.domains, key)];
      var reply := setup.obtainReply;
      if reply.failures.Some? then
        EnsureRun(fs, true, calls1, Some(Message("Error obtaining new certificate for private key")))
      else if reply.result.None? then EnsureRun(fs, true, calls1, Some(Crash(NilPointer)))
      else
        var (fs1, e) := FileStore.SaveCertsOutcome(setup.certStore, fs, reply.result.value.AllCerts());
        EnsureRun(fs1, true, calls1, WrapOpt("Can't store obtained certificates", e))
  }

  /** One EnsureCerts. */
  ghost function EnsureOutcome(setup: Setup, caSet: bool, fs: Fs, calls: seq<CACall>, generated: Result<PrivateKey>, now: int): EnsureRun
  {
    var k := KeyPhase(setup.privateKeyStore, fs, generated);
    if k.err.Some? then EnsureRun(k.fs, caSet, calls, k.err)
    else if k.forced || !FileStore.CertsExistIn(setup.certStore, k.fs) then Obtain(setup, caSet, k.fs, calls, k.key)
    else CheckExisting(setup, caSet, k.fs, calls, k.key, now)
  }

  class Buddy {
    const registry: Registry
    var ca: AutomatedCA?
    const config: BuddyConfig
    const checker: Checker
    const user: User
    const certStore: FileStore.FileStorage
    const privateKeyStore: FileStore.FileStorage
    const accountKeyStore: FileStore.FileStorage
    const disk: Disk
    /** The client acme.NewAcmeClient hands out when it succeeds. */
    const client: AutomatedCA

    /** The CA field is either unset or that client. */
    ghost predicate Valid()
      reads this
    {
      ca != null ==> ca == client
    }

    /** The setup of one run, in which creating the client reports
        `clientError`. */
    function Config(clientError: Option<Error>): Setup
    {
      Setup(certStore, privateKeyStore, clientError, client.obtainReply, client.renewReply, checker, config.domains)
    }

    constructor (registry: Registry, config: BuddyConfig, checker: Checker, user: User,
                 certStore: FileStore.FileStorage, privateKeyStore: FileStore.FileStorage,
                 accountKeyStore: FileStore.FileStorage, disk: Disk, client: AutomatedCA)
      ensures Valid() && ca == null
      ensures this.registry == registry && this.config == config && this.checker == checker && this.user == user
      ensures this.certStore == certStore && this.privateKeyStore == privateKeyStore && this.accountKeyStore == accountKeyStore
      ensures this.disk == disk && this.client == client
    {
      this.registry := registry;
      this.config := config;
      this.checker := checker;
      this.user := user;
      this.certStore := certStore;
      this.privateKeyStore := privateKeyStore;
      this.accountKeyStore := accountKeyStore;
      this.disk := disk;
      this.client := client;
      ca := null;
    }

    /** Creates the ACME client unless it exists already; `clientError` is
        what acme.NewAcmeClient reports this time. A failure leaves the
        field unset, so a later call tries again. */
    method ConnectCA(clientError: Option<Error>) returns (err: Option<Error>)
      requires Valid()
      modifies this
      ensures Valid()
      ensures err.None? <==> ca != null
      ensures err.None? <==> old(ca) != null || clientError.None?
      ensures err.Some? ==> err == Some(Wrap("Can't create ACME CA", clientError.value))
    {
      if ca == null {
        if clientError.Some? {
          return Some(Wrap("Can't create ACME CA", clientError.value));
        }
        ca := client;
      }
      return None;
    }

    method EnsureCerts(generated: Result<PrivateKey>, clientError: Option<Error>, now: int) returns (err: Option<Error>)
      requires Valid()
      modifies this, disk, client
      ensures Valid()
      ensures EnsureRun(disk.View(), ca != null, client.calls, err)
              == EnsureOutcome(Config(clientError), old(ca != null), old(disk.View()), old(client.calls), generated, now)
      ensures registry.ConsulAgent? ==> unchanged(registry.consul.agent)
    {
      var obtainCerts := false;
      var privateKey: Option<PrivateKey> := None;
      var keyExists := FileStore.KeyExists(privateKeyStore, disk);
      if !keyExists {
        obtainCerts := true;
        if generated.Err? {
          return Some(Wrap("Unable to generate missing private key", generated.error));
        }
        var privateKey := generated.value;
        err := FileStore.SaveKey(privateKeyStore, disk, privateKey);
        if err.Some? {
          return Some(Wrap("Unable to save private key", err.value));
        }
      } else {
        var loaded := FileStore.LoadKey(privateKeyStore, disk);
        if loaded.Err? {
          return Some(Wrap("Unable to load private key", loaded.error));
        }
        privateKey := Some(loaded.value);
      }
      assert KeyPhase(privateKeyStore, old(disk.View()), generated) == KeyStep(disk.View(), privateKey, None, obtainCerts);

      var certsExist := FileStore.CertsExist(certStore, disk);
      if !certsExist {
        obtainCerts := true;
      }
      if obtainCerts {
        err := ObtainCerts(privateKey, clientError);
      } else {
        err := CheckExistingCerts(privateKey, clientError, now);
      }
    }

    /** The then branch of EnsureCerts. */
    method ObtainCerts(privateKey: Option<PrivateKey>, clientError: Option<Error>) returns (err: Option<Error>)
      requires Valid()
      modifies this, disk, client
      ensures Valid()
      ensures EnsureRun(disk.View(), ca != null, client.calls, err)
              == Obtain(Config(clientError), old(ca != null), old(disk.View()), old(client.calls), privateKey)
      ensures registry.ConsulAgent? ==> unchanged(registry.consul.agent)
    {
      err := ConnectCA(clientError);
      if err.Some? {
        return;
      }
      var result, errs := ca.ObtainCertificate(config.domains, privateKey);
      if errs.Some? {
        return Some(Message("Error obtaining new certificate for private key"));
      }
      if result.None? {
        return Some(Crash(NilPointer));
      }
      err := FileStore.SaveCerts(certStore, disk, result.value.AllCerts());
      if err.Some? {
        return Some(Wrap("Can't store obtained certificates", err.value));
      }
    }

    /** The else branch of EnsureCerts. */
    method CheckExistingCerts(privateKey: Option<PrivateKey>, clientError: Option<Error>, now: int) returns (err: Option<Error>)
      requires Valid()
      modifies this, disk, client
      ensures Valid()
      ensures EnsureRun(disk.View(), ca != null, client.calls, err)
              == CheckExisting(Config(clientError), old(ca != null), old(disk.View()), old(client.calls), privateKey, now)
      ensures registry.ConsulAgent? ==> unchanged(registry.consul.agent)
    {
      var certs, loadErr := FileStore.LoadCerts(certStore, disk);
      if loadErr.Some? {
        return Some(Wrap("Unable to load certificates", loadErr.value));
      }
      if |certs| == 0 {
        return Some(Crash(IndexOutOfRange));
      }
      var (valid, checkErr) := IsValid(checker, certs[0], now);
      if checkErr.Some? {
        return Some(Wrap("Unable to validate certificate", checkErr.value));
      }
      if !valid {
        err := ConnectCA(clientError);
        if err.Some? {
          return;
        }
        var result, renewErr := ca.Renew(certs[0], privateKey);
        if renewErr.Some? {
          var dropped := Wrap("Unable to renew certificate", renewErr.value);
        }
        if result.None? {
          return Some(Crash(NilPointer));
        }
        err := FileStore.SaveCerts(certStore, disk, result.value.AllCerts());
        if err.Some? {
          return Some(Wrap("Unable to save renewed Certificate", err.value));
        }
      }
      return None;
    }
  }

  /** NewBuddy. The registry's Consul agent and its connection outcome, the
      generated account key and the ACME client that later runs may create
      are parameters. */
  method NewBuddy(config: BuddyConfig, disk: Disk, generated: Result<PrivateKey>,
                  agent: Agent, consulClientErr: Option<Error>, consulLeaderErr: Option<Error>,
                  client: AutomatedCA)
    returns (b: Buddy?, err: Option<Error>)
    modifies disk
    ensures var (fs, key) := Bootstrap(config, old(disk.View()), generated);
      && disk.View() == fs
      && (key.Err? ==> b == null && err == Some(key.error))
      && (key.Ok? && ChooseRegistry(config, agent, consulClientErr, consulLeaderErr).Err? ==>
            b == null && err == Some(ChooseRegistry(config, agent, consulClientErr, consulLeaderErr).error))
      && (key.Ok? && ChooseRegistry(config, agent, consulClientErr, consulLeaderErr).Ok? ==>
            && err.None? && b != null && fresh(b) && b.Valid() && b.ca == null
            && b.user == User(config.email, key.value)
            && b.registry == ChooseRegistry(config, agent, consulClientErr, consulLeaderErr).value
            && b.checker == TimeExpirationChecker(config.validBefore)
            && b.certStore == FileStore.FileStorage(config.certPath, true)
            && b.privateKeyStore == FileStore.FileStorage(config.keyPath, false)
            && b.accountKeyStore == AccountKeyStore(config)
            && b.config == config && b.disk == disk && b.client == client)
  {
    b := null;
    err := EnsureParentPathExists(disk, config.accountKeyPath);
    if err.Some? {
      return null, Some(Wrap("Can't create parent path for account key", err.value));
    }
    err := EnsureParentPathExists(disk, config.certPath);
    if err.Some? {
      return null, Some(Wrap("Can't create parent path for certificate", err.value));
    }
    err := EnsureParentPathExists(disk, Join(config.webrootPath, ".keep"));
    if err.Some? {
      return null, Some(Wrap("Can't create parent directory for webroot", err.value));
    }

    var accountKeyStore := FileStore.FileStorage(config.accountKeyPath, false);
    var accountKey: PrivateKey;
    var keyExists := FileStore.KeyExists(accountKeyStore, disk);
    if !keyExists {
      if generated.Err? {
        return null, Some(Wrap("Can't generate new RSA account key", generated.error));
      }
      accountKey := generated.value;
      err := FileStore.SaveKey(accountKeyStore, disk, accountKey);
      if err.Some? {
        return null, Some(Wrap("Can't write private account key", err.value));
      }
    } else {
      var loaded := FileStore.LoadKey(accountKeyStore, disk);
      if loaded.Err? {
        return null, Some(Wrap("Unable to load private key for ACME account", loaded.error));
      }
      accountKey := loaded.value;
    }

    var user := User(config.email, accountKey);
    var checker := TimeExpirationChecker(config.validBefore);
    var registry: Registry;
    if config.registryAddress != "" {
      var connected := NewConsulRegistry(agent, config.serviceName, consulClientErr, consulLeaderErr);
      if connected.Err? {
        return null, Some(Wrap("Unable to connect to Consul Registry", connected.error));
      }
      registry := ConsulAgent(connected.value);
    } else {
      registry := DummyRegistry;
    }
    b := new Buddy(registry, config, checker, user, FileStore.FileStorage(config.certPath, true),
                   FileStore.FileStorage(config.keyPath, false), accountKeyStore, disk, client);
    err := None;
  }

  // ---------------------------------------------------------------- properties

  /** A generated account key is saved and loads back; an existing one is
      loaded and nothing is written. */
  lemma AccountKeyGeneratedIffAbsent(store: FileStore.FileStorage, fs: Fs, generated: Result<PrivateKey>)
    ensures var r := AccountKey(store, fs, generated);
      !FileStore.KeyExistsIn(store, fs) && r.1.Ok? ==>
        r.1 == generated && FileStore.KeyExistsIn(store, r.0) && FileStore.LoadKeyOutcome(store, r.0) == generated
    ensures var r := AccountKey(store, fs, generated);
      FileStore.KeyExistsIn(store, fs) ==> r.0 == fs && (r.1.Ok? <==> FileStore.LoadKeyOutcome(store, fs).Ok?)
  {
    if generated.Ok? {
      FileStore.KeySaveRoundTrip(store, fs, generated.value);
    }
  }

  /** When the key is missing it is generated and saved, obtaining is
      forced, and the CA is asked with no key at all: the generated key was
      bound to a shadowing variable. */
  lemma ShadowedKeyReachesObtain(setup: Setup, caSet: bool, fs: Fs, calls: seq<CACall>, key: PrivateKey, now: int)
    requires !FileStore.KeyExistsIn(setup.privateKeyStore, fs)
    requires FileStore.SaveKeyOutcome(setup.privateKeyStore, fs, key).1.None?
    requires caSet || setup.clientError.None?
    ensures var r := EnsureOutcome(setup, caSet, fs, calls, Ok(key), now);
      r.caSet && r.calls == calls + [ObtainCall(setup.domains, None)]
      && FileStore.LoadKeyOutcome(setup.privateKeyStore, r.fs) == Ok(key)
  {
    var fs1 := FileStore.SaveKeyOutcome(setup.privateKeyStore, fs, key).0;
    FileStore.KeySaveRoundTrip(setup.privateKeyStore, fs, key);
    ObtainKeepsKey(setup, caSet, fs1, calls, None);
  }

  /** The obtain path writes certificate files only, so the domain key
      survives it. */
  lemma ObtainKeepsKey(setup: Setup, caSet: bool, fs: Fs, calls: seq<CACall>, key: Option<PrivateKey>)
    requires FileStore.LoadKeyOutcome(setup.privateKeyStore, fs).Ok?
    ensures FileStore.LoadKeyOutcome(setup.privateKeyStore, Obtain(setup, caSet, fs, calls, key).fs)
            == FileStore.LoadKeyOutcome(setup.privateKeyStore, fs)
  {
    var reply := setup.obtainReply;
    if !(!caSet && setup.clientError.Some?) && reply.failures.None? && reply.result.Some? {
      FileStore.KeyKeptBySave(setup.certStore, fs, reply.result.value.AllCerts(), setup.privateKeyStore);
    }
  }

  /** A stored key that does not load ends the run: no CA call, nothing
      written. */
  lemma KeyLoadFailureStops(setup: Setup, caSet: bool, fs: Fs, calls: seq<CACall>, generated: Result<PrivateKey>, now: int)
    requires FileStore.KeyExistsIn(setup.privateKeyStore, fs)
    requires FileStore.LoadKeyOutcome(setup.privateKeyStore, fs).Err?
    ensures EnsureOutcome(setup, caSet, fs, calls, generated, now)
            == EnsureRun(fs, caSet, calls, Some(Wrap("Unable to load private key", FileStore.LoadKeyOutcome(setup.privateKeyStore, fs).error)))
  {
  }

  /** With the key stored, missing certificates force obtaining with the
      stored key. */
  lemma MissingCertsForceObtain(setup: Setup, caSet: bool, fs: Fs, calls: seq<CACall>, generated: Result<PrivateKey>, now: int)
    requires FileStore.KeyExistsIn(setup.privateKeyStore, fs)
    requires FileStore.LoadKeyOutcome(setup.privateKeyStore, fs).Ok?
    requires !FileStore.CertsExistIn(setup.certStore, fs)
    requires caSet || setup.clientError.None?
    ensures var r := EnsureOutcome(setup, caSet, fs, calls, generated, now);
      r.calls == calls + [ObtainCall(setup.domains, Some(FileStore.LoadKeyOutcome(setup.privateKeyStore, fs).value))]
  {
  }

  /** A failure map means an error and no save; otherwise the store
      receives exactly the obtained bundle, and a concatenated store loads
      it back. */
  lemma ObtainSavesBundle(setup: Setup, caSet: bool, fs: Fs, calls: seq<CACall>, key: Option<PrivateKey>)
    requires caSet || setup.clientError.None?
    ensures var r := Obtain(setup, caSet, fs, calls, key);
      setup.obtainReply.failures.Some? ==> r.fs == fs && r.err == Some(Message("Error obtaining new certificate for private key"))
    ensures var r := Obtain(setup, caSet, fs, calls, key);
      var reply := setup.obtainReply;
      reply.failures.None? && reply.result.Some? ==>
        && r.fs == FileStore.SaveCertsOutcome(setup.certStore, fs, reply.result.value.AllCerts()).0
        && (r.err.None? && setup.certStore.concat ==>
              FileStore.LoadCertsOutcome(setup.certStore, r.fs) == Loaded(reply.result.value.AllCerts(), None))
  {
    var reply := setup.obtainReply;
    if reply.failures.None? && reply.result.Some? {
      if setup.certStore.concat {
        FileStore.ConcatRoundTrip(setup.certStore, fs, reply.result.value.AllCerts());
      }
    }
  }

  /** On the existing-certificate path a load error or a checker error
      ends the run with no CA call and no write, and an empty bundle makes
      the unguarded index panic. */
  lemma ExistingPathFailures(setup: Setup, caSet: bool, fs: Fs, calls: seq<CACall>, key: Option<PrivateKey>, now: int)
    ensures var loaded := FileStore.LoadCertsOutcome(setup.certStore, fs);
      var r := CheckExisting(setup, caSet, fs, calls, key, now);
      && (loaded.err.Some? ==> r.fs == fs && r.calls == calls && r.caSet == caSet && r.err.Some?)
      && (loaded.err.None? && |loaded.certs| == 0 ==> r == EnsureRun(fs, caSet, calls, Some(Crash(IndexOutOfRange))))
      && (loaded.err.None? && |loaded.certs| > 0 && IsValid(setup.checker, loaded.certs[0], now).1.Some? ==>
            r.fs == fs && r.calls == calls && r.caSet == caSet && r.err.Some?)
  {
  }

  /** A valid leaf means no CA call and no write; running again from the
      state it leaves repeats exactly the same. */
  lemma ValidLeafIsSteadyState(setup: Setup, caSet: bool, fs: Fs, calls: seq<CACall>, generated: Result<PrivateKey>, now: int)
    requires FileStore.KeyExistsIn(setup.privateKeyStore, fs)
    requires FileStore.LoadKeyOutcome(setup.privateKeyStore, fs).Ok?
    requires FileStore.CertsExistIn(setup.certStore, fs)
    requires FileStore.LoadCertsOutcome(setup.certStore, fs).err.None?
    requires |FileStore.LoadCertsOutcome(setup.certStore, fs).certs| > 0
    requires IsValid(setup.checker, FileStore.LoadCertsOutcome(setup.certStore, fs).certs[0], now) == (true, None)
    ensures var r := EnsureOutcome(setup, caSet, fs, calls, generated, now);
      r == EnsureRun(fs, caSet, calls, None) && EnsureOutcome(setup, r.caSet, r.fs, r.calls, generated, now) == r
  {
  }

  /** The renewal error is dropped: the run is the same whatever Renew
      reports as its error. */
  lemma RenewErrorIgnored(setup: Setup, caSet: bool, fs: Fs, calls: seq<CACall>, key: Option<PrivateKey>, now: int,
                          result: Option<CAResult>, e1: Option<Error>, e2: Option<Error>)
    ensures CheckExisting(setup.(renewReply := RenewReply(result, e1)), caSet, fs, calls, key, now)
         == CheckExisting(setup.(renewReply := RenewReply(result, e2)), caSet, fs, calls, key, now)
  {
  }

  /** An invalid leaf with a client at hand is renewed once, with the
      loaded leaf and the key of the run; the client exists afterwards, the
      store receives exactly the renewed bundle, the save error comes back
      wrapped, and a concatenated store then loads the renewed bundle. */
  lemma InvalidLeafRenewsAndSaves(setup: Setup, caSet: bool, fs: Fs, calls: seq<CACall>, key: Option<PrivateKey>, now: int, res: CAResult)
    requires caSet || setup.clientError.None?
    requires FileStore.LoadCertsOutcome(setup.certStore, fs).err.None?
    requires |FileStore.LoadCertsOutcome(setup.certStore, fs).certs| > 0
    requires IsValid(setup.checker, FileStore.LoadCertsOutcome(setup.certStore, fs).certs[0], now) == (false, None)
    requires setup.renewReply.result == Some(res)
    ensures var leaf := FileStore.LoadCertsOutcome(setup.certStore, fs).certs[0];
      var saved := FileStore.SaveCertsOutcome(setup.certStore, fs, res.AllCerts());
      var r := CheckExisting(setup, caSet, fs, calls, key, now);
      && r.calls == calls + [RenewCall(leaf, key)] && r.caSet && r.fs == saved.0
      && r.err == WrapOpt("Unable to save renewed Certificate", saved.1)
      && (r.err.None? && setup.certStore.concat ==> FileStore.LoadCertsOutcome(setup.certStore, r.fs) == Loaded(res.AllCerts(), None))
  {
    if setup.certStore.concat {
      FileStore.ConcatRoundTrip(setup.certStore, fs, res.AllCerts());
    }
  }

  /** A failed client creation leaves the client unset and changes
      nothing, so the next run creates it again: when that attempt
      succeeds, the run goes on to obtain with the stored key. */
  lemma FailedCreationIsRetried(setup: Setup, fs: Fs, calls: seq<CACall>, key: PrivateKey, generated: Result<PrivateKey>, now: int, e: Error)
    requires FileStore.KeyExistsIn(setup.privateKeyStore, fs)
    requires FileStore.LoadKeyOutcome(setup.privateKeyStore, fs) == Ok(key)
    requires !FileStore.CertsExistIn(setup.certStore, fs)
    ensures var r1 := EnsureOutcome(setup.(clientError := Some(e)), false, fs, calls, generated, now);
      var r2 := EnsureOutcome(setup.(clientError := None), r1.caSet, r1.fs, r1.calls, generated, now);
      && r1 == EnsureRun(fs, false, calls, Some(Wrap("Can't create ACME CA", e)))
      && r2.caSet && r2.calls == calls + [ObtainCall(setup.domains, Some(key))]
  {
  }

  /** The CA client is created at most once: a run makes at most one CA
      call, the client exists afterwards exactly when it existed before or
      a call was made, and once it exists the creation outcome no longer
      matters. */
  lemma ClientCreatedOnce(setup: Setup, caSet: bool, fs: Fs, calls: seq<CACall>, generated: Result<PrivateKey>, now: int, other: Option<Error>)
    ensures var r := EnsureOutcome(setup, caSet, fs, calls, generated, now);
      && (r.calls == calls || (|r.calls| == |calls| + 1 && r.calls[..|calls|] == calls))
      && (r.caSet <==> caSet || r.calls != calls)
    ensures caSet ==> EnsureOutcome(setup.(clientError := other), caSet, fs, calls, generated, now)
                      == EnsureOutcome(setup, caSet, fs, calls, generated, now)
  {
    var k := KeyPhase(setup.privateKeyStore, fs, generated);
    ObtainCallsOnce(setup, caSet, k.fs, calls, k.key, other);
    CheckCallsOnce(setup, caSet, k.fs, calls, k.key, now, other);
  }

  lemma ObtainCallsOnce(setup: Setup, caSet: bool, fs: Fs, calls: seq<CACall>, key: Option<PrivateKey>, other: Option<Error>)
    ensures var r := Obtain(setup, caSet, fs, calls, key);
      && (r.calls == calls || (|r.calls| == |calls| + 1 && r.calls[..|calls|] == calls))
      && (r.caSet <==> caSet || r.calls != calls)
    ensures caSet ==> Obtain(setup.(clientError := other), caSet, fs, calls, key) == Obtain(setup, caSet, fs, calls, key)
  {
  }

  lemma CheckCallsOnce(setup: Setup, caSet: bool, fs: Fs, calls: seq<CACall>, key: Option<PrivateKey>, now: int, other: Option<Error>)
    ensures var r := CheckExisting(setup, caSet, fs, calls, key, now);
      && (r.calls == calls || (|r.calls| == |calls| + 1 && r.calls[..|calls|] == calls))
      && (r.caSet <==> caSet || r.calls != calls)
    ensures caSet ==> CheckExisting(setup.(clientError := other), caSet, fs, calls, key, now) == CheckExisting(setup, caSet, fs, calls, key, now)
  {
    var loaded := FileStore.LoadCertsOutcome(setup.certStore, fs);
    var setup' := setup.(clientError := other);
    assert FileStore.LoadCertsOutcome(setup'.certStore, fs) == loaded;
    if loaded.err.None? && |loaded.certs| > 0 {
      var (valid, checkErr) := IsValid(setup.checker, loaded.certs[0], now);
      assert IsValid(setup'.checker, loaded.certs[0], now) == (valid, checkErr);
      if checkErr.None? && !valid && (caSet || setup.clientError.None?) && setup.renewReply.result.Some? {
        var saved := FileStore.SaveCertsOutcome(setup.certStore, fs, setup.renewReply.result.value.AllCerts());
        assert CheckExisting(setup, caSet, fs, calls, key, now)
            == EnsureRun(saved.0, true, calls + [RenewCall(loaded.certs[0], key)], WrapOpt("Unable to save renewed Certificate", saved.1));
      }
    }
  }
}
