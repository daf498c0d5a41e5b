/** buddy.go: the older orchestrator. One Loop makes sure a domain key
    exists, obtains a certificate when the key is new or no certificate is
    stored, then reloads the bundle, checks its leaf and renews it when the
    checker says so. The key generator's outcome and the clock reading are
    parameters of a run. */
module LegacyBuddy {
  import opened Types
  import Paths
  import opened Pem
  import opened FileSystem
  import opened Layout
  import opened Cert
  import opened CA
  import LegacyFileStore
  import opened Storage

  /** Everything a run depends on besides the filesystem and the calls the
      CA has seen: the fields of a CertBuddy and its CA's answers. */
  datatype Setup = Setup(certStore: CertStorage, domainKeyStore: LegacyFileStore.FileStorage,
                         obtainReply: ObtainReply, renewReply: RenewReply,
                         checker: Checker, issueDomains: seq<string>)

  /** The state after a run: the filesystem, the calls made to the CA, and
      the error Loop returns. */
  datatype Run = Run(fs: Fs, calls: seq<CACall>, err: Option<Error>)

  /** Where the key phase leaves a run: the filesystem, the domain key (or
      the error that ends the run), and whether obtaining is forced. */
  datatype KeyStep = KeyStep(fs: Fs, key: Result<PrivateKey>, forced: bool)

  /** A missing key is generated and saved, and forces obtaining; a present
      key is loaded. Errors come back unwrapped. */
  function KeyPhase(store: LegacyFileStore.FileStorage, fs: Fs, generated: Result<PrivateKey>): (r: KeyStep)
    ensures r.forced <==> !LegacyFileStore.KeyExistsIn(store, fs)
    ensures r.forced && r.key.Ok? ==> r.key == generated && r.fs == LegacyFileStore.SaveKeyOutcome(store, fs, generated.value).0
    ensures !r.forced ==> r.fs == fs && r.key == LegacyFileStore.LoadKeyOutcome(store, fs)
  {
    if !LegacyFileStore.KeyExistsIn(store, fs) then
      if generated.Err? then KeyStep(fs, generated, true)
      else
        var (fs1, e) := LegacyFileStore.SaveKeyOutcome(store, fs, generated.value);
        if e.Some? then KeyStep(fs1, Err(e.value), true) else KeyStep(fs1, generated, true)
    else KeyStep(fs, LegacyFileStore.LoadKeyOutcome(store, fs), false)
  }

  /** Reload the bundle, check its leaf, renew and save when it is invalid
      without an error. */
  ghost function CheckPhase(setup: Setup, fs: Fs, calls: seq<CACall>, key: PrivateKey, now: int): Run
  {
    var loaded := setup.certStore.LoadOutcome(fs);
    if loaded.err.Some? then Run(fs, calls, loaded.err)
    else if |loaded.certs| == 0 then Run(fs, calls, Some(Message("No certificates loaded from certificate store")))
    else
      var (ok, checkErr) := IsValid(setup.checker, loaded.certs[0], now);
      if !ok && checkErr.None? then
        var calls1 := calls + [RenewCall(loaded.certs[0], Some(key))];
        if setup.renewReply.err.Some? then Run(fs, calls1, setup.renewReply.err)
        else if setup.renewReply.result.None? then Run(fs, calls1, Some(Crash(NilPointer)))
        else
          var (fs1, e) := setup.certStore.SaveOutcome(fs, setup.renewReply.result.value.AllCerts());
          Run(fs1, calls1, e)
      else if checkErr.Some? then Run(fs, calls, checkErr)
      else Run(fs, calls, None)
  }

  /** One Loop. A failure map counts as a failure only when it is not empty
      (the length of a nil map is zero); a nil result is then dereferenced. */
  ghost function LoopOutcome(setup: Setup, fs: Fs, calls: seq<CACall>, generated: Result<PrivateKey>, now: int): Run
  {
    var k := KeyPhase(setup.domainKeyStore, fs, generated);
    if k.key.Err? then Run(k.fs, calls, Some(k.key.error))
    else if k.forced || !setup.certStore.CertsExistIn(k.fs) then
      var calls1 := calls + [ObtainCall(setup.issueDomains, Some(k.key.value))];
      var reply := setup.obtainReply;
      if reply.failures.Some? && |reply.failures.value| > 0 then
        Run(k.fs, calls1, Some(Message("Failed to obtain cerfificate")))
      else if reply.result.None? then Run(k.fs, calls1, Some(Crash(NilPointer)))
      else
        var (fs1, e) := setup.certStore.SaveOutcome(k.fs, reply.result.value.AllCerts());
        if e.Some? then Run(fs1, calls1, e)
        else CheckPhase(setup, fs1, calls1, k.key.value, now)
    else CheckPhase(setup, k.fs, calls, k.key.value, now)
  }

  class CertBuddy {
    const certStore: CertStorage
    const domainKeyStore: LegacyFileStore.FileStorage
    const ca: AutomatedCA
    const checker: Checker
    const issueDomains: seq<string>
    const disk: Disk

    function Config(): Setup
    {
      Setup(certStore, domainKeyStore, ca.obtainReply, ca.renewReply, checker, issueDomains)
    }

    /** NewCertBuddy: keeps its collaborators; its error is always nil. */
    constructor (certStore: CertStorage, domainKeyStore: LegacyFileStore.FileStorage, ca: AutomatedCA,
                 checker: Checker, issueDomains: seq<string>, disk: Disk)
      ensures this.certStore == certStore && this.domainKeyStore == domainKeyStore && this.ca == ca
      ensures this.checker == checker && this.issueDomains == issueDomains && this.disk == disk
    {
      this.certStore := certStore;
      this.domainKeyStore := domainKeyStore;
      this.ca := ca;
      this.checker := checker;
      this.issueDomains := issueDomains;
      this.disk := disk;
    }

    method Loop(generated: Result<PrivateKey>, now: int) returns (err: Option<Error>)
      modifies disk, ca
      ensures Run(disk.View(), ca.calls, err) == LoopOutcome(Config(), old(disk.View()), old(ca.calls), generated, now)
    {
      var needToObtainFirst := false;
      var domainKey: PrivateKey;
      var keyExists := LegacyFileStore.KeyExists(domainKeyStore, disk);
      if !keyExists {
        needToObtainFirst := true;
        if generated.Err? {
          return Some(generated.error);
        }
        domainKey := generated.value;
        err := LegacyFileStore.SaveKey(domainKeyStore, disk, domainKey);
        if err.Some? {
          return;
        }
      } else {
        var loaded := LegacyFileStore.LoadKey(domainKeyStore, disk);
        if loaded.Err? {
          return Some(loaded.error);
        }
        domainKey := loaded.value;
      }
      ghost var afterKey := disk.View();
      assert KeyPhase(domainKeyStore, old(disk.View()), generated) == KeyStep(afterKey, Ok(domainKey), needToObtainFirst);

      var certsExist := certStore.CertsExist(disk);
      if !certsExist {
        needToObtainFirst := true;
      }
      if needToObtainFirst {
        var result, failures := ca.ObtainCertificate(issueDomains, Some(domainKey));
        if failures.Some? && |failures.value| > 0 {
          return Some(Message("Failed to obtain cerfificate"));
        }
        if result.None? {
          return Some(Crash(NilPointer));
        }
        err := certStore.SaveCerts(disk, result.value.AllCerts());
        if err.Some? {
          return;
        }
      }
      err := CheckLeaf(domainKey, now);
    }

    /** The second half of Loop, from reloading the bundle on. */
    method CheckLeaf(domainKey: PrivateKey, now: int) returns (err: Option<Error>)
      modifies disk, ca
      ensures Run(disk.View(), ca.calls, err) == CheckPhase(Config(), old(disk.View()), old(ca.calls), domainKey, now)
    {
      var certs, loadErr := certStore.LoadCerts(disk);
      if loadErr.Some? {
        return loadErr;
      }
      if |certs| == 0 {
        return Some(Message("No certificates loaded from certificate store"));
      }
      var (ok, checkErr) := IsValid(checker, certs[0], now);
      if !ok && checkErr.None? {
        var result, renewErr := ca.Renew(certs[0], Some(domainKey));
        if renewErr.Some? {
          return renewErr;
        }
        if result.None? {
          return Some(Crash(NilPointer));
        }
        err := certStore.SaveCerts(disk, result.value.AllCerts());
        return;
      } else if checkErr.Some? {
        return checkErr;
      }
      return None;
    }
  }

  // ---------------------------------------------------------------- properties

  /** A key that cannot be generated, saved or loaded ends the run before
      any call to the CA, and no certificate is written. */
  lemma KeyFailureStops(setup: Setup, fs: Fs, calls: seq<CACall>, generated: Result<PrivateKey>, now: int)
    ensures var k := KeyPhase(setup.domainKeyStore, fs, generated);
      var r := LoopOutcome(setup, fs, calls, generated, now);
      k.key.Err? ==> r == Run(k.fs, calls, Some(k.key.error))
    ensures !LegacyFileStore.KeyExistsIn(setup.domainKeyStore, fs) && generated.Err? ==>
      LoopOutcome(setup, fs, calls, generated, now) == Run(fs, calls, Some(generated.error))
  {
  }

  /** A missing key is generated, saved and forces obtaining with that key,
      whether or not certificates are stored. */
  lemma MissingKeyForcesObtain(setup: Setup, fs: Fs, calls: seq<CACall>, key: PrivateKey, now: int)
    requires !LegacyFileStore.KeyExistsIn(setup.domainKeyStore, fs)
    requires LegacyFileStore.SaveKeyOutcome(setup.domainKeyStore, fs, key).1.None?
    ensures var r := LoopOutcome(setup, fs, calls, Ok(key), now);
      |r.calls| > |calls| && r.calls[..|calls| + 1] == calls + [ObtainCall(setup.issueDomains, Some(key))]
  {
    var k := KeyPhase(setup.domainKeyStore, fs, Ok(key));
    var calls1 := calls + [ObtainCall(setup.issueDomains, Some(key))];
    CheckPhaseExtends(setup, LegacyStoreAfterObtain(setup, k.fs), calls1, key, now);
  }

  /** With the key stored, missing certificates force obtaining with the
      stored key. */
  lemma MissingCertsForceObtain(setup: Setup, fs: Fs, calls: seq<CACall>, generated: Result<PrivateKey>, now: int)
    requires LegacyFileStore.KeyExistsIn(setup.domainKeyStore, fs)
    requires LegacyFileStore.LoadKeyOutcome(setup.domainKeyStore, fs).Ok?
    requires !setup.certStore.CertsExistIn(fs)
    ensures var r := LoopOutcome(setup, fs, calls, generated, now);
      var key := LegacyFileStore.LoadKeyOutcome(setup.domainKeyStore, fs).value;
      |r.calls| > |calls| && r.calls[..|calls| + 1] == calls + [ObtainCall(setup.issueDomains, Some(key))]
  {
    var key := LegacyFileStore.LoadKeyOutcome(setup.domainKeyStore, fs).value;
    var calls1 := calls + [ObtainCall(setup.issueDomains, Some(key))];
    CheckPhaseExtends(setup, LegacyStoreAfterObtain(setup, fs), calls1, key, now);
  }

  /** The filesystem a successful obtain leaves (used only to name it). */
  ghost function LegacyStoreAfterObtain(setup: Setup, fs: Fs): Fs
  {
    if setup.obtainReply.result.Some? then setup.certStore.SaveOutcome(fs, setup.obtainReply.result.value.AllCerts()).0 else fs
  }

  /** The check phase only ever appends to the CA's calls, at most one
      Renew. */
  lemma CheckPhaseExtends(setup: Setup, fs: Fs, calls: seq<CACall>, key: PrivateKey, now: int)
    ensures var r := CheckPhase(setup, fs, calls, key, now);
      (r.calls == calls || (|r.calls| == |calls| + 1 && r.calls[..|calls|] == calls && r.calls[|calls|].RenewCall?))
  {
    var loaded := setup.certStore.LoadOutcome(fs);
    if loaded.err.None? && |loaded.certs| > 0 {
      var (ok, checkErr) := IsValid(setup.checker, loaded.certs[0], now);
      if !ok && checkErr.None? {
        var calls1 := calls + [RenewCall(loaded.certs[0], Some(key))];
        assert CheckPhase(setup, fs, calls, key, now).calls == calls1;
      }
    }
  }

  /** A non-empty failure map ends the run with an error and nothing is
      saved to the certificate store. */
  lemma ObtainFailureSavesNothing(setup: Setup, fs: Fs, calls: seq<CACall>, generated: Result<PrivateKey>, now: int)
    requires setup.obtainReply.failures.Some? && |setup.obtainReply.failures.value| > 0
    ensures var k := KeyPhase(setup.domainKeyStore, fs, generated);
      var r := LoopOutcome(setup, fs, calls, generated, now);
      k.key.Ok? && (k.forced || !setup.certStore.CertsExistIn(k.fs)) ==>
        r == Run(k.fs, calls + [ObtainCall(setup.issueDomains, Some(k.key.value))], Some(Message("Failed to obtain cerfificate")))
  {
  }

  /** After a successful obtain into a concatenated file store, the same
      run reloads exactly the obtained bundle: the leaf it checks, and
      renews if needed, is the one the CA just issued. */
  lemma ObtainedLeafIsChecked(s: LegacyFileStore.FileStorage, setup: Setup, fs: Fs, calls: seq<CACall>, key: PrivateKey, now: int)
    requires setup.certStore == Files(s) && s.concat
    requires setup.obtainReply.result.Some?
    ensures var res := setup.obtainReply.result.value;
      var (fs1, e) := setup.certStore.SaveOutcome(fs, res.AllCerts());
      var calls1 := calls + [ObtainCall(setup.issueDomains, Some(key))];
      var r := CheckPhase(setup, fs1, calls1, key, now);
      e.None? ==> (
        && (IsValid(setup.checker, res.certificate, now).0 ==> r.calls == calls1)
        && (!IsValid(setup.checker, res.certificate, now).0 && IsValid(setup.checker, res.certificate, now).1.None? ==>
              r.calls == calls1 + [RenewCall(res.certificate, Some(key))]))
  {
    var res := setup.obtainReply.result.value;
    LegacyFileStore.ConcatRoundTrip(s, fs, res.AllCerts());
  }

  /** An empty bundle ends the run before the checker is asked. */
  lemma EmptyBundleStops(setup: Setup, fs: Fs, calls: seq<CACall>, key: PrivateKey, now: int)
    requires setup.certStore.LoadOutcome(fs) == Loaded([], None)
    ensures CheckPhase(setup, fs, calls, key, now) == Run(fs, calls, Some(Message("No certificates loaded from certificate store")))
  {
  }

  /** The leaf decides: valid means no CA call and no write; invalid
      without error means one Renew on the leaf with the domain key, and a
      save of the renewed bundle only when Renew succeeded; a checker error
      means no renewal and no write. */
  lemma RenewalDecision(setup: Setup, fs: Fs, calls: seq<CACall>, key: PrivateKey, now: int)
    requires setup.certStore.LoadOutcome(fs).err.None? && |setup.certStore.LoadOutcome(fs).certs| > 0
    ensures var leaf := setup.certStore.LoadOutcome(fs).certs[0];
      var (ok, checkErr) := IsValid(setup.checker, leaf, now);
      var r := CheckPhase(setup, fs, calls, key, now);
      && (ok && checkErr.None? ==> r == Run(fs, calls, None))
      && (checkErr.Some? ==> r == Run(fs, calls, checkErr))
      && (!ok && checkErr.None? ==> r.calls == calls + [RenewCall(leaf, Some(key))])
      && (!ok && checkErr.None? && setup.renewReply.err.Some? ==> r.fs == fs && r.err == setup.renewReply.err)
      && (!ok && checkErr.None? && setup.renewReply.err.None? && setup.renewReply.result.Some? ==>
            (r.fs, r.err) == setup.certStore.SaveOutcome(fs, setup.renewReply.result.value.AllCerts()))
  {
  }

  /** The scenario of the package's test: an empty directory, a CA that
      issues a bare leaf and renews it as it is, a checker that always
      says invalid. The test keeps certificates and key in an in-memory
      store; here they are a concatenated and a split file store in the
      working directory of an empty filesystem. One run succeeds and
      leaves one certificate and the key. */
  lemma FreshRunLeavesOneCertAndKey(c: Certificate, key: PrivateKey, now: int)
    ensures var certStore := Files(LegacyFileStore.FileStorage("", true));
      var keyStore := LegacyFileStore.FileStorage("", false);
      var setup := Setup(certStore, keyStore,
                         ObtainReply(Some(CAResult(c, [])), None), RenewReply(Some(CAResult(c, [])), None),
                         FixedChecker(false, None), ["test.example.com"]);
      var r := LoopOutcome(setup, Fs(map[], {}, {}), [], Ok(key), now);
      r.err.None? && certStore.LoadOutcome(r.fs) == Loaded([c], None)
      && LegacyFileStore.KeyExistsIn(keyStore, r.fs)
  {
    var certStore := Files(LegacyFileStore.FileStorage("", true));
    var keyStore := LegacyFileStore.FileStorage("", false);
    var setup := Setup(certStore, keyStore,
                       ObtainReply(Some(CAResult(c, [])), None), RenewReply(Some(CAResult(c, [])), None),
                       FixedChecker(false, None), ["test.example.com"]);
    var fs0 := Fs(map[], {}, {});
    ScenarioKey(keyStore, key);
    var fs1 := LegacyFileStore.SaveKeyOutcome(keyStore, fs0, key).0;
    ScenarioSave(certStore, fs1, c);
    var fs2 := certStore.SaveOutcome(fs1, [c]).0;
    var calls1 := [ObtainCall(setup.issueDomains, Some(key))];
    ScenarioObtain(setup, c, key, fs0, fs1, now);
    ScenarioCheck(setup, c, key, fs2, calls1, now);
  }

  /** Scenario step: into an empty directory the key is generated and
      saved, which forces obtaining. */
  lemma ScenarioKey(keyStore: LegacyFileStore.FileStorage, key: PrivateKey)
    requires keyStore == LegacyFileStore.FileStorage("", false)
    ensures var fs1 := LegacyFileStore.SaveKeyOutcome(keyStore, Fs(map[], {}, {}), key).0;
      && KeyPhase(keyStore, Fs(map[], {}, {}), Ok(key)) == KeyStep(fs1, Ok(key), true)
      && "server.key" in fs1.files && fs1.dirs == {} && fs1.denied == {}
  {
    Paths.DirOfJoin("", LegacyFileStore.KeyName);
    assert LegacyFileStore.KeyPath(keyStore) == "server.key";
  }

  /** Scenario step: the obtained bundle is saved and the run goes on to
      the check phase. */
  lemma ScenarioObtain(setup: Setup, c: Certificate, key: PrivateKey, fs0: Fs, fs1: Fs, now: int)
    requires setup.certStore == Files(LegacyFileStore.FileStorage("", true))
    requires setup.obtainReply == ObtainReply(Some(CAResult(c, [])), None)
    requires KeyPhase(setup.domainKeyStore, fs0, Ok(key)) == KeyStep(fs1, Ok(key), true)
    requires setup.certStore.SaveOutcome(fs1, [c]).1.None?
    ensures LoopOutcome(setup, fs0, [], Ok(key), now)
      == CheckPhase(setup, setup.certStore.SaveOutcome(fs1, [c]).0, [ObtainCall(setup.issueDomains, Some(key))], key, now)
  {
    AllCertsOfLeaf(c);
  }

  /** Scenario step: the reloaded leaf is judged invalid, renewed as it is
      and saved again. */
  lemma ScenarioCheck(setup: Setup, c: Certificate, key: PrivateKey, fs: Fs, calls: seq<CACall>, now: int)
    requires setup.certStore == Files(LegacyFileStore.FileStorage("", true))
    requires setup.renewReply == RenewReply(Some(CAResult(c, [])), None)
    requires setup.checker == FixedChecker(false, None)
    requires "server.key" in fs.files && fs.dirs == {} && fs.denied == {}
    requires setup.certStore.LoadOutcome(fs) == Loaded([c], None)
    ensures var r := CheckPhase(setup, fs, calls, key, now);
      && r.err.None? && setup.certStore.LoadOutcome(r.fs) == Loaded([c], None)
      && "server.key" in r.fs.files
  {
    AllCertsOfLeaf(c);
    ScenarioSave(setup.certStore, fs, c);
  }

  /** Helper for the scenario: saving the one certificate into the
      working directory succeeds, keeps the key file and loads back. */
  lemma ScenarioSave(certStore: CertStorage, fs: Fs, c: Certificate)
    requires certStore == Files(LegacyFileStore.FileStorage("", true))
    requires "server.key" in fs.files && fs.dirs == {} && fs.denied == {}
    ensures var r := certStore.SaveOutcome(fs, [c]);
      && r.1.None? && r.0.dirs == {} && r.0.denied == {}
      && r.0.files == fs.files["server.crt" := EncodeAll([c])]
      && certStore.LoadOutcome(r.0) == Loaded([c], None)
  {
    Paths.DirOfJoin("", ConcatName());
    assert ConcatPath("") == "server.crt";
    LegacyFileStore.ConcatRoundTrip(certStore.files, fs, [c]);
  }
}
