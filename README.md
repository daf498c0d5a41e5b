# certbuddy in Dafny

A model of the certificate-lifecycle core of certbuddy, a Go tool that keeps
TLS certificates from an ACME certificate authority fresh. Each run of the
orchestrator does the following:

- makes sure a domain key exists;
- obtains a certificate when the key is new or no certificate is stored;
- otherwise reloads the stored bundle, checks its leaf and renews it when the
  checker says so.

A separate Consul registry can report certificate availability to a Consul
agent. Neither orchestrator calls it, so it is modelled on its own.

The model covers these parts:

- both orchestrators: `Buddy.EnsureCerts` with its constructor `NewBuddy`, and
  the older `CertBuddy.Loop`;
- the validity checker;
- bundle assembly (`CAResult.AllCerts`);
- the multi-output store;
- the two file stores (the concatenated `server.crt` and split
  `server<i>.crt` layouts, the `server*.crt` glob, the key file);
- the PEM block codec;
- the flag handling of the command;
- the Consul registry's ids (standard padded base64, section 4 of RFC 4648)
  and its ordered agent calls.

Values and collaborators are represented as follows:

- Keys and certificates are opaque values.
- A file holds a sequence of PEM blocks or stray text, not bytes.
- The filesystem is a value `Fs`: a map from path to content, the set of
  directories, and the paths the system refuses to create. A `Disk` object
  holds it and is updated in place.
- The CA and the Consul agent are objects that record the calls made to them
  and answer from configured replies.
- Key generation, the clock and the Consul connection are outcomes passed as
  parameters. So is the outcome of creating the ACME client, given anew to
  every `EnsureCerts` run, because the code tries again on each run until a
  creation succeeds.

Every imperative operation is a `method` proved against a function of the old
state (`(disk.View(), err) == SaveCertsOutcome(old(disk.View()), certs)`). The
properties are lemmas about those functions.

Go panics are kept as an explicit error value `Crash(...)`. They occur in
three places:

- pem.Decode finding no block;
- `certs[0]` on an empty bundle;
- a method called on a nil `*CAResult`.

`errors.Wrap` is `Types.Wrap`, which leaves a panic unwrapped. The defects of
`EnsureCerts` are modelled as written:

- The freshly generated key is bound to a shadowing variable, so the CA is
  asked with no key.
- Any failure map, even an empty one, is an error.
- `certs[0]` is read without a length check.
- The renewal error is dropped and the result is saved regardless.

Where the design description and the code disagree, the model follows the
code:

- The code never calls the registry from `EnsureCerts` or `Loop`.
- A split save can leave a bundle partly written.
- `EnsureCerts` ignores a renewal error.
- `-renewBefore` never reaches the checker, so the look-ahead is zero.

## Model

| member | source | states |
|---|---|---|
| Types.Wrap | cmd/buddy.go:57 | errors.Wrap keeps the cause and adds the context; a panic passes through unwrapped |
| Paths.DirOfJoin | utils.go:127-128 | filepath.Dir of a joined path is the directory it was joined to |
| Paths.JoinComponents | file/storage.go:74 | two joined paths ending in single names are equal only if directory and name both are |
| Paths.JoinCancel | file/storage.go:41 | joining with the same directory is injective in the name |
| Paths.DecimalShape | file/storage.go:74 | `%d` renders a non-empty string of digits, of length one exactly below ten |
| Paths.DecimalInjective | file/storage.go:74 | different indices render differently |
| Order.SortedList | file/storage.go:38 | the glob listing is strictly sorted and holds exactly the matching names |
| Order.SortedUnique | file/storage.go:38 | a strictly sorted listing of a set is unique |
| Pem.ToPemBlock | utils.go:37-52 | one block: RSA key `RSA PRIVATE KEY`, EC key `EC PRIVATE KEY`, certificate `CERTIFICATE`; no error result |
| Pem.Decode | utils.go:71 | pem.Decode returns nil and the whole input when there is no block, otherwise a block of the input and a shorter rest |
| Pem.PemBlockToPrivateKey | utils.go:70-80 | no block gives the nil-dereference panic; a header other than the two key headers gives UnknownPemHeader; an RSA result comes from an RSA header |
| Pem.KeyRoundTrip | utils.go:37-80 | every key survives ToPemBlock then PemBlockToPrivateKey, so it keeps its kind |
| Pem.PemBlockToX509Certificate | utils.go:82-101 | the decoding loop returns exactly what the decoder function of the stream gives |
| Pem.EncodeAll | file/storage.go:57-64 | the concatenated stream has one block per certificate |
| Pem.DecodeKeepsCertificatesInOrder | utils.go:82-101 | on a non-empty stream of blocks decoding returns the CERTIFICATE blocks in encounter order and skips the others |
| Pem.CertsInEncodeAll | utils.go:37-52 | the encoded bundle is a stream of well-formed blocks whose certificates are the bundle |
| Pem.CertsRoundTrip | utils.go:82-101 | decoding ToPemBlock(c1) ++ ... ++ ToPemBlock(cn) gives c1 .. cn |
| Pem.EmptyStreamPanics | utils.go:87-89 | an empty stream makes the decoder dereference a nil block |
| Pem.StopsAtUnparseable | utils.go:89-93 | the first unparseable certificate ends decoding with the certificates before it and UnparseableCertificate |
| Pem.TrailingTextPanics | utils.go:87-98 | stray bytes after the last block leave the rest non-empty, so the next decode finds no block and dereferences nil |
| Pem.TrailingEmptyTextIgnored | utils.go:96-98 | the loop ends when no bytes remain, so an empty text segment after the blocks changes nothing |
| FileSystem.Read | file/storage.go:29 | ReadFile succeeds exactly on a stored file and returns its content |
| FileSystem.Write | file/storage.go:69 | WriteFile succeeds exactly when the path may be written and its directory exists; it then replaces that file only, else nothing changes |
| FileSystem.Mkdir | utils.go:130 | MkdirAll succeeds unless refused or a file is in the way, and then adds the directory |
| FileSystem.EnsureParent | utils.go:127-133 | only directories change; on success the parent exists; on failure nothing changed |
| FileSystem.GlobMatchesJoin | file/storage.go:38 | a joined path matches `dir/server*.crt` exactly when its name matches `server*.crt` |
| FileSystem.Globbed | file/storage.go:38 | filepath.Glob returns the matching entries, strictly sorted |
| FileSystem.Disk.ReadFile | file/storage.go:29 | reading agrees with Read on the current state |
| FileSystem.Disk.WriteFile | file/storage.go:69 | the new state and error are those of Write |
| FileSystem.Disk.MkdirAll | utils.go:130 | the new state and error are those of Mkdir |
| FileSystem.Disk.FileExists | utils.go:21-26 | FileExists is true when a file or directory is at the path |
| FileSystem.Disk.Glob | file/storage.go:38 | the selection loop returns the sorted glob listing |
| FileSystem.EnsureParentPathExists | utils.go:127-133 | the new state and error are those of EnsureParent |
| Layout.SplitNameShape | file/storage.go:74 | `server<i>.crt` is a single name with the decimal index between `server` and `.crt` |
| Layout.SplitPathInjective | file/storage.go:74 | different directories or indices give different split files |
| Layout.ConcatIsNotSplit | file/storage.go:65-74 | `server.crt` is never a split file |
| Layout.CertFilesMatchGlob | file/storage.go:115 | both layouts' files match the `server*.crt` glob |
| Layout.KeyFilesDoNotMatchGlob | file/storage.go:114-122 | neither `private.key` nor `server.key` matches the glob |
| Layout.SplitOrderIsTextual | file/storage.go:38-40 | the glob order is textual: `server10.crt` sorts before `server2.crt` |
| Layout.SplitOrderBelowTen | file/storage.go:38-40 | below ten files the textual order is the index order |
| Layout.HoldsAfterWrite | file/storage.go:82 | a write consistent with a bundle keeps every store already holding it |
| Layout.LoadSplitFrom | file/storage.go:40-51 | the split read loop returns nothing on error and otherwise extends what it has collected |
| Layout.LoadListing | file/storage.go:40-51 | reading split files 0 .. n-1 in order gives the bundle back |
| Layout.SplitLoadRoundTrip | file/storage.go:38-51 | with only split files 0 .. n-1 (n at most ten) the glob lists them in order and reading them gives the bundle |
| FileStore.SaveCerts | file/storage.go:55-88 | the new filesystem and error are those of SaveCertsOutcome (concatenated or split loop, wrapped errors) |
| FileStore.LoadCerts | file/storage.go:26-53 | the result is LoadCertsOutcome: wrapped read error, "Empty file", or the decoded certificates |
| FileStore.SaveKey | file/storage.go:99-112 | the new filesystem and error are those of SaveKeyOutcome at `private.key` |
| FileStore.LoadKey | file/storage.go:90-97 | the result is LoadKeyOutcome |
| FileStore.CertsExist | file/storage.go:114-119 | true iff some entry matches `server*.crt` in the base path, in either mode |
| FileStore.KeyExists | file/storage.go:121-123 | true iff the key path exists |
| FileStore.ConcatSaveWritesOneFile | file/storage.go:56-71 | a concatenated save writes exactly `server.crt` with the bundle's blocks in order, or no file; at most the base directory is created |
| FileStore.SplitSaveFootprint | file/storage.go:72-86 | the split save writes only split files of this bundle and creates at most the base directory |
| FileStore.SplitSaveKeeps | file/storage.go:72-86 | the split save keeps non-certificate files, and stale files with index at least n stay behind |
| FileStore.SplitSaveProgress | file/storage.go:72-86 | a failure at index k leaves files 0 .. k-1 written; all n are written exactly when no error comes back |
| FileStore.SaveHolds | file/storage.go:55-88 | after a successful save the store holds the bundle |
| FileStore.ConcatRoundTrip | file/storage.go:27-71 | concatenated save then load gives a non-empty bundle back |
| FileStore.ConcatEmptyBundle | file/storage.go:33-35 | an empty bundle is written as an empty file, which LoadCerts refuses with "Empty file" |
| FileStore.SplitSaveOnly | file/storage.go:72-86 | a split save into a directory without certificate files leaves exactly split files 0 .. n-1 |
| FileStore.SplitRoundTripIntended | file/storage.go:38-51 | the corrected split loader gives back a bundle of up to ten certificates |
| FileStore.SplitRoundTripInWorkingDirectory | file/storage.go:38-51 | in the working directory the loader as written round-trips |
| FileStore.SplitLoadDoublePrefix | file/storage.go:38-41 | under `certs` the loader as written reads `certs/certs/server0.crt` and fails where the corrected one returns the certificate |
| FileStore.FirstReadFails | file/storage.go:40-44 | a failed read ends the split loader with that error |
| FileStore.CertsExistAfterSave | file/storage.go:114-119 | after a successful save of a non-empty bundle CertsExist is true |
| FileStore.KeySaveRoundTrip | file/storage.go:90-112 | after SaveKey, KeyExists is true and LoadKey gives back the same key |
| FileStore.KeyIsNeverCertFile | file/storage.go:114-122 | no key file is ever taken for a certificate file, whatever the two base paths |
| FileStore.KeyKeptBySave | file/storage.go:55-88 | saving certificates never changes what LoadKey returns |
| FileStore.SaveKeyCreatesDirectory | file/storage.go:105-107 | SaveKey creates a missing base directory and succeeds where it may |
| LegacyFileStore.SaveCerts | storage_file.go:50-75 | the new filesystem and error are those of SaveCertsOutcome, errors unwrapped, no directory created |
| LegacyFileStore.LoadCerts | storage_file.go:24-48 | the result is LoadCertsOutcome: the read error unchanged, no empty-file check |
| LegacyFileStore.SaveKey | storage_file.go:86-93 | the new filesystem and error are those of SaveKeyOutcome at `server.key` |
| LegacyFileStore.LoadKey | storage_file.go:77-84 | the result is LoadKeyOutcome |
| LegacyFileStore.CertsExist | storage_file.go:95-99 | true iff some entry matches `server*.crt` in the base path |
| LegacyFileStore.KeyExists | storage_file.go:101-103 | true iff the key path exists |
| LegacyFileStore.SplitSaveFootprint | storage_file.go:63-72 | the split loop writes split files only and never creates a directory |
| LegacyFileStore.SplitSaveHolds | storage_file.go:63-72 | the split loop keeps every bundle already held, and on success its own store holds the bundle |
| LegacyFileStore.SaveHolds | storage_file.go:50-75 | a save keeps bundles already held, and on success its store holds the bundle |
| LegacyFileStore.SaveFileCount | storage_file.go:50-75 | a concatenated save writes exactly one file; a split save of n certificates into a clean directory leaves exactly files 0 .. n-1 |
| LegacyFileStore.ConcatRoundTrip | storage_file.go:24-61 | concatenated save then load gives a non-empty bundle back; an empty bundle loads as a nil-block panic |
| LegacyFileStore.CertsExistAfterSave | storage_file.go:95-99 | CertsExist is false without certificate files and true after a successful non-empty save |
| LegacyFileStore.KeySaveRoundTrip | storage_file.go:77-93 | `server.key` never matches the glob; a saved key loads back |
| LegacyFileStore.NoParentCreation | storage_file.go:60-92 | with the base directory missing every save fails and leaves the filesystem unchanged |
| Storage.MultiOutputCertStorage.SaveCerts | storage.go:36-46 | the new filesystem and error are those of saving to the primary and then each mirror in order, stopping at the first error |
| Storage.MultiOutputCertStorage.LoadCerts | storage.go:32-34 | loads from the primary only |
| Storage.MultiOutputCertStorage.CertsExist | storage.go:48-50 | asks the primary only |
| Storage.NewMultiOutputCertStorage | storage.go:25-30 | the stores are the primary followed by the mirrors in the order given |
| Storage.CertStorage.SaveCerts | storage.go:8-12 | the interface call dispatches to the file store or the multi-output store |
| Storage.CertStorage.LoadCerts | storage.go:8-12 | the interface call dispatches to the file store or the multi-output store |
| Storage.CertStorage.CertsExist | storage.go:8-12 | the interface call dispatches to the file store or the multi-output store |
| Storage.SaveInOrderSplit | storage.go:36-46 | saving in order is saving to a prefix and then, unless that failed, to the rest |
| Storage.HoldsThroughout | storage.go:36-44 | saving to more stores never loses a bundle already held |
| Storage.SaveInOrderAllHold | storage.go:36-46 | when every save succeeds every store holds the bundle |
| Storage.PrimaryFailureStops | storage.go:37-39 | a failing primary's outcome is the whole outcome: no mirror is written |
| Storage.FirstFailingMirror | storage.go:40-44 | the first failing mirror's outcome is the whole outcome: later mirrors are untouched |
| Storage.NoRollback | storage.go:36-44 | a failing mirror does not undo the primary or the mirrors before it |
| Storage.AllSucceedAllHold | storage.go:36-46 | a nil result means the primary and every mirror hold the bundle |
| Cert.IsValid | cert.go:16-26 | invalid before NotBefore or when now plus the look-ahead is after NotAfter, valid otherwise; the error is always nil |
| Cert.LookAheadMonotone | cert.go:21-25 | valid under a longer look-ahead implies valid under a shorter one |
| Cert.BoundariesAreValid | cert.go:17-25 | both edges of the window count as valid (Before and After are strict) |
| CA.CAResult.AllCerts | ca.go:13-18 | length is chain length plus one, the leaf first, then the chain in order |
| CA.AllCertsOfLeaf | ca.go:13-17 | an empty chain gives the leaf alone |
| CA.AutomatedCA.constructor | ca.go:20-24 | a CA stub starts with its configured replies and no calls |
| CA.AutomatedCA.ObtainCertificate | ca.go:21 | returns the configured reply and records the call |
| CA.AutomatedCA.Renew | ca.go:22 | returns the configured reply and records the call |
| CA.AutomatedCA.Revoke | ca.go:23 | returns the configured reply and records the call |
| Base64.EncodeLength | consul/registry.go:89 | the encoding has length 4 * ceil(n / 3) |
| Base64.DecodeEncode | consul/registry.go:89 | decoding the encoding gives the bytes back |
| Base64.EncodeInjective | consul/registry.go:88-90 | different byte strings have different encodings |
| Consul.ServiceId | consul/registry.go:88-90 | the service id is the padded base64 of the signature, of length 4 * ceil(n / 3) |
| Consul.CheckId | consul/registry.go:92-95 | the check id is the service id followed by `-valid` |
| Consul.IdsInjective | consul/registry.go:88-95 | both ids tell apart certificates with different signatures |
| Consul.ConsulRegistry.CertAvailable | consul/registry.go:38-69 | the agent's new state and the error are those of CertAvailableOutcome |
| Consul.ConsulRegistry.CertsExpired | consul/registry.go:71-86 | the agent's new state and the error are those of CertsExpiredOutcome |
| Consul.NewConsulRegistry | consul/registry.go:19-36 | succeeds iff creating the client and asking for the leader both succeed, keeping the service name |
| Consul.CertAvailableCalls | consul/registry.go:43-65 | PassTTL first; if it succeeds nothing else; otherwise ServiceRegister, then CheckRegister only if that succeeded, and the result is nil exactly when the agent accepts the check, which is then registered and not yet passing |
| Consul.CheckRegistrationShape | consul/registry.go:44-52 | the check has the default TTL `432000s` and belongs to the service id |
| Consul.CertAvailableIdempotent | consul/registry.go:43-66 | after a successful CertAvailable the next one for the same certificate only passes the TTL |
| Consul.CertsExpiredCalls | consul/registry.go:75-85 | FailTTL, ServiceDeregister, CheckDeregister in order, stopping at the first error; on success the service and check are gone |
| Flags.SplitComma | cmd/main.go:90 | strings.Split never returns an empty list |
| Flags.SplitDomains | cmd/main.go:89-94 | the domain list is never empty |
| Flags.SplitNoComma | cmd/main.go:91-94 | without a comma the whole string is the only domain |
| Flags.SplitDomainsIsSplit | cmd/main.go:89-94 | the explicit singleton case agrees with splitting |
| Flags.SplitPiecesHaveNoComma | cmd/main.go:89-94 | no domain contains a comma |
| Flags.JoinSplit | cmd/main.go:89-94 | joining the domains with commas gives the flag back |
| Flags.SplitJoin | cmd/main.go:89-94 | splitting a comma-joined list of comma-free names gives the list back |
| Flags.BuddyConfigFromFlags | cmd/main.go:87-106 | no error, look-ahead left at zero, domains split, the other fields copied |
| Flags.VerifyFlags | cmd/main.go:108-119 | nil with a config file; otherwise an error iff a required flag is empty, naming one empty required flag |
| LegacyBuddy.KeyPhase | buddy.go:36-51 | obtaining is forced iff the key is missing; a missing key is the generated one, saved; a present key is loaded, nothing written |
| LegacyBuddy.CertBuddy.constructor | buddy.go:19-28 | NewCertBuddy keeps its collaborators |
| LegacyBuddy.CertBuddy.Loop | buddy.go:30-87 | the new filesystem, the CA calls and the error are those of LoopOutcome |
| LegacyBuddy.CertBuddy.CheckLeaf | buddy.go:68-86 | the reload, check and renewal half of Loop agrees with CheckPhase |
| LegacyBuddy.KeyFailureStops | buddy.go:36-51 | a key that cannot be generated, saved or loaded ends the run with no CA call |
| LegacyBuddy.MissingKeyForcesObtain | buddy.go:36-57 | a missing key is saved and the first CA call is Obtain with that key |
| LegacyBuddy.MissingCertsForceObtain | buddy.go:53-57 | with the key stored, missing certificates make the first CA call Obtain with the stored key |
| LegacyBuddy.CheckPhaseExtends | buddy.go:75-85 | the check phase appends at most one Renew to the CA calls |
| LegacyBuddy.ObtainFailureSavesNothing | buddy.go:57-61 | a non-empty failure map ends the run with the error and nothing saved |
| LegacyBuddy.ObtainedLeafIsChecked | buddy.go:62-76 | with a concatenated file store as certificate store, after a successful obtain the same run checks, and renews if needed, the leaf the CA just issued |
| LegacyBuddy.EmptyBundleStops | buddy.go:72-74 | an empty bundle ends the run with "No certificates loaded from certificate store" before any check |
| LegacyBuddy.RenewalDecision | buddy.go:75-85 | valid: nothing happens; checker error: returned, nothing renewed; invalid: one Renew, then a save only if Renew succeeded |
| LegacyBuddy.FreshRunLeavesOneCertAndKey | buddy_test.go:70-85 | from an empty directory one run succeeds and leaves one certificate and the key; the test's in-memory store is replaced by file stores in the working directory |
| Buddy.Registry.CertAvailable | cmd/buddy.go:41-45 | the dummy registry always returns nil; the Consul one behaves as ConsulRegistry.CertAvailable |
| Buddy.Registry.CertsExpired | cmd/buddy.go:47-49 | the dummy registry always returns nil; the Consul one behaves as ConsulRegistry.CertsExpired |
| Buddy.Bootstrap | cmd/buddy.go:56-87 | a failing account-key parent path ends NewBuddy with its wrapped error and nothing changed; at most the account key file is written, holding the generated key |
| Buddy.AccountKey | cmd/buddy.go:70-87 | an existing account key is loaded with nothing written, its load error wrapped |
| Buddy.ChooseRegistry | cmd/buddy.go:97-105 | the dummy registry iff no address is configured; otherwise Consul, or its wrapped connection error |
| Buddy.KeyPhase | cmd/buddy.go:123-140 | obtaining is forced iff the key is missing, and then the key seen afterwards is nil; a present key is loaded |
| Buddy.Buddy.constructor | cmd/buddy.go:107-115 | the fields as given, no CA client yet |
| Buddy.Buddy.ConnectCA | cmd/buddy.go:148-155 | the client exists afterwards iff it existed or this call's creation succeeded; the error is wrapped, and a failure leaves the client unset for the next call |
| Buddy.Buddy.EnsureCerts | cmd/buddy.go:119-197 | the filesystem, the client state, the CA calls and the error are those of EnsureOutcome for this run's creation outcome; the registry is never touched |
| Buddy.Buddy.ObtainCerts | cmd/buddy.go:146-165 | the obtain branch agrees with Obtain |
| Buddy.Buddy.CheckExistingCerts | cmd/buddy.go:166-193 | the existing-certificate branch agrees with CheckExisting |
| Buddy.NewBuddy | cmd/buddy.go:55-117 | errors of the bootstrap and the registry are returned; otherwise the user, checker, registry and stores are configured as the code does |
| Buddy.AccountKeyGeneratedIffAbsent | cmd/buddy.go:73-87 | a generated account key is saved and loads back; an existing one is loaded and nothing is written |
| Buddy.ShadowedKeyReachesObtain | cmd/buddy.go:123-156 | a missing key is saved, but the CA is asked with no key |
| Buddy.ObtainKeepsKey | cmd/buddy.go:163-165 | the obtain path does not change the stored domain key |
| Buddy.KeyLoadFailureStops | cmd/buddy.go:134-140 | a stored key that does not load ends the run with no CA call and nothing written |
| Buddy.MissingCertsForceObtain | cmd/buddy.go:142-146 | with the key stored, missing certificates make the only CA call Obtain with the stored key |
| Buddy.ObtainSavesBundle | cmd/buddy.go:156-165 | a failure map means an error and no save; otherwise exactly AllCerts is saved and loads back |
| Buddy.ExistingPathFailures | cmd/buddy.go:168-176 | load or checker errors end the run with no call and no write; an empty bundle panics at `certs[0]` |
| Buddy.ValidLeafIsSteadyState | cmd/buddy.go:177-196 | a valid leaf means no CA call and no write, and a second run repeats the same |
| Buddy.RenewErrorIgnored | cmd/buddy.go:186-192 | the run is the same whatever error Renew reports |
| Buddy.InvalidLeafRenewsAndSaves | cmd/buddy.go:177-192 | an invalid leaf with a client at hand gives exactly one Renew of the loaded leaf with the run's key, the client then exists, the store receives the renewed bundle, the save error comes back wrapped, and a concatenated store loads the renewed bundle |
| Buddy.FailedCreationIsRetried | cmd/buddy.go:148-154 | a failed client creation returns its wrapped error and changes nothing; the next run creates the client again and, when that succeeds, obtains with the stored key |
| Buddy.ClientCreatedOnce | cmd/buddy.go:148-185 | a run makes at most one CA call; the client exists afterwards iff it existed or a call was made; once it exists, creation no longer matters |
| Buddy.ObtainCallsOnce | cmd/buddy.go:148-156 | the obtain path makes at most one CA call and creates the client at most once |
| Buddy.CheckCallsOnce | cmd/buddy.go:179-186 | the renewal path makes at most one CA call and creates the client at most once |

## Findings

| source | as written | input that shows it | evidently intended | confidence | as-written member | corrected member |
|---|---|---|---|---|---|---|
| file/storage.go:38-41 | the split LoadCerts joins each glob result, which already starts with the base path, to the base path again (storage_file.go:33-36 does the same) | base path `certs`, one certificate saved as `certs/server0.crt`: LoadCerts reads `certs/certs/server0.crt` and fails with not-found | read each glob result as it is, so that a split save round-trips | not executed | FileStore.SplitLoadDoublePrefix | FileStore.SplitRoundTripIntended |

The corrected loader is `FileStore.LoadSplitIntended`. The store operations
keep the loader as written, because the orchestrators built by `NewBuddy` use a
concatenated certificate store and split stores only for keys, so the defect
does not reach them. In the working directory the two loaders agree
(`FileStore.SplitRoundTripInWorkingDirectory`).

## Left out

- cmd/main.go `main`, `shutdown` and `interrupt`: goroutines, signal handling and process exit are not modelled.
- main.go: a superseded entry point built on goroutines, channels and sleeps. It is not part of this model.
- acme/ca.go and client_acme.go: the ACME protocol is replaced by the recording `CA.AutomatedCA`, whose replies are parameters.
- consul.go and the notifier interface: the Consul HTTP client is not part of this model. The agent is abstracted as `Consul.Agent`, which records requests and knows which services and checks are registered.
- Cryptography: RSA generation, x509 parsing, DER marshalling and the RFC 7468 text layout are out of scope. Keys and certificates are opaque, and PEM content is a sequence of typed blocks.
- Real filesystem semantics: permissions beyond a set of refused paths, nested directory creation by MkdirAll, and os.Stat errors other than absence are not modelled.
- Glob metacharacters in a base path are not modelled: the base path is taken literally.
- `CreateDirIfNotExists`, `WritePEMBlock`, `LoadPrivateKey`, `LoadCertificateFromDisk` and the JSON helpers of utils.go are called by no modelled operation.
- Clock and randomness: `time.Now()` and `rsa.GenerateKey` are parameters (`now`, `generated`). Times are unbounded integers, so the wrap-around of Go's time arithmetic is not modelled.
- Go map iteration order in `verifyFlags` is a parameter (`order`). Which empty flag is reported depends on it.
- `Flags.VerifyFlags` requires `order` to list exactly the required flags, which is what ranging over the Go map does.
- Logging (`log.Printf`, `printFailures`) is left out.
- `Storage.MultiOutputCertStorage` holds file stores, not nested multi-output stores.
- buddy_test.go uses an in-memory store. The scenario lemma uses file stores in the working directory instead.
- Path cleaning is not modelled. `Paths.Join` inserts one `/` and takes both parts to be clean, whereas Go's `path.Join` also removes `.` elements, doubled and trailing slashes. A base path such as `./stortest` (storage_file_test.go) or `.` therefore gives paths that differ textually from Go's.
- `LegacyBuddy.ObtainedLeafIsChecked` is stated only for a concatenated file store as certificate store. A split store under a non-empty base path reloads through the doubled-prefix defect listed under "## Findings" and fails to find the files it saved.
- storage_file.go calls `toPemBlock`, `pemBlockToX509Certificate`, `pemBlockToPrivateKey` and `fileExists`, which no file of the repository defines. `LegacyFileStore` assumes they behave as utils.go's `ToPemBlock`, `PemBlockToX509Certificate`, `PemBlockToPrivateKey` and `FileExists`.
- `LegacyFileStore.NoParentCreation` does not state which error comes back, only that one does. A refused path reports a permission error before the missing directory is noticed.
- `FileStore.SplitRoundTripIntended`, `Layout.SplitLoadRoundTrip` and `FileStore.SplitRoundTripInWorkingDirectory` are stated for bundles of at most ten certificates. From eleven on, the textual glob order differs from the index order (`Layout.SplitOrderIsTextual`).
