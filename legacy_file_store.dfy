/** The older FileStorage of storage_file.go: the same layout as
    file/storage.go, but the key file is `server.key`, no parent directory
    is created before a write, a concatenated file is not checked for
    emptiness, and errors are returned without context. */
module LegacyFileStore {
  import opened Types
  import opened Paths
  import opened Order
  import opened Pem
  import opened FileSystem
  import opened Layout

  const KeyName := "server.key"

  datatype FileStorage = FileStorage(basePath: string, concat: bool)

  function KeyPath(s: FileStorage): string
  {
    Join(s.basePath, KeyName)
  }

  // ---------------------------------------------------------------- SaveCerts

  function SaveSplitFrom(s: FileStorage, fs: Fs, certs: seq<Certificate>, i: nat): (r: (Fs, Option<Error>))
    requires i <= |certs|
    decreases |certs| - i
  {
    if i == |certs| then (fs, None)
    else
      var (fs1, e) := Write(fs, SplitPath(s.basePath, i), ToPemBlock(Cert(certs[i])));
      if e.Some? then (fs1, e) else SaveSplitFrom(s, fs1, certs, i + 1)
  }

  function SaveCertsOutcome(s: FileStorage, fs: Fs, certs: seq<Certificate>): (Fs, Option<Error>)
  {
    if s.concat then Write(fs, ConcatPath(s.basePath), EncodeAll(certs))
    else SaveSplitFrom(s, fs, certs, 0)
  }

  method SaveCerts(s: FileStorage, disk: Disk, certs: seq<Certificate>) returns (err: Option<Error>)
    modifies disk
    ensures (disk.View(), err) == SaveCertsOutcome(s, old(disk.View()), certs)
  {
    if s.concat {
      var pemBytes: PemData := [];
      var i := 0;
      while i < |certs|
        invariant 0 <= i <= |certs|
        invariant pemBytes == EncodeAll(certs[..i])
        invariant disk.View() == old(disk.View())
      {
        var data := ToPemBlock(Cert(certs[i]));
        EncodeAllAppend(certs[..i], certs[i]);
        assert certs[..i + 1] == certs[..i] + [certs[i]];
        pemBytes := pemBytes + data;
        i := i + 1;
      }
      assert certs[..|certs|] == certs;
      err := disk.WriteFile(ConcatPath(s.basePath), pemBytes);
      return;
    } else {
      var i := 0;
      while i < |certs|
        invariant 0 <= i <= |certs|
        invariant SaveSplitFrom(s, disk.View(), certs, i) == SaveCertsOutcome(s, old(disk.View()), certs)
      {
        var certFile := SplitPath(s.basePath, i);
        var pemBytes := ToPemBlock(Cert(certs[i]));
        var e := disk.WriteFile(certFile, pemBytes);
        if e.Some? {
          return e;
        }
        i := i + 1;
      }
    }
    return None;
  }

  // ---------------------------------------------------------------- LoadCerts

  ghost function LoadCertsOutcome(s: FileStorage, fs: Fs): Loaded
  {
    if s.concat then
      match Read(fs, ConcatPath(s.basePath))
      case Err(e) => Loaded([], Some(e))
      case Ok(data) => DecodeCerts(data)
    else LoadSplitFrom(fs, s.basePath, CertFiles(fs, s.basePath), [])
  }

  method LoadCerts(s: FileStorage, disk: Disk) returns (certs: seq<Certificate>, err: Option<Error>)
    ensures Loaded(certs, err) == LoadCertsOutcome(s, disk.View())
  {
    if s.concat {
      var data := disk.ReadFile(ConcatPath(s.basePath));
      if data.Err? {
        return [], Some(data.error);
      }
      certs, err := PemBlockToX509Certificate(data.value);
    } else {
      var certFiles := disk.Glob(s.basePath, CertBaseName, "." + CertExtension);
      certs := [];
      var i := 0;
      while i < |certFiles|
        invariant 0 <= i <= |certFiles|
        invariant LoadSplitFrom(disk.View(), s.basePath, certFiles[i..], certs) == LoadCertsOutcome(s, disk.View())
      {
        assert certFiles[i..][1..] == certFiles[i + 1..];
        var data := disk.ReadFile(Join(s.basePath, certFiles[i]));
        if data.Err? {
          return [], Some(data.error);
        }
        var cert, e := PemBlockToX509Certificate(data.value);
        if e.Some? {
          return [], e;
        }
        certs := certs + cert;
        i := i + 1;
      }
      err := None;
    }
  }

  // ---------------------------------------------------------------- keys

  function SaveKeyOutcome(s: FileStorage, fs: Fs, key: PrivateKey): (Fs, Option<Error>)
  {
    Write(fs, KeyPath(s), ToPemBlock(Key(key)))
  }

  function LoadKeyOutcome(s: FileStorage, fs: Fs): Result<PrivateKey>
  {
    match Read(fs, KeyPath(s))
    case Err(e) => Err(e)
    case Ok(data) => PemBlockToPrivateKey(data)
  }

  method SaveKey(s: FileStorage, disk: Disk, key: PrivateKey) returns (err: Option<Error>)
    modifies disk
    ensures (disk.View(), err) == SaveKeyOutcome(s, old(disk.View()), key)
  {
    var pemBlockData := ToPemBlock(Key(key));
    err := disk.WriteFile(KeyPath(s), pemBlockData);
  }

  method LoadKey(s: FileStorage, disk: Disk) returns (r: Result<PrivateKey>)
    ensures r == LoadKeyOutcome(s, disk.View())
  {
    var data := disk.ReadFile(KeyPath(s));
    if data.Err? {
      return Err(data.error);
    }
    return PemBlockToPrivateKey(data.value);
  }

  // ---------------------------------------------------------------- existence

  ghost predicate CertsExistIn(s: FileStorage, fs: Fs)
  {
    |CertFiles(fs, s.basePath)| > 0
  }

  predicate KeyExistsIn(s: FileStorage, fs: Fs)
  {
    Exists(fs, KeyPath(s))
  }

  method CertsExist(s: FileStorage, disk: Disk) returns (b: bool)
    ensures b <==> exists p :: (p in disk.files || p in disk.dirs) && IsCertFile(s.basePath, p)
    ensures b == CertsExistIn(s, disk.View())
  {
    var certFiles := disk.Glob(s.basePath, CertBaseName, "." + CertExtension);
    b := |certFiles| > 0;
    assert forall p :: p in certFiles <==> (p in disk.files || p in disk.dirs) && IsCertFile(s.basePath, p);
    assert b ==> certFiles[0] in certFiles;
  }

  method KeyExists(s: FileStorage, disk: Disk) returns (b: bool)
    ensures b == KeyExistsIn(s, disk.View())
  {
    b := disk.FileExists(KeyPath(s));
  }

  // ---------------------------------------------------------------- properties

  /** The split loop writes split files of this bundle only, never creates
      a directory, and changes nothing when it fails at once. */
  lemma {:induction false} SplitSaveFootprint(s: FileStorage, fs: Fs, certs: seq<Certificate>, i: nat)
    requires i <= |certs|
    ensures SaveSplitFrom(s, fs, certs, i).0.dirs == fs.dirs
    ensures SaveSplitFrom(s, fs, certs, i).0.denied == fs.denied
    ensures forall p :: p in SaveSplitFrom(s, fs, certs, i).0.files ==>
      p in fs.files || exists j :: i <= j < |certs| && p == SplitPath(s.basePath, j)
    decreases |certs| - i
  {
    if i < |certs| {
      var (fs1, e) := Write(fs, SplitPath(s.basePath, i), ToPemBlock(Cert(certs[i])));
      if e.None? {
        SplitSaveFootprint(s, fs1, certs, i + 1);
      }
    }
  }

  /** Every write of the split loop agrees with every layout of the same
      bundle, so any store already holding it still does afterwards; and
      when the loop succeeds the store itself holds the bundle. */
  lemma {:induction false} SplitSaveHolds(s: FileStorage, fs: Fs, certs: seq<Certificate>, i: nat, base: string, concat: bool)
    requires i <= |certs|
    ensures Holds(fs.files, base, concat, certs) ==> Holds(SaveSplitFrom(s, fs, certs, i).0.files, base, concat, certs)
    ensures HoldsSplit(fs.files, s.basePath, certs, i) && SaveSplitFrom(s, fs, certs, i).1.None? ==>
      HoldsSplit(SaveSplitFrom(s, fs, certs, i).0.files, s.basePath, certs, |certs|)
    decreases |certs| - i
  {
    if i < |certs| {
      var certFile := SplitPath(s.basePath, i);
      var d := ToPemBlock(Cert(certs[i]));
      var (fs1, e) := Write(fs, certFile, d);
      if e.None? {
        SplitWriteConsistent(s.basePath, certs, i);
        HoldsAfterWrite(fs.files, base, concat, certs, 0, certFile, d);
        HoldsAfterWrite(fs.files, s.basePath, false, certs, i, certFile, d);
        assert HoldsSplit(fs.files, s.basePath, certs, i) ==> HoldsSplit(fs1.files, s.basePath, certs, i + 1);
        SplitSaveHolds(s, fs1, certs, i + 1, base, concat);
      }
    }
  }

  /** SaveCerts keeps the bundle wherever it is already held, and when it
      succeeds its own store holds the bundle. */
  lemma SaveHolds(s: FileStorage, fs: Fs, certs: seq<Certificate>, base: string, concat: bool)
    ensures Holds(fs.files, base, concat, certs) ==> Holds(SaveCertsOutcome(s, fs, certs).0.files, base, concat, certs)
    ensures SaveCertsOutcome(s, fs, certs).1.None? ==> Holds(SaveCertsOutcome(s, fs, certs).0.files, s.basePath, s.concat, certs)
  {
    if s.concat {
      ConcatWriteConsistent(s.basePath, certs);
      HoldsAfterWrite(fs.files, base, concat, certs, 0, ConcatPath(s.basePath), EncodeAll(certs));
    } else {
      SplitSaveHolds(s, fs, certs, 0, base, concat);
    }
  }

  /** A concatenated save writes exactly one file; a split save of n
      certificates into a directory without certificate files leaves
      exactly n certificate files there. */
  lemma SaveFileCount(s: FileStorage, fs: Fs, certs: seq<Certificate>)
    ensures var r := SaveCertsOutcome(s, fs, certs);
      s.concat && r.1.None? ==> r.0.files == fs.files[ConcatPath(s.basePath) := EncodeAll(certs)]
    ensures var r := SaveCertsOutcome(s, fs, certs);
      !s.concat && r.1.None? && (forall p :: p in fs.files ==> !IsCertFile(s.basePath, p)) ==>
        (set p | p in r.0.files && IsCertFile(s.basePath, p)) == (set i | 0 <= i < |certs| :: SplitPath(s.basePath, i))
  {
    var r := SaveCertsOutcome(s, fs, certs);
    if !s.concat && r.1.None? && (forall p :: p in fs.files ==> !IsCertFile(s.basePath, p)) {
      SaveHolds(s, fs, certs, s.basePath, false);
      SplitSaveFootprint(s, fs, certs, 0);
      forall i | 0 <= i < |certs|
        ensures IsCertFile(s.basePath, SplitPath(s.basePath, i))
      {
        CertFilesMatchGlob(s.basePath, i);
      }
    }
  }

  /** Concatenated save then load gives the bundle back. An empty bundle is
      written as an empty file, on which the decoder dereferences a nil
      block. */
  lemma ConcatRoundTrip(s: FileStorage, fs: Fs, certs: seq<Certificate>)
    requires s.concat
    ensures var r := SaveCertsOutcome(s, fs, certs);
      r.1.None? ==> LoadCertsOutcome(s, r.0) == if |certs| > 0 then Loaded(certs, None) else Loaded([], Some(Crash(NilPemBlock)))
  {
    if |certs| > 0 {
      CertsRoundTrip(certs);
    } else {
      assert EncodeAll(certs) == [];
    }
  }

  /** CertsExist is false on a directory without certificate files and
      true after a successful save of a non-empty bundle. */
  lemma CertsExistAfterSave(s: FileStorage, fs: Fs, certs: seq<Certificate>)
    requires |certs| > 0
    ensures (forall p :: (p in fs.files || p in fs.dirs) ==> !IsCertFile(s.basePath, p)) ==> !CertsExistIn(s, fs)
    ensures var r := SaveCertsOutcome(s, fs, certs); r.1.None? ==> CertsExistIn(s, r.0)
  {
    if |CertFiles(fs, s.basePath)| > 0 {
      assert CertFiles(fs, s.basePath)[0] in CertFiles(fs, s.basePath);
    }
    var r := SaveCertsOutcome(s, fs, certs);
    if r.1.None? {
      SaveHolds(s, fs, certs, s.basePath, s.concat);
      CertFilesMatchGlob(s.basePath, 0);
      var p := if s.concat then ConcatPath(s.basePath) else SplitPath(s.basePath, 0);
      assert p in r.0.files && IsCertFile(s.basePath, p);
      assert p in CertFiles(r.0, s.basePath);
    }
  }

  /** The key file is server.key, which the server*.crt glob never takes
      for a certificate; a saved key loads back. */
  lemma KeySaveRoundTrip(s: FileStorage, fs: Fs, key: PrivateKey)
    ensures !IsCertFile(s.basePath, KeyPath(s))
    ensures var r := SaveKeyOutcome(s, fs, key); r.1.None? ==> KeyExistsIn(s, r.0) && LoadKeyOutcome(s, r.0) == Ok(key)
  {
    KeyFilesDoNotMatchGlob(s.basePath);
    KeyRoundTrip(key);
  }

  /** No directory is created: with the base directory missing, every save
      fails and the filesystem is left as it was. */
  lemma NoParentCreation(s: FileStorage, fs: Fs, certs: seq<Certificate>, key: PrivateKey)
    requires s.basePath != "" && s.basePath !in fs.dirs && |certs| > 0
    ensures SaveKeyOutcome(s, fs, key).1.Some? && SaveKeyOutcome(s, fs, key).0 == fs
    ensures SaveCertsOutcome(s, fs, certs).1.Some? && SaveCertsOutcome(s, fs, certs).0 == fs
  {
    assert IsName(KeyName) && IsName(ConcatName());
    DirOfJoin(s.basePath, KeyName);
    DirOfJoin(s.basePath, ConcatName());
    SplitNameShape(0);
    DirOfJoin(s.basePath, SplitName(0));
    LastSlashOfJoin(s.basePath, KeyName);
  }
}
