/** file.FileStorage of file/storage.go: certificates and a key stored as
    PEM files under one directory. Every write first makes sure the parent
    directory exists, and errors carry context. */
module FileStore {
  import opened Types
  import opened Paths
  import opened Order
  import opened Pem
  import opened FileSystem
  import opened Layout

  const KeyName := "private.key"

  /** The store itself is never updated; only the filesystem is. */
  datatype FileStorage = FileStorage(basePath: string, concat: bool)

  function KeyPath(s: FileStorage): string
  {
    Join(s.basePath, KeyName)
  }

  // ---------------------------------------------------------------- SaveCerts

  function SaveConcat(s: FileStorage, fs: Fs, certs: seq<Certificate>): (r: (Fs, Option<Error>))
  {
    var certPath := ConcatPath(s.basePath);
    var (fs1, e1) := EnsureParent(fs, certPath);
    if e1.Some? then (fs1, Some(Wrap("Unable to create parent path for certificate file", e1.value)))
    else
      var (fs2, e2) := Write(fs1, certPath, EncodeAll(certs));
      (fs2, WrapOpt("Unable to write concatenated certificate file", e2))
  }

  /** The split loop of SaveCerts from index i on. */
  function SaveSplitFrom(s: FileStorage, fs: Fs, certs: seq<Certificate>, i: nat): (r: (Fs, Option<Error>))
    requires i <= |certs|
    decreases |certs| - i
  {
    if i == |certs| then (fs, None)
    else
      var certFile := SplitPath(s.basePath, i);
      var (fs1, e1) := EnsureParent(fs, certFile);
      if e1.Some? then (fs1, Some(Wrap("Unable to create parent path for certificate", e1.value)))
      else
        var (fs2, e2) := Write(fs1, certFile, ToPemBlock(Cert(certs[i])));
        if e2.Some? then (fs2, Some(Wrap("Unable to write certificate file", e2.value)))
        else SaveSplitFrom(s, fs2, certs, i + 1)
  }

  function SaveCertsOutcome(s: FileStorage, fs: Fs, certs: seq<Certificate>): (Fs, Option<Error>)
  {
    if s.concat then SaveConcat(s, fs, certs) else SaveSplitFrom(s, fs, certs, 0)
  }

  method SaveCerts(s: FileStorage, disk: Disk, certs: seq<Certificate>) returns (err: Option<Error>)
    modifies disk
    ensures (disk.View(), err) == SaveCertsOutcome(s, old(disk.View()), certs)
  {
    if s.concat {
      var pemBytes: PemData := [];
      var i := 0;
      while i < |certs|
        invariant 0 <= i <= |certs|
        invariant pemBytes == EncodeAll(certs[..i])
        invariant disk.View() == old(disk.View())
      {
        var data := ToPemBlock(Cert(certs[i]));
        EncodeAllAppend(certs[..i], certs[i]);
        assert certs[..i + 1] == certs[..i] + [certs[i]];
        pemBytes := pemBytes + data;
        i := i + 1;
      }
      assert certs[..|certs|] == certs;
      var certPath := ConcatPath(s.basePath);
      var e := EnsureParentPathExists(disk, certPath);
      if e.Some? {
        return Some(Wrap("Unable to create parent path for certificate file", e.value));
      }
      e := disk.WriteFile(certPath, pemBytes);
      if e.Some? {
        return Some(Wrap("Unable to write concatenated certificate file", e.value));
      }
    } else {
      var i := 0;
      while i < |certs|
        invariant 0 <= i <= |certs|
        invariant SaveSplitFrom(s, disk.View(), certs, i) == SaveCertsOutcome(s, old(disk.View()), certs)
      {
        var certFile := SplitPath(s.basePath, i);
        var e := EnsureParentPathExists(disk, certFile);
        if e.Some? {
          return Some(Wrap("Unable to create parent path for certificate", e.value));
        }
        var pemBytes := ToPemBlock(Cert(certs[i]));
        e := disk.WriteFile(certFile, pemBytes);
        if e.Some? {
          return Some(Wrap("Unable to write certificate file", e.value));
        }
        i := i + 1;
      }
    }
    return None;
  }

  // ---------------------------------------------------------------- LoadCerts

  ghost function LoadCertsOutcome(s: FileStorage, fs: Fs): Loaded
  {
    if s.concat then
      match Read(fs, ConcatPath(s.basePath))
      case Err(e) => Loaded([], Some(Wrap("Unable to read concatenated certificate file", e)))
      case Ok(data) => if NoBytes(data) then Loaded([], Some(Message("Empty file"))) else DecodeCerts(data)
    else LoadSplitFrom(fs, s.basePath, CertFiles(fs, s.basePath), [])
  }

  method LoadCerts(s: FileStorage, disk: Disk) returns (certs: seq<Certificate>, err: Option<Error>)
    ensures Loaded(certs, err) == LoadCertsOutcome(s, disk.View())
  {
    if s.concat {
      var certPath := ConcatPath(s.basePath);
      var data := disk.ReadFile(certPath);
      if data.Err? {
        return [], Some(Wrap("Unable to read concatenated certificate file", data.error));
      }
      if NoBytes(data.value) {
        return [], Some(Message("Empty file"));
      }
      certs, err := PemBlockToX509Certificate(data.value);
    } else {
      var certFiles := disk.Glob(s.basePath, CertBaseName, "." + CertExtension);
      certs := [];
      var i := 0;
      while i < |certFiles|
        invariant 0 <= i <= |certFiles|
        invariant LoadSplitFrom(disk.View(), s.basePath, certFiles[i..], certs) == LoadCertsOutcome(s, disk.View())
      {
        assert certFiles[i..][1..] == certFiles[i + 1..];
        var data := disk.ReadFile(Join(s.basePath, certFiles[i]));
        if data.Err? {
          return [], Some(data.error);
        }
        var cert, e := PemBlockToX509Certificate(data.value);
        if e.Some? {
          return [], e;
        }
        certs := certs + cert;
        i := i + 1;
      }
      err := None;
    }
  }

  // ---------------------------------------------------------------- keys

  function SaveKeyOutcome(s: FileStorage, fs: Fs, key: PrivateKey): (Fs, Option<Error>)
  {
    var keyPath := KeyPath(s);
    var (fs1, e1) := EnsureParent(fs, keyPath);
    if e1.Some? then (fs1, Some(Wrap("Unable to create parent path to store key file", e1.value)))
    else
      var (fs2, e2) := Write(fs1, keyPath, ToPemBlock(Key(key)));
      (fs2, WrapOpt("Unable to write private key file", e2))
  }

  function LoadKeyOutcome(s: FileStorage, fs: Fs): Result<PrivateKey>
  {
    match Read(fs, KeyPath(s))
    case Err(e) => Err(e)
    case Ok(data) => PemBlockToPrivateKey(data)
  }

  method SaveKey(s: FileStorage, disk: Disk, key: PrivateKey) returns (err: Option<Error>)
    modifies disk
    ensures (disk.View(), err) == SaveKeyOutcome(s, old(disk.View()), key)
  {
    var keyPath := KeyPath(s);
    var pemBlockData := ToPemBlock(Key(key));
    var e := EnsureParentPathExists(disk, keyPath);
    if e.Some? {
      return Some(Wrap("Unable to create parent path to store key file", e.value));
    }
    e := disk.WriteFile(keyPath, pemBlockData);
    if e.Some? {
      return Some(Wrap("Unable to write private key file", e.value));
    }
    return None;
  }

  method LoadKey(s: FileStorage, disk: Disk) returns (r: Result<PrivateKey>)
    ensures r == LoadKeyOutcome(s, disk.View())
  {
    var data := disk.ReadFile(KeyPath(s));
    if data.Err? {
      return Err(data.error);
    }
    return PemBlockToPrivateKey(data.value);
  }

  // ---------------------------------------------------------------- existence

  /** CertsExist: the glob finds something, in either layout. */
  ghost predicate CertsExistIn(s: FileStorage, fs: Fs)
  {
    |CertFiles(fs, s.basePath)| > 0
  }

  predicate KeyExistsIn(s: FileStorage, fs: Fs)
  {
    Exists(fs, KeyPath(s))
  }

  method CertsExist(s: FileStorage, disk: Disk) returns (b: bool)
    ensures b <==> exists p :: (p in disk.files || p in disk.dirs) && IsCertFile(s.basePath, p)
    ensures b == CertsExistIn(s, disk.View())
  {
    var certFiles := disk.Glob(s.basePath, CertBaseName, "." + CertExtension);
    b := |certFiles| > 0;
    assert forall p :: p in certFiles <==> (p in disk.files || p in disk.dirs) && IsCertFile(s.basePath, p);
    assert b ==> certFiles[0] in certFiles;
  }

  method KeyExists(s: FileStorage, disk: Disk) returns (b: bool)
    ensures b == KeyExistsIn(s, disk.View())
  {
    b := disk.FileExists(KeyPath(s));
  }

  // ---------------------------------------------------------------- properties

  /** Concatenated SaveCerts writes exactly one file, server.crt, holding
      the blocks of the bundle in order; at most the base directory is
      created. */
  lemma ConcatSaveWritesOneFile(s: FileStorage, fs: Fs, certs: seq<Certificate>)
    requires s.concat
    ensures var r := SaveCertsOutcome(s, fs, certs);
      r.1.None? ==> r.0.files == fs.files[ConcatPath(s.basePath) := EncodeAll(certs)]
    ensures var r := SaveCertsOutcome(s, fs, certs); r.1.Some? ==> r.0.files == fs.files
    ensures var r := SaveCertsOutcome(s, fs, certs); fs.dirs <= r.0.dirs <= fs.dirs + {s.basePath}
  {
    DirOfJoin(s.basePath, ConcatName());
  }

  /** What the split loop may change: the files it writes are split files
      of this bundle, and only the base directory may be created. */
  lemma {:induction false} SplitSaveFootprint(s: FileStorage, fs: Fs, certs: seq<Certificate>, i: nat)
    requires i <= |certs|
    ensures var r := SaveSplitFrom(s, fs, certs, i); r.0.denied == fs.denied
    ensures var r := SaveSplitFrom(s, fs, certs, i); fs.dirs <= r.0.dirs <= fs.dirs + {s.basePath}
    ensures var r := SaveSplitFrom(s, fs, certs, i);
      forall p :: p in r.0.files ==> p in fs.files || exists j :: i <= j < |certs| && p == SplitPath(s.basePath, j)
    decreases |certs| - i
  {
    if i < |certs| {
      var certFile := SplitPath(s.basePath, i);
      SplitNameShape(i);
      DirOfJoin(s.basePath, SplitName(i));
      var (fs1, e1) := EnsureParent(fs, certFile);
      if e1.None? {
        var (fs2, e2) := Write(fs1, certFile, ToPemBlock(Cert(certs[i])));
        if e2.None? {
          SplitSaveFootprint(s, fs2, certs, i + 1);
        }
      }
    }
  }

  /** What the split loop leaves alone: files that are not certificate
      files, and files of a longer earlier bundle, which stay behind. */
  lemma {:induction false} SplitSaveKeeps(s: FileStorage, fs: Fs, certs: seq<Certificate>, i: nat)
    requires i <= |certs|
    ensures var r := SaveSplitFrom(s, fs, certs, i);
      forall p :: p in fs.files && !IsCertFile(s.basePath, p) ==> HoldsAt(r.0.files, p, fs.files[p])
    ensures var r := SaveSplitFrom(s, fs, certs, i);
      forall j :: j >= |certs| && SplitPath(s.basePath, j) in fs.files ==>
        HoldsAt(r.0.files, SplitPath(s.basePath, j), fs.files[SplitPath(s.basePath, j)])
    decreases |certs| - i
  {
    if i < |certs| {
      var base := s.basePath;
      var certFile := SplitPath(base, i);
      CertFilesMatchGlob(base, i);
      forall j | j >= |certs| && SplitPath(base, j) == certFile
        ensures false
      {
        SplitPathInjective(base, j, base, i);
      }
      var (fs1, e1) := EnsureParent(fs, certFile);
      if e1.None? {
        var (fs2, e2) := Write(fs1, certFile, ToPemBlock(Cert(certs[i])));
        if e2.None? {
          SplitSaveKeeps(s, fs2, certs, i + 1);
        }
      }
    }
  }

  /** The split loop writes the bundle one file at a time: when it stops,
      some prefix of the bundle is on disk, and all of it exactly when no
      error came back. A failure at index k leaves files 0 .. k-1 written. */
  lemma {:induction false} SplitSaveProgress(s: FileStorage, fs: Fs, certs: seq<Certificate>, i: nat)
    requires i <= |certs| && HoldsSplit(fs.files, s.basePath, certs, i)
    ensures exists k :: i <= k <= |certs| && HoldsSplit(SaveSplitFrom(s, fs, certs, i).0.files, s.basePath, certs, k)
                        && (SaveSplitFrom(s, fs, certs, i).1.None? <==> k == |certs|)
    decreases |certs| - i
  {
    var r := SaveSplitFrom(s, fs, certs, i);
    if i == |certs| {
      assert HoldsSplit(r.0.files, s.basePath, certs, |certs|);
    } else {
      var certFile := SplitPath(s.basePath, i);
      var (fs1, e1) := EnsureParent(fs, certFile);
      if e1.Some? {
        assert i <= i <= |certs| && HoldsSplit(r.0.files, s.basePath, certs, i) && (r.1.None? <==> i == |certs|);
      } else {
        var (fs2, e2) := Write(fs1, certFile, ToPemBlock(Cert(certs[i])));
        if e2.Some? {
          assert i <= i <= |certs| && HoldsSplit(r.0.files, s.basePath, certs, i) && (r.1.None? <==> i == |certs|);
        } else {
          SplitWriteConsistent(s.basePath, certs, i);
          HoldsAfterWrite(fs1.files, s.basePath, false, certs, i, certFile, ToPemBlock(Cert(certs[i])));
          assert HoldsSplit(fs2.files, s.basePath, certs, i + 1);
          SplitSaveProgress(s, fs2, certs, i + 1);
          assert r == SaveSplitFrom(s, fs2, certs, i + 1);
        }
      }
    }
  }

  /** After a successful SaveCerts the store's files hold the bundle. */
  lemma SaveHolds(s: FileStorage, fs: Fs, certs: seq<Certificate>)
    ensures var r := SaveCertsOutcome(s, fs, certs); r.1.None? ==> Holds(r.0.files, s.basePath, s.concat, certs)
  {
    if !s.concat {
      SplitSaveProgress(s, fs, certs, 0);
    }
  }

  /** Concatenated SaveCerts then LoadCerts gives the bundle back. */
  lemma ConcatRoundTrip(s: FileStorage, fs: Fs, certs: seq<Certificate>)
    requires s.concat && |certs| > 0
    ensures var r := SaveCertsOutcome(s, fs, certs); r.1.None? ==> LoadCertsOutcome(s, r.0) == Loaded(certs, None)
  {
    var r := SaveCertsOutcome(s, fs, certs);
    if r.1.None? {
      SaveHolds(s, fs, certs);
      var data := EncodeAll(certs);
      assert data[0].PemBlock? && !NoBytes(data);
      CertsRoundTrip(certs);
    }
  }

  /** An empty bundle is saved as an empty file, which LoadCerts refuses. */
  lemma ConcatEmptyBundle(s: FileStorage, fs: Fs)
    requires s.concat
    ensures var r := SaveCertsOutcome(s, fs, []); r.1.None? ==> LoadCertsOutcome(s, r.0) == Loaded([], Some(Message("Empty file")))
  {
    var r := SaveCertsOutcome(s, fs, []);
    if r.1.None? {
      SaveHolds(s, fs, []);
      assert EncodeAll([]) == [];
    }
  }

  /** No entry of the directory matches server*.crt. */
  ghost predicate NoCertFiles(fs: Fs, base: string)
  {
    forall p :: (p in fs.files || p in fs.dirs) ==> !IsCertFile(base, p)
  }

  /** Saving a split bundle into a directory without certificate files
      leaves exactly its split files there. */
  lemma SplitSaveOnly(s: FileStorage, fs: Fs, certs: seq<Certificate>)
    requires !s.concat && NoCertFiles(fs, s.basePath)
    ensures var r := SaveCertsOutcome(s, fs, certs);
      r.1.None? ==> HoldsSplit(r.0.files, s.basePath, certs, |certs|) && OnlySplitFiles(r.0, s.basePath, |certs|)
  {
    SaveHolds(s, fs, certs);
    SplitSaveFootprint(s, fs, certs, 0);
    BaseIsNotCertFile(s.basePath);
  }

  /** The split loader as the code is written: each glob result, which
      already starts with the base path, is joined to the base path again. */
  ghost function LoadSplitAsWritten(s: FileStorage, fs: Fs): Loaded
  {
    LoadSplitFrom(fs, s.basePath, CertFiles(fs, s.basePath), [])
  }

  /** The split loader as intended: each glob result is read as it is. */
  ghost function LoadSplitIntended(s: FileStorage, fs: Fs): Loaded
  {
    LoadSplitFrom(fs, "", CertFiles(fs, s.basePath), [])
  }

  /** The intended split loader gives back a bundle of up to ten
      certificates saved into a directory without other certificate files. */
  lemma SplitRoundTripIntended(s: FileStorage, fs: Fs, certs: seq<Certificate>)
    requires !s.concat && NoCertFiles(fs, s.basePath) && |certs| <= 10
    ensures var r := SaveCertsOutcome(s, fs, certs); r.1.None? ==> LoadSplitIntended(s, r.0) == Loaded(certs, None)
  {
    var r := SaveCertsOutcome(s, fs, certs);
    if r.1.None? {
      SplitSaveOnly(s, fs, certs);
      SplitLoadRoundTrip(r.0, s.basePath, certs);
    }
  }

  /** In the working directory the extra join is harmless, so the split
      LoadCerts as written round-trips there. */
  lemma SplitRoundTripInWorkingDirectory(fs: Fs, certs: seq<Certificate>)
    requires NoCertFiles(fs, "") && |certs| <= 10
    ensures var s := FileStorage("", false); var r := SaveCertsOutcome(s, fs, certs);
      r.1.None? ==> LoadCertsOutcome(s, r.0) == Loaded(certs, None)
  {
    SplitRoundTripIntended(FileStorage("", false), fs, certs);
  }

  /** Under a named directory the split LoadCerts as written looks for
      certs/certs/server0.crt and fails on the file SaveCerts just wrote. */
  lemma SplitLoadDoublePrefix(c: Certificate)
    ensures var s := FileStorage("certs", false);
      var fs := Fs(map["certs/server0.crt" := ToPemBlock(Cert(c))], {"certs"}, {});
      LoadSplitAsWritten(s, fs) == Loaded([], Some(NotFound("certs/certs/server0.crt")))
      && LoadSplitIntended(s, fs) == Loaded([c], None)
  {
    var fs := Fs(map["certs/server0.crt" := ToPemBlock(Cert(c))], {"certs"}, {});
    DoublePrefixOnOneFile(fs, c);
  }

  lemma DoublePrefixOnOneFile(fs: Fs, c: Certificate)
    requires fs.files == map["certs/server0.crt" := ToPemBlock(Cert(c))] && fs.dirs == {"certs"}
    ensures LoadSplitFrom(fs, "certs", CertFiles(fs, "certs"), []) == Loaded([], Some(NotFound("certs/certs/server0.crt")))
    ensures LoadSplitFrom(fs, "", CertFiles(fs, "certs"), []) == Loaded([c], None)
  {
    SingleSplitFileListed(fs, c);
    var names := CertFiles(fs, "certs");
    DoubledJoin();
    DoubledPathMissing(fs);
    FirstReadFails(fs, "certs", names);
  }

  lemma DoubledJoin()
    ensures Join("certs", "certs/server0.crt") == "certs/certs/server0.crt"
  {
  }

  /** A failed first read ends the split loader with that error. */
  lemma FirstReadFails(fs: Fs, dir: string, names: seq<string>)
    requires |names| > 0 && Read(fs, Join(dir, names[0])).Err?
    ensures LoadSplitFrom(fs, dir, names, []) == Loaded([], Some(Read(fs, Join(dir, names[0])).error))
  {
  }

  /** Helper for the example above: the doubled path names nothing. */
  lemma DoubledPathMissing(fs: Fs)
    requires fs.files.Keys == {"certs/server0.crt"} && fs.dirs == {"certs"}
    ensures Read(fs, "certs/certs/server0.crt") == Err(NotFound("certs/certs/server0.crt"))
  {
    var doubled := "certs/certs/server0.crt";
    assert |doubled| != |"certs/server0.crt"| && |doubled| != |"certs"|;
  }

  /** Helper for the example above: the glob finds the one split file. */
  lemma SingleSplitFileListed(fs: Fs, c: Certificate)
    requires fs.files == map["certs/server0.crt" := ToPemBlock(Cert(c))] && fs.dirs == {"certs"}
    ensures CertFiles(fs, "certs") == ["certs/server0.crt"]
    ensures LoadSplitFrom(fs, "", CertFiles(fs, "certs"), []) == Loaded([c], None)
  {
    assert SplitName(0) == "server0.crt";
    assert SplitPath("certs", 0) == "certs/server0.crt";
    assert HoldsSplit(fs.files, "certs", [c], 1);
    BaseIsNotCertFile("certs");
    assert OnlySplitFiles(fs, "certs", 1);
    SplitLoadRoundTrip(fs, "certs", [c]);
    assert SplitListing("certs", 1) == ["certs/server0.crt"];
  }

  /** After a successful save of a non-empty bundle CertsExist is true, in
      either layout. */
  lemma CertsExistAfterSave(s: FileStorage, fs: Fs, certs: seq<Certificate>)
    requires |certs| > 0
    ensures var r := SaveCertsOutcome(s, fs, certs); r.1.None? ==> CertsExistIn(s, r.0)
  {
    var r := SaveCertsOutcome(s, fs, certs);
    if r.1.None? {
      SaveHolds(s, fs, certs);
      CertFilesMatchGlob(s.basePath, 0);
      var p := if s.concat then ConcatPath(s.basePath) else SplitPath(s.basePath, 0);
      assert p in r.0.files && IsCertFile(s.basePath, p);
      assert p in CertFiles(r.0, s.basePath);
    }
  }

  /** After a successful SaveKey, KeyExists is true and LoadKey gives back
      the same key, so in particular a key of the same kind. */
  lemma KeySaveRoundTrip(s: FileStorage, fs: Fs, key: PrivateKey)
    ensures var r := SaveKeyOutcome(s, fs, key); r.1.None? ==> KeyExistsIn(s, r.0) && LoadKeyOutcome(s, r.0) == Ok(key)
  {
    KeyRoundTrip(key);
  }

  /** A key file is never taken for a certificate file, whatever the two
      base directories are. */
  lemma KeyIsNeverCertFile(certBase: string, keyBase: string)
    ensures !IsCertFile(certBase, Join(keyBase, KeyName))
  {
    var p := Join(keyBase, KeyName);
    var dp := DirPrefix(certBase);
    assert KeyName[0] == 'p' != CertBaseName[0];
    if |p| >= |dp| && p[..|dp|] == dp && IsName(p[|dp|..]) {
      var n := p[|dp|..];
      assert p == dp + n;
      assert Join(certBase, n) == p;
      JoinComponents(certBase, n, keyBase, KeyName);
      assert n[0] != CertBaseName[0];
    }
  }

  /** Saving certificates never touches a stored key, in either layout. */
  lemma KeyKeptBySave(s: FileStorage, fs: Fs, certs: seq<Certificate>, keys: FileStorage)
    requires LoadKeyOutcome(keys, fs).Ok?
    ensures LoadKeyOutcome(keys, SaveCertsOutcome(s, fs, certs).0) == LoadKeyOutcome(keys, fs)
  {
    KeyIsNeverCertFile(s.basePath, keys.basePath);
    if s.concat {
      ConcatSaveWritesOneFile(s, fs, certs);
      CertFilesMatchGlob(s.basePath, 0);
    } else {
      SplitSaveKeeps(s, fs, certs, 0);
    }
  }

  /** SaveKey creates a missing base directory before writing, so it
      succeeds wherever the directory and the file may be created. */
  lemma SaveKeyCreatesDirectory(s: FileStorage, fs: Fs, key: PrivateKey)
    requires s.basePath !in fs.denied && s.basePath !in fs.files
    requires KeyPath(s) !in fs.denied && KeyPath(s) !in fs.dirs
    ensures var r := SaveKeyOutcome(s, fs, key); r.1.None? && (s.basePath == "" || s.basePath in r.0.dirs)
  {
    assert IsName(KeyName);
    DirOfJoin(s.basePath, KeyName);
  }
}
