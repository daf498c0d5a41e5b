/** storage.go: the CertStorage and KeyStorage interfaces and the
    multi-output certificate store, which saves a bundle to a primary store
    and then to each mirror in turn. The stores behind it are the file
    stores of storage_file.go. */
module Storage {
  import opened Types
  import opened Pem
  import opened FileSystem
  import opened Layout
  import LegacyFileStore

  type FileStorage = LegacyFileStore.FileStorage

  /** Saves `certs` to each store in order and stops at the first error. */
  function SaveInOrder(stores: seq<FileStorage>, fs: Fs, certs: seq<Certificate>): (Fs, Option<Error>)
    decreases |stores|
  {
    if |stores| == 0 then (fs, None)
    else
      var (fs1, e) := LegacyFileStore.SaveCertsOutcome(stores[0], fs, certs);
      if e.Some? then (fs1, e) else SaveInOrder(stores[1..], fs1, certs)
  }

  datatype MultiOutputCertStorage = MultiOutputCertStorage(stor: FileStorage, outStors: seq<FileStorage>)
  {
    /** The primary first, then the mirrors in constructor order. */
    function Stores(): seq<FileStorage>
    {
      [stor] + outStors
    }

    function SaveOutcome(fs: Fs, certs: seq<Certificate>): (Fs, Option<Error>)
    {
      SaveInOrder(Stores(), fs, certs)
    }

    method SaveCerts(disk: Disk, certs: seq<Certificate>) returns (err: Option<Error>)
      modifies disk
      ensures (disk.View(), err) == SaveOutcome(old(disk.View()), certs)
    {
      assert Stores()[1..] == outStors;
      err := LegacyFileStore.SaveCerts(stor, disk, certs);
      if err.Some? {
        return;
      }
      var i := 0;
      while i < |outStors|
        invariant 0 <= i <= |outStors|
        invariant SaveInOrder(outStors[i..], disk.View(), certs) == SaveOutcome(old(disk.View()), certs)
      {
        assert outStors[i..][1..] == outStors[i + 1..];
        err := LegacyFileStore.SaveCerts(outStors[i], disk, certs);
        if err.Some? {
          return;
        }
        i := i + 1;
      }
      return None;
    }

    /** LoadCerts consults the primary only. */
    method LoadCerts(disk: Disk) returns (certs: seq<Certificate>, err: Option<Error>)
      ensures Loaded(certs, err) == LegacyFileStore.LoadCertsOutcome(stor, disk.View())
    {
      certs, err := LegacyFileStore.LoadCerts(stor, disk);
    }

    /** CertsExist consults the primary only. */
    method CertsExist(disk: Disk) returns (b: bool)
      ensures b == LegacyFileStore.CertsExistIn(stor, disk.View())
    {
      b := LegacyFileStore.CertsExist(stor, disk);
    }
  }

  /** NewMultiOutputCertStorage keeps the mirrors in the order given. */
  function NewMultiOutputCertStorage(mainStore: FileStorage, outputStores: seq<FileStorage>): (r: MultiOutputCertStorage)
    ensures r.Stores() == [mainStore] + outputStores
    ensures forall i :: 0 <= i < |outputStores| ==> r.Stores()[i + 1] == outputStores[i]
  {
    MultiOutputCertStorage(mainStore, outputStores)
  }

  /** The CertStorage interface as the orchestrator of buddy.go meets it. */
  datatype CertStorage = Files(files: FileStorage) | MultiOutput(multi: MultiOutputCertStorage)
  {
    function SaveOutcome(fs: Fs, certs: seq<Certificate>): (Fs, Option<Error>)
    {
      match this
      case Files(s) => LegacyFileStore.SaveCertsOutcome(s, fs, certs)
      case MultiOutput(m) => m.SaveOutcome(fs, certs)
    }

    /** The store LoadCerts and CertsExist read. */
    function Primary(): FileStorage
    {
      match this
      case Files(s) => s
      case MultiOutput(m) => m.stor
    }

    ghost function LoadOutcome(fs: Fs): Loaded
    {
      LegacyFileStore.LoadCertsOutcome(Primary(), fs)
    }

    ghost predicate CertsExistIn(fs: Fs)
    {
      LegacyFileStore.CertsExistIn(Primary(), fs)
    }

    method SaveCerts(disk: Disk, certs: seq<Certificate>) returns (err: Option<Error>)
      modifies disk
      ensures (disk.View(), err) == SaveOutcome(old(disk.View()), certs)
    {
      match this
      case Files(s) => err := LegacyFileStore.SaveCerts(s, disk, certs);
      case MultiOutput(m) => err := m.SaveCerts(disk, certs);
    }

    method LoadCerts(disk: Disk) returns (certs: seq<Certificate>, err: Option<Error>)
      ensures Loaded(certs, err) == LoadOutcome(disk.View())
    {
      match this
      case Files(s) => certs, err := LegacyFileStore.LoadCerts(s, disk);
      case MultiOutput(m) => certs, err := m.LoadCerts(disk);
    }

    method CertsExist(disk: Disk) returns (b: bool)
      ensures b == CertsExistIn(disk.View())
    {
      match this
      case Files(s) => b := LegacyFileStore.CertsExist(s, disk);
      case MultiOutput(m) => b := m.CertsExist(disk);
    }
  }

  // ---------------------------------------------------------------- properties

  /** Saving to stores in order is saving to a prefix of them and then,
      unless that failed, to the rest. */
  lemma {:induction false} SaveInOrderSplit(stores: seq<FileStorage>, k: nat, fs: Fs, certs: seq<Certificate>)
    requires k <= |stores|
    ensures var a := SaveInOrder(stores[..k], fs, certs);
      SaveInOrder(stores, fs, certs) == if a.1.Some? then a else SaveInOrder(stores[k..], a.0, certs)
    decreases k
  {
    if k == 0 {
      assert stores[k..] == stores;
    } else {
      var (fs1, e) := LegacyFileStore.SaveCertsOutcome(stores[0], fs, certs);
      assert stores[..k][0] == stores[0];
      assert stores[..k][1..] == stores[1..][..k - 1];
      if e.None? {
        SaveInOrderSplit(stores[1..], k - 1, fs1, certs);
        assert stores[1..][k - 1..] == stores[k..];
      }
    }
  }

  /** Saving to more stores never loses a bundle already held. */
  lemma {:induction false} HoldsThroughout(stores: seq<FileStorage>, fs: Fs, certs: seq<Certificate>, base: string, concat: bool)
    requires Holds(fs.files, base, concat, certs)
    ensures Holds(SaveInOrder(stores, fs, certs).0.files, base, concat, certs)
    decreases |stores|
  {
    if |stores| > 0 {
      LegacyFileStore.SaveHolds(stores[0], fs, certs, base, concat);
      var (fs1, e) := LegacyFileStore.SaveCertsOutcome(stores[0], fs, certs);
      if e.None? {
        HoldsThroughout(stores[1..], fs1, certs, base, concat);
      }
    }
  }

  /** When every save succeeds, every store holds the bundle. */
  lemma {:induction false} SaveInOrderAllHold(stores: seq<FileStorage>, fs: Fs, certs: seq<Certificate>)
    ensures var r := SaveInOrder(stores, fs, certs);
      r.1.None? ==> forall t :: t in stores ==> Holds(r.0.files, t.basePath, t.concat, certs)
    decreases |stores|
  {
    var r := SaveInOrder(stores, fs, certs);
    if |stores| > 0 && r.1.None? {
      var (fs1, e) := LegacyFileStore.SaveCertsOutcome(stores[0], fs, certs);
      LegacyFileStore.SaveHolds(stores[0], fs, certs, stores[0].basePath, stores[0].concat);
      SaveInOrderAllHold(stores[1..], fs1, certs);
      HoldsThroughout(stores[1..], fs1, certs, stores[0].basePath, stores[0].concat);
      forall t | t in stores
        ensures Holds(r.0.files, t.basePath, t.concat, certs)
      {
        if t != stores[0] {
          assert t in stores[1..];
        }
      }
    }
  }

  /** A failing primary ends the save: its error is returned and no mirror
      is written. */
  lemma PrimaryFailureStops(m: MultiOutputCertStorage, fs: Fs, certs: seq<Certificate>)
    ensures var p := LegacyFileStore.SaveCertsOutcome(m.stor, fs, certs);
      p.1.Some? ==> m.SaveOutcome(fs, certs) == p
  {
  }

  /** The first failing mirror ends the save: after the primary and
      mirrors 0 .. k-1 succeeded and mirror k failed, the result is exactly
      mirror k's outcome, so later mirrors are never written. */
  lemma FirstFailingMirror(m: MultiOutputCertStorage, fs: Fs, certs: seq<Certificate>, k: nat)
    requires k < |m.outStors|
    requires SaveInOrder(m.Stores()[..k + 1], fs, certs).1.None?
    requires LegacyFileStore.SaveCertsOutcome(m.outStors[k], SaveInOrder(m.Stores()[..k + 1], fs, certs).0, certs).1.Some?
    ensures m.SaveOutcome(fs, certs) ==
      LegacyFileStore.SaveCertsOutcome(m.outStors[k], SaveInOrder(m.Stores()[..k + 1], fs, certs).0, certs)
  {
    var stores := m.Stores();
    SaveInOrderSplit(stores, k + 1, fs, certs);
    assert stores[k + 1..][0] == m.outStors[k];
  }

  /** A failing mirror does not undo the primary or the mirrors before it:
      each store saved before the failure still holds the bundle. */
  lemma NoRollback(m: MultiOutputCertStorage, fs: Fs, certs: seq<Certificate>, k: nat)
    requires k <= |m.outStors|
    requires SaveInOrder(m.Stores()[..k + 1], fs, certs).1.None?
    ensures forall t :: t in m.Stores()[..k + 1] ==> Holds(m.SaveOutcome(fs, certs).0.files, t.basePath, t.concat, certs)
  {
    var stores := m.Stores();
    var before := SaveInOrder(stores[..k + 1], fs, certs);
    SaveInOrderSplit(stores, k + 1, fs, certs);
    SaveInOrderAllHold(stores[..k + 1], fs, certs);
    forall t | t in stores[..k + 1]
      ensures Holds(m.SaveOutcome(fs, certs).0.files, t.basePath, t.concat, certs)
    {
      HoldsThroughout(stores[k + 1..], before.0, certs, t.basePath, t.concat);
    }
  }

  /** When the save returns nil, the primary and every mirror hold the
      same bundle. */
  lemma AllSucceedAllHold(m: MultiOutputCertStorage, fs: Fs, certs: seq<Certificate>)
    ensures var r := m.SaveOutcome(fs, certs);
      r.1.None? ==> (Holds(r.0.files, m.stor.basePath, m.stor.concat, certs)
                     && forall t :: t in m.outStors ==> Holds(r.0.files, t.basePath, t.concat, certs))
  {
    SaveInOrderAllHold(m.Stores(), fs, certs);
  }
}
