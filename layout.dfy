/** The certificate file layout both file stores share: one concatenated
    `server.crt`, or one `server<i>.crt` per certificate, found again
    through the glob `server*.crt`. Also what it means for a directory to
    hold a bundle, and why the writes of one store never spoil the bundle
    another store of the same bundle holds. */
module Layout {
  import opened Types
  import opened Paths
  import opened Order
  import opened Pem
  import opened FileSystem

  const CertBaseName := "server"
  const CertExtension := "crt"

  /** "server.crt" */
  function ConcatName(): string
  {
    CertBaseName + "." + CertExtension
  }

  /** fmt.Sprintf("%s%d.%s", "server", i, "crt") */
  function SplitName(i: nat): string
  {
    CertBaseName + Decimal(i) + "." + CertExtension
  }

  function ConcatPath(base: string): string
  {
    Join(base, ConcatName())
  }

  function SplitPath(base: string, i: nat): string
  {
    Join(base, SplitName(i))
  }

  /** p matches the glob Join(base, "server*.crt"). */
  predicate IsCertFile(base: string, p: string)
  {
    GlobMatches(base, CertBaseName, "." + CertExtension, p)
  }

  /** filepath.Glob(Join(base, "server*.crt")). */
  ghost function CertFiles(fs: Fs, base: string): seq<string>
  {
    Globbed(fs, base, CertBaseName, "." + CertExtension)
  }

  lemma SplitNameShape(i: nat)
    ensures IsName(SplitName(i))
    ensures |SplitName(i)| == |Decimal(i)| + 10
    ensures SplitName(i)[6..|SplitName(i)| - 4] == Decimal(i)
  {
    DecimalIsName(i);
    var s := SplitName(i);
    assert s == "server" + Decimal(i) + ".crt";
    assert s[6..|s| - 4] == Decimal(i);
  }

  /** Different indices or directories give different split files. */
  lemma SplitPathInjective(b1: string, i: nat, b2: string, j: nat)
    requires SplitPath(b1, i) == SplitPath(b2, j)
    ensures b1 == b2 && i == j
  {
    SplitNameShape(i);
    SplitNameShape(j);
    JoinComponents(b1, SplitName(i), b2, SplitName(j));
    DecimalInjective(i, j);
  }

  /** The concatenated file is never one of the split files. */
  lemma ConcatIsNotSplit(b1: string, b2: string, i: nat)
    ensures ConcatPath(b1) != SplitPath(b2, i)
  {
    SplitNameShape(i);
    DecimalShape(i);
    assert |ConcatName()| == 10 && IsName(ConcatName());
    if ConcatPath(b1) == SplitPath(b2, i) {
      JoinComponents(b1, ConcatName(), b2, SplitName(i));
    }
  }

  /** Both file layouts are found by the glob. */
  lemma CertFilesMatchGlob(base: string, i: nat)
    ensures IsCertFile(base, ConcatPath(base))
    ensures IsCertFile(base, SplitPath(base, i))
  {
    ConcatNameMatches();
    SplitNameMatches(i);
    GlobMatchesJoin(base, ConcatName(), CertBaseName, "." + CertExtension);
    GlobMatchesJoin(base, SplitName(i), CertBaseName, "." + CertExtension);
  }

  lemma ConcatNameMatches()
    ensures NameMatches(ConcatName(), CertBaseName, "." + CertExtension)
  {
    assert ConcatName() == "server.crt";
  }

  lemma SplitNameMatches(i: nat)
    ensures NameMatches(SplitName(i), CertBaseName, "." + CertExtension)
  {
    SplitNameShape(i);
    var d := Decimal(i);
    var s := SplitName(i);
    assert s == "server" + (d + ".crt");
    assert s[..6] == "server";
    assert s == ("server" + d) + ".crt";
    assert s[|s| - 4..] == ".crt";
  }

  /** Neither store's key file is taken for a certificate file. */
  lemma KeyFilesDoNotMatchGlob(base: string)
    ensures !IsCertFile(base, Join(base, "private.key"))
    ensures !IsCertFile(base, Join(base, "server.key"))
  {
    var k1, k2 := "private.key", "server.key";
    assert k1[..6][0] == 'p' != CertBaseName[0];
    assert k2[|k2| - 4..][1] == 'k' != ("." + CertExtension)[1];
    GlobMatchesJoin(base, k1, CertBaseName, "." + CertExtension);
    GlobMatchesJoin(base, k2, CertBaseName, "." + CertExtension);
  }

  /** The glob result is sorted as text, not by index: server10.crt comes
      before server2.crt. */
  lemma SplitOrderIsTextual()
    ensures LexLess(SplitName(10), SplitName(2))
  {
    assert SplitName(10) == "server" + ("10" + ".crt");
    assert SplitName(2) == "server" + ("2" + ".crt");
    LexCommonPrefix("server", "10" + ".crt", "2" + ".crt");
  }

  /** Up to ten split files, the textual order is the index order. */
  lemma SplitOrderBelowTen(base: string, i: nat, j: nat)
    requires i < j < 10
    ensures LexLess(SplitPath(base, i), SplitPath(base, j))
  {
    var pre := DirPrefix(base) + CertBaseName;
    assert Decimal(i) == [Digit(i)] && Decimal(j) == [Digit(j)];
    assert SplitPath(base, i) == pre + ([Digit(i)] + ".crt");
    assert SplitPath(base, j) == pre + ([Digit(j)] + ".crt");
    LexCommonPrefix(pre, [Digit(i)] + ".crt", [Digit(j)] + ".crt");
  }

  predicate HoldsAt(files: map<string, PemData>, p: string, d: PemData)
  {
    p in files && files[p] == d
  }

  /** Split files 0 .. k-1 hold certificates 0 .. k-1. */
  predicate HoldsSplit(files: map<string, PemData>, base: string, certs: seq<Certificate>, k: nat)
    requires k <= |certs|
  {
    forall i :: 0 <= i < k ==> HoldsAt(files, SplitPath(base, i), ToPemBlock(Cert(certs[i])))
  }

  /** The files a store with this layout reads back hold the bundle. */
  predicate Holds(files: map<string, PemData>, base: string, concat: bool, certs: seq<Certificate>)
  {
    if concat then HoldsAt(files, ConcatPath(base), EncodeAll(certs))
    else HoldsSplit(files, base, certs, |certs|)
  }

  /** Writing d at p agrees with every layout of the same bundle, in any
      directory. */
  ghost predicate Consistent(p: string, d: PemData, certs: seq<Certificate>)
  {
    (forall b :: p == ConcatPath(b) ==> d == EncodeAll(certs))
    && (forall b, i :: 0 <= i < |certs| && p == SplitPath(b, i) ==> d == ToPemBlock(Cert(certs[i])))
  }

  lemma ConcatWriteConsistent(base: string, certs: seq<Certificate>)
    ensures Consistent(ConcatPath(base), EncodeAll(certs), certs)
  {
    forall b, i | 0 <= i < |certs| && ConcatPath(base) == SplitPath(b, i)
      ensures false
    {
      ConcatIsNotSplit(base, b, i);
    }
  }

  lemma SplitWriteConsistent(base: string, certs: seq<Certificate>, k: nat)
    requires k < |certs|
    ensures Consistent(SplitPath(base, k), ToPemBlock(Cert(certs[k])), certs)
  {
    forall b | SplitPath(base, k) == ConcatPath(b)
      ensures false
    {
      ConcatIsNotSplit(b, base, k);
    }
    forall b, i | 0 <= i < |certs| && SplitPath(base, k) == SplitPath(b, i)
      ensures i == k
    {
      SplitPathInjective(base, k, b, i);
    }
  }

  /** A consistent write keeps every bundle already held. */
  lemma HoldsAfterWrite(files: map<string, PemData>, base: string, concat: bool, certs: seq<Certificate>,
                        k: nat, p: string, d: PemData)
    requires k <= |certs| && Consistent(p, d, certs)
    ensures Holds(files, base, concat, certs) ==> Holds(files[p := d], base, concat, certs)
    ensures HoldsSplit(files, base, certs, k) ==> HoldsSplit(files[p := d], base, certs, k)
  {
  }

  /** A directory never matches the glob for the files inside it. */
  lemma BaseIsNotCertFile(base: string)
    ensures !IsCertFile(base, base)
  {
  }

  /** The split files 0 .. n-1 in index order. */
  function SplitListing(base: string, n: nat): (r: seq<string>)
    ensures |r| == n
    ensures forall i :: 0 <= i < n ==> r[i] == SplitPath(base, i)
  {
    seq(n, i requires 0 <= i => SplitPath(base, i))
  }

  /** The loop of the split LoadCerts over the glob result `names`: each
      name is read at Join(dir, name) and decoded, and the first error ends
      the load with no certificates. */
  function LoadSplitFrom(fs: Fs, dir: string, names: seq<string>, acc: seq<Certificate>): (r: Loaded)
    ensures r.err.Some? ==> r.certs == []
    ensures r.err.None? ==> |acc| <= |r.certs| && r.certs[..|acc|] == acc
    decreases |names|
  {
    if |names| == 0 then Loaded(acc, None)
    else
      match Read(fs, Join(dir, names[0]))
      case Err(e) => Loaded([], Some(e))
      case Ok(data) =>
        var l := DecodeCerts(data);
        if l.err.Some? then Loaded([], l.err)
        else
          var r := LoadSplitFrom(fs, dir, names[1..], acc + l.certs);
          assert r.err.None? ==> r.certs[..|acc|] == (acc + l.certs)[..|acc|];
          r
  }

  /** A single certificate block decodes to that certificate. */
  lemma DecodeOne(c: Certificate)
    ensures DecodeCerts(ToPemBlock(Cert(c))) == Loaded([c], None)
  {
    assert EncodeAll([c]) == ToPemBlock(Cert(c));
    CertsRoundTrip([c]);
  }

  /** Reading the listing of split files in order gives the bundle back. */
  lemma {:induction false} LoadListing(fs: Fs, base: string, certs: seq<Certificate>, k: nat)
    requires k <= |certs| && HoldsSplit(fs.files, base, certs, |certs|)
    ensures LoadSplitFrom(fs, "", SplitListing(base, |certs|)[k..], certs[..k]) == Loaded(certs, None)
    decreases |certs| - k
  {
    var names := SplitListing(base, |certs|)[k..];
    if k == |certs| {
      assert certs[..k] == certs;
    } else {
      assert Join("", names[0]) == SplitPath(base, k);
      assert HoldsAt(fs.files, SplitPath(base, k), ToPemBlock(Cert(certs[k])));
      DecodeOne(certs[k]);
      assert names[1..] == SplitListing(base, |certs|)[k + 1..];
      assert certs[..k] + [certs[k]] == certs[..k + 1];
      LoadListing(fs, base, certs, k + 1);
    }
  }

  /** No entry of the directory other than split files 0 .. n-1 matches
      the glob. */
  ghost predicate OnlySplitFiles(fs: Fs, base: string, n: nat)
  {
    forall p :: (p in fs.files || p in fs.dirs) && IsCertFile(base, p) ==>
      exists i :: 0 <= i < n && p == SplitPath(base, i)
  }

  /** With at most ten certificates and no other matching file, the glob
      lists exactly the split files in index order, and reading each
      listed path gives the bundle back. */
  lemma SplitLoadRoundTrip(fs: Fs, base: string, certs: seq<Certificate>)
    requires |certs| <= 10
    requires HoldsSplit(fs.files, base, certs, |certs|)
    requires OnlySplitFiles(fs, base, |certs|)
    ensures CertFiles(fs, base) == SplitListing(base, |certs|)
    ensures LoadSplitFrom(fs, "", CertFiles(fs, base), []) == Loaded(certs, None)
  {
    var listing := SplitListing(base, |certs|);
    forall i, j | 0 <= i < j < |listing|
      ensures LexLess(listing[i], listing[j])
    {
      SplitOrderBelowTen(base, i, j);
    }
    forall x
      ensures x in listing <==> x in CertFiles(fs, base)
    {
      if x in listing {
        var i :| 0 <= i < |listing| && listing[i] == x;
        CertFilesMatchGlob(base, i);
        assert HoldsAt(fs.files, SplitPath(base, i), ToPemBlock(Cert(certs[i])));
      }
    }
    SortedUnique(listing, CertFiles(fs, base));
    LoadListing(fs, base, certs, 0);
    assert listing[0..] == listing;
  }
}
