/** cmd/main.go: the configuration derived from the command-line flags.
    The flag values are a parameter, and so is the order in which Go's map
    iteration visits the required flags. */
module Flags {
  import opened Types
  import opened Buddy

  datatype FlagValues = FlagValues(
    email: string,
    domains: string,
    keyPath: string,
    certPath: string,
    renewBefore: int,
    webroot: string,
    accountKey: string,
    consul: string,
    once: bool,
    serviceName: string,
    config: string)

  /** strings.Split(s, ","): the pieces between commas, empty ones
      included. */
  function SplitComma(s: string): (r: seq<string>)
    ensures |r| >= 1
    decreases |s|
  {
    if |s| == 0 then [""]
    else
      var rest := SplitComma(s[1..]);
      if s[0] == ',' then [""] + rest else [[s[0]] + rest[0]] + rest[1..]
  }

  /** strings.Join(parts, ","). */
  function JoinComma(parts: seq<string>): string
    requires |parts| >= 1
    decreases |parts|
  {
    if |parts| == 1 then parts[0] else parts[0] + "," + JoinComma(parts[1..])
  }

  /** The domain list: split on commas when there is one, otherwise the
      whole string as the only element. */
  function SplitDomains(s: string): (r: seq<string>)
    ensures |r| >= 1
  {
    if ',' in s then SplitComma(s) else [s]
  }

  /** The explicit single-element case is what splitting gives anyway. */
  lemma {:induction false} SplitNoComma(s: string)
    requires ',' !in s
    ensures SplitComma(s) == [s]
    decreases |s|
  {
    if |s| > 0 {
      assert ',' !in s[1..] by {
        forall i | 0 <= i < |s[1..]| ensures s[1..][i] != ',' {
          assert s[1..][i] == s[i + 1];
        }
      }
      SplitNoComma(s[1..]);
      assert [s[0]] + s[1..] == s;
    }
  }

  lemma SplitDomainsIsSplit(s: string)
    ensures SplitDomains(s) == SplitComma(s)
  {
    if ',' !in s {
      SplitNoComma(s);
    }
  }

  /** No piece contains a comma. */
  lemma {:induction false} SplitPiecesHaveNoComma(s: string)
    ensures forall i :: 0 <= i < |SplitComma(s)| ==> ',' !in SplitComma(s)[i]
    decreases |s|
  {
    if |s| > 0 {
      SplitPiecesHaveNoComma(s[1..]);
      var rest := SplitComma(s[1..]);
      if s[0] != ',' {
        var r := SplitComma(s);
        forall i | 0 <= i < |r| ensures ',' !in r[i] {
          if i == 0 {
            assert r[0] == [s[0]] + rest[0];
          } else {
            assert r[i] == rest[i];
          }
        }
      }
    }
  }

  /** Joining the pieces with commas gives the input back. */
  lemma {:induction false} JoinSplit(s: string)
    ensures JoinComma(SplitComma(s)) == s
    decreases |s|
  {
    if |s| > 0 {
      JoinSplit(s[1..]);
      var rest := SplitComma(s[1..]);
      if s[0] == ',' {
        assert ([""] + rest)[1..] == rest;
        assert s == "," + s[1..];
      } else {
        var r := SplitComma(s);
        if |rest| == 1 {
          assert r == [[s[0]] + rest[0]];
        } else {
          assert r[1..] == rest[1..];
          assert JoinComma(rest) == rest[0] + "," + JoinComma(rest[1..]);
        }
        assert s == [s[0]] + s[1..];
      }
    }
  }

  /** Splitting a comma-joined list of comma-free names gives the list
      back. */
  lemma {:induction false} SplitJoin(parts: seq<string>)
    requires |parts| >= 1
    requires forall i :: 0 <= i < |parts| ==> ',' !in parts[i]
    ensures SplitComma(JoinComma(parts)) == parts
    decreases |parts|
  {
    if |parts| == 1 {
      SplitNoComma(parts[0]);
    } else {
      SplitJoin(parts[1..]);
      SplitAfterPiece(parts[0], JoinComma(parts[1..]));
      assert parts == [parts[0]] + parts[1..];
    }
  }

  lemma {:induction false} SplitAfterPiece(a: string, b: string)
    requires ',' !in a
    ensures SplitComma(a + "," + b) == [a] + SplitComma(b)
    decreases |a|
  {
    if |a| == 0 {
      assert a + "," + b == "," + b;
      assert ("," + b)[1..] == b;
    } else {
      assert ',' !in a[1..] by {
        forall i | 0 <= i < |a[1..]| ensures a[1..][i] != ',' {
          assert a[1..][i] == a[i + 1];
        }
      }
      SplitAfterPiece(a[1..], b);
      assert (a + "," + b)[1..] == a[1..] + "," + b;
      assert [a[0]] + a[1..] == a;
    }
  }

  /** buddyConfigFromFlags. The look-ahead is left at zero whatever the
      renewBefore flag says, and no error is ever returned. */
  function BuddyConfigFromFlags(f: FlagValues): (r: (BuddyConfig, Option<Error>))
    ensures r.1.None?
    ensures r.0.validBefore == 0
    ensures r.0.domains == SplitComma(f.domains)
    ensures r.0.email == f.email && r.0.keyPath == f.keyPath && r.0.certPath == f.certPath
    ensures r.0.webrootPath == f.webroot && r.0.accountKeyPath == f.accountKey
    ensures r.0.serviceName == f.serviceName && r.0.registryAddress == f.consul
  {
    SplitDomainsIsSplit(f.domains);
    var issueDomains := SplitDomains(f.domains);
    (BuddyConfig(f.email, issueDomains, f.keyPath, f.certPath, 0, f.webroot, f.accountKey, f.serviceName, f.consul), None)
  }

  /** The flags that must not be empty, by name; keyPath is not among
      them. */
  const RequiredFlags: set<string> := {"email", "domains", "certPath", "webrootPath", "accountKeyPath"}

  function FlagValue(f: FlagValues, name: string): string
    requires name in RequiredFlags
  {
    if name == "email" then f.email
    else if name == "domains" then f.domains
    else if name == "certPath" then f.certPath
    else if name == "webrootPath" then f.webroot
    else f.accountKey
  }

  /** verifyFlags, visiting the required flags in the given order. With a
      configuration file nothing is checked; otherwise the first empty flag
      in that order is reported. */
  method VerifyFlags(f: FlagValues, order: seq<string>) returns (err: Option<Error>)
    requires forall n :: n in order <==> n in RequiredFlags
    ensures f.config != "" ==> err.None?
    ensures f.config == "" ==> (err.None? <==> forall n :: n in RequiredFlags ==> FlagValue(f, n) != "")
    ensures err.Some? ==> exists n :: n in RequiredFlags && FlagValue(f, n) == "" && err == Some(Message("The flag " + n + " may not be empty"))
  {
    if f.config != "" {
      return None;
    }
    var i := 0;
    while i < |order|
      invariant 0 <= i <= |order|
      invariant forall j :: 0 <= j < i ==> FlagValue(f, order[j]) != ""
    {
      var name := order[i];
      if FlagValue(f, name) == "" {
        return Some(Message("The flag " + name + " may not be empty"));
      }
      i := i + 1;
    }
    forall n | n in RequiredFlags ensures FlagValue(f, n) != "" {
      var j :| 0 <= j < |order| && order[j] == n;
    }
    return None;
  }
}
