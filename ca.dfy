/** ca.go: what a certificate authority hands back, and the AutomatedCA
    interface as a recording collaborator. The ACME client behind it is
    not part of this model: its answers are fixed when it is made. */
module CA {
  import opened Types

  datatype CAResult = CAResult(certificate: Certificate, issuerChain: seq<Certificate>)
  {
    /** The leaf first, then the issuer chain in its order. */
    function AllCerts(): (r: seq<Certificate>)
      ensures |r| == |issuerChain| + 1
      ensures r[0] == certificate
      ensures forall i :: 0 <= i < |issuerChain| ==> r[i + 1] == issuerChain[i]
    {
      [certificate] + issuerChain
    }
  }

  /** An empty chain gives the leaf alone. */
  lemma AllCertsOfLeaf(c: Certificate)
    ensures CAResult(c, []).AllCerts() == [c]
  {
  }

  /** A call made to the CA, with its arguments. */
  datatype CACall =
    | ObtainCall(domains: seq<string>, privKey: Option<PrivateKey>)
    | RenewCall(cert: Certificate, privKey: Option<PrivateKey>)
    | RevokeCall(cert: Certificate, privKey: Option<PrivateKey>)

  /** What ObtainCertificate returns: a possibly nil result and a possibly
      nil map of failures by domain. */
  datatype ObtainReply = ObtainReply(result: Option<CAResult>, failures: Option<map<string, Error>>)

  /** What Renew returns: a possibly nil result and an error. */
  datatype RenewReply = RenewReply(result: Option<CAResult>, err: Option<Error>)

  /** An AutomatedCA that records every call made to it. */
  class AutomatedCA {
    const obtainReply: ObtainReply
    const renewReply: RenewReply
    const revokeReply: Option<Error>
    var calls: seq<CACall>

    constructor (obtainReply: ObtainReply, renewReply: RenewReply, revokeReply: Option<Error>)
      ensures this.obtainReply == obtainReply && this.renewReply == renewReply && this.revokeReply == revokeReply
      ensures calls == []
    {
      this.obtainReply := obtainReply;
      this.renewReply := renewReply;
      this.revokeReply := revokeReply;
      calls := [];
    }

    method ObtainCertificate(domains: seq<string>, privKey: Option<PrivateKey>)
      returns (result: Option<CAResult>, failures: Option<map<string, Error>>)
      modifies this
      ensures result == obtainReply.result && failures == obtainReply.failures
      ensures calls == old(calls) + [ObtainCall(domains, privKey)]
    {
      result, failures := obtainReply.result, obtainReply.failures;
      calls := calls + [ObtainCall(domains, privKey)];
    }

    method Renew(cert: Certificate, privKey: Option<PrivateKey>) returns (result: Option<CAResult>, err: Option<Error>)
      modifies this
      ensures result == renewReply.result && err == renewReply.err
      ensures calls == old(calls) + [RenewCall(cert, privKey)]
    {
      result, err := renewReply.result, renewReply.err;
      calls := calls + [RenewCall(cert, privKey)];
    }

    method Revoke(cert: Certificate, privKey: Option<PrivateKey>) returns (err: Option<Error>)
      modifies this
      ensures err == revokeReply
      ensures calls == old(calls) + [RevokeCall(cert, privKey)]
    {
      err := revokeReply;
      calls := calls + [RevokeCall(cert, privKey)];
    }
  }
}
