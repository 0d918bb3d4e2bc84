/**
 * TLS parameters of a broker stream: anonymous or certificate credentials,
 * whether the peer's certificate is checked and whether compression is asked
 * for. The TLS library is left abstract: each of its calls is recorded, and
 * each return code it gives is an input of the operation that makes the call.
 */
module TlsParams {
  import opened Common

  /** The credential calls of the library, as the parameters make them. */
  datatype LibCall =
    | AllocAnonClient | AllocAnonServer | SetAnonServerDH
    | FreeAnonClient | FreeAnonServer
    | AllocCert | SetCertDH | FreeCert
    | LoadKeyFile(cert: string, key: string)
    | LoadTrustFile(caCert: string)

  /** An exception: a library return code, or the misuse of setting a CA before a certificate. */
  datatype TlsError = LibraryError(code: int) | CertificateFirst

  const Success: int := 0

  /** The fields of the parameters, and the library calls so far. */
  datatype TlsState = TlsState(
    anonymous: bool,
    checkCert: bool,
    compress: bool,
    init: bool,
    isClient: bool,
    calls: seq<LibCall>)

  /** `Clean`: releases the credentials of the current mode only when initialised. */
  function AfterClean(s: TlsState): (r: TlsState)
    ensures !r.init
    ensures r.anonymous == s.anonymous && r.checkCert == s.checkCert && r.compress == s.compress
    ensures !s.init ==> r == s
    ensures s.init ==> |r.calls| == |s.calls| + 1 && r.calls[..|s.calls|] == s.calls
  {
    if !s.init then s
    else
      var free := if !s.anonymous then FreeCert else if s.isClient then FreeAnonClient else FreeAnonServer;
      s.(init := false, calls := s.calls + [free])
  }

  /** `InitAnonymous`, given the allocation's return code. */
  function AfterInitAnonymous(s: TlsState, allocRet: int): (r: (TlsState, Option<TlsError>))
    ensures r.0.anonymous
    ensures r.1.None? <==> allocRet == Success
    ensures r.1.None? ==> r.0.init
    ensures r.1.Some? ==> r.0.init == s.init && r.1 == Some(LibraryError(allocRet))
    ensures r.0.checkCert == s.checkCert && r.0.compress == s.compress
  {
    var alloc := s.(anonymous := true, calls := s.calls + [if s.isClient then AllocAnonClient else AllocAnonServer]);
    if allocRet != Success then (alloc, Some(LibraryError(allocRet)))
    else
      var dh := if s.isClient then alloc else alloc.(calls := alloc.calls + [SetAnonServerDH]);
      (dh.(init := true), None)
  }

  /** The state of new parameters of the given side, before they allocate anything. */
  function Fresh(isClient: bool): TlsState
  {
    TlsState(false, false, false, false, isClient, [])
  }

  /** New parameters are anonymous and initialised, with no checking and no compression. */
  lemma NewIsAnonymous(isClient: bool)
    ensures var r := AfterInitAnonymous(Fresh(isClient), Success);
      && r.1.None?
      && r.0.anonymous && r.0.init && !r.0.checkCert && !r.0.compress
      && r.0.calls == if isClient then [AllocAnonClient] else [AllocAnonServer, SetAnonServerDH]
  {
  }

  /** `Reset`: clean, then anonymous again. */
  function AfterReset(s: TlsState, allocRet: int): (TlsState, Option<TlsError>)
  {
    AfterInitAnonymous(AfterClean(s), allocRet)
  }

  /**
   * Although documented as going back to the default mode without
   * compression, `Reset` keeps the checking and compression flags.
   */
  lemma ResetKeepsFlags(s: TlsState)
    ensures var r := AfterReset(s, Success);
      && r.1.None? && r.0.anonymous && r.0.init
      && r.0.checkCert == s.checkCert && r.0.compress == s.compress
  {
  }

  /** The switch of anonymous parameters to certificate credentials, given the allocation's return code. */
  function SwitchToCert(s: TlsState, allocRet: int): (r: TlsState)
    ensures !r.anonymous && r.compress == s.compress
    ensures allocRet == Success ==> r.init && !r.checkCert
  {
    var cleaned := AfterClean(s).(anonymous := false);
    var withCert := cleaned.(calls := cleaned.calls + [AllocCert]);
    if allocRet != Success then withCert
    else withCert.(calls := withCert.calls + [SetCertDH], checkCert := false, init := true)
  }

  /** `SetCert`, given the return codes of the credential allocation and of the key-file load. */
  function AfterSetCert(s: TlsState, cert: string, key: string, allocRet: int, loadRet: int): (r: (TlsState, Option<TlsError>))
    ensures r.0.compress == s.compress && !r.0.anonymous
    ensures r.1.None? <==> (s.anonymous ==> allocRet == Success) && loadRet == Success
    ensures s.anonymous && allocRet == Success ==> r.0.init && !r.0.checkCert
    ensures !s.anonymous ==> r.0.init == s.init && r.0.checkCert == s.checkCert
  {
    var switched := if !s.anonymous then s else SwitchToCert(s, allocRet);
    if s.anonymous && allocRet != Success then (switched, Some(LibraryError(allocRet)))
    else
      var loaded := switched.(calls := switched.calls + [LoadKeyFile(cert, key)]);
      if loadRet != Success then (loaded, Some(LibraryError(loadRet))) else (loaded, None)
  }

  /** `SetTrustedCA`, given the number of CA certificates the library loaded (or an error code). */
  function AfterSetTrustedCA(s: TlsState, caCert: string, loadRet: int): (r: (TlsState, Option<TlsError>))
    ensures s.anonymous ==> r == (s, Some(CertificateFirst))
    ensures !s.anonymous ==> (r.1.None? <==> loadRet > 0)
    ensures !s.anonymous && loadRet > 0 ==> r.0.checkCert
    ensures r.0.anonymous == s.anonymous && r.0.init == s.init && r.0.compress == s.compress
  {
    if s.anonymous then (s, Some(CertificateFirst))
    else
      var loaded := s.(calls := s.calls + [LoadTrustFile(caCert)]);
      if loadRet <= 0 then (loaded, Some(LibraryError(loadRet)))
      else (loaded.(checkCert := true), None)
  }

  /** Cleaning twice releases the credentials once. */
  lemma CleanIdempotent(s: TlsState)
    ensures AfterClean(AfterClean(s)) == AfterClean(s)
  {
  }

  /** The certificate flags a peer certificate's verification status may carry. */
  datatype StatusFlag = Invalid | Revoked | SignerNotFound | InsecureAlgorithm | OtherStatus(bit: nat)

  /** `CheckCert`: true means not trusted. Without checking, the library is not asked. */
  function CheckCertResult(checkCert: bool, verifyRet: int, status: set<StatusFlag>): (r: CheckOutcome)
    ensures !checkCert ==> r == Checked(false)
    ensures checkCert && verifyRet != Success ==> r == Failed(LibraryError(verifyRet))
    ensures checkCert && verifyRet == Success ==>
      r == Checked(Invalid in status || Revoked in status || SignerNotFound in status || InsecureAlgorithm in status)
  {
    if !checkCert then Checked(false)
    else if verifyRet != Success then Failed(LibraryError(verifyRet))
    else
      MaskedStatus(status);
      Checked(status * UntrustedFlags != {})
  }

  /** The flags that make a peer untrusted. */
  const UntrustedFlags: set<StatusFlag> := {Invalid, Revoked, SignerNotFound, InsecureAlgorithm}

  /** Masking the status with the four flags finds one exactly when one is set. */
  lemma MaskedStatus(status: set<StatusFlag>)
    ensures (status * UntrustedFlags != {})
      <==> (Invalid in status || Revoked in status || SignerNotFound in status || InsecureAlgorithm in status)
  {
    if status * UntrustedFlags != {} {
      var x :| x in status * UntrustedFlags;
      assert x == Invalid || x == Revoked || x == SignerNotFound || x == InsecureAlgorithm;
    } else {
      assert Invalid !in status * UntrustedFlags;
      assert Revoked !in status * UntrustedFlags;
      assert SignerNotFound !in status * UntrustedFlags;
      assert InsecureAlgorithm !in status * UntrustedFlags;
    }
  }

  datatype CheckOutcome = Checked(untrusted: bool) | Failed(error: TlsError)

  /** What `Apply` sets on a session. */
  datatype CredentialKind = AnonCredentials | CertificateCredentials
  datatype SessionSetup = SessionSetup(priority: string, credentials: CredentialKind, certRequired: bool)

  const PriorityNoDeflate: string := "NORMAL:+ANON-DH:%COMPAT"
  const PriorityDeflate: string := "NORMAL:+ANON-DH:+COMP-DEFLATE:%COMPAT"

  /** `Apply`'s priority choice, as written: compression on selects the string without deflate. */
  function Priority(compress: bool): (p: string)
    ensures compress <==> p == PriorityNoDeflate
    ensures !compress <==> p == PriorityDeflate
  {
    if compress then PriorityNoDeflate else PriorityDeflate
  }

  /** `Apply`, given the return codes of the priority call and of the credentials call. */
  function ApplyResult(s: TlsState, priorityRet: int, credRet: int): (r: Outcome<SessionSetup, TlsError>)
    ensures priorityRet != Success ==> r == Fail(LibraryError(priorityRet))
    ensures priorityRet == Success && credRet != Success ==> r == Fail(LibraryError(credRet))
    ensures r.Done? ==>
      && r.value.priority == Priority(s.compress)
      && (r.value.credentials == AnonCredentials <==> s.anonymous)
      && (r.value.certRequired <==> !s.anonymous)
  {
    if priorityRet != Success then Fail(LibraryError(priorityRet))
    else if credRet != Success then Fail(LibraryError(credRet))
    else if s.anonymous then Done(SessionSetup(Priority(s.compress), AnonCredentials, false))
    else Done(SessionSetup(Priority(s.compress), CertificateCredentials, true))
  }

  datatype Outcome<T, E> = Done(value: T) | Fail(error: E)

  class Params {
    var anonymous: bool
    var checkCert: bool
    var compress: bool
    var init: bool
    const isClient: bool
    var calls: seq<LibCall>

    function State(): TlsState
      reads this
    {
      TlsState(anonymous, checkCert, compress, init, isClient, calls)
    }

    /** The field initialisers of the constructor; `InitAnonymous` follows. */
    constructor (client: bool)
      ensures State() == Fresh(client)
    {
      anonymous, checkCert, compress, init, isClient, calls := false, false, false, false, client, [];
    }

    method Clean()
      modifies this
      ensures State() == AfterClean(old(State()))
    {
      if init {
        if !anonymous {
          calls := calls + [FreeCert];
        } else if isClient {
          calls := calls + [FreeAnonClient];
        } else {
          calls := calls + [FreeAnonServer];
        }
        init := false;
      }
    }

    method InitAnonymous(allocRet: int) returns (err: Option<TlsError>)
      modifies this
      ensures (State(), err) == AfterInitAnonymous(old(State()), allocRet)
    {
      anonymous := true;
      calls := calls + [if isClient then AllocAnonClient else AllocAnonServer];
      if allocRet != Success {
        return Some(LibraryError(allocRet));
      }
      if !isClient {
        calls := calls + [SetAnonServerDH];
      }
      init := true;
      err := None;
    }

    method Reset(allocRet: int) returns (err: Option<TlsError>)
      modifies this
      ensures (State(), err) == AfterReset(old(State()), allocRet)
    {
      Clean();
      err := InitAnonymous(allocRet);
    }

    method SetCert(cert: string, key: string, allocRet: int, loadRet: int) returns (err: Option<TlsError>)
      modifies this
      ensures (State(), err) == AfterSetCert(old(State()), cert, key, allocRet, loadRet)
    {
      if anonymous {
        Clean();
        anonymous := false;
        calls := calls + [AllocCert];
        if allocRet != Success {
          return Some(LibraryError(allocRet));
        }
        calls := calls + [SetCertDH];
        checkCert := false;
        init := true;
      }
      calls := calls + [LoadKeyFile(cert, key)];
      if loadRet != Success {
        return Some(LibraryError(loadRet));
      }
      err := None;
    }

    method SetCompression(c: bool)
      modifies this
      ensures State() == old(State()).(compress := c)
    {
      compress := c;
    }

    method SetTrustedCA(caCert: string, loadRet: int) returns (err: Option<TlsError>)
      modifies this
      ensures (State(), err) == AfterSetTrustedCA(old(State()), caCert, loadRet)
    {
      if anonymous {
        return Some(CertificateFirst);
      }
      calls := calls + [LoadTrustFile(caCert)];
      if loadRet <= 0 {
        return Some(LibraryError(loadRet));
      }
      checkCert := true;
      err := None;
    }

    method CheckCert(verifyRet: int, status: set<StatusFlag>) returns (r: CheckOutcome)
      ensures r == CheckCertResult(checkCert, verifyRet, status)
    {
      if !checkCert {
        return Checked(false);
      }
      if verifyRet != Success {
        return Failed(LibraryError(verifyRet));
      }
      r := Checked(Invalid in status || Revoked in status || SignerNotFound in status || InsecureAlgorithm in status);
    }

    method Apply(priorityRet: int, credRet: int) returns (r: Outcome<SessionSetup, TlsError>)
      ensures r == ApplyResult(State(), priorityRet, credRet)
    {
      var priority := if compress then PriorityNoDeflate else PriorityDeflate;
      if priorityRet != Success {
        return Fail(LibraryError(priorityRet));
      }
      if credRet != Success {
        return Fail(LibraryError(credRet));
      }
      if anonymous {
        r := Done(SessionSetup(priority, AnonCredentials, false));
      } else {
        r := Done(SessionSetup(priority, CertificateCredentials, true));
      }
    }
  }

  /** `TLSParams` construction: the initialisers, then `InitAnonymous`; an exception means no object. */
  method NewParams(client: bool, allocRet: int) returns (p: Params?)
    ensures allocRet == Success <==> p != null
    ensures p != null ==> fresh(p) && p.State() == AfterInitAnonymous(Fresh(client), Success).0
  {
    p := new Params(client);
    var err := p.InitAnonymous(allocRet);
    if err.Some? {
      p := null;
    }
  }

  /** Setting certificates makes anonymous parameters certificate-based, unchecked and initialised. */
  lemma SetCertFromAnonymous(s: TlsState, cert: string, key: string)
    requires s.anonymous
    ensures var r := AfterSetCert(s, cert, key, Success, Success);
      r.1.None? && !r.0.anonymous && !r.0.checkCert && r.0.init
  {
  }

  /** A trusted CA turns checking on only after a certificate was set. */
  lemma TrustedCANeedsCert(s: TlsState, caCert: string, loadRet: int)
    ensures var r := AfterSetTrustedCA(s, caCert, loadRet);
      r.0.checkCert <==> (s.checkCert || (!s.anonymous && loadRet > 0))
  {
  }

  /** The stream's session and lower stream handles, and the shutdown calls made. */
  datatype StreamCall = Bye | Deinit | CloseLower
  datatype StreamState = StreamState(hasSession: bool, hasLower: bool, calls: seq<StreamCall>)

  /** `TLSStream::Close`: ends the session and closes the lower stream, each at most once. */
  function AfterStreamClose(s: StreamState): (r: StreamState)
    ensures !r.hasSession && !r.hasLower
    ensures r.calls == s.calls + (if s.hasSession then [Bye, Deinit] else []) + (if s.hasLower then [CloseLower] else [])
  {
    var a := if s.hasSession then s.calls + [Bye, Deinit] else s.calls;
    var b := if s.hasLower then a + [CloseLower] else a;
    StreamState(false, false, b)
  }

  /** A second Close does nothing. */
  lemma StreamCloseIdempotent(s: StreamState)
    ensures AfterStreamClose(AfterStreamClose(s)) == AfterStreamClose(s)
  {
  }

  class Stream {
    var hasSession: bool
    var hasLower: bool
    var calls: seq<StreamCall>

    constructor (lower: bool, session: bool)
      ensures hasSession == session && hasLower == lower && calls == []
    {
      hasSession, hasLower, calls := session, lower, [];
    }

    method Close()
      modifies this
      ensures StreamState(hasSession, hasLower, calls) == AfterStreamClose(old(StreamState(hasSession, hasLower, calls)))
    {
      if hasSession {
        calls := calls + [Bye, Deinit];
        hasSession := false;
      }
      if hasLower {
        calls := calls + [CloseLower];
        hasLower := false;
      }
    }
  }

  /** `TLSAcceptor::Close`: closes the lower acceptor once; `Listen` hands one over. */
  class Acceptor {
    var hasLower: bool
    var lowerCloses: nat

    constructor ()
      ensures !hasLower && lowerCloses == 0
    {
      hasLower, lowerCloses := false, 0;
    }

    method Listen()
      modifies this
      ensures hasLower && lowerCloses == old(lowerCloses)
    {
      hasLower := true;
    }

    method Close()
      modifies this
      ensures !hasLower
      ensures lowerCloses == old(lowerCloses) + (if old(hasLower) then 1 else 0)
    {
      if hasLower {
        lowerCloses := lowerCloses + 1;
        hasLower := false;
      }
    }
  }

  /** Closing an acceptor twice closes its lower acceptor once. */
  method AcceptorCloseTwice() returns (closes: nat)
    ensures closes == 1
  {
    var a := new Acceptor();
    a.Listen();
    a.Close();
    a.Close();
    closes := a.lowerCloses;
  }
}
