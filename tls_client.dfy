/**
 * The client configuration (src/tls_client.c): construction with its
 * session-cache and cipher-preference policy, the trust-store mutators, the
 * OCSP-stapling verifier run during the handshake and the reporting of its
 * diagnostics through the optional error callback.
 */
module TlsClient {
  import opened Tls

  /** SSL_SESSION_CACHE_MAX_SIZE_DEFAULT, the default of `cache_size`. */
  const SESSION_CACHE_MAX_SIZE_DEFAULT: int := 1024 * 20

  /** The default of `cache_timeout`: no session cache. */
  const CACHE_TIMEOUT_DEFAULT: int := 0

  // ---------------------------------------------------------------------------
  // Session policy
  // ---------------------------------------------------------------------------

  /** The session-cache policy new_lua derives from cache_timeout and
      cache_size.  `None` marks a setting new_lua leaves at the provider's
      default. */
  function ClientSessionPolicy(cacheTimeout: int, cacheSize: int): (p: SessionPolicy)
    // sessions are resumable exactly when a positive timeout was given
    ensures Resumable(p) <==> cacheTimeout > 0
    ensures cacheTimeout <= 0 ==> p.mode == CacheOff && p.noTicket && p.numTickets == Some(0)
    ensures cacheTimeout > 0 ==>
              p.mode == CacheClient && p.timeout == Some(cacheTimeout) && !p.noTicket &&
              p.numTickets == Some(2) &&
              (p.cacheSize.Some? <==> cacheSize > 0) &&
              (cacheSize > 0 ==> p.cacheSize == Some(cacheSize))
  {
    if cacheTimeout <= 0 then
      SessionPolicy(CacheOff, None, None, true, Some(0))
    else
      SessionPolicy(CacheClient, Some(cacheTimeout), if cacheSize > 0 then Some(cacheSize) else None, false, Some(2))
  }

  // ---------------------------------------------------------------------------
  // The error callback and print_error
  // ---------------------------------------------------------------------------

  /** What the 6th argument of new_lua was. */
  datatype CallbackArg = NoArg | NilArg | FunctionArg(fn: nat)

  /** What error_cb_ref holds: LUA_NOREF, a reference to nil, or a reference
      to a function. */
  datatype ErrorCallbackRef = NoRef | RefNil | RefFunction(fn: nat)

  /** The result of lua_pcall on the callback. */
  datatype CallOutcome = CallOk | CallFailed(reason: string)

  /** What the message of a failed call of nil reads. */
  const CALL_NIL_REASON: string := "attempt to call a nil value"

  /** A line written to the standard error stream. */
  datatype StderrLine = CallbackFailure(reason: string) | Diagnostic(op: string, msg: string)

  /** The calls made to the callback and the lines written to stderr. */
  datatype Report = Report(callbackCalls: seq<Message>, stderr: seq<StderrLine>)

  /** new_lua as written: the ref is taken whenever at least six arguments
      were passed, even when the sixth is nil. */
  function ErrorCallbackOf(arg: CallbackArg): (r: ErrorCallbackRef)
    ensures r == NoRef <==> arg == NoArg
    ensures arg.FunctionArg? ==> r == RefFunction(arg.fn)
    ensures arg == NilArg ==> r == RefNil
  {
    match arg
    case NoArg => NoRef
    case NilArg => RefNil
    case FunctionArg(fn) => RefFunction(fn)
  }

  /** The evidently intended rule: only a function is kept. */
  function ErrorCallbackIntended(arg: CallbackArg): (r: ErrorCallbackRef)
    ensures r != RefNil
    ensures r == NoRef <==> !arg.FunctionArg?
    ensures arg.FunctionArg? ==> r == RefFunction(arg.fn)
  {
    if arg.FunctionArg? then RefFunction(arg.fn) else NoRef
  }

  /** print_error: `outcome` is what lua_pcall reports when a function is
      called; calling a reference to nil always fails. */
  function PrintError(cb: ErrorCallbackRef, outcome: CallOutcome, op: string, msg: string): (r: Report)
    // the callback is called once, with (op, msg), whenever a reference is held
    ensures r.callbackCalls == if cb == NoRef then [] else [Message(op, msg)]
    // a successful callback keeps stderr silent
    ensures cb.RefFunction? && outcome == CallOk ==> r.stderr == []
    // otherwise the diagnostic always ends up on stderr, last
    ensures !(cb.RefFunction? && outcome == CallOk) ==>
              |r.stderr| >= 1 && r.stderr[|r.stderr| - 1] == Diagnostic(op, msg)
    // preceded by the callback's failure when a call was attempted and failed
    ensures cb == NoRef ==> r.stderr == [Diagnostic(op, msg)]
    ensures cb == RefNil ==> r.stderr == [CallbackFailure(CALL_NIL_REASON), Diagnostic(op, msg)]
    ensures cb.RefFunction? && outcome.CallFailed? ==>
              r.stderr == [CallbackFailure(outcome.reason), Diagnostic(op, msg)]
  {
    match cb
    case NoRef => Report([], [Diagnostic(op, msg)])
    case RefNil => Report([Message(op, msg)], [CallbackFailure(CALL_NIL_REASON), Diagnostic(op, msg)])
    case RefFunction(_) =>
      match outcome
      case CallOk => Report([Message(op, msg)], [])
      case CallFailed(reason) => Report([Message(op, msg)], [CallbackFailure(reason), Diagnostic(op, msg)])
  }

  /** An explicit nil error callback, kept as written, makes every diagnostic
      go through a failed call before it reaches stderr. */
  lemma NilCallbackAsWritten(outcome: CallOutcome, op: string, msg: string)
    ensures PrintError(ErrorCallbackOf(NilArg), outcome, op, msg).stderr
            == [CallbackFailure(CALL_NIL_REASON), Diagnostic(op, msg)]
  {
  }

  /** With the intended rule an explicit nil is the same as no callback. */
  lemma NilCallbackIntended(outcome: CallOutcome, op: string, msg: string)
    ensures ErrorCallbackIntended(NilArg) == ErrorCallbackIntended(NoArg)
    ensures PrintError(ErrorCallbackIntended(NilArg), outcome, op, msg) == Report([], [Diagnostic(op, msg)])
  {
  }

  // ---------------------------------------------------------------------------
  // CRLs
  // ---------------------------------------------------------------------------

  /** An X509_INFO entry read from PEM; only its CRL matters here. */
  datatype X509Info = X509Info(crl: Option<Crl>)

  /** The CRLs held by a list of entries, in order. */
  function CrlsOf(entries: seq<X509Info>): seq<Crl>
  {
    if entries == [] then []
    else (if entries[0].crl.Some? then [entries[0].crl.value] else []) + CrlsOf(entries[1..])
  }

  /** Where the add loop of set_crls stopped and the store it left. */
  datatype CrlLoop = CrlLoop(store: seq<Crl>, stoppedAt: nat, failed: bool)

  /** The add loop of set_crls: entries without a CRL are skipped; the first
      CRL the store does not accept ends the loop, and what was added before
      it stays. */
  function AddCrls(store: seq<Crl>, entries: seq<X509Info>, accepts: (seq<Crl>, Crl) -> bool): (r: CrlLoop)
    ensures r.stoppedAt <= |entries|
    ensures r.store == store + CrlsOf(entries[..r.stoppedAt])
    ensures !r.failed ==> r.stoppedAt == |entries|
    ensures r.failed ==> r.stoppedAt < |entries| && entries[r.stoppedAt].crl.Some? &&
                         !accepts(r.store, entries[r.stoppedAt].crl.value)
    decreases |entries|
  {
    if entries == [] then CrlLoop(store, 0, false)
    else if entries[0].crl.None? then
      var rest := AddCrls(store, entries[1..], accepts);
      assert entries[..rest.stoppedAt + 1][1..] == entries[1..][..rest.stoppedAt];
      CrlLoop(rest.store, rest.stoppedAt + 1, rest.failed)
    else if !accepts(store, entries[0].crl.value) then
      assert entries[..0] == [];
      CrlLoop(store, 0, true)
    else
      var rest := AddCrls(store + [entries[0].crl.value], entries[1..], accepts);
      assert entries[..rest.stoppedAt + 1][1..] == entries[1..][..rest.stoppedAt];
      CrlLoop(rest.store, rest.stoppedAt + 1, rest.failed)
  }

  /** The loop stops at the first refusal: every CRL before the stop was
      accepted by the store as it stood when that CRL was offered. */
  lemma {:induction false} AddCrlsAcceptsBeforeStop(store: seq<Crl>, entries: seq<X509Info>,
                                                    accepts: (seq<Crl>, Crl) -> bool)
    ensures var r := AddCrls(store, entries, accepts);
            forall j :: 0 <= j < r.stoppedAt && entries[j].crl.Some? ==>
              accepts(store + CrlsOf(entries[..j]), entries[j].crl.value)
    decreases |entries|
  {
    if entries == [] {
    } else if entries[0].crl.None? {
      AddCrlsAcceptsBeforeStop(store, entries[1..], accepts);
      assert store + [] == store;
      AcceptedAfterHead(store, store, entries, AddCrls(store, entries[1..], accepts).stoppedAt, accepts);
    } else if accepts(store, entries[0].crl.value) {
      var store' := store + [entries[0].crl.value];
      AddCrlsAcceptsBeforeStop(store', entries[1..], accepts);
      AcceptedAfterHead(store, store', entries, AddCrls(store', entries[1..], accepts).stoppedAt, accepts);
    }
  }

  /** Acceptance of the first entry's CRL, then of the rest after it, is
      acceptance of the whole list. */
  lemma AcceptedAfterHead(store: seq<Crl>, store': seq<Crl>, entries: seq<X509Info>, n: nat,
                          accepts: (seq<Crl>, Crl) -> bool)
    requires |entries| > 0 && n < |entries|
    requires store' == store + (if entries[0].crl.Some? then [entries[0].crl.value] else [])
    requires entries[0].crl.Some? ==> accepts(store, entries[0].crl.value)
    requires forall j :: 0 <= j < n && entries[1..][j].crl.Some? ==>
               accepts(store' + CrlsOf(entries[1..][..j]), entries[1..][j].crl.value)
    ensures forall j :: 0 <= j < n + 1 && entries[j].crl.Some? ==>
              accepts(store + CrlsOf(entries[..j]), entries[j].crl.value)
  {
    CrlsOfPrefixes(entries);
    forall j | 0 <= j < n + 1 && entries[j].crl.Some?
      ensures accepts(store + CrlsOf(entries[..j]), entries[j].crl.value)
    {
      if j == 0 {
        assert store + CrlsOf(entries[..0]) == store by {
          assert entries[..0] == [];
        }
      } else {
        assert entries[1..][j - 1] == entries[j];
        assert store + CrlsOf(entries[..j]) == store' + CrlsOf(entries[1..][..j - 1]);
      }
    }
  }

  /** A non-empty prefix holds the first entry's CRL, then the CRLs of the
      matching prefix of the rest. */
  lemma CrlsOfPrefixes(entries: seq<X509Info>)
    requires |entries| > 0
    ensures forall j :: 0 < j <= |entries| ==>
              CrlsOf(entries[..j]) ==
              (if entries[0].crl.Some? then [entries[0].crl.value] else []) + CrlsOf(entries[1..][..j - 1])
  {
    forall j | 0 < j <= |entries|
      ensures CrlsOf(entries[..j]) ==
              (if entries[0].crl.Some? then [entries[0].crl.value] else []) + CrlsOf(entries[1..][..j - 1])
    {
      assert entries[..j][0] == entries[0];
      assert entries[..j][1..] == entries[1..][..j - 1];
    }
  }

  /** The bytes BIO_new_mem_buf(crls, len) exposes as written: `len` is never
      set from the string, so the buffer is empty. */
  function CrlBioAsWritten(blob: string): (bytes: string)
    ensures bytes == []
  {
    blob[..0]
  }

  /** The evidently intended buffer: the whole PEM blob. */
  function CrlBioIntended(blob: string): (bytes: string)
    ensures bytes == blob
  {
    blob[..|blob|]
  }

  /** The ways set_crls fails. */
  datatype CrlFailure = BioFailed | PemFailed | AddFailed | FlagsFailed

  function CrlFailureStep(f: CrlFailure): Step {
    match f
    case BioFailed => Step("BIO_new_mem_buf", "failed to create BIO")
    case PemFailed => Step("PEM_X509_INFO_read_bio", "failed to read CRLs")
    case AddFailed => Step("X509_STORE_add_crl", "failed to add CRL")
    case FlagsFailed => Step("X509_STORE_set_flags", "failed to set CRL flags")
  }

  /** The effect of set_crls on the certificate store. */
  datatype CrlsOutcome = CrlsOutcome(store: seq<Crl>, crlCheck: bool, failure: Option<CrlFailure>)

  /** set_crls from the bytes in its BIO: bioOk is BIO_new_mem_buf, pem
      PEM_X509_INFO_read_bio, accepts X509_STORE_add_crl, flagsOk
      X509_STORE_set_flags. */
  function SetCrlsOutcome(store: seq<Crl>, crlCheck: bool, bytes: string, bioOk: bool,
                          pem: string -> Option<seq<X509Info>>, accepts: (seq<Crl>, Crl) -> bool,
                          flagsOk: bool): (r: CrlsOutcome)
    // the store only ever grows: a failure keeps the CRLs added before it
    ensures |store| <= |r.store| && r.store[..|store|] == store
    // CRL checking is switched on only after every CRL was added
    ensures r.crlCheck != crlCheck ==> r.failure == None && r.crlCheck
    ensures r.failure == None <==>
              bioOk && pem(bytes).Some? && !AddCrls(store, pem(bytes).value, accepts).failed && flagsOk
    ensures r.failure == None ==> r.store == store + CrlsOf(pem(bytes).value) && r.crlCheck
  {
    if !bioOk then CrlsOutcome(store, crlCheck, Some(BioFailed))
    else
      match pem(bytes)
      case None => CrlsOutcome(store, crlCheck, Some(PemFailed))
      case Some(entries) =>
        var added := AddCrls(store, entries, accepts);
        assert (store + CrlsOf(entries[..added.stoppedAt]))[..|store|] == store;
        if added.failed then CrlsOutcome(added.store, crlCheck, Some(AddFailed))
        else if !flagsOk then CrlsOutcome(added.store, crlCheck, Some(FlagsFailed))
        else
          assert entries[..added.stoppedAt] == entries;
          CrlsOutcome(added.store, true, None)
  }

  /** As written, set_crls never sees the blob: whatever CRLs it holds, a
      provider that reads an empty buffer as an empty list makes the call
      succeed, add nothing, and switch CRL checking on. */
  lemma SetCrlsAsWrittenIgnoresBlob(store: seq<Crl>, crlCheck: bool, blob: string,
                                    pem: string -> Option<seq<X509Info>>, accepts: (seq<Crl>, Crl) -> bool)
    requires pem([]) == Some([])
    ensures SetCrlsOutcome(store, crlCheck, CrlBioAsWritten(blob), true, pem, accepts, true)
            == CrlsOutcome(store, true, None)
  {
    assert CrlsOf([]) == [];
  }

  /** With the whole blob in the buffer, a successful call installs exactly
      the CRLs the blob holds, in order, after the ones already there. */
  lemma SetCrlsIntendedInstallsBlob(store: seq<Crl>, crlCheck: bool, blob: string, entries: seq<X509Info>,
                                    pem: string -> Option<seq<X509Info>>, accepts: (seq<Crl>, Crl) -> bool)
    requires pem(blob) == Some(entries)
    requires !AddCrls(store, entries, accepts).failed
    ensures SetCrlsOutcome(store, crlCheck, CrlBioIntended(blob), true, pem, accepts, true)
            == CrlsOutcome(store + CrlsOf(entries), true, None)
  {
  }

  /** The add loop of set_crls over the entries read from the BIO. */
  method AddAll(store: seq<Crl>, entries: seq<X509Info>, accepts: (seq<Crl>, Crl) -> bool)
    returns (added: seq<Crl>, failed: bool)
    ensures added == AddCrls(store, entries, accepts).store
    ensures failed == AddCrls(store, entries, accepts).failed
  {
    added, failed := store, false;
    var i := 0;
    while i < |entries| && !failed
      invariant 0 <= i <= |entries|
      invariant !failed ==>
                  AddCrls(added, entries[i..], accepts).store == AddCrls(store, entries, accepts).store &&
                  AddCrls(added, entries[i..], accepts).failed == AddCrls(store, entries, accepts).failed
      invariant failed ==>
                  added == AddCrls(store, entries, accepts).store && AddCrls(store, entries, accepts).failed
    {
      var it := entries[i];
      assert entries[i..][0] == it && entries[i..][1..] == entries[i + 1..];
      if it.crl.Some? {
        if !accepts(added, it.crl.value) {
          failed := true;
        } else {
          added := added + [it.crl.value];
        }
      }
      i := i + 1;
    }
    if !failed {
      assert entries[i..] == [];
    }
  }

  // ---------------------------------------------------------------------------
  // OCSP stapling verification
  // ---------------------------------------------------------------------------

  const OCSP_RESPONSE_STATUS_SUCCESSFUL: int := 0
  const OCSP_RESPONSE_STATUS_MALFORMEDREQUEST: int := 1
  const OCSP_RESPONSE_STATUS_INTERNALERROR: int := 2
  const OCSP_RESPONSE_STATUS_TRYLATER: int := 3
  const OCSP_RESPONSE_STATUS_SIGREQUIRED: int := 5
  const OCSP_RESPONSE_STATUS_UNAUTHORIZED: int := 6

  const V_OCSP_CERTSTATUS_GOOD: int := 0
  const V_OCSP_CERTSTATUS_REVOKED: int := 1

  /** Clock-skew tolerance and maximum age given to OCSP_check_validity. */
  const OCSP_JITTER: int := 60
  const OCSP_MAXAGE: int := 14 * 24 * 60 * 60

  datatype Cert = Cert(id: nat)

  /** What the provider reports along the stapling check. */
  datatype OcspProvider = OcspProvider(
    stapleSize: int,                   // SSL_get_tlsext_status_ocsp_resp
    decodes: bool,                     // d2i_OCSP_RESPONSE
    peerCert: Option<Cert>,            // SSL_get_peer_certificate
    peerChain: Option<seq<Cert>>,      // SSL_get_peer_cert_chain
    issued: set<(Cert, Cert)>,         // (issuer, cert) with X509_check_issued(issuer, cert) == X509_V_OK
    certIdOk: bool,                    // OCSP_cert_to_id
    certIdError: string,               // the error string it leaves when it fails
    responseStatus: int,               // OCSP_response_status
    basicDecodes: bool,                // OCSP_response_get1_basic
    basicVerifies: bool,               // OCSP_basic_verify
    found: Option<int>,                // OCSP_resp_find_status and the status it finds
    current: set<(int, int)>)          // the (jitter, maxage) for which OCSP_check_validity passes

  predicate KnownFailureStatus(status: int) {
    status in {OCSP_RESPONSE_STATUS_MALFORMEDREQUEST, OCSP_RESPONSE_STATUS_INTERNALERROR,
               OCSP_RESPONSE_STATUS_TRYLATER, OCSP_RESPONSE_STATUS_SIGREQUIRED,
               OCSP_RESPONSE_STATUS_UNAUTHORIZED}
  }

  const STATUS_PREFIX: string := "invalid OCSP status: "

  /** The name check_ocsp_response gives an unsuccessful response status. */
  function ResponseStatusName(status: int): (name: string)
    // the five named statuses keep their own names, every other status falls back
    ensures name == "unsupported OCSP response status" <==> !KnownFailureStatus(status)
    ensures KnownFailureStatus(status) ==> |name| > 21 && name[..21] == "OCSP_RESPONSE_STATUS_"
  {
    if status == OCSP_RESPONSE_STATUS_MALFORMEDREQUEST then "OCSP_RESPONSE_STATUS_MALFORMEDREQUEST"
    else if status == OCSP_RESPONSE_STATUS_INTERNALERROR then "OCSP_RESPONSE_STATUS_INTERNALERROR"
    else if status == OCSP_RESPONSE_STATUS_TRYLATER then "OCSP_RESPONSE_STATUS_TRYLATER"
    else if status == OCSP_RESPONSE_STATUS_SIGREQUIRED then "OCSP_RESPONSE_STATUS_SIGREQUIRED"
    else if status == OCSP_RESPONSE_STATUS_UNAUTHORIZED then "OCSP_RESPONSE_STATUS_UNAUTHORIZED"
    else "unsupported OCSP response status"
  }

  /** The errmsg check_ocsp_response sets for an unsuccessful response status. */
  function ResponseStatusMessage(status: int): (msg: string)
    ensures |msg| > |STATUS_PREFIX| && msg[..|STATUS_PREFIX|] == STATUS_PREFIX
  {
    STATUS_PREFIX + ResponseStatusName(status)
  }

  /** The statuses the code does not name share one message. */
  lemma ResponseStatusMessageShape(status: int)
    ensures !KnownFailureStatus(status) ==>
              ResponseStatusMessage(status) == STATUS_PREFIX + "unsupported OCSP response status"
  {
  }

  /** Each known failing status is told apart from every other status. */
  lemma ResponseStatusMessagesDistinct(a: int, b: int)
    requires KnownFailureStatus(a) && a != b
    ensures ResponseStatusMessage(a) != ResponseStatusMessage(b)
  {
    var n := |STATUS_PREFIX|;
    var na, nb := ResponseStatusName(a), ResponseStatusName(b);
    assert ResponseStatusMessage(a)[n..] == na;
    assert ResponseStatusMessage(b)[n..] == nb;
    assert |na| != |nb| || na[14] != nb[14] || na[21] != nb[21];
  }

  /** The index of the first chain certificate that issued `cert`, or |chain|. */
  function FirstIssuer(chain: seq<Cert>, cert: Cert, issued: set<(Cert, Cert)>): (i: nat)
    ensures i <= |chain|
    ensures forall j :: 0 <= j < i ==> (chain[j], cert) !in issued
    ensures i < |chain| ==> (chain[i], cert) in issued
  {
    if chain == [] || (chain[0], cert) in issued then 0
    else 1 + FirstIssuer(chain[1..], cert, issued)
  }

  /** The ways the stapling check fails; FailureStep gives the (errop,
      errmsg) pair each one reports. */
  datatype OcspFailure =
    | DecodeFailed
    | NoPeerCert
    | NoPeerChain
    | NoIssuer
    | CertIdFailed(reason: string)
    | BadResponseStatus(status: int)
    | BasicDecodeFailed
    | BasicVerifyFailed
    | StatusNotFound
    | NotCurrent
    | UnknownCertStatus

  function FailureStep(f: OcspFailure): Step {
    match f
    case DecodeFailed => Step("d2i_OCSP_RESPONSE", "failed to decode OCSP response")
    case NoPeerCert => Step("SSL_get_peer_certificate", "failed to get peer certificate")
    case NoPeerChain => Step("SSL_get_peer_cert_chain", "failed to get peer certificate chain")
    case NoIssuer => Step("X509_check_issued", "failed to find issuer certificate")
    case CertIdFailed(reason) => Step("OCSP_cert_to_id", reason)
    case BadResponseStatus(status) => Step("OCSP_response_status", ResponseStatusMessage(status))
    case BasicDecodeFailed => Step("OCSP_response_get1_basic", "failed to decode OCSP response")
    case BasicVerifyFailed => Step("OCSP_basic_verify", "failed to verify OCSP basic response")
    case StatusNotFound => Step("OCSP_resp_find_status", "failed to find status")
    case NotCurrent => Step("OCSP_check_validity", "ocsp response not current")
    case UnknownCertStatus => Step("OCSP_resp_find_status", "unknown OCSP response status")
  }

  /** The steps verify_ocsp_response runs to locate the certificate id:
      decode, peer certificate, chain, issuer, certificate id. */
  function LocateOks(p: OcspProvider): (oks: seq<bool>)
    ensures |oks| == 5
  {
    var cert := if p.peerCert.Some? then p.peerCert.value else Cert(0);
    var chain := if p.peerChain.Some? then p.peerChain.value else [];
    [p.decodes, p.peerCert.Some?, p.peerChain.Some?, FirstIssuer(chain, cert, p.issued) < |chain|, p.certIdOk]
  }

  function LocateSteps(p: OcspProvider): (steps: seq<OcspFailure>)
    ensures |steps| == 5
  {
    [DecodeFailed, NoPeerCert, NoPeerChain, NoIssuer, CertIdFailed(p.certIdError)]
  }

  /** The steps of check_ocsp_response: response status, basic response, its
      signature, the certificate's status, freshness. */
  function CheckOks(p: OcspProvider): (oks: seq<bool>)
    ensures |oks| == 5
  {
    [p.responseStatus == OCSP_RESPONSE_STATUS_SUCCESSFUL, p.basicDecodes, p.basicVerifies,
     p.found.Some?, (OCSP_JITTER, OCSP_MAXAGE) in p.current]
  }

  function CheckSteps(p: OcspProvider): (steps: seq<OcspFailure>)
    ensures |steps| == 5
  {
    [BadResponseStatus(p.responseStatus), BasicDecodeFailed, BasicVerifyFailed, StatusNotFound, NotCurrent]
  }

  /** All ten steps of the stapling check, in the order the code runs them. */
  function OcspOks(p: OcspProvider): seq<bool> {
    LocateOks(p) + CheckOks(p)
  }

  function OcspSteps(p: OcspProvider): seq<OcspFailure> {
    LocateSteps(p) + CheckSteps(p)
  }

  /** (rc, diagnostic) after running `oks` and stopping at the first
      failure: -1 with that step's diagnostic, or 0 and none. */
  predicate ReportsFirstFailure<T(==)>(oks: seq<bool>, steps: seq<T>, rc: int, err: Option<T>)
    requires |oks| == |steps|
  {
    var k := FirstFailing(oks);
    if k < |oks| then rc == -1 && err == Some(steps[k]) else rc == 0 && err == None
  }

  /** Reporting the first failure of two lists of steps run one after the
      other. */
  lemma ReportsAppend<T>(a: seq<bool>, sa: seq<T>, b: seq<bool>, sb: seq<T>, rc: int, err: Option<T>)
    requires |a| == |sa| && |b| == |sb|
    requires FirstFailing(a) < |a| ==> ReportsFirstFailure(a, sa, rc, err)
    requires FirstFailing(a) == |a| ==> ReportsFirstFailure(b, sb, rc, err)
    ensures ReportsFirstFailure(a + b, sa + sb, rc, err)
  {
    FirstFailingAppend(a, b);
  }

  /** A locating step fails after the earlier ones passed. */
  lemma LocateFails(p: OcspProvider, k: nat)
    requires k < 5 && !LocateOks(p)[k]
    requires forall j :: 0 <= j < k ==> LocateOks(p)[j]
    ensures ReportsFirstFailure(OcspOks(p), OcspSteps(p), -1, Some(LocateSteps(p)[k]))
  {
    FirstFailingAt(LocateOks(p), k);
    ReportsAppend(LocateOks(p), LocateSteps(p), CheckOks(p), CheckSteps(p), -1, Some(LocateSteps(p)[k]));
  }

  /** Every locating step passed: the checks decide. */
  lemma LocatePasses(p: OcspProvider, rc: int, err: Option<OcspFailure>)
    requires forall j :: 0 <= j < 5 ==> LocateOks(p)[j]
    requires ReportsFirstFailure(CheckOks(p), CheckSteps(p), rc, err)
    ensures ReportsFirstFailure(OcspOks(p), OcspSteps(p), rc, err)
  {
    FirstFailingAt(LocateOks(p), 5);
    ReportsAppend(LocateOks(p), LocateSteps(p), CheckOks(p), CheckSteps(p), rc, err);
  }

  /** A check fails after the earlier ones passed. */
  lemma CheckFails(p: OcspProvider, k: nat)
    requires k < 5 && !CheckOks(p)[k]
    requires forall j :: 0 <= j < k ==> CheckOks(p)[j]
    ensures ReportsFirstFailure(CheckOks(p), CheckSteps(p), -1, Some(CheckSteps(p)[k]))
  {
    FirstFailingAt(CheckOks(p), k);
  }

  /** The verdict of ocsp_verify_cb and the diagnostic it reports. */
  datatype Verdict = Verdict(rc: int, diagnostic: Option<OcspFailure>)

  /** The verdict ocsp_verify_cb returns for what the provider reports. */
  function OcspVerdict(p: OcspProvider): (v: Verdict)
    ensures v.rc in {-1, 0, 1}
    // no staple: accepted, nothing reported
    ensures p.stapleSize <= 0 ==> v == Verdict(1, None)
    // every check passed: the certificate status decides
    ensures p.stapleSize > 0 && FirstFailing(OcspOks(p)) == |OcspOks(p)| ==>
              (v.rc == 1 <==> p.found == Some(V_OCSP_CERTSTATUS_GOOD)) &&
              (v.rc == 0 <==> p.found == Some(V_OCSP_CERTSTATUS_REVOKED))
    // any other certificate status is rejected as unknown
    ensures p.stapleSize > 0 && FirstFailing(OcspOks(p)) == |OcspOks(p)| && p.found.Some? &&
            p.found.value !in {V_OCSP_CERTSTATUS_GOOD, V_OCSP_CERTSTATUS_REVOKED} ==>
              v == Verdict(-1, Some(UnknownCertStatus))
    // a failed check rejects with the diagnostic of the first failing step
    ensures p.stapleSize > 0 && FirstFailing(OcspOks(p)) < |OcspOks(p)| ==>
              v == Verdict(-1, Some(OcspSteps(p)[FirstFailing(OcspOks(p))]))
    // exactly the undecided verdicts carry a diagnostic
    ensures v.diagnostic.Some? <==> v.rc == -1
    // revocation is reported only by an explicit status, never by a failure
    ensures v.rc == 0 ==> p.stapleSize > 0 && p.found == Some(V_OCSP_CERTSTATUS_REVOKED)
  {
    if p.stapleSize <= 0 then Verdict(1, None)
    else
      var oks := OcspOks(p);
      var k := FirstFailing(oks);
      if k < |oks| then Verdict(-1, Some(OcspSteps(p)[k]))
      else
        assert oks[8];
        var status := p.found.value;
        if status == V_OCSP_CERTSTATUS_GOOD then Verdict(1, None)
        else if status == V_OCSP_CERTSTATUS_REVOKED then Verdict(0, None)
        else Verdict(-1, Some(UnknownCertStatus))
  }

  /** The scratch record ocsp_verify_cb fills while it checks a staple
      (ocsp_verify_ctx_t); the provider objects it holds are reduced to
      whether they were obtained. */
  class OcspVerifyCtx {
    var resp: bool
    var cert: Option<Cert>
    var chain: Option<seq<Cert>>
    var certid: Option<Cert>     // the issuer the certificate id was computed against
    var basic: bool
    var status: int
    var err: Option<OcspFailure>   // errop and errmsg, always set together

    /** `ocsp_verify_ctx_t ctx = {0}` */
    constructor ()
      ensures !resp && cert == None && chain == None && certid == None && !basic
      ensures status == 0 && err == None
    {
      resp, cert, chain, certid, basic := false, None, None, None, false;
      status, err := 0, None;
    }

    /** check_ocsp_response: the five checks after the issuer was found. */
    method CheckOcspResponse(p: OcspProvider) returns (rc: int)
      requires err == None
      modifies this
      ensures resp == old(resp) && cert == old(cert) && chain == old(chain) && certid == old(certid)
      ensures ReportsFirstFailure(CheckOks(p), CheckSteps(p), rc, err)
      ensures rc == 0 ==> p.found == Some(status)
    {
      if p.responseStatus != OCSP_RESPONSE_STATUS_SUCCESSFUL {
        err := Some(BadResponseStatus(p.responseStatus));
        CheckFails(p, 0);
        return -1;
      }
      basic := p.basicDecodes;
      if !basic {
        err := Some(BasicDecodeFailed);
        CheckFails(p, 1);
        return -1;
      } else if !p.basicVerifies {
        err := Some(BasicVerifyFailed);
        CheckFails(p, 2);
        return -1;
      }
      if p.found.None? {
        err := Some(StatusNotFound);
        CheckFails(p, 3);
        return -1;
      }
      status := p.found.value;
      if (OCSP_JITTER, OCSP_MAXAGE) !in p.current {
        err := Some(NotCurrent);
        CheckFails(p, 4);
        return -1;
      }
      FirstFailingAt(CheckOks(p), 5);
      return 0;
    }

    /** verify_ocsp_response: 1 when there is no staple, otherwise the
        checks in order, stopping at the first that fails. */
    method VerifyOcspResponse(p: OcspProvider) returns (rc: int)
      requires err == None && certid == None
      modifies this
      ensures p.stapleSize <= 0 ==> rc == 1 && err == None
      ensures p.stapleSize > 0 ==> ReportsFirstFailure(OcspOks(p), OcspSteps(p), rc, err)
      ensures p.stapleSize > 0 && rc == 0 ==> p.found == Some(status)
      // the certificate id is computed against the first issuer in the chain
      ensures certid.Some? ==>
                chain.Some? && cert.Some? &&
                FirstIssuer(chain.value, cert.value, p.issued) < |chain.value| &&
                certid.value == chain.value[FirstIssuer(chain.value, cert.value, p.issued)]
    {
      if p.stapleSize <= 0 {
        return 1;
      }
      resp := p.decodes;
      if !resp {
        err := Some(DecodeFailed);
        LocateFails(p, 0);
        return -1;
      }
      cert := p.peerCert;
      if cert.None? {
        err := Some(NoPeerCert);
        LocateFails(p, 1);
        return -1;
      }
      chain := p.peerChain;
      if chain.None? {
        err := Some(NoPeerChain);
        LocateFails(p, 2);
        return -1;
      }
      rc := VerifyWithChain(p, cert.value, chain.value);
    }

    /** The part of verify_ocsp_response that runs once the peer certificate
        and chain are in hand: the first issuer in the chain, the certificate
        id, then check_ocsp_response. */
    method VerifyWithChain(p: OcspProvider, c: Cert, certs: seq<Cert>) returns (rc: int)
      requires err == None && certid == None && cert == Some(c) && chain == Some(certs)
      requires p.decodes && p.peerCert == Some(c) && p.peerChain == Some(certs)
      modifies this
      ensures ReportsFirstFailure(OcspOks(p), OcspSteps(p), rc, err)
      ensures rc == 0 ==> p.found == Some(status)
      ensures cert == Some(c) && chain == Some(certs)
      ensures certid.Some? ==>
                FirstIssuer(certs, c, p.issued) < |certs| && certid.value == certs[FirstIssuer(certs, c, p.issued)]
    {
      var i := FindIssuer(certs, c, p.issued);
      if i == |certs| {
        err := Some(NoIssuer);
        LocateFails(p, 3);
        return -1;
      }
      if !p.certIdOk {
        err := Some(CertIdFailed(p.certIdError));
        LocateFails(p, 4);
        return -1;
      }
      certid := Some(certs[i]);
      rc := CheckOcspResponse(p);
      LocatePasses(p, rc, err);
    }
  }

  /** The loop of verify_ocsp_response over the peer chain: the index of the
      first certificate that issued `cert`, or |chain| when none did. */
  method FindIssuer(chain: seq<Cert>, cert: Cert, issued: set<(Cert, Cert)>) returns (i: nat)
    ensures i == FirstIssuer(chain, cert, issued)
  {
    i := 0;
    while i < |chain|
      invariant 0 <= i <= |chain|
      invariant forall j :: 0 <= j < i ==> (chain[j], cert) !in issued
    {
      if (chain[i], cert) in issued {
        return;
      }
      i := i + 1;
    }
  }

  // ---------------------------------------------------------------------------
  // The configuration object
  // ---------------------------------------------------------------------------

  /** The provider context new_lua configures once every step passed. */
  function NewClientCtx(protocol: int, cipher: int, cacheTimeout: int, cacheSize: int,
                        preferClientCiphers: bool): (ctx: SslCtx)
    ensures ctx.versions == ProtocolRange(protocol) && ctx.ciphers == Some(CipherList(cipher))
    // reads and writes return what they could; a retried write may move its buffer
    ensures !ctx.autoRetry && ctx.partialWrite && ctx.movingWriteBuffer
    ensures ctx.session == ClientSessionPolicy(cacheTimeout, cacheSize)
    ensures ctx.serverPreference <==> !preferClientCiphers
    // the default trust paths and stapled-OCSP checking, nothing else yet
    ensures ctx.defaultVerifyPaths && ctx.ocspStapling && !ctx.sniCallback
    ensures ctx.verifyLocations == [] && ctx.verifyDepth == None && ctx.crls == [] && !ctx.crlCheck
    ensures ctx.certificateFile == None && ctx.privateKeyFile == None && !ctx.dhAuto
  {
    FRESH_CTX.(versions := ProtocolRange(protocol), ciphers := Some(CipherList(cipher)),
               autoRetry := false, partialWrite := true, movingWriteBuffer := true,
               session := ClientSessionPolicy(cacheTimeout, cacheSize),
               serverPreference := !preferClientCiphers,
               defaultVerifyPaths := true, ocspStapling := true)
  }

  /** A client created without the optional arguments keeps no sessions and
      prefers the server's cipher order. */
  lemma NewClientDefaults(protocol: int, cipher: int)
    ensures var ctx := NewClientCtx(protocol, cipher, CACHE_TIMEOUT_DEFAULT, SESSION_CACHE_MAX_SIZE_DEFAULT, false);
            !Resumable(ctx.session) && ctx.session.noTicket && ctx.serverPreference
  {
  }

  /** new_lua keeps cache_timeout in a C int: a Lua timeout of 2^32 seconds
      becomes 0 and one of 2^31 becomes negative, and either turns the
      session cache off. */
  lemma WideCacheTimeoutDisablesCache(protocol: int, cipher: int, cacheSize: int, preferClientCiphers: bool)
    ensures Int32Of(0x1_0000_0000) == 0 && Int32Of(0x8000_0000) == INT32_MIN
    ensures !Resumable(NewClientCtx(protocol, cipher, Int32Of(0x1_0000_0000), cacheSize, preferClientCiphers).session)
    ensures !Resumable(NewClientCtx(protocol, cipher, Int32Of(0x8000_0000), cacheSize, preferClientCiphers).session)
  {
  }

  /** What the provider reports to the fallible steps of new_lua. */
  datatype ClientProvider = ClientProvider(
    ctxNewOk: bool,           // SSL_CTX_new
    minVersionOk: bool,       // SSL_CTX_set_min_proto_version
    maxVersionOk: bool,       // SSL_CTX_set_max_proto_version
    cipherListOk: bool,       // SSL_CTX_set_cipher_list
    verifyPathsOk: bool,      // SSL_CTX_set_default_verify_paths
    statusTypeOk: bool,       // SSL_CTX_set_tlsext_status_type
    statusCbOk: bool)         // SSL_CTX_set_tlsext_status_cb

  /** The failing steps of new_lua, in order. */
  const CLIENT_NEW_STEPS: seq<Step> := [
    Step("SSL_CTX_new", "failed to create SSL_CTX"),
    Step("tls_set_protocol_vers", "failed to set protocol version"),
    Step("tls_set_cipher_suite", "failed to set cipher suite"),
    Step("SSL_CTX_set_default_verify_paths", "failed to set default verify paths"),
    Step("SSL_CTX_set_tlsext_status_cb", "failed to set default OCSP callback")]

  function ClientNewOks(protocol: int, p: ClientProvider): (oks: seq<bool>)
    ensures |oks| == |CLIENT_NEW_STEPS|
  {
    [p.ctxNewOk, SetProtocolVersions(protocol, p.minVersionOk, p.maxVersionOk).ok,
     p.cipherListOk, p.verifyPathsOk, p.statusTypeOk && p.statusCbOk]
  }

  /** A net.tls.client object (tls_client_t): its provider context and the
      reference to the error callback. */
  class ClientConfig {
    var ctx: SslCtx
    var ctxFreed: bool
    var errorCb: ErrorCallbackRef
    var errorCbRef: Ref?

    ghost predicate Valid()
      reads this, errorCbRef
    {
      !ctxFreed &&
      (errorCb == NoRef <==> errorCbRef == null) &&
      (errorCbRef != null ==> errorCbRef.live)
    }

    /** A fresh SSL_CTX from TLS_client_method() and no callback. */
    constructor ()
      ensures ctx == FRESH_CTX && !ctxFreed && errorCb == NoRef && errorCbRef == null
    {
      ctx, ctxFreed := FRESH_CTX, false;
      errorCb, errorCbRef := NoRef, null;
    }

    /** set_verify_depth */
    method SetVerifyDepth(depth: nat)
      requires !ctxFreed
      modifies this
      ensures ctx == old(ctx).(verifyDepth := Some(Int32Of(depth)))
      ensures ctxFreed == old(ctxFreed) && errorCb == old(errorCb) && errorCbRef == old(errorCbRef)
    {
      ctx := ctx.(verifyDepth := Some(Int32Of(depth)));
    }

    /** load_verify_locations; the provider loads `cafile` first (`fileOk`)
        and only then adds `capath` (`dirOk`), without undoing the file when
        the directory fails; `recorded` holds the errors it records when it
        fails. */
    method LoadVerifyLocations(cafile: string, capath: string, fileOk: bool, dirOk: bool,
                                 recorded: seq<ErrorEntry>, q: ErrorQueue)
      returns (rets: seq<Value>)
      requires !ctxFreed
      modifies this, q
      ensures ctx == old(ctx).(verifyLocations := old(ctx).verifyLocations +
                                                  (if fileOk then [CaFile(cafile)] else []) +
                                                  (if fileOk && dirOk then [CaDir(capath)] else []))
      ensures fileOk && dirOk ==> rets == [Boolean(true)] && q.pending == old(q.pending)
      ensures !(fileOk && dirOk) ==>
                rets == [Boolean(false), Failure(Aggregated(old(q.pending) + recorded, "SSL_CTX_load_verify_locations",
                                                             "failed to load verify locations"))] &&
                q.pending == []
      ensures ctxFreed == old(ctxFreed) && errorCb == old(errorCb) && errorCbRef == old(errorCbRef)
    {
      if fileOk {
        ctx := ctx.(verifyLocations := ctx.verifyLocations + [CaFile(cafile)]);
        if dirOk {
          ctx := ctx.(verifyLocations := ctx.verifyLocations + [CaDir(capath)]);
          return [Boolean(true)];
        }
      }
      q.Record(recorded);
      var e, _ := q.PushError("SSL_CTX_load_verify_locations", "failed to load verify locations");
      return [Boolean(false), Failure(e)];
    }

    /** set_crls as written (the BIO is built with a length of 0);
        `recorded` holds the errors the failing provider call records. */
    method SetCrls(blob: string, bioOk: bool, pem: string -> Option<seq<X509Info>>,
                   accepts: (seq<Crl>, Crl) -> bool, flagsOk: bool, recorded: seq<ErrorEntry>, q: ErrorQueue)
      returns (rets: seq<Value>)
      requires !ctxFreed
      modifies this, q
      ensures var r := SetCrlsOutcome(old(ctx).crls, old(ctx).crlCheck, CrlBioAsWritten(blob), bioOk, pem, accepts, flagsOk);
              ctx == old(ctx).(crls := r.store, crlCheck := r.crlCheck) &&
              (r.failure == None ==> rets == [Boolean(true)] && q.pending == old(q.pending)) &&
              (r.failure.Some? ==>
                 q.pending == [] &&
                 rets == [Boolean(false), Failure(Aggregated(old(q.pending) + recorded, CrlFailureStep(r.failure.value).op,
                                                             CrlFailureStep(r.failure.value).msg))])
      ensures ctxFreed == old(ctxFreed) && errorCb == old(errorCb) && errorCbRef == old(errorCbRef)
    {
      var bytes := CrlBioAsWritten(blob);
      ghost var r := SetCrlsOutcome(ctx.crls, ctx.crlCheck, bytes, bioOk, pem, accepts, flagsOk);
      var store := ctx.crls;
      var failure: Option<CrlFailure> := None;
      if !bioOk {
        failure := Some(BioFailed);
      } else if pem(bytes).None? {
        failure := Some(PemFailed);
      } else {
        var failed;
        store, failed := AddAll(store, pem(bytes).value, accepts);
        if failed {
          failure := Some(AddFailed);
        } else if !flagsOk {
          failure := Some(FlagsFailed);
        }
      }
      assert r == CrlsOutcome(store, if failure == None then true else ctx.crlCheck, failure);
      ctx := ctx.(crls := store, crlCheck := if failure == None then true else ctx.crlCheck);
      if failure.Some? {
        q.Record(recorded);
        var e, _ := q.PushError(CrlFailureStep(failure.value).op, CrlFailureStep(failure.value).msg);
        return [Boolean(false), Failure(e)];
      }
      return [Boolean(true)];
    }

    /** ocsp_verify_cb: runs the stapling check on a fresh scratch record,
        maps the certificate status to the verdict, and reports the
        diagnostic, if any, once. */
    method OcspVerifyCallback(p: OcspProvider, outcome: CallOutcome) returns (rc: int, report: Report)
      ensures rc == OcspVerdict(p).rc
      ensures OcspVerdict(p).diagnostic.None? ==> report == Report([], [])
      ensures OcspVerdict(p).diagnostic.Some? ==>
                report == PrintError(errorCb, outcome, FailureStep(OcspVerdict(p).diagnostic.value).op,
                                     FailureStep(OcspVerdict(p).diagnostic.value).msg)
    {
      var v := new OcspVerifyCtx();
      rc := v.VerifyOcspResponse(p);
      if rc == 0 {
        if v.status == V_OCSP_CERTSTATUS_GOOD {
          rc := 1;
        } else if v.status == V_OCSP_CERTSTATUS_REVOKED {
          rc := 0;
        } else {
          v.err := Some(UnknownCertStatus);
          rc := -1;
        }
      }
      report := Report([], []);
      if v.err.Some? {
        report := PrintError(errorCb, outcome, FailureStep(v.err.value).op, FailureStep(v.err.value).msg);
      }
    }

    /** gc_lua: frees the SSL_CTX and releases the error callback reference. */
    method Collect()
      requires Valid()
      modifies this, errorCbRef
      ensures ctxFreed
      ensures old(errorCbRef) != null ==> !old(errorCbRef).live
      ensures ctx == old(ctx) && errorCb == old(errorCb) && errorCbRef == old(errorCbRef)
    {
      ctxFreed := true;
      if errorCbRef != null {
        errorCbRef.Release();
      }
    }
  }

  /** new_lua: builds a client configuration; the first failing step frees
      the context and reports its error, folding in `recorded`, the errors
      that step's provider call records. */
  method NewClient(protocol: int, cipher: int, cacheTimeout: Option<int>, cacheSize: Option<int>,
                   preferClientCiphers: bool, errorArg: CallbackArg, p: ClientProvider,
                   recorded: seq<ErrorEntry>, q: ErrorQueue)
    returns (c: ClientConfig?, err: Option<Error>)
    modifies q
    ensures c == null <==> err.Some?
    ensures var k := FirstFailing(ClientNewOks(protocol, p));
            k < |CLIENT_NEW_STEPS| ==>
              c == null && q.pending == [] &&
              err == Some(Aggregated(old(q.pending) + recorded, CLIENT_NEW_STEPS[k].op, CLIENT_NEW_STEPS[k].msg))
    ensures FirstFailing(ClientNewOks(protocol, p)) == |CLIENT_NEW_STEPS| ==>
              c != null && fresh(c) && (c.errorCbRef == null || fresh(c.errorCbRef)) && c.Valid() &&
              q.pending == old(q.pending) && c.errorCb == ErrorCallbackOf(errorArg) &&
              c.ctx == NewClientCtx(protocol, cipher, Int32Of(OrDefault(cacheTimeout, CACHE_TIMEOUT_DEFAULT)),
                                    Int32Of(OrDefault(cacheSize, SESSION_CACHE_MAX_SIZE_DEFAULT)), preferClientCiphers)
  {
    // SSL_CTX_new; the settings a later failing step would have applied
    // are freed with the context, so the model applies them once all passed
    var cfg := new ClientConfig();
    var k := 0;  // the step that failed, |CLIENT_NEW_STEPS| when none did
    if p.ctxNewOk {
      k := 1;
      if SetProtocolVersions(protocol, p.minVersionOk, p.maxVersionOk).ok {
        k := 2;
        if p.cipherListOk {
          k := 3;
          if p.verifyPathsOk {
            k := 4;
            if p.statusTypeOk && p.statusCbOk {
              k := 5;
            }
          }
        }
      }
    }
    FirstFailingAt(ClientNewOks(protocol, p), k);
    if k < |CLIENT_NEW_STEPS| {
      cfg.ctxFreed := true;
      q.Record(recorded);
      var e, _ := q.PushError(CLIENT_NEW_STEPS[k].op, CLIENT_NEW_STEPS[k].msg);
      return null, Some(e);
    }
    // both settings are stored in C ints
    var timeout := Int32Of(OrDefault(cacheTimeout, CACHE_TIMEOUT_DEFAULT));
    var size := Int32Of(OrDefault(cacheSize, SESSION_CACHE_MAX_SIZE_DEFAULT));
    cfg.ctx := NewClientCtx(protocol, cipher, timeout, size, preferClientCiphers);
    if errorArg != NoArg {
      cfg.errorCb := ErrorCallbackOf(errorArg);
      cfg.errorCbRef := new Ref();
    }
    return cfg, None;
  }
}
