/**
 * The shared header of the TLS binding (src/tls.h): the policy tables for
 * protocol versions and cipher suites, the provider error queue and the way
 * its entries are folded into one nested error value, and the handles that
 * the client, server and connection objects share.
 *
 * The TLS provider (OpenSSL) is an oracle: every call into it is modelled by
 * the outcome it reports, passed in as a parameter.
 */
module Tls {

  datatype Option<+T> = None | Some(value: T)

  newtype byte = b: int | 0 <= b < 256

  /** A Lua optional integer argument. */
  function OrDefault(arg: Option<int>, default: int): int {
    if arg.Some? then arg.value else default
  }

  const INT32_MIN: int := -0x8000_0000
  const INT32_MAX: int := 0x7FFF_FFFF

  /** The C `int` a Lua integer becomes when the binding stores it in one:
      the two's-complement value congruent to it modulo 2^32. */
  function Int32Of(x: int): (r: int)
    ensures INT32_MIN <= r <= INT32_MAX
    ensures (x - r) % 0x1_0000_0000 == 0
    // a value that fits is kept as it is
    ensures INT32_MIN <= x <= INT32_MAX ==> r == x
  {
    (x - INT32_MIN) % 0x1_0000_0000 + INT32_MIN
  }

  // ---------------------------------------------------------------------------
  // Error messages and their aggregation (tls_push_error)
  // ---------------------------------------------------------------------------

  /** One pending provider error: the function the provider attributes it to
      and its error string. */
  datatype ErrorEntry = ErrorEntry(func: string, text: string)

  /** One (operation, message) pair of an error value. */
  datatype Message = Message(op: string, msg: string)

  /** An error value: a message, possibly wrapping the error that caused it. */
  datatype Error = Error(message: Message) | Wrapping(message: Message, cause: Error)

  /** The values a Lua function leaves on the stack as its results. */
  datatype Value =
    | Nil
    | Boolean(b: bool)
    | Integer(i: int)
    | Str(s: string)
    | Bytes(data: seq<byte>)
    | Failure(err: Error)

  function MessageOf(e: ErrorEntry): Message {
    Message(e.func, e.text)
  }

  function MessagesOf(entries: seq<ErrorEntry>): seq<Message> {
    seq(|entries|, i requires 0 <= i < |entries| => MessageOf(entries[i]))
  }

  function Reversed<T>(s: seq<T>): seq<T> {
    seq(|s|, i requires 0 <= i < |s| => s[|s| - 1 - i])
  }

  /** The error built by wrapping each message around the error of the
      messages before it: ms[0] is the innermost cause, the last message the
      outermost error. */
  function Nest(ms: seq<Message>): Error
    requires |ms| > 0
    decreases |ms|
  {
    if |ms| == 1 then Error(ms[0])
    else Wrapping(ms[|ms| - 1], Nest(ms[..|ms| - 1]))
  }

  /** The messages of an error, innermost cause first. */
  function Causes(e: Error): (ms: seq<Message>)
    ensures |ms| >= 1
  {
    match e
    case Error(m) => [m]
    case Wrapping(m, cause) => Causes(cause) + [m]
  }

  /** Reading the causes of a nested error gives back the messages it was
      built from, in the same order. */
  lemma {:induction false} CausesOfNest(ms: seq<Message>)
    requires |ms| > 0
    ensures Causes(Nest(ms)) == ms
    decreases |ms|
  {
    if |ms| > 1 {
      CausesOfNest(ms[..|ms| - 1]);
      assert ms[..|ms| - 1] + [ms[|ms| - 1]] == ms;
    }
  }

  /** The error tls_push_error produces from the pending provider errors:
      the default message alone when nothing is pending, otherwise the
      pending entries nested oldest first (see AggregatedCauses). */
  function Aggregated(pending: seq<ErrorEntry>, defaultOp: string, defaultMsg: string): Error {
    if pending == [] then Error(Message(defaultOp, defaultMsg))
    else Nest(MessagesOf(pending))
  }

  /** One message per pending entry, the oldest entry as the innermost cause,
      or a single message from the defaults when nothing is pending. */
  lemma AggregatedCauses(pending: seq<ErrorEntry>, defaultOp: string, defaultMsg: string)
    ensures Causes(Aggregated(pending, defaultOp, defaultMsg))
            == if pending == [] then [Message(defaultOp, defaultMsg)] else MessagesOf(pending)
    ensures |Causes(Aggregated(pending, defaultOp, defaultMsg))| == if pending == [] then 1 else |pending|
  {
    if pending != [] {
      CausesOfNest(MessagesOf(pending));
    }
  }

  /** The provider's (thread-local) error queue. */
  class ErrorQueue {
    var pending: seq<ErrorEntry>

    constructor ()
      ensures pending == []
    {
      pending := [];
    }

    /** ERR_clear_error */
    method Clear()
      modifies this
      ensures pending == []
    {
      pending := [];
    }

    /** The provider records errors while it fails a call. */
    method Record(entries: seq<ErrorEntry>)
      modifies this
      ensures pending == old(pending) + entries
    {
      pending := pending + entries;
    }

    /** tls_push_error: drains the queue, then wraps the messages into one
        error, or builds the error from the defaults when nothing was
        pending. The ghost `stack` reports the message block the drain left
        on the Lua stack. */
    method PushError(defaultOp: string, defaultMsg: string) returns (e: Error, ghost stack: seq<Message>)
      modifies this
      ensures pending == []
      ensures e == Aggregated(old(pending), defaultOp, defaultMsg)
      ensures stack == Reversed(MessagesOf(old(pending)))
    {
      ghost var entries := pending;
      var block := DrainMessages();
      stack := block;
      if |block| == 0 {
        e := Error(Message(defaultOp, defaultMsg));
        return;
      }
      e := WrapBlock(block);
      ReversedTwice(MessagesOf(entries));
    }

    /** The first loop of tls_push_error: takes the entries oldest first and
        inserts each message at the bottom of the message block, so that the
        block lists the messages newest first; `msgidx` counts the slots. */
    method DrainMessages() returns (block: seq<Message>)
      modifies this
      ensures pending == []
      ensures block == Reversed(MessagesOf(old(pending)))
    {
      ghost var drained: seq<ErrorEntry> := [];
      var msgidx := 0;  // slots used above the stack top on entry
      block := [];
      while pending != []
        invariant old(pending) == drained + pending
        invariant msgidx == |drained|
        invariant block == Reversed(MessagesOf(drained))
        decreases |pending|
      {
        var entry := pending[0];
        ReversedMessagesSnoc(drained, entry);
        pending := pending[1..];
        drained := drained + [entry];
        msgidx := msgidx + 1;
        block := [MessageOf(entry)] + block;
      }
      assert drained == old(pending);
    }
  }

  /** The second loop of tls_push_error: wraps the message block from the
      deepest slot upwards, so the newest message ends up outermost. */
  method WrapBlock(block: seq<Message>) returns (e: Error)
    requires |block| > 0
    ensures e == Nest(Reversed(block))
  {
    ghost var ms := Reversed(block);
    var msgidx := |block|;
    e := Error(block[msgidx - 1]);
    msgidx := msgidx - 1;
    assert ms[..1] == [ms[0]];
    while msgidx > 0
      invariant 0 <= msgidx < |ms|
      invariant e == Nest(ms[..|ms| - msgidx])
      decreases msgidx
    {
      NestSnoc(ms, |ms| - msgidx);
      assert block[msgidx - 1] == ms[|ms| - msgidx];
      e := Wrapping(block[msgidx - 1], e);
      msgidx := msgidx - 1;
    }
    assert ms[..|ms|] == ms;
  }

  lemma ReversedTwice<T>(s: seq<T>)
    ensures Reversed(Reversed(s)) == s
  {
  }

  lemma ReversedMessagesSnoc(drained: seq<ErrorEntry>, entry: ErrorEntry)
    ensures Reversed(MessagesOf(drained + [entry])) == [MessageOf(entry)] + Reversed(MessagesOf(drained))
  {
    var l := Reversed(MessagesOf(drained + [entry]));
    var r := [MessageOf(entry)] + Reversed(MessagesOf(drained));
    assert |l| == |r|;
    forall i | 0 <= i < |l| ensures l[i] == r[i] {
      if i > 0 {
        assert (drained + [entry])[|drained| - i] == drained[|drained| - i];
      }
    }
  }

  lemma NestSnoc(ms: seq<Message>, k: nat)
    requires 0 < k < |ms|
    ensures Nest(ms[..k + 1]) == Wrapping(ms[k], Nest(ms[..k]))
  {
    assert ms[..k + 1][..k] == ms[..k];
  }

  // ---------------------------------------------------------------------------
  // Ordered construction steps
  // ---------------------------------------------------------------------------

  /** The (errop, errmsg) pair a construction step reports when it fails. */
  datatype Step = Step(op: string, msg: string)

  /** The index of the first failing step (|oks| when every step passes). */
  function FirstFailing(oks: seq<bool>): (i: nat)
    ensures i <= |oks|
    ensures forall j :: 0 <= j < i ==> oks[j]
    ensures i < |oks| ==> !oks[i]
  {
    if oks == [] || !oks[0] then 0 else 1 + FirstFailing(oks[1..])
  }

  /** The first failing step is the one that fails after all earlier ones passed. */
  lemma FirstFailingAt(oks: seq<bool>, k: nat)
    requires k <= |oks|
    requires forall j :: 0 <= j < k ==> oks[j]
    requires k < |oks| ==> !oks[k]
    ensures FirstFailing(oks) == k
  {
  }

  /** Running two lists of steps one after the other: the first failure is in
      the first list, or, when all of it passes, in the second. */
  lemma {:induction false} FirstFailingAppend(a: seq<bool>, b: seq<bool>)
    ensures FirstFailing(a + b) == if FirstFailing(a) < |a| then FirstFailing(a) else |a| + FirstFailing(b)
  {
    if a == [] {
      assert a + b == b;
    } else {
      assert (a + b)[0] == a[0];
      assert (a + b)[1..] == a[1..] + b;
      FirstFailingAppend(a[1..], b);
    }
  }

  // ---------------------------------------------------------------------------
  // Protocol versions (tls_set_protocol_vers)
  // ---------------------------------------------------------------------------

  const PROTO_DEFAULT: int := 0
  const PROTO_TLSv1: int := 1
  const PROTO_TLSv1_0: int := 2
  const PROTO_TLSv1_1: int := 3
  const PROTO_TLSv1_2: int := 4
  const PROTO_TLSv1_3: int := 5

  /** The option names luaL_checkoption maps to the protocol codes above. */
  const TLS_PROTOCOLS: seq<string> := ["default", "tlsv1", "tlsv1.0", "tlsv1.1", "tlsv1.2", "tlsv1.3"]

  const TLS1_VERSION: int := 0x0301
  const TLS1_1_VERSION: int := 0x0302
  const TLS1_2_VERSION: int := 0x0303
  const TLS1_3_VERSION: int := 0x0304

  /** A protocol range: the minimum version and the maximum, 0 when there is
      no upper bound. */
  datatype VersionRange = VersionRange(minv: int, maxv: int)

  /** The switch of tls_set_protocol_vers. */
  function ProtocolRange(protocol: int): (r: VersionRange)
    ensures TLS1_VERSION <= r.minv <= TLS1_3_VERSION
    ensures r.maxv == 0 || r.maxv == r.minv
    // a single-version protocol pins both bounds, in the order of the codes
    ensures PROTO_TLSv1_0 <= protocol <= PROTO_TLSv1_3 ==>
              r.minv == r.maxv == TLS1_VERSION + (protocol - PROTO_TLSv1_0)
    // the others leave the maximum open
    ensures !(PROTO_TLSv1_0 <= protocol <= PROTO_TLSv1_3) ==> r.maxv == 0
    ensures protocol == PROTO_TLSv1 ==> r.minv == TLS1_VERSION
    // every other code, known or not, is the default policy: TLS 1.2 and up
    ensures protocol != PROTO_TLSv1 && !(PROTO_TLSv1_0 <= protocol <= PROTO_TLSv1_3) ==>
              r == VersionRange(TLS1_2_VERSION, 0)
  {
    if protocol == PROTO_TLSv1 then VersionRange(TLS1_VERSION, 0)
    else if protocol == PROTO_TLSv1_0 then VersionRange(TLS1_VERSION, TLS1_VERSION)
    else if protocol == PROTO_TLSv1_1 then VersionRange(TLS1_1_VERSION, TLS1_1_VERSION)
    else if protocol == PROTO_TLSv1_2 then VersionRange(TLS1_2_VERSION, TLS1_2_VERSION)
    else if protocol == PROTO_TLSv1_3 then VersionRange(TLS1_3_VERSION, TLS1_3_VERSION)
    else VersionRange(TLS1_2_VERSION, 0)
  }

  /** A version call made on the provider context. */
  datatype VersionCall = SetMinProto(version: int) | SetMaxProto(version: int)

  datatype VersionsApplied = VersionsApplied(calls: seq<VersionCall>, ok: bool)

  /** tls_set_protocol_vers, with minOk / maxOk the results the provider
      would give to SSL_CTX_set_min_proto_version / _max_proto_version. */
  function SetProtocolVersions(protocol: int, minOk: bool, maxOk: bool): (r: VersionsApplied)
    ensures r.ok <==> minOk && (ProtocolRange(protocol).maxv <= 0 || maxOk)
    ensures |r.calls| >= 1 && r.calls[0] == SetMinProto(ProtocolRange(protocol).minv)
    // the maximum is set only for a bounded range, and only after the minimum succeeded
    ensures |r.calls| == 2 <==> minOk && ProtocolRange(protocol).maxv > 0
    ensures |r.calls| == 2 ==> r.calls[1] == SetMaxProto(ProtocolRange(protocol).maxv)
    ensures |r.calls| <= 2
  {
    var range := ProtocolRange(protocol);
    if !minOk then VersionsApplied([SetMinProto(range.minv)], false)
    else if range.maxv <= 0 then VersionsApplied([SetMinProto(range.minv)], true)
    else VersionsApplied([SetMinProto(range.minv), SetMaxProto(range.maxv)], maxOk)
  }

  // ---------------------------------------------------------------------------
  // Cipher suites (tls_set_cipher_suite)
  // ---------------------------------------------------------------------------

  const CIPHER_SUITE_DEFAULT: int := 0
  const CIPHER_SUITE_SECURE: int := 1
  const CIPHER_SUITE_LEGACY: int := 2
  const CIPHER_SUITE_ALL: int := 3

  const TLS_CIPHER_SUITES: seq<string> := ["default", "secure", "legacy", "all"]

  /** The cipher list handed to SSL_CTX_set_cipher_list for a suite code. */
  function CipherList(suite: int): (ciphers: string)
    ensures suite == CIPHER_SUITE_LEGACY ==> ciphers == "HIGH:MEDIUM:!aNULL"
    ensures suite == CIPHER_SUITE_ALL ==> ciphers == "ALL:!aNULL:!eNULL"
    // default, secure and every unknown code share the default list
    ensures suite != CIPHER_SUITE_LEGACY && suite != CIPHER_SUITE_ALL ==> ciphers == "HIGH:!aNULL"
  {
    if suite == CIPHER_SUITE_LEGACY then "HIGH:MEDIUM:!aNULL"
    else if suite == CIPHER_SUITE_ALL then "ALL:!aNULL:!eNULL"
    else "HIGH:!aNULL"
  }

  // ---------------------------------------------------------------------------
  // Session-cache policy
  // ---------------------------------------------------------------------------

  /** The session-cache mode set with SSL_CTX_set_session_cache_mode. */
  datatype CacheMode = CacheOff | CacheClient | CacheServer

  /** The session-resumption settings of an SSL_CTX; `None` marks a setting
      left at the provider's default. */
  datatype SessionPolicy = SessionPolicy(
    mode: CacheMode,
    timeout: Option<int>,        // SSL_CTX_set_timeout
    cacheSize: Option<int>,      // SSL_CTX_sess_set_cache_size
    noTicket: bool,              // SSL_OP_NO_TICKET
    numTickets: Option<nat>)     // SSL_CTX_set_num_tickets

  /** A fresh SSL_CTX: the provider caches server sessions and issues tickets. */
  const PROVIDER_DEFAULT_SESSION: SessionPolicy := SessionPolicy(CacheServer, None, None, false, None)

  /** A session can be resumed when it is cached or carried in a ticket. */
  predicate Resumable(p: SessionPolicy) {
    p.mode != CacheOff || !p.noTicket
  }

  // ---------------------------------------------------------------------------
  // Provider contexts (SSL_CTX)
  // ---------------------------------------------------------------------------

  /** A certificate revocation list, by its encoding. */
  datatype Crl = Crl(der: seq<byte>)

  /** A trust-anchor source added to a context's certificate store: a CA
      file whose certificates are loaded, or a CA directory searched by
      hash. */
  datatype VerifyLocation = CaFile(file: string) | CaDir(dir: string)

  /** The settings of a provider context that the binding changes; `None`
      marks a setting left at the provider's default. */
  datatype SslCtx = SslCtx(
    versions: VersionRange,                  // SSL_CTX_set_min/max_proto_version
    ciphers: Option<string>,                 // SSL_CTX_set_cipher_list
    autoRetry: bool,                         // SSL_MODE_AUTO_RETRY
    partialWrite: bool,                      // SSL_MODE_ENABLE_PARTIAL_WRITE
    movingWriteBuffer: bool,                 // SSL_MODE_ACCEPT_MOVING_WRITE_BUFFER
    session: SessionPolicy,
    serverPreference: bool,                  // SSL_OP_CIPHER_SERVER_PREFERENCE
    certificateFile: Option<string>,         // SSL_CTX_use_certificate_file
    privateKeyFile: Option<string>,          // SSL_CTX_use_PrivateKey_file
    dhAuto: bool,                            // SSL_CTX_set_dh_auto
    defaultVerifyPaths: bool,                // SSL_CTX_set_default_verify_paths
    verifyLocations: seq<VerifyLocation>,    // SSL_CTX_load_verify_locations
    verifyDepth: Option<int>,                // SSL_CTX_set_verify_depth
    crls: seq<Crl>,                          // the CRLs of the certificate store
    crlCheck: bool,                          // X509_V_FLAG_CRL_CHECK | X509_V_FLAG_CRL_CHECK_ALL
    ocspStapling: bool,                      // OCSP status requests with ocsp_verify_cb
    sniCallback: bool)                       // sni_callback as the servername callback

  /** A context fresh from SSL_CTX_new: no version bounds, the provider's
      cipher list, automatic retries on, no trust material. */
  const FRESH_CTX: SslCtx := SslCtx(VersionRange(0, 0), None, true, false, false, PROVIDER_DEFAULT_SESSION,
                                    false, None, None, false, false, [], None, [], false, false, false)

  // ---------------------------------------------------------------------------
  // Handles shared by the connection, client and server objects
  // ---------------------------------------------------------------------------

  /** A Lua registry reference (luaL_ref); `live` until it is unreferenced. */
  class Ref {
    var live: bool

    constructor ()
      ensures live
    {
      live := true;
    }

    /** lauxh_unref on a held reference; releasing twice is excluded. */
    method Release()
      requires live
      modifies this
      ensures !live
    {
      live := false;
    }
  }

  /** The peer verification mode set with SSL_set_verify. */
  datatype VerifyMode =
    | VerifyNone             // SSL_VERIFY_NONE, no callback
    | VerifyPeer             // SSL_VERIFY_PEER, no callback
    | VerifyPeerIgnoreTime   // SSL_VERIFY_PEER with noverify_time_cb

  /** A provider session (SSL *). `owner` is the configuration whose SSL_CTX
      the session currently uses. */
  class Session {
    var freed: bool
    var owner: object
    var fd: int
    var sniName: Option<string>
    var verifyHost: Option<string>
    var verify: VerifyMode

    constructor (owner: object)
      ensures !freed && this.owner == owner
      ensures sniName == None && verifyHost == None && verify == VerifyNone && fd == -1
    {
      freed := false;
      this.owner := owner;
      fd := -1;
      sniName := None;
      verifyHost := None;
      verify := VerifyNone;
    }

    /** SSL_free; freeing twice is excluded. */
    method Free()
      requires !freed
      modifies this
      ensures freed
      ensures owner == old(owner) && fd == old(fd) && sniName == old(sniName)
      ensures verifyHost == old(verifyHost) && verify == old(verify)
    {
      freed := true;
    }
  }
}
