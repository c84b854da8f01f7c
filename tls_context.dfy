/**
 * A TLS connection (src/tls_context.c): the net.tls.context object that
 * wraps one provider session, its non-blocking handshake, read, write and
 * close operations, its finaliser, and the two ways of creating one:
 * `connect` from a client configuration and `accept` from a server
 * configuration.
 *
 * The connection's lifecycle is first given on an abstract state
 * (CtxState) by pure step functions; the Context class then performs each
 * step on its fields and is proved to follow the step function.
 */
module TlsContext {
  import opened Tls

  // ---------------------------------------------------------------------------
  // Provider outcomes
  // ---------------------------------------------------------------------------

  const SSL_ERROR_WANT_READ: int := 2
  const SSL_ERROR_WANT_WRITE: int := 3
  const SSL_ERROR_ZERO_RETURN: int := 6

  /** BUFSIZ of the C library, the default size of a read. */
  const BUFSIZ: int := 8192

  /** The return value of a provider call and the SSL_get_error code the
      provider gives for it (consulted only when the call did not succeed). */
  datatype Call = Call(rv: int, err: int)

  /** The call would block and is to be retried when the socket is ready. */
  predicate WouldBlock(err: int) {
    err == SSL_ERROR_WANT_READ || err == SSL_ERROR_WANT_WRITE
  }

  /** The handshake function a connection still has to run: SSL_connect for
      a connection made by a client, SSL_accept for one made by a server. */
  datatype HandshakeFn = SslConnect | SslAccept

  /** What a failed handshake step reports, by role. */
  function HandshakeStep(fn: HandshakeFn): Step {
    match fn
    case SslConnect => Step("SSL_connect", "failed to initiate SSL/TLS handshake with server")
    case SslAccept => Step("SSL_accept", "failed to initiate SSL/TLS handshake with client")
  }

  // ---------------------------------------------------------------------------
  // The lifecycle on abstract states
  // ---------------------------------------------------------------------------

  /** The three fields of tls_ctx_t: whether a session is held, the handshake
      still to run, and whether the reference to the parent configuration is
      held. */
  datatype CtxState = CtxState(open: bool, handshake: Option<HandshakeFn>, parentHeld: bool)

  /** The states the code can reach: a closed connection has neither
      handshake nor parent reference, an open one holds its parent. */
  predicate WellFormed(s: CtxState) {
    (!s.open ==> s.handshake == None) && (s.open <==> s.parentHeld)
  }

  const CLOSED: CtxState := CtxState(false, None, false)

  /** The new state and the Lua results of one operation. */
  datatype Reply = Reply(state: CtxState, rets: seq<Value>)

  /** handshake_lua: `pending` holds the provider errors present when the
      error is reported. */
  function HandshakeSpec(s: CtxState, call: Call, pending: seq<ErrorEntry>): (r: Reply)
    // nothing to do once the handshake is done
    ensures s.handshake == None ==> r == Reply(s, [Boolean(true)])
    // a successful step ends the handshake; any other outcome keeps it pending
    ensures s.handshake.Some? ==>
              r.state == (if call.rv == 1 then s.(handshake := None) else s)
    ensures s.handshake.Some? && call.rv == 1 ==> r.rets == [Boolean(true)]
    ensures s.handshake.Some? && call.rv != 1 && WouldBlock(call.err) ==>
              r.rets == [Boolean(false), Nil, Integer(call.err)]
    ensures s.handshake.Some? && call.rv != 1 && call.err == SSL_ERROR_ZERO_RETURN ==> r.rets == []
    ensures s.handshake.Some? && call.rv != 1 && !WouldBlock(call.err) && call.err != SSL_ERROR_ZERO_RETURN ==>
              r.rets == [Boolean(false), Failure(Aggregated(pending, HandshakeStep(s.handshake.value).op,
                                                             HandshakeStep(s.handshake.value).msg))]
  {
    match s.handshake
    case None => Reply(s, [Boolean(true)])
    case Some(fn) =>
      if call.rv == 1 then Reply(s.(handshake := None), [Boolean(true)])
      else if WouldBlock(call.err) then Reply(s, [Boolean(false), Nil, Integer(call.err)])
      else if call.err == SSL_ERROR_ZERO_RETURN then Reply(s, [])
      else Reply(s, [Boolean(false), Failure(Aggregated(pending, HandshakeStep(fn).op, HandshakeStep(fn).msg))])
  }

  /** close_lua: `shutdown` is what SSL_shutdown reports, consulted only when
      the handshake completed. */
  function CloseSpec(s: CtxState, shutdown: Call, pending: seq<ErrorEntry>): (r: Reply)
    // closing a closed connection succeeds and changes nothing
    ensures !s.open ==> r == Reply(s, [Boolean(true)])
    // only a shutdown that would block keeps the connection open
    ensures s.open ==>
              (r.state == s <==> s.handshake == None && shutdown.rv < 0 && WouldBlock(shutdown.err))
    ensures s.open && r.state == s ==> r.rets == [Boolean(false), Nil, Integer(shutdown.err)]
    // otherwise the session and the parent reference are given up, and true
    // is returned, with the shutdown error when there was one
    ensures s.open && r.state != s ==> r.state == CLOSED && |r.rets| >= 1 && r.rets[0] == Boolean(true)
    ensures s.open && r.state != s ==>
              (|r.rets| == 2 <==> s.handshake == None && shutdown.rv < 0)
    ensures s.open && |r.rets| == 2 && r.state != s ==>
              r.rets[1] == Failure(Aggregated(pending, "SSL_shutdown", "failed to shutdown SSL context"))
  {
    if !s.open then Reply(s, [Boolean(true)])
    else if s.handshake == None && shutdown.rv < 0 then
      if WouldBlock(shutdown.err) then Reply(s, [Boolean(false), Nil, Integer(shutdown.err)])
      else Reply(CLOSED, [Boolean(true), Failure(Aggregated(pending, "SSL_shutdown", "failed to shutdown SSL context"))])
    else Reply(CLOSED, [Boolean(true)])
  }

  /** write_lua on a buffer of `len` bytes. */
  function WriteReply(len: nat, call: Call, pending: seq<ErrorEntry>): (rets: seq<Value>)
    // n alone exactly when the whole buffer was written
    ensures |rets| == 1 <==> call.rv > 0 && call.rv == len
    // a short write reports what was written and asks to write again
    ensures call.rv > 0 && call.rv != len ==> rets == [Integer(call.rv), Nil, Integer(SSL_ERROR_WANT_WRITE)]
    ensures call.rv > 0 ==> rets[0] == Integer(call.rv)
    ensures call.rv <= 0 && WouldBlock(call.err) ==> rets == [Integer(0), Nil, Integer(call.err)]
    ensures call.rv <= 0 && call.err == SSL_ERROR_ZERO_RETURN ==> rets == []
    ensures call.rv <= 0 && !WouldBlock(call.err) && call.err != SSL_ERROR_ZERO_RETURN ==>
              rets == [Nil, Failure(Aggregated(pending, "SSL_write", "failed to write data"))]
  {
    if call.rv <= 0 then
      if WouldBlock(call.err) then [Integer(0), Nil, Integer(call.err)]
      else if call.err == SSL_ERROR_ZERO_RETURN then []
      else [Nil, Failure(Aggregated(pending, "SSL_write", "failed to write data"))]
    else if call.rv == len then [Integer(call.rv)]
    else [Integer(call.rv), Nil, Integer(SSL_ERROR_WANT_WRITE)]
  }

  /** The bytes of a `len`-byte buffer a caller still has to send after a
      write reported `rets`; None when the write ended the connection or
      failed. */
  function Unsent(len: nat, rets: seq<Value>): Option<int> {
    if |rets| == 1 && rets[0].Integer? then Some(len - rets[0].i)
    else if |rets| == 3 && rets[0].Integer? && rets[1] == Nil then Some(len - rets[0].i)
    else None
  }

  /** A write that does not fail reports how much of the buffer is left:
      nothing when it returns a single value, the unwritten tail when it asks
      to be retried. */
  lemma WriteLeavesTail(len: nat, call: Call, pending: seq<ErrorEntry>)
    requires call.rv <= len
    ensures var rets := WriteReply(len, call, pending);
            Unsent(len, rets).Some? <==> call.rv > 0 || WouldBlock(call.err)
    ensures var rets := WriteReply(len, call, pending);
            Unsent(len, rets).Some? ==>
              Unsent(len, rets) == Some(if call.rv > 0 then len - call.rv else len) &&
              (Unsent(len, rets) == Some(0) && call.rv > 0 <==> |rets| == 1)
  {
  }

  /** read_lua with a buffer holding `buf` once the provider returned. */
  function ReadReply(buf: seq<byte>, call: Call, pending: seq<ErrorEntry>): (rets: seq<Value>)
    requires call.rv <= |buf|
    // exactly the rv bytes the provider received
    ensures call.rv > 0 ==> rets == [Bytes(buf[..call.rv])] && |rets[0].data| == call.rv
    ensures call.rv <= 0 && WouldBlock(call.err) ==> rets == [Nil, Nil, Integer(call.err)]
    ensures call.rv <= 0 && call.err == SSL_ERROR_ZERO_RETURN ==> rets == []
    ensures call.rv <= 0 && !WouldBlock(call.err) && call.err != SSL_ERROR_ZERO_RETURN ==>
              rets == [Nil, Failure(Aggregated(pending, "SSL_read", "failed to read data"))]
  {
    if call.rv <= 0 then
      if WouldBlock(call.err) then [Nil, Nil, Integer(call.err)]
      else if call.err == SSL_ERROR_ZERO_RETURN then []
      else [Nil, Failure(Aggregated(pending, "SSL_read", "failed to read data"))]
    else [Bytes(buf[..call.rv])]
  }

  /** The size of the buffer read_lua allocates for a request of `bufsiz`. */
  function ReadBufferSize(bufsiz: int): nat {
    if bufsiz < 0 then BUFSIZ else bufsiz
  }

  // ---------------------------------------------------------------------------
  // Lifetimes
  // ---------------------------------------------------------------------------

  /** The operations that change a connection's state; reads and writes do
      not, and are left out of traces. */
  datatype Event = OnHandshake(call: Call, pending: seq<ErrorEntry>) | OnClose(call: Call, pending: seq<ErrorEntry>)

  function Next(s: CtxState, e: Event): CtxState {
    match e
    case OnHandshake(call, pending) => HandshakeSpec(s, call, pending).state
    case OnClose(call, pending) => CloseSpec(s, call, pending).state
  }

  function Run(s: CtxState, es: seq<Event>): CtxState
    decreases |es|
  {
    if es == [] then s else Run(Next(s, es[0]), es[1..])
  }

  /** The number of events of a trace that free the session and release the
      parent reference. */
  function Frees(s: CtxState, es: seq<Event>): nat
    decreases |es|
  {
    if es == [] then 0
    else (if s.open && !Next(s, es[0]).open then 1 else 0) + Frees(Next(s, es[0]), es[1..])
  }

  /** Every operation keeps a connection in a reachable state. */
  lemma {:induction false} RunWellFormed(s: CtxState, es: seq<Event>)
    requires WellFormed(s)
    ensures WellFormed(Run(s, es))
    decreases |es|
  {
    if es != [] {
      RunWellFormed(Next(s, es[0]), es[1..]);
    }
  }

  /** Over a connection's whole life the session is freed, and the parent
      reference released, exactly once: by the close that ends it, or by
      gc_lua when it is collected still open. */
  lemma {:induction false} FreedExactlyOnce(s: CtxState, es: seq<Event>)
    requires WellFormed(s) && s.open
    ensures Frees(s, es) + (if Run(s, es).open then 1 else 0) == 1
    decreases |es|
  {
    if es != [] {
      var t := Next(s, es[0]);
      if t.open {
        FreedExactlyOnce(t, es[1..]);
      } else {
        ClosedStaysClosed(t, es[1..]);
        ClosedFreesNothing(t, es[1..]);
      }
    }
  }

  /** A closed connection stays as it is: close is idempotent and handshake
      is a no-op. */
  lemma {:induction false} ClosedStaysClosed(s: CtxState, es: seq<Event>)
    requires WellFormed(s) && !s.open
    ensures Run(s, es) == s
    decreases |es|
  {
    if es != [] {
      ClosedStaysClosed(Next(s, es[0]), es[1..]);
    }
  }

  lemma {:induction false} ClosedFreesNothing(s: CtxState, es: seq<Event>)
    requires WellFormed(s) && !s.open
    ensures Frees(s, es) == 0
    decreases |es|
  {
    if es != [] {
      ClosedFreesNothing(Next(s, es[0]), es[1..]);
    }
  }

  /** The handshake to run never changes role: it is the one the connection
      was created with until it is done. */
  lemma {:induction false} HandshakeRoleFixed(s: CtxState, es: seq<Event>)
    ensures Run(s, es).handshake == None || Run(s, es).handshake == s.handshake
    decreases |es|
  {
    if es != [] {
      var t := Next(s, es[0]);
      HandshakeRoleFixed(t, es[1..]);
    }
  }

  /** Once the handshake is done, every later handshake call returns true
      without touching the session. */
  lemma {:induction false} HandshakeDoneStaysDone(s: CtxState, es: seq<Event>, call: Call, pending: seq<ErrorEntry>)
    requires s.handshake == None
    ensures Run(s, es).handshake == None
    ensures HandshakeSpec(Run(s, es), call, pending) == Reply(Run(s, es), [Boolean(true)])
    decreases |es|
  {
    if es != [] {
      HandshakeDoneStaysDone(Next(s, es[0]), es[1..], call, pending);
    }
  }

  // ---------------------------------------------------------------------------
  // Peer verification settings of connect_lua
  // ---------------------------------------------------------------------------

  const X509_V_ERR_CERT_NOT_YET_VALID: int := 9
  const X509_V_ERR_CERT_HAS_EXPIRED: int := 10

  /** noverify_time_cb: a verification result with the two validity-period
      errors forgiven. */
  function NoverifyTime(preverifyOk: int, error: int): (ok: int)
    // an accepted certificate stays accepted
    ensures preverifyOk != 0 ==> ok == preverifyOk
    // a rejection is overturned exactly for an expired or not yet valid certificate
    ensures preverifyOk == 0 ==>
              (ok != 0 <==> error == X509_V_ERR_CERT_HAS_EXPIRED || error == X509_V_ERR_CERT_NOT_YET_VALID)
    ensures ok != preverifyOk ==> ok == 1
  {
    if preverifyOk == 0 && (error == X509_V_ERR_CERT_HAS_EXPIRED || error == X509_V_ERR_CERT_NOT_YET_VALID) then 1
    else preverifyOk
  }

  /** The verification mode connect_lua sets: no verification when
      `noverify_cert`, otherwise peer verification, forgiving validity-period
      errors when `noverify_time`. */
  function VerifyModeOf(noverifyTime: bool, noverifyCert: bool): (m: VerifyMode)
    ensures m == VerifyNone <==> noverifyCert
    ensures m == VerifyPeerIgnoreTime <==> !noverifyCert && noverifyTime
    ensures m == VerifyPeer <==> !noverifyCert && !noverifyTime
  {
    if noverifyCert then VerifyNone
    else if noverifyTime then VerifyPeerIgnoreTime
    else VerifyPeer
  }

  /** The name sent as Server Name Indication: the server name argument,
      unless it is absent, empty, or an IPv4 or IPv6 address (as inet_pton
      parses them). */
  function SniName(servername: Option<string>, ipv4: string -> bool, ipv6: string -> bool): (r: Option<string>)
    ensures r.Some? <==>
              servername.Some? && |servername.value| > 0 && !ipv4(servername.value) && !ipv6(servername.value)
    ensures r.Some? ==> r == servername
  {
    if servername.Some? && |servername.value| > 0 && !ipv4(servername.value) && !ipv6(servername.value)
    then servername else None
  }

  /** The host name the peer certificate is checked against: the SNI name,
      unless `noverify_name`. */
  function VerifyHost(sni: Option<string>, noverifyName: bool): (r: Option<string>)
    ensures r.Some? <==> sni.Some? && !noverifyName
    ensures r.Some? ==> r == sni
  {
    if noverifyName then None else sni
  }

  /** An address literal is never sent as SNI nor checked as a host name. */
  lemma AddressesNotNamed(servername: string, ipv4: string -> bool, ipv6: string -> bool, noverifyName: bool)
    requires ipv4(servername) || ipv6(servername)
    ensures SniName(Some(servername), ipv4, ipv6) == None
    ensures VerifyHost(SniName(Some(servername), ipv4, ipv6), noverifyName) == None
  {
  }

  // ---------------------------------------------------------------------------
  // Creation
  // ---------------------------------------------------------------------------

  /** What the provider reports to the fallible steps of connect_lua. */
  datatype ConnectProvider = ConnectProvider(
    sslNewOk: bool,      // SSL_new
    setFdOk: bool,       // SSL_set_fd
    appDataOk: bool,     // SSL_set_app_data
    hostNameOk: bool,    // SSL_set_tlsext_host_name
    set1HostOk: bool)    // SSL_set1_host

  /** The failing steps shared by accept_lua and connect_lua. */
  const SESSION_STEPS: seq<Step> := [
    Step("SSL_new", "failed to create SSL context"),
    Step("SSL_set_fd", "failed to set file descriptor")]

  /** The failing steps of connect_lua, in order. */
  const CONNECT_STEPS: seq<Step> := SESSION_STEPS + [
    Step("SSL_set_app_data", "failed to set app data"),
    Step("SSL_set_tlsext_host_name", "failed to set server name indication (SNI)"),
    Step("SSL_set1_host", "failed to set hostname for verification")]

  /** The outcome of each step of connect_lua; the SNI steps are skipped,
      and pass, without an SNI name, and so is the host name step with
      `noverify_name`. */
  function ConnectOks(p: ConnectProvider, sni: Option<string>, noverifyName: bool): (oks: seq<bool>)
    ensures |oks| == |CONNECT_STEPS|
  {
    [p.sslNewOk, p.setFdOk, p.appDataOk, sni.None? || p.hostNameOk, sni.None? || noverifyName || p.set1HostOk]
  }

  /** A net.tls.context (tls_ctx_t): a provider session, the handshake still
      to run, and the reference that keeps the parent configuration alive. */
  class Context {
    var ssl: Session?
    var handshakeCb: Option<HandshakeFn>
    var parentRef: Ref?

    function State(): CtxState
      reads this
    {
      CtxState(ssl != null, handshakeCb, parentRef != null)
    }

    ghost predicate Valid()
      reads this, ssl, parentRef
    {
      WellFormed(State()) &&
      (ssl != null ==> !ssl.freed) &&
      (parentRef != null ==> parentRef.live)
    }

    constructor (ssl: Session, fn: HandshakeFn, parentRef: Ref)
      requires !ssl.freed && parentRef.live
      ensures this.ssl == ssl && handshakeCb == Some(fn) && this.parentRef == parentRef
      ensures Valid()
    {
      this.ssl := ssl;
      handshakeCb := Some(fn);
      this.parentRef := parentRef;
    }

    /** handshake_lua: one step of the handshake; `call` is what the
        handshake function reports and `recorded` the errors the provider
        records while it runs. The ghost `called` tells whether the provider
        was called at all. */
    method Handshake(call: Call, recorded: seq<ErrorEntry>, q: ErrorQueue)
      returns (rets: seq<Value>, ghost called: bool)
      requires Valid()
      modifies this, q
      ensures Valid() && ssl == old(ssl) && parentRef == old(parentRef)
      ensures called <==> old(handshakeCb).Some?
      ensures !called ==> q.pending == old(q.pending)
      // the provider's queue is cleared before the call; an error report drains it
      ensures called ==> q.pending == if |rets| == 2 then [] else recorded
      ensures State() == HandshakeSpec(old(State()), call, recorded).state
      ensures rets == HandshakeSpec(old(State()), call, recorded).rets
    {
      if handshakeCb == None {
        return [Boolean(true)], false;
      }
      var fn := handshakeCb.value;
      q.Clear();
      q.Record(recorded);
      assert q.pending == recorded;
      if call.rv != 1 {
        if WouldBlock(call.err) {
          return [Boolean(false), Nil, Integer(call.err)], true;
        } else if call.err == SSL_ERROR_ZERO_RETURN {
          return [], true;
        }
        var e, _ := q.PushError(HandshakeStep(fn).op, HandshakeStep(fn).msg);
        return [Boolean(false), Failure(e)], true;
      }
      handshakeCb := None;
      return [Boolean(true)], true;
    }

    /** write_lua: `call` is what SSL_write reports for `data`. */
    method Write(data: seq<byte>, call: Call, recorded: seq<ErrorEntry>, q: ErrorQueue) returns (rets: seq<Value>)
      requires Valid() && ssl != null
      modifies q
      ensures rets == WriteReply(|data|, call, old(q.pending) + recorded)
      ensures q.pending == if |rets| == 2 then [] else old(q.pending) + recorded
    {
      q.Record(recorded);
      if call.rv <= 0 {
        if WouldBlock(call.err) {
          return [Integer(0), Nil, Integer(call.err)];
        } else if call.err == SSL_ERROR_ZERO_RETURN {
          return [];
        }
        var e, _ := q.PushError("SSL_write", "failed to write data");
        return [Nil, Failure(e)];
      }
      if call.rv == |data| {
        return [Integer(call.rv)];
      }
      return [Integer(call.rv), Nil, Integer(SSL_ERROR_WANT_WRITE)];
    }

    /** read_lua: `bufsiz` is the optional size argument, `buf` the buffer
        once SSL_read, reporting `call`, has filled it. */
    method Read(bufsiz: Option<int>, buf: seq<byte>, call: Call, recorded: seq<ErrorEntry>, q: ErrorQueue)
      returns (rets: seq<Value>)
      requires Valid() && ssl != null
      requires |buf| == ReadBufferSize(OrDefault(bufsiz, BUFSIZ))
      // SSL_read is asked for bufsiz bytes as a C int, and reads no more
      // than that or than the buffer holds
      requires call.rv <= Int32Of(OrDefault(bufsiz, BUFSIZ)) && call.rv <= |buf|
      modifies q
      ensures rets == ReadReply(buf, call, old(q.pending) + recorded)
      ensures q.pending == if |rets| == 2 then [] else old(q.pending) + recorded
    {
      q.Record(recorded);
      if call.rv <= 0 {
        if WouldBlock(call.err) {
          return [Nil, Nil, Integer(call.err)];
        } else if call.err == SSL_ERROR_ZERO_RETURN {
          return [];
        }
        var e, _ := q.PushError("SSL_read", "failed to read data");
        return [Nil, Failure(e)];
      }
      return [Bytes(buf[..call.rv])];
    }

    /** close_lua: `shutdown` is what SSL_shutdown reports; the ghost
        `shutdownCalled` tells whether it was called. */
    method Close(shutdown: Call, recorded: seq<ErrorEntry>, q: ErrorQueue)
      returns (rets: seq<Value>, ghost shutdownCalled: bool)
      requires Valid()
      modifies this, ssl, parentRef, q
      ensures Valid()
      ensures shutdownCalled <==> old(ssl) != null && old(handshakeCb) == None
      ensures !shutdownCalled ==> q.pending == old(q.pending)
      // the shutdown's errors join those already pending; an error report drains them
      ensures shutdownCalled ==> q.pending == if |rets| == 2 then [] else old(q.pending) + recorded
      ensures State() == CloseSpec(old(State()), shutdown, old(q.pending) + recorded).state
      ensures rets == CloseSpec(old(State()), shutdown, old(q.pending) + recorded).rets
      ensures old(ssl) != null && ssl == null ==> old(ssl).freed && !old(parentRef).live
      ensures ssl != null ==> ssl == old(ssl) && parentRef == old(parentRef)
      // a close that keeps the connection leaves its session as it was
      ensures ssl != null ==>
                ssl.freed == old(ssl.freed) && ssl.owner == old(ssl.owner) && ssl.fd == old(ssl.fd) &&
                ssl.sniName == old(ssl.sniName) && ssl.verifyHost == old(ssl.verifyHost) &&
                ssl.verify == old(ssl.verify)
    {
      if ssl == null {
        return [Boolean(true)], false;
      }
      var failed := false;
      shutdownCalled := false;
      if handshakeCb == None {
        shutdownCalled := true;
        q.Record(recorded);
        if shutdown.rv < 0 {
          if WouldBlock(shutdown.err) {
            return [Boolean(false), Nil, Integer(shutdown.err)], true;
          }
          failed := true;
        }
      }
      var s := ssl;
      ssl := null;
      handshakeCb := None;
      s.Free();
      parentRef.Release();
      parentRef := null;
      if failed {
        var e, _ := q.PushError("SSL_shutdown", "failed to shutdown SSL context");
        return [Boolean(true), Failure(e)], true;
      }
      return [Boolean(true)], shutdownCalled;
    }

    /** gc_lua: frees the session and releases the parent reference only if
        close has not already done so. */
    method Collect()
      requires Valid()
      modifies ssl, parentRef
      ensures ssl != null ==> ssl.freed && parentRef != null && !parentRef.live
    {
      if ssl != null {
        ssl.Free();
        parentRef.Release();
      }
    }
  }

  /** connect_lua: a client connection on `fd` to `servername`; the first
      failing step frees the half-built session and reports its error,
      folding in `recorded`, the errors that step's provider call records. */
  method Connect(parent: object, fd: int, servername: Option<string>, noverifyName: bool, noverifyTime: bool,
                 noverifyCert: bool, ipv4: string -> bool, ipv6: string -> bool, p: ConnectProvider,
                 recorded: seq<ErrorEntry>, q: ErrorQueue)
    returns (ctx: Context?, err: Option<Error>)
    modifies q
    ensures ctx == null <==> err.Some?
    ensures var k := FirstFailing(ConnectOks(p, SniName(servername, ipv4, ipv6), noverifyName));
            k < |CONNECT_STEPS| ==>
              ctx == null && q.pending == [] &&
              err == Some(Aggregated(old(q.pending) + recorded, CONNECT_STEPS[k].op, CONNECT_STEPS[k].msg))
    ensures FirstFailing(ConnectOks(p, SniName(servername, ipv4, ipv6), noverifyName)) == |CONNECT_STEPS| ==>
              ctx != null
    ensures ctx != null ==>
              fresh(ctx) && fresh(ctx.ssl) && fresh(ctx.parentRef) && ctx.Valid() && ctx.ssl != null &&
              ctx.handshakeCb == Some(SslConnect) && q.pending == old(q.pending) &&
              ctx.ssl.owner == parent && ctx.ssl.fd == Int32Of(fd) &&
              ctx.ssl.sniName == SniName(servername, ipv4, ipv6) &&
              ctx.ssl.verifyHost == VerifyHost(SniName(servername, ipv4, ipv6), noverifyName) &&
              ctx.ssl.verify == VerifyModeOf(noverifyTime, noverifyCert)
  {
    var sni := SniName(servername, ipv4, ipv6);
    var k := 0;  // the step that failed, |CONNECT_STEPS| when none did
    if p.sslNewOk {
      k := 1;
      if p.setFdOk {
        k := 2;
        if p.appDataOk {
          k := 3;
          if sni.None? || p.hostNameOk {
            k := 4;
            if sni.None? || noverifyName || p.set1HostOk {
              k := 5;
            }
          }
        }
      }
    }
    FirstFailingAt(ConnectOks(p, sni, noverifyName), k);
    var s := null;
    if k > 0 {
      s := new Session(parent);
    }
    if k < |CONNECT_STEPS| {
      if s != null {
        s.Free();
      }
      q.Record(recorded);
      var e, _ := q.PushError(CONNECT_STEPS[k].op, CONNECT_STEPS[k].msg);
      return null, Some(e);
    }
    s.fd := Int32Of(fd);  // fd is a C int
    s.sniName := sni;
    s.verifyHost := VerifyHost(sni, noverifyName);
    s.verify := VerifyModeOf(noverifyTime, noverifyCert);
    var r := new Ref();
    ctx := new Context(s, SslConnect, r);
    return ctx, None;
  }

  /** accept_lua: a server connection on `fd`; `recorded` holds the errors
      the failing provider call records. */
  method Accept(parent: object, fd: int, sslNewOk: bool, setFdOk: bool, recorded: seq<ErrorEntry>, q: ErrorQueue)
    returns (ctx: Context?, err: Option<Error>)
    modifies q
    ensures ctx == null <==> err.Some?
    ensures var k := FirstFailing([sslNewOk, setFdOk]);
            k < |SESSION_STEPS| ==>
              ctx == null && q.pending == [] &&
              err == Some(Aggregated(old(q.pending) + recorded, SESSION_STEPS[k].op, SESSION_STEPS[k].msg))
    ensures sslNewOk && setFdOk ==> ctx != null
    ensures ctx != null ==>
              fresh(ctx) && fresh(ctx.ssl) && fresh(ctx.parentRef) && ctx.Valid() && ctx.ssl != null &&
              ctx.handshakeCb == Some(SslAccept) && q.pending == old(q.pending) &&
              ctx.ssl.owner == parent && ctx.ssl.fd == Int32Of(fd)
  {
    if !sslNewOk || !setFdOk {
      var k := if sslNewOk then 1 else 0;
      FirstFailingAt([sslNewOk, setFdOk], k);
      if sslNewOk {
        var s := new Session(parent);
        s.Free();
      }
      q.Record(recorded);
      var e, _ := q.PushError(SESSION_STEPS[k].op, SESSION_STEPS[k].msg);
      return null, Some(e);
    }
    var s := new Session(parent);
    s.fd := Int32Of(fd);  // fd is a C int
    var r := new Ref();
    ctx := new Context(s, SslAccept, r);
    return ctx, None;
  }
}
