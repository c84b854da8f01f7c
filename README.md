# lua-net TLS core in Dafny

This Dafny model covers the TLS binding of lua-net: `net.tls.client`, `net.tls.server` and `net.tls.context`. The connection object runs a non-blocking handshake, reads, writes, closes and is collected. Client and server configurations build a provider context in a fixed order of steps. The client verifies stapled OCSP responses. The server hands Server Name Indication to a Lua callback. Provider errors are folded into one nested error value.

The TLS provider (OpenSSL) is an oracle. Each provider call is replaced by the outcome it reports, passed in as a parameter:

- a success flag;
- a return value with its `SSL_get_error` code (`Call`);
- the errors it records, folded into the error that a failing step reports;
- the certificate-status facts of an OCSP response.

Other modelling choices:

- Lua results are sequences of `Value`.
- The provider's error queue is the class `Tls.ErrorQueue`.
- Provider sessions and registry references are the classes `Tls.Session` and `Tls.Ref`. Their `Free` and `Release` methods cannot be called twice.
- Provider contexts are values of `Tls.SslCtx`, held in mutable fields of the configuration classes.

Modules, one per source file:

- `Tls` (`tls.dfy`) covers `src/tls.h`: the protocol and cipher tables, `tls_push_error`, the shared handles and ordered steps.
- `TlsContext` (`tls_context.dfy`) covers `src/tls_context.c`. The lifecycle is first given as pure step functions on `CtxState`, the three fields of `tls_ctx_t`. The class `Context` then performs each step on its fields and is proved to follow the step functions. Trace lemmas prove what holds over a connection's whole life.
- `TlsClient` (`tls_client.dfy`) covers `src/tls_client.c`.
- `TlsServer` (`tls_server.dfy`) covers `src/tls_server.c`.

Points of the code's behaviour that a reader might not expect, which the model follows:

- The cipher lists are those in `src/tls.h:109-117`: "HIGH:!aNULL", "HIGH:MEDIUM:!aNULL" and "ALL:!aNULL:!eNULL".
- The OCSP check finds the issuer in the chain and computes the certificate id before it checks the response status and signature (`src/tls_client.c:248-258`).
- `write` and `read` do not clear the provider error queue before the call, and their would-block paths leave the recorded errors pending. Only `handshake` clears it (`src/tls_context.c:35`).
- `new` of `net.tls.client` and `set_verify_depth` store their integer arguments in C `int`s (`src/tls_client.c:113`, `src/tls_client.c:327-328`). A cache timeout of 2^32 seconds therefore turns the session cache off.
- `close` treats an `SSL_shutdown` result of 0 (shutdown not yet mutual) as success, not as would-block (`src/tls_context.c:155`).

The state-changing methods follow the code as written, including the two defects under "## Findings". The corrected rules are stated beside them as pure functions, and their intended properties are proved.

## Model

| member | source | states |
|---|---|---|
| `Tls.Int32Of` | src/tls_client.c:113 | The C int a Lua integer becomes: the unique value in [-2^31, 2^31) congruent to it modulo 2^32, and the value itself when it fits. |
| `Tls.ProtocolRange` | src/tls.h:143-177 | The minimum version is between TLS 1.0 and 1.3. tlsv1.0 to tlsv1.3 pin min = max to that version. tlsv1 leaves the maximum open from TLS 1.0. Default and every unknown code give TLS 1.2 and up with no maximum. |
| `Tls.SetProtocolVersions` | src/tls.h:179-180 | Success iff the minimum succeeds and, for a bounded range only, the maximum succeeds. The maximum is attempted only after the minimum succeeded. |
| `Tls.CipherList` | src/tls.h:101-122 | legacy gives "HIGH:MEDIUM:!aNULL" and all gives "ALL:!aNULL:!eNULL". Default, secure and any unknown code give "HIGH:!aNULL". |
| `Tls.ErrorQueue.PushError` | src/tls.h:183-234 | Drains the queue completely. The Lua stack block lists the drained messages newest first. The resulting error is `Aggregated` of the old queue. |
| `Tls.AggregatedCauses` | src/tls.h:220-233 | An empty queue gives exactly one message, from the default op and message. Otherwise there is one message per drained entry, oldest as the innermost cause. |
| `Tls.ErrorQueue.DrainMessages` | src/tls.h:189-202 | Empties the queue. The block pushed above the stack top holds the drained messages newest first. |
| `Tls.WrapBlock` | src/tls.h:229-233 | Wrapping a non-empty block from its top slot down yields a chain whose outermost message is the block's first slot and whose innermost cause is its last slot. |
| `Tls.CausesOfNest` | src/tls.h:229-233 | Reading the causes of the nested error gives back the wrapped messages in order. |
| `Tls.Session.Free` | src/tls_context.c:174 | SSL_free marks the session freed. It cannot be applied to a freed session, and nothing else about the session changes. |
| `Tls.Ref.Release` | src/tls_context.c:175 | lauxh_unref releases a held reference; releasing twice is excluded. |
| `TlsContext.HandshakeSpec` | src/tls_context.c:25-68 | With no handshake pending: true, state unchanged. rv = 1 ends the handshake and answers true. Would-block gives (false, nil, code) and ZERO_RETURN gives no values, both state unchanged. Any other error gives (false, err), named SSL_connect or SSL_accept by the pending role. |
| `TlsContext.CloseSpec` | src/tls_context.c:140-184 | A closed connection answers true, unchanged. Only a would-block shutdown after a completed handshake keeps it open, answering (false, nil, code). Otherwise the state becomes closed, with the reference released and true returned, plus the shutdown error iff the handshake had completed and shutdown failed. |
| `TlsContext.WriteReply` | src/tls_context.c:70-106 | n alone iff rv > 0 and rv equals the buffer length. A short write gives (n, nil, WANT_WRITE). Would-block gives (0, nil, code), ZERO_RETURN no values, and any other error (nil, SSL_write error). |
| `TlsContext.WriteLeavesTail` | src/tls_context.c:98-105 | A write that does not fail tells the caller exactly how many bytes remain: len - rv, or len on would-block. A single value means none remain. |
| `TlsContext.ReadReply` | src/tls_context.c:108-138 | rv > 0 returns exactly the first rv bytes of the buffer. Would-block gives (nil, nil, code), ZERO_RETURN no values, and any other error (nil, SSL_read error). |
| `TlsContext.RunWellFormed` | src/tls_context.c:64-66 | Every sequence of handshakes and closes preserves the reachable states: closed implies no handshake and no parent reference, and open implies the reference is held. |
| `TlsContext.FreedExactlyOnce` | src/tls_context.c:171-175 | Over any life of an open connection, the session is freed and the parent released exactly once: by one close, or by gc when the connection is still open at the end. |
| `TlsContext.ClosedStaysClosed` | src/tls_context.c:147-150 | Once closed, any further handshakes and closes leave the state as it is, so close is idempotent. |
| `TlsContext.ClosedFreesNothing` | src/tls_context.c:147-150 | Once closed, no further event frees or releases anything. |
| `TlsContext.HandshakeRoleFixed` | src/tls_context.c:54-65 | The pending handshake is always the role the connection was created with, or none. |
| `TlsContext.HandshakeDoneStaysDone` | src/tls_context.c:30-33 | After one successful handshake, every later handshake call answers true and changes nothing, whatever the events in between. |
| `TlsContext.NoverifyTime` | src/tls_context.c:234-245 | An accepted certificate stays accepted. A rejection becomes 1 exactly for CERT_HAS_EXPIRED and CERT_NOT_YET_VALID. |
| `TlsContext.VerifyModeOf` | src/tls_context.c:296-305 | VERIFY_NONE iff noverify_cert; peer verification with the time filter iff only noverify_time; plain peer verification otherwise. |
| `TlsContext.SniName` | src/tls_context.c:280-283 | The name is sent as SNI iff it is present, non-empty, and neither an IPv4 nor an IPv6 literal. |
| `TlsContext.VerifyHost` | src/tls_context.c:288-293 | The host name is checked iff an SNI name is set and noverify_name is false. |
| `TlsContext.AddressesNotNamed` | src/tls_context.c:280-294 | An address literal is never sent as SNI and never checked as a host name. |
| `TlsContext.Context.constructor` | src/tls_context.c:211-221 | A context holds a live session, its role's handshake and a held parent reference. |
| `TlsContext.Context.Handshake` | src/tls_context.c:25-68 | Follows `HandshakeSpec` after clearing the queue. With no handshake pending, the provider is not called and the queue is untouched. When the provider is called, the queue afterwards is empty if an error was reported, and otherwise holds exactly the errors recorded during the call. The session and the reference are unchanged. |
| `TlsContext.Context.Write` | src/tls_context.c:70-106 | Returns `WriteReply` of the buffer length for the old queue plus the recorded errors. The queue is drained only on the error path. |
| `TlsContext.Context.Read` | src/tls_context.c:108-138 | Returns `ReadReply` of the filled buffer. The buffer is BUFSIZ when the size is negative, and the default request is BUFSIZ. SSL_read receives the request narrowed to a C int. |
| `TlsContext.Context.Close` | src/tls_context.c:140-184 | Follows `CloseSpec`. SSL_shutdown is called iff a session is held and the handshake completed. When SSL_shutdown is called, the queue afterwards is empty if an error was reported, and otherwise holds the old errors followed by those the call recorded. Otherwise the queue is untouched. A close that ends the connection frees the old session and releases the old reference. A close that keeps it leaves every field of the session unchanged. |
| `TlsContext.Context.Collect` | src/tls_context.c:192-200 | Frees and releases only when a session is still held. After close it does nothing, so there is no double free. |
| `TlsContext.Connect` | src/tls_context.c:247-319 | Fails at the first failing step, in order: SSL_new, SSL_set_fd, SSL_set_app_data, SNI, host name. The last two are skipped without an SNI name, and the host name step also with noverify_name. On failure: nil and that step's error, which folds in the errors already pending and those the failing call recorded. A connection is returned iff every step passed: a fresh connection in the client role, with the fd as a C int, the SNI name, verified host and verify mode as decided. |
| `TlsContext.Accept` | src/tls_context.c:202-232 | Fails at SSL_new, then SSL_set_fd, with nil and that step's error, which folds in the pending and recorded errors. A connection is returned iff both steps passed: a fresh connection in the server role, with the fd as a C int. |
| `TlsClient.ClientSessionPolicy` | src/tls_client.c:371-384 | Sessions are resumable iff cache_timeout > 0. Otherwise the cache is off, with no tickets and 0 tickets issued. With a positive timeout: a client cache with that timeout, the size set iff cache_size > 0, and 2 tickets. |
| `TlsClient.NewClientCtx` | src/tls_client.c:351-404 | The context of a new client: the protocol range and cipher list from the tables, no auto-retry, partial and moving-buffer writes, the session policy, server preference iff not prefer_client_ciphers, default verify paths, and OCSP stapling on. |
| `TlsClient.NewClientDefaults` | src/tls_client.c:327-329 | Without the optional arguments a client keeps no sessions and prefers the server's cipher order. |
| `TlsClient.ErrorCallbackOf` | src/tls_client.c:407-409 | As written, a reference is taken iff a sixth argument was passed, and for an explicit nil it is a reference to nil. |
| `TlsClient.ErrorCallbackIntended` | src/tls_client.c:335-338 | The corrected rule: only a function is kept; nil and absence both mean no callback. |
| `TlsClient.PrintError` | src/tls_client.c:266-282 | When a reference is held, the callback is called once with (op, msg). A successful call keeps stderr silent. Otherwise "op: msg" is the last stderr line, preceded by the call failure iff a call was made and failed. |
| `TlsClient.NilCallbackAsWritten` | src/tls_client.c:268-281 | With an explicit nil callback, every diagnostic first produces a failed call of nil on stderr. |
| `TlsClient.NilCallbackIntended` | src/tls_client.c:335-338 | Under the corrected rule, nil behaves as no callback: only "op: msg" on stderr. |
| `TlsClient.AddCrls` | src/tls_client.c:57-66 | Entries without a CRL are skipped. The loop stops at the first CRL the store refuses, and the CRLs added before it stay. Without a refusal, every CRL has been added, in order. |
| `TlsClient.CrlBioAsWritten` | src/tls_client.c:34-37 | As written, the memory BIO is built with length 0, so it exposes no bytes whatever the blob. |
| `TlsClient.CrlBioIntended` | src/tls_client.c:35-37 | The corrected BIO exposes the whole blob. |
| `TlsClient.AddCrlsAcceptsBeforeStop` | src/tls_client.c:57-66 | The loop stops at the first refusal: every CRL before the stop was accepted by the store as it stood when that CRL was offered. |
| `TlsClient.AddAll` | src/tls_client.c:57-66 | The loop over the PEM entries leaves the store and the failure flag that `AddCrls` defines. |
| `TlsClient.SetCrlsOutcome` | src/tls_client.c:31-92 | The store only grows, and a failure keeps the CRLs added before it. CRL checking is switched on only on full success. Success iff the BIO, the PEM read, every add and the flags succeed, and then every CRL of the blob has been appended. |
| `TlsClient.SetCrlsAsWrittenIgnoresBlob` | src/tls_client.c:34-75 | As written, whatever the blob holds, the call succeeds, adds nothing and switches CRL checking on. |
| `TlsClient.SetCrlsIntendedInstallsBlob` | src/tls_client.c:49-75 | With the corrected BIO, a successful call appends exactly the blob's CRLs, in order, and switches checking on. |
| `TlsClient.ClientConfig.constructor` | src/tls_client.c:341-344 | A fresh client context and no error callback reference. |
| `TlsClient.ClientConfig.SetVerifyDepth` | src/tls_client.c:110-116 | Sets the verify depth to the argument as a C int, and nothing else. |
| `TlsClient.ClientConfig.LoadVerifyLocations` | src/tls_client.c:94-108 | The CA file is loaded first, and the CA directory is added only after it. A failing directory leaves the file loaded. True iff both succeed. Otherwise (false, err), where err folds in the pending errors and those the call recorded, and the queue is drained. |
| `TlsClient.ClientConfig.SetCrls` | src/tls_client.c:31-92 | The store and CRL flag become those of `SetCrlsOutcome` on the zero-length BIO. Returns true with the queue untouched, or (false, the first failing step's error). That error folds in the pending errors and those the failing call recorded, and the queue is drained. |
| `TlsClient.ResponseStatusName` | src/tls_client.c:158-182 | The five named statuses keep their OCSP_RESPONSE_STATUS_ names. Every other status, and only those, gets "unsupported OCSP response status". |
| `TlsClient.ResponseStatusMessage` | src/tls_client.c:155-183 | Every unsuccessful-status message starts with "invalid OCSP status: " followed by a non-empty name. |
| `TlsClient.ResponseStatusMessageShape` | src/tls_client.c:180-182 | Statuses the code does not name share the "unsupported" message. |
| `TlsClient.ResponseStatusMessagesDistinct` | src/tls_client.c:158-179 | Each named failing status has a message different from that of every other status. |
| `TlsClient.FirstIssuer` | src/tls_client.c:248-263 | The index of the first chain certificate that issued the peer certificate; no earlier one did. |
| `TlsClient.FindIssuer` | src/tls_client.c:248-250 | The loop over the chain finds `FirstIssuer`. |
| `TlsClient.OcspVerdict` | src/tls_client.c:285-304 | No staple gives 1 with no report. A failed step gives -1 with the first failing step's diagnostic, in the code's order. With all checks passed, GOOD gives 1, REVOKED gives 0, and any other status gives -1 with "unknown OCSP response status". 0 only ever means an explicit REVOKED status. |
| `TlsClient.OcspVerifyCtx.constructor` | src/tls_client.c:288 | The scratch record starts zeroed. |
| `TlsClient.OcspVerifyCtx.CheckOcspResponse` | src/tls_client.c:149-213 | Stops at the first failing check, in order: response status, get1_basic, basic_verify, find_status, check_validity(60, 1209600). It reports -1 with that check's diagnostic, or 0 with the found status. |
| `TlsClient.OcspVerifyCtx.VerifyOcspResponse` | src/tls_client.c:215-264 | No staple gives 1 with no error. Otherwise it reports the first failing of all ten steps. The certificate id is computed against the first issuer in the chain. |
| `TlsClient.OcspVerifyCtx.VerifyWithChain` | src/tls_client.c:248-263 | The issuer search, the certificate id and then the checks, reporting the first failing step. |
| `TlsClient.ClientConfig.OcspVerifyCallback` | src/tls_client.c:285-320 | Returns `OcspVerdict`. The diagnostic is printed once, through `PrintError` with its (errop, errmsg), iff there is one. |
| `TlsClient.ClientConfig.Collect` | src/tls_client.c:124-130 | Frees the context and releases the callback reference if one is held. |
| `TlsClient.WideCacheTimeoutDisablesCache` | src/tls_client.c:327-377 | A cache timeout of 2^32 becomes 0 and one of 2^31 becomes negative, so either leaves the session cache off. |
| `TlsClient.NewClient` | src/tls_client.c:322-422 | Fails at the first failing step, in order: SSL_CTX_new, protocol, cipher, verify paths, OCSP callback. On failure: nil and that step's error, which folds in the pending and recorded errors, with the context freed. On success: a new client whose context is `NewClientCtx` of the arguments, with the timeout (default 0) and cache size (default 20480) taken as C ints, and whose callback reference follows `ErrorCallbackOf`. |
| `TlsServer.ServerSessionPolicy` | src/tls_server.c:133-139 | A server cache with the given timeout and size, and no tickets. The other settings are kept. Unlike a client, a server keeps resumable sessions whatever timeout it gets. |
| `TlsServer.ClosureOf` | src/tls_server.c:66-85 | The closure passes on nil and a server. A raised error, or a value of any other type, becomes a failure. |
| `TlsServer.ClosureArgs` | src/tls_server.c:66-79 | The callback gets its bound arguments first, in order, and the requested host name last. |
| `TlsServer.SniDecision` | src/tls_server.c:25-64 | No name or an address literal gives NOACK whatever the callback would do. A failing closure gives ALERT_FATAL with INTERNAL_ERROR. nil gives NOACK. OK iff the closure gave a server, and exactly then the connection switches to it. |
| `TlsServer.NewServerCtx` | src/tls_server.c:141-202 | Certificate and key files, the protocol and cipher tables, automatic DH and server preference, on a server session policy, with no SNI hook yet. |
| `TlsServer.ServerConfig.constructor` | src/tls_server.c:154-156 | A fresh server context and no SNI reference. |
| `TlsServer.ServerConfig.SetSessionConf` | src/tls_server.c:133-139 | The context's session settings become `ServerSessionPolicy` of the old ones. |
| `TlsServer.ServerConfig.SetSniCallback` | src/tls_server.c:87-115 | For a function: the old reference is released, then a fresh one holds the closure with its bound arguments, and the hook is installed. For nil: hook and reference are cleared. Any other type: the argument error "function or nil expected, got T", and nothing changes. |
| `TlsServer.ServerConfig.ServerName` | src/tls_server.c:25-64 | Answers `SniDecision`. The callback is called, with `ClosureArgs`, iff a host name was sent. The connection's context becomes the returned server's exactly on OK. Every other field of the session is unchanged. |
| `TlsServer.ServerConfig.Collect` | src/tls_server.c:123-131 | Removes the hook and releases the closure reference, then frees the context. |
| `TlsServer.NewServer` | src/tls_server.c:141-214 | Fails at the first failing step, in order: SSL_CTX_new, certificate, key, protocol, cipher, DH auto. On failure: nil and that step's error, which folds in the pending and recorded errors, with the context freed. On success: a server with `NewServerCtx` (timeout default 300, cache default 20480). |

## Left out

- The Lua binding layer is left out: registration (`luaopen_*`), metatables, `tostring_lua`, `tls_init` and the registry mechanics. A reference is a `Ref` object that is held or released.
- Argument checking by `luaL_check*` is left out, except for `set_sni_callback`'s argument error. This covers unknown protocol or cipher names and a sixth `new` argument that is neither a function nor nil. The model takes arguments that passed those checks; protocols and ciphers are their table indices.
- OpenSSL internals are oracles: record-layer I/O, PEM and DER parsing, signature verification, `X509_check_issued`, `OCSP_check_validity` time arithmetic and `inet_pton`. Certificate files and sockets are reduced to the names and descriptors passed.
- The exact text written to stderr by `print_error`, and the `printf` of a failed SNI callback, are left out. Stderr lines are modelled as structured values.
- How `lua_error_new` formats messages is left out. The error value is modelled as its nesting of (op, message) pairs.
- The OpenSSL 1.x branch of `tls_push_error` (src/tls.h:204-216) is not modelled separately. It produces the same messages in the same order as the 3.x branch.
- Reference counting of `SSL_CTX` by `SSL_set_SSL_CTX` is left out. A session records which configuration it now belongs to.
- TlsContext.Context.Write: requires an open connection. After `close` the source passes a null session to `SSL_write`, and what happens then is the provider's behaviour.
- TlsContext.Context.Read: requires an open connection, for the same reason. It also requires that the provider reads no more bytes than the C int request and no more than the buffer holds. A size below -2^31 gets a BUFSIZ buffer but can narrow to a larger positive request; the overrun that would follow is not modelled.
- TlsContext.Connect and TlsContext.Accept: sessions whose later steps fail are created and freed inside the method. Settings applied to such a session before a later step fails are not modelled.
- TlsClient.NewClient and TlsServer.NewServer: the settings applied before a later step fails are freed with the context. The model applies them only once every step passed.
- tls_server_t's declaration is not part of this model. Its fields (the context and the SNI reference) are taken from their uses in src/tls_server.c.
- TlsClient.AddCrls: the store is a sequence, so a CRL that occurs twice in a blob is appended twice. The provider's X509_STORE_add_crl accepts such a duplicate without storing it again.
- Lua integers are 64 bits wide; the model takes any integer and narrows it only where the code stores one in a C `int`.
- `set_verify_depth` rejects a negative depth through `lauxh_checkuinteger`; the model's depth is a natural number.
- TlsClient.ClientConfig.LoadVerifyLocations: a CA file that fails partway is modelled as loading nothing; which of its certificates the provider already installed is left out.
- Concurrency and event-loop integration are left out. The code is synchronous and signals would-block.

## Findings

| source | as written | input that shows it | evidently intended | confidence | as-written member | corrected member |
|---|---|---|---|---|---|---|
| src/tls_client.c:34-37 | `BIO_new_mem_buf((void *)crls, len)` with `len` left at 0, so the BIO holds no bytes | `set_crls(pem)` with any PEM text holding CRLs: the call returns true, no CRL is added, and CRL checking is switched on | the BIO built over the whole string (`luaL_checklstring` filling `len`), so the blob's CRLs are installed | not executed | `TlsClient.SetCrlsAsWrittenIgnoresBlob` | `TlsClient.SetCrlsIntendedInstallsBlob` |
| src/tls_client.c:407-409 | `if (narg >= 6)` takes a reference to argument 6 even when it is nil | `new("default", "default", 0, 0, false, nil)`, then a stapled OCSP response that fails a check: `print_error` calls nil, the call fails, and stderr shows that failure before the diagnostic | keep the reference only for a function, as the check at line 335 does | not executed; assumes the registry reference to nil reads back nil | `TlsClient.NilCallbackAsWritten` | `TlsClient.NilCallbackIntended` |
