# s2n-tls certificate chain-and-key behaviour and tcpdump fragment scan

A Dafny model of two small pieces of s2n-tls, as its tests pin them down.

**Certificate chains on a configuration** (`tests/unit/s2n_cert_chain_and_key_test.c`):

- The **ownership guard.** A configuration records who owns its chain-and-key objects. It starts `S2N_NOT_OWNED`. The library API `s2n_config_add_cert_chain_and_key` builds a chain from PEM text and makes the configuration `S2N_LIB_OWNED`. The store API `s2n_config_add_cert_chain_and_key_to_store` takes a chain the application built and makes it `S2N_APP_OWNED`. Once one API has succeeded, the other fails with `S2N_ERR_CERT_OWNERSHIP`. The library API also allows only one default chain per authentication type (`S2N_ERR_MULTIPLE_DEFAULT_CERTIFICATES_PER_AUTH_TYPE`). A failed call changes nothing.
  - Pure transition functions: `CertConfig.AddChainAndKey` and `CertConfig.AddChainAndKeyToStore`.
  - A `Config` class whose methods are proved against those functions.
  - Lemmas over any sequence of calls: consistency is kept, ownership is final once set, and the two APIs are never both successful on one configuration.
- The **tiebreak.** Several chains can be registered under one server name, the SNI value of section 3 of RFC 6066. The configuration's tiebreak callback then reduces them pairwise, left to right in registration order. The test callback keeps the chain whose context holds the strictly higher int priority, with ties going to its second argument, and counts its calls. The model proves three things:
  - the reduction calls the callback once per candidate after the first;
  - it returns the last-registered candidate of highest priority;
  - the test's 100 tied chains with priorities 0..99 give 99 calls and the last chain.
- The **chain shape.** A loaded chain is a linked list leaf → intermediate → root. Each node carries `self_signed`, `signature_nid` and `signature_digest_nid`. Loading is not modelled: the loaded chain's shape is assumed and its consequences along `next` are proved. At line 211 the test's non-null check names the intermediate again where the root is evidently meant; the model states the root check (`Follow(certs, 2) == Some(2)`).

**Fragmented-packet detection** (`find_fragmented_packet` in `tests/integrationv2/test_dynamic_record_sizes.py`): tcpdump's output is split into lines, and each line into space-separated pieces. A packet length is read from one of two places:

- after a final `length` piece;
- from the piece before last, without its last character (the colon), when `length` is third from last.

The answer is whether some packet is longer than the 1500-byte MTU. Python's `str.split` is modelled with its inverse `join` (round trips both ways). Python's `int()` is modelled with decimal printing (round trip). The scan is a loop proved against a recursive specification, and that specification is characterised by existential lemmas.

Files: `wrappers.dfy` (Option, Result), `certs.dfy` (module `Certs`), `cert_config.dfy` (module `CertConfig`), `cert_tiebreak.dfy` (module `Tiebreak`), `cert_scenarios.dfy` (module `CertScenarios`, the call sequences of the unit test), `tcpdump_scan.dfy` (module `TcpdumpScan`).

## Model

| member | source | states |
|---|---|---|
| `Certs.FollowVisitsInOrder` | tests/unit/s2n_cert_chain_and_key_test.c:199-212 | `Follow`, the walk along `next` from the head, visits node k after k hops, and ends (null) after as many hops as there are certificates |
| `Certs.FindRoot` | tests/unit/s2n_cert_chain_and_key_test.c:210-213 | walking `next` pointers from the leaf stops at the last certificate, reached in length − 1 hops, whose `next` is null and which is self-signed in a chain loaded with its root |
| `Certs.LoadedServerChainShape` | tests/unit/s2n_cert_chain_and_key_test.c:193-215 | with the loaded chain's shape assumed (three certificates, only the root self-signed, one signature algorithm), the checks along `next` hold: leaf and intermediate not self-signed, root self-signed with null `next`, the same signature and digest ids on all three |
| `CertConfig.Register` | tests/unit/s2n_cert_chain_and_key_test.c:177-181 | registration appends the chain to the store and fills the default slot of its authentication type only if empty; other slots are untouched |
| `CertConfig.AddChainAndKey` | tests/unit/s2n_cert_chain_and_key_test.c:155-162 | library API: ownership error iff application-owned; duplicate-default error iff not application-owned and a default of that type exists; failure leaves the state unchanged; success makes it library-owned with the chain as default and in the store |
| `CertConfig.AddChainAndKeyToStore` | tests/unit/s2n_cert_chain_and_key_test.c:176-182 | store API: fails iff library-owned, then with the ownership error and no change; otherwise appends the chain (the same chain again too), makes it application-owned, keeps an existing default of the chain's type and every other slot, and makes the chain the default only when its type had none |
| `CertConfig.ApplyGuard` | tests/unit/s2n_cert_chain_and_key_test.c:164-187 | for `Apply`, one call through either API: it fails with the ownership error exactly when the configuration is owned through the other one; a failed call changes nothing; a successful one leaves it owned through its own API |
| `CertConfig.ApplyKeepsValid` | tests/unit/s2n_cert_chain_and_key_test.c:150-187 | every call keeps the configuration consistent: no chains while not owned, defaults are registered chains of their type, and every library-owned chain is a default (so teardown frees them all) |
| `CertConfig.RunAppend` | tests/unit/s2n_cert_chain_and_key_test.c:150-187 | for `Run`, the state after a sequence of calls made in order: running two call sequences one after the other equals running their concatenation |
| `CertConfig.RunKeepsValid` | tests/unit/s2n_cert_chain_and_key_test.c:141-188 | any sequence of calls keeps a consistent configuration consistent |
| `CertConfig.OwnershipIsFinal` | tests/unit/s2n_cert_chain_and_key_test.c:159-187 | once owned, a configuration's owner is the same after any sequence of calls |
| `CertConfig.NeverMixed` | tests/unit/s2n_cert_chain_and_key_test.c:141-142 | two successful calls in any sequence on one configuration used the same API |
| `CertConfig.Config.constructor` | tests/unit/s2n_cert_chain_and_key_test.c:151-153 | a new configuration is not owned and has no defaults and no chains |
| `CertConfig.Config.AddCertChainAndKey` | tests/unit/s2n_cert_chain_and_key_test.c:155-167 | the object's new state and result are those of `AddChainAndKey`; ownership is unchanged on failure and library-owned on success; consistency is kept |
| `CertConfig.Config.AddCertChainAndKeyToStore` | tests/unit/s2n_cert_chain_and_key_test.c:176-187 | the object's new state and result are those of `AddChainAndKeyToStore`; ownership is unchanged on failure and application-owned on success; consistency is kept |
| `Tiebreak.Prefer` | tests/unit/s2n_cert_chain_and_key_test.c:40-43 | the callback's choice is one of its two arguments and carries the higher of their priorities; on equal priorities it is the second argument |
| `Tiebreak.Winner` | tests/unit/s2n_cert_chain_and_key_test.c:92-111 | the left-to-right reduction of the candidates yields one of them, with a priority at least that of every candidate |
| `Tiebreak.LastOfHighestWins` | tests/unit/s2n_cert_chain_and_key_test.c:35-44 | the reduction's winner is the last-registered candidate among those of highest priority |
| `Tiebreak.AscendingLastWins` | tests/unit/s2n_cert_chain_and_key_test.c:108-111 | with strictly ascending priorities in registration order, the last registered candidate wins |
| `Tiebreak.Candidates` | tests/unit/s2n_cert_chain_and_key_test.c:86-97 | the candidates for a name are exactly the registered chains that carry it, no more of them than registered chains |
| `Tiebreak.CandidatesAppend` | tests/unit/s2n_cert_chain_and_key_test.c:89-97 | registering more chains extends a name's candidates by exactly the new chains carrying it, in order |
| `Tiebreak.AllCandidates` | tests/unit/s2n_cert_chain_and_key_test.c:91-97 | chains that all carry a name are all its candidates, in registration order |
| `Tiebreak.TiedCandidates` | tests/unit/s2n_cert_chain_and_key_test.c:86-97 | a chain under another name registered first is not a candidate: the candidates are exactly the tied chains |
| `Tiebreak.TiebreakCallback.constructor` | tests/unit/s2n_cert_chain_and_key_test.c:34 | the invocation counter starts at zero |
| `Tiebreak.TiebreakCallback.Invoke` | tests/unit/s2n_cert_chain_and_key_test.c:35-44 | one call increments the counter by exactly one and returns the choice of `Prefer` |
| `Tiebreak.ResolveTies` | tests/unit/s2n_cert_chain_and_key_test.c:104-106 | reducing n candidates through the callback runs it exactly n − 1 times and returns the reduction's winner |
| `Tiebreak.SelectCert` | tests/unit/s2n_cert_chain_and_key_test.c:100-111 | no selection iff no chain carries the name; a lone candidate is selected without running the callback (and needs no priority); several candidates give their winner after exactly (candidates − 1) callback runs |
| `CertScenarios.AddTiedCerts` | tests/unit/s2n_cert_chain_and_key_test.c:91-98 | the registration loop creates n chain objects, the i-th with priority i in its context, appends them to the store in order, and leaves the configuration application-owned; the first of them becomes the default of its type only when that type had none, and every other default slot is unchanged |
| `CertScenarios.TiedCertsScenario` | tests/unit/s2n_cert_chain_and_key_test.c:77-111 | one chain under another name plus n tied chains: selecting the shared name runs the callback n − 1 times and picks the last tied chain, whose priority is n − 1 |
| `CertScenarios.AlligatorTiebreak` | tests/unit/s2n_cert_chain_and_key_test.c:106-111 | with the test's 100 chains for www.alligator.com: 99 callback runs, the last chain selected, its context priority 99 |
| `CertScenarios.LibraryOwnsScenario` | tests/unit/s2n_cert_chain_and_key_test.c:149-168 | new config not owned; library add succeeds → library-owned; second library add → duplicate-default error; store add → ownership error; library-owned throughout |
| `CertScenarios.ApplicationOwnsScenario` | tests/unit/s2n_cert_chain_and_key_test.c:170-188 | new config not owned; store add → application-owned; same chain again succeeds; library add → ownership error; application-owned throughout |
| `TcpdumpScan.SplitCount` | tests/integrationv2/test_dynamic_record_sizes.py:37-39 | `split(sep)` yields exactly one more piece than there are separators |
| `TcpdumpScan.JoinSplit` | tests/integrationv2/test_dynamic_record_sizes.py:36-37 | for `Split`, Python's `str.split` with a one-character separator: joining the pieces of a split with the separator gives back the text |
| `TcpdumpScan.SplitFreePrefix` | tests/integrationv2/test_dynamic_record_sizes.py:37 | a separator-free prefix of a text extends the first piece of the rest's split |
| `TcpdumpScan.SplitJoin` | tests/integrationv2/test_dynamic_record_sizes.py:36-37 | splitting the join of separator-free pieces gives back the pieces |
| `TcpdumpScan.ParseInt` | tests/integrationv2/test_dynamic_record_sizes.py:43 | `int()` of a digit string is its decimal value; a positive result comes from digits, optionally after a plus sign |
| `TcpdumpScan.DecimalText` | tests/integrationv2/test_dynamic_record_sizes.py:43 | a length printed in decimal is a non-empty digit string |
| `TcpdumpScan.DecimalRoundTrip` | tests/integrationv2/test_dynamic_record_sizes.py:43 | reading the decimal text of n with `int()` gives n |
| `TcpdumpScan.ReadPacketLength` | tests/integrationv2/test_dynamic_record_sizes.py:37-46 | the per-line steps compute exactly `LineLength`, the line's specified length: 0 when skipped, the parsed length, or `int()`'s error; a positive length needs at least two spaces in the line |
| `TcpdumpScan.DropLast` | tests/integrationv2/test_dynamic_record_sizes.py:46 | `piece[:-1]` is the piece without its last character, whatever that character is; an empty piece stays empty |
| `TcpdumpScan.ScanTrueIff` | tests/integrationv2/test_dynamic_record_sizes.py:36-49 | `Scan`, the answer of the line-by-line loop, is true iff some line reports a length above 1500 and every earlier line reports a readable length |
| `TcpdumpScan.ScanFalseIff` | tests/integrationv2/test_dynamic_record_sizes.py:36-51 | `Scan` answers false iff every line reports a readable length of at most 1500 |
| `TcpdumpScan.FindFragmentedPacket` | tests/integrationv2/test_dynamic_record_sizes.py:27-51 | the loop returns the specified scan: true iff an oversized line comes before any unreadable length, false iff every line is readable and within the MTU, otherwise `int()`'s error |
| `TcpdumpScan.TrailingLength` | tests/integrationv2/test_dynamic_record_sizes.py:42-43 | a line ending "length N" reports N, whatever precedes it (this position takes precedence over the other) |
| `TcpdumpScan.ColonLength` | tests/integrationv2/test_dynamic_record_sizes.py:44-46 | a line ending "length N: PROTO" reports N once the colon is trimmed |
| `TcpdumpScan.ColonlessLengthLosesLastDigit` | tests/integrationv2/test_dynamic_record_sizes.py:46 | the trim removes the last character unconditionally: "length N PROTO" without a colon reports N / 10 |
| `TcpdumpScan.UnmarkedLineHasNoLength` | tests/integrationv2/test_dynamic_record_sizes.py:41-48 | a line of three or more words with "length" in neither the second-to-last nor the third-to-last position reports 0, whatever its other words hold, and is never oversized |
| `TcpdumpScan.FewSpacesSkipped` | tests/integrationv2/test_dynamic_record_sizes.py:37-39 | a line with fewer than two spaces (under three pieces) reports 0 and is never oversized |
| `TcpdumpScan.MtuBoundary` | tests/integrationv2/test_dynamic_record_sizes.py:48-49 | a packet of exactly 1500 bytes does not count; one of 1501 does |
| `TcpdumpScan.EmptyCaptureNotFragmented` | tests/integrationv2/test_dynamic_record_sizes.py:51 | empty output answers false |

## Left out

- The TLS handshake and the connection plumbing are not modelled: connections, the io pair, negotiation, shutdown and `s2n_connection_get_selected_cert`. Selection is modelled directly as `SelectCert` over the configuration's store.
- PEM reading, chain construction from PEM, `malloc`/`free`, `DEFER_CLEANUP`, `setenv` and the TLS 1.3 and FIPS toggles are not modelled. A chain-and-key is a given value; the library API receives the chain it would build.
- X.509 parsing is not modelled. Signature and digest NIDs and authentication types are opaque numbers. `self_signed` is a given boolean per certificate, because the issuer/subject comparison is not part of this model.
- The certificate list is a sequence, not linked `s2n_cert` nodes. `next` is the following index and null is `None`. Aliasing and freeing of nodes are not modelled.
- The context slot holds the priority value itself, not a pointer to it. The test's pointer comparison with `&tiebreak_priorites[99]` (line 110) is modelled as a comparison of values.
- Name normalisation, wildcard matching and the fallback to the per-type default when no chain carries the requested name are not exercised by these tests. `SelectCert` returns `None` in that case.
- Registering the callback (`s2n_config_set_cert_tiebreak_callback`) is not kept as configuration state. `SelectCert` receives the callback object. Only the test's callback is modelled, and it ignores the `name`/`name_len` arguments.
- The library code that runs the tiebreak is not part of this model, and neither is the point in time where the library calls it (at registration or at selection). The model reduces the candidates at selection. For one name and one authentication type the callback gets the same arguments in the same order either way, so the call count and the winner are the same.
- Candidates, SelectCert: candidates are not separated by authentication type. Chains of different types registered under one name are reduced together, while the library resolves ties per authentication type. The test's tied chains all share one type.
- `results.decode("utf-8")` is not modelled: the scan takes text. The pytest body, the tcpdump/OpenSSL/s2n process fixtures, the MTU fixture and the parametrisation are external processes.
- ParseInt: accepts only an optional sign followed by ASCII digits. Python's `int()` also accepts surrounding whitespace (a tab or a carriage return left in a piece), underscores between digits and non-ASCII decimal digits; the model treats those pieces as raising `ValueError`.
- C `int` overflow of the priorities and of the call counter is not modelled. The test's values (0..99) are far from it.
