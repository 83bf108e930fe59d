# Model and proofs of an SSH engine, its flow control and its terminal codecs

The repository implements SSH as state machines that do no I/O: a transport that exchanges
keys and re-keys at any time, a client and a server connection on top of it, a serve loop
that couples one handler to one channel under a byte budget, and two small codecs for
drawing on and reading from the peer's terminal. This project models those machines and
proves what they promise, in Dafny.

The models take the form of the code. Objects whose methods update fields are classes
(`Wire.Writer`, `Engine.Endpoint`, `ChannelObject.Channel`, `ServerObject.ServerConnection`,
`ClientObject.ClientConnection`, `ServeObjects.ServeLoop`, `Input.InputParser`,
`BackendObject.SshBackend`), loops are loops, and each method is proved equal to a step of a
specification on values. The results are about runs of those specifications.

## The results

*One endpoint, any peer* (modules Transport, Runs, Engine, Safety, Sessions, Exchange, Keys,
Budget, Dispatch, Cleartext, Chunking). No pair of outbound key epoch and sequence number is
sealed twice, whatever the peer sends, the driver calls and the re-key limits say. Between
its KEXINIT and its NEWKEYS an endpoint writes no application packet; each accepted packet
is written exactly once and in order, or waits, and none is written in the clear. A client
is up only with a host key whose signature it has checked, over what it had itself sent and
read; the keys staged are, byte by byte, those of the letters of each direction. No live
endpoint stays idle with its budget spent. The session id never changes. How a stream is cut
into reads makes no difference.

*Two honest endpoints* (Stream, Lockstep, Rounds, Joint, Paired, Delivery, TwoParty,
PairRuns). A client, a server and two FIFO byte streams, with every interleaving of calls,
partial deliveries, and re-keys started by either side, by both at once or by a traffic
budget. Every packet is opened under exactly the cipher, sequence number and epoch it was
sealed with; what is delivered is an in-order, duplicate-free prefix of what was accepted;
in every round both ends hash the same bytes, each with the keys and the secret it computed
itself; they agree on names and session id; no honest packet is ever rejected; and once
everything written has been delivered, no round is left open. Module Stream says what an
endpoint has put on the wire, Lockstep names the stages of a round, Rounds and Joint take
both ends through one, Paired and Delivery couple them to the packets under way, and
TwoParty to the bytes.

*One channel* (Channels, ChannelObject, Flow, Closing, ClientClosing, Server, ServerRuns,
LateLogin, Logins, ServerChannel, Replies, ServerObject, Client, ClientChannel,
ClientStreams, Requests, ClientObject). Windows are conserved between the two ends and never
deadlock. Output, exit-status, EOF and CLOSE come in that order and once; EOF stays behind
stdin. The server's events are guarded by authentication and its caps. A granted login is
answered with the one success message, and nothing of a channel precedes it. Answers come in
the order of the requests, and a client's terminal and session requests get the answers they
are due: it hears of a terminal exactly when the server holds the one it asked for.

*One handler* (Serve, ServeObjects, Streams). What it reads is what the client sent, and
what it writes is what goes out, byte for byte, in order and on its stream. Free budget,
queued bytes and bytes in flight make up the whole budget in every interleaving, and unread
stdin is bounded by one window, whatever the client sends, exactly for a handler that is
started on an open channel.

*Codecs* (Wire, Version, Framing, Kdf, Algo, OnWire; Ansi, Input, Typing, Forms, Renderer,
Screen, Drawing, Economy). A receiver takes exactly the frames with its own authenticator.
Round trips, prefix freedom and unambiguous hash input; keys come back from their encodings;
the bytes of a frame, with redundant cursor and style codes skipped, make a terminal that
reads bytes show exactly the frame's cells. Bytes and Seqs hold what is shared.

## Findings

Where a property one would expect is false of the code, or holds only under a condition. Each
has its exact condition, for all inputs, and an input that shows it.

| finding | source | exact condition | shown by |
|---|---|---|---|
| A program can be requested, and its handler started, before a channel is open. No window is charged for data then, so the stdin such a handler leaves unread has no bound, against the comments at crates/ssh-transport/src/server.rs:619-621 and crates/ssh-io/src/serve.rs:272-274; and its output stays in flight although nothing holds it | crates/ssh-transport/src/server.rs:613-635 | `Serve.UnreadIsBoundedExactly`, `Serve.BudgetExactly`: the channel is open when the handler is started | `Serve.UnreadGrows`, `Serve.OutputVanishes`; `Serve.StartsWithoutChannel` is a client that gets there |
| An IGNORE or DEBUG can come in during an exchange that is strict: whether it is strict is settled by the peer's offer, and what comes before that offer is let through, against the comment at crates/ssh-transport/src/transport.rs:771-772 | crates/ssh-transport/src/transport.rs:771-782 | `Dispatch.OutsideExchange`: it is refused if and only if strict KEX is settled by then; `Dispatch.StrictSettled` says when | `Dispatch.IgnoredBeforeOffer` |
| A server answers a KEX_ECDH_INIT that no KEXINIT precedes, with no round running: completing a round leaves its offers on record, and the handler asks for no more | crates/ssh-transport/src/transport.rs:890-936 | `Dispatch.RequestAnsweredExactly` | `Dispatch.AnsweredUnasked` |
| A login can follow the exhaustion of the attempts: packets already decrypted are handled after the decision to close. (The serve loop stops at the exhaustion event and does not act on such a login.) | crates/ssh-transport/src/server.rs:267-291 | `LateLogin.LoginExactly`, `LateLogin.LateLoginsExactly`, and per policy `LateLogin.PoliciesExactly` | `LateLogin.GuessesLogInLate` |
| Output written after the CLOSE went out is sent all the same, out of order | crates/ssh-transport/src/server.rs:211-226 | `Closing.OrderKeptExactly` | `Closing.LateBreaks` |
| Stdin written after the EOF went out is sent all the same, out of order | crates/ssh-transport/src/client.rs:275-289 | `ClientClosing.StdinKeptExactly` | `ClientClosing.AfterEofBreaks` |
| A channel request that arrives while a program request waits for the driver is answered first, although the client matches answers in order (crates/ssh-transport/src/client.rs:113-114 and 452-472). The client of this repository asks for its terminal before its program and then wants no further answer, so it never meets it (`Requests.AskedAndAnswered`) | crates/ssh-transport/src/server.rs:470-592 | `Replies.AnswersKeptExactly` | `Replies.AnswersCross` |
| Cell symbols are written unchecked: one that holds a control byte, is empty, ill-formed, or more or less than one glyph is not what the screen shows | crates/ssh-tui/src/backend.rs:214-215 | `Drawing.FrameShownExactly` | `Drawing.EscapeErases`, a whole frame |
| Decoding a read that ends in a lone escape byte as the Esc key makes the split of the input matter | crates/ssh-tui/src/input.rs:116-133 | `Typing.SplitMattersExactly` | `Typing.SplitShows`, for each continuation it names; `Typing.SkippedCanHide` is one that hides the split |

Smaller remarks:

- Strict KEX restarts the sequence numbers at every NEWKEYS
  (crates/ssh-transport/src/transport.rs:1086-1088 and 1102-1104), not only at the first, as
  the field comment at lines 259-260 says. The model follows the code.
- With `max_auth_attempts` at 0 the first failure is already one too many; the bound is the
  larger of the limit and 1 (`ServerRuns.Attempts`).
- Data and EOF, too, can surface before a channel is open: the handlers do not ask for one.
- `finish_kex` uses the client-to-server cipher name for both directions. That is right
  because an endpoint offers one list for both (`Algo.OursUseOneCipher`).

## Assumptions

Cryptography is uninterpreted. Keystreams, tags and digests are arbitrary functions;
everything about one endpoint, and every codec result, holds for all of them. For two
endpoints the suite is asked for what an honest suite does: an exchange completes with one
secret on both ends, a signature verifies, and messages are of moderate size
(`Rounds.Honest`). Such suites exist (`Rounds.HonestSuiteExists`). Each use of the random
generator is one draw, whose result is an arbitrary function of its number. Application
payloads in the two-party results are non-empty, within the frame limit, and carry no
transport or key-exchange message number, which the peer would not surface. A terminal is
ECMA-48 and UTF-8; which characters are two columns wide, which combine with the one before,
and where they leave the cursor is left to it (`Screen.Font`).

## Model

| member | source | states |
|---|---|---|
| Wire.ReadAllBack | crates/ssh-transport/src/wire.rs:38-204 | Every sequence of writer calls (names non-empty, ASCII, comma-free, at most 256) is read back by the matching reader calls, whatever bytes surround it, and the reader stops exactly where the writer stopped |
| Wire.SplitJoin | crates/ssh-transport/src/wire.rs:90-106 | A comma-joined list of valid names splits back into the same names |
| OnWire.NamesReadExactly | crates/ssh-transport/src/wire.rs:90-106 | Any string is read as a name-list if and only if it is ASCII with at most 255 commas, and the names are what lies between the commas |
| Wire.StringPrefixFree | crates/ssh-transport/src/wire.rs:167-170 | `string` encodings are prefix free: a run of them can be taken apart one way only |
| Wire.MpintShortest | crates/ssh-transport/src/wire.rs:186-204 | `mpint` keeps the value and writes the shortest form that does not read as negative |
| Wire.MpintCanonical | crates/ssh-transport/src/wire.rs:186-204 | Two magnitudes get the same `mpint` bytes if and only if they are the same number |
| Wire.Writer.U8 | crates/ssh-transport/src/wire.rs:145-147 | Appends one byte and nothing else |
| Wire.Writer.Boolean | crates/ssh-transport/src/wire.rs:149-151 | Appends one byte, 1 or 0 |
| Wire.Writer.U32 | crates/ssh-transport/src/wire.rs:153-155 | Appends the four big-endian bytes |
| Wire.Writer.U64 | crates/ssh-transport/src/wire.rs:157-159 | Appends the eight big-endian bytes |
| Wire.Writer.Raw | crates/ssh-transport/src/wire.rs:162-164 | Appends the bytes as they are |
| Wire.Writer.String | crates/ssh-transport/src/wire.rs:167-170 | Appends the length and the bytes |
| Wire.Writer.NameList | crates/ssh-transport/src/wire.rs:174-184 | The name-by-name loop appends the length and the comma-joined names |
| Wire.Writer.Mpint | crates/ssh-transport/src/wire.rs:189-204 | The loop over leading zeros appends the encoding of the trimmed magnitude |
| Wire.Reader.TakeBytes | crates/ssh-transport/src/wire.rs:38-49 | Advances over n bytes, or fails and does not move |
| Wire.Reader.U8 | crates/ssh-transport/src/wire.rs:51-53 | One byte, or too short |
| Wire.Reader.Boolean | crates/ssh-transport/src/wire.rs:55-57 | Any byte but zero is true |
| Wire.Reader.U32 | crates/ssh-transport/src/wire.rs:60-63 | Four big-endian bytes, or too short |
| Wire.Reader.String | crates/ssh-transport/src/wire.rs:73-76 | A length, then that many bytes |
| Wire.Reader.NameList | crates/ssh-transport/src/wire.rs:90-106 | Empty for an empty string, an error for bytes that are not ASCII or more than 256 names, else the split at commas |
| Version.ParsePeerId | crates/ssh-transport/src/version.rs:38-69 | The scanning loop over `start` and `line_end` computes the line-by-line parse, error cases included |
| Version.LineDecides | crates/ssh-transport/src/version.rs:38-69 | Any line, with or without CR: too long is an error; one that names protocol 2.0 or 1.99 is taken without its line ending; any other is skipped by a client and an error for a server |
| Version.NoLineDecides | crates/ssh-transport/src/version.rs:38-69 | Without a whole line the scan waits for one, up to a bound |
| Version.ParseFinds | crates/ssh-transport/src/version.rs:38-69 | A client finds the identification behind any number of banner lines, with its exact bytes and length; a server only as the very first line |
| Version.ParseSkips | crates/ssh-transport/src/version.rs:38-69 | One banner line is skipped by a client and refused by a server |
| Version.ParseStable | crates/ssh-transport/src/version.rs:38-69 | Bytes that arrive later never change a decision already taken |
| Version.OwnLineParses | crates/ssh-transport/src/version.rs:11-27 | Each side's own identification line is understood by the other, whatever follows it |
| Framing.OpenSealed | crates/ssh-transport/src/cipher.rs:115-231 | Plain, chacha and gcm: opening a sealed packet followed by anything gives its payload and exact length if it is within the size limit, and `BadPacket` if it is not |
| Framing.PrefixNeedsMore | crates/ssh-transport/src/cipher.rs:177-231 | Every strict prefix of a packet within the limit asks for more bytes |
| OnWire.OpensExactly | crates/ssh-transport/src/cipher.rs:177-231 | A packet is taken if and only if the buffer begins with a frame of an allowed length, at least four bytes of padding and the authenticator that the receiver's own key, number and counter give; whatever the padding holds |
| OnWire.SealedBytes | crates/ssh-transport/src/cipher.rs:115-160 | What each byte of a sealed frame is: length and body masked under different ChaCha20 keys, the tag over all that precedes it; for GCM the length in the clear as associated data |
| Framing.OpenStable | crates/ssh-transport/src/cipher.rs:177-231 | Later bytes never change what `open` decided, success or error |
| Framing.OpenAllSealed | crates/ssh-transport/src/cipher.rs:266-346 | Over any run of packets the receiver gets every payload in order and ends with the sender's cipher: the two GCM counters stay equal, wrap included |
| Framing.SealInto | crates/ssh-transport/src/cipher.rs:115-160 | Building the region in place, masking it and appending the tag yields the sealed packet after what was in `out`, and moves the cipher on |
| Framing.OpenFrom | crates/ssh-transport/src/cipher.rs:177-231 | The step-by-step opening (length, authenticator, unmask, cut down to the payload) computes `Open` |
| Framing.AppendRegion | crates/ssh-transport/src/cipher.rs:115-160 | Padding length, payload and padding end up at the end of `out` |
| Framing.PaddingLen | crates/ssh-transport/src/packet.rs:27-40 | The padding of the plain form aligns the packet, is at least four bytes, and leaves no packet under the minimum size, so the loop that would extend it never runs |
| Framing.PadAligns | crates/ssh-transport/src/cipher.rs:40-47 | The padding brings the covered bytes to a whole number of blocks |
| Framing.PadShortest | crates/ssh-transport/src/cipher.rs:40-47 | No shorter padding of at least four bytes aligns |
| Framing.PaddedLength | crates/ssh-transport/src/cipher.rs:40-47 | The covered bytes are a whole number of blocks, the padding is at least 4 and fits a byte, and lengths within the limit are the ones a receiver accepts |
| Framing.UnpadRegion | crates/ssh-transport/src/packet.rs:63-83 | Cutting a region down by its own padding length gives the payload back |
| Framing.MaskTwice | crates/ssh-transport/src/cipher.rs:235-262 | Applying a keystream twice gives the data back |
| Kdf.HashedBytesUnambiguous | crates/ssh-transport/src/kdf.rs:36-98 | For a fixed way of encoding K, two exchanges hash the same bytes if and only if all eight inputs agree, leading zeros of an mpint K aside |
| OnWire.HashedInOrder | crates/ssh-transport/src/kdf.rs:79-98 | The hashed bytes read back, field by field, as both identifications, both offers, the host key, both ephemeral keys and K, the client's before the server's |
| Kdf.SecretUnambiguous | crates/ssh-transport/src/kdf.rs:24-48 | Two secrets encoded the same way have equal bytes if and only if they are the same number, or the same string |
| Kdf.ExchangeHashInto | crates/ssh-transport/src/kdf.rs:79-98 | The writer calls of `exchange_hash` hash exactly the specified bytes |
| Kdf.DeriveKeyWith | crates/ssh-transport/src/kdf.rs:157-188 | The loop that grows and truncates `out` computes the key expansion of section 7.2 of RFC 4253 |
| Kdf.DeriveKeyPrefix | crates/ssh-transport/src/kdf.rs:157-188 | Asking for fewer bytes changes none of them: a shorter key is a prefix of a longer one, whatever number of blocks was hashed |
| Kdf.LettersSeparate | crates/ssh-transport/src/kdf.rs:118-154 | Keys derived under different letters are hashed from different bytes |
| Algo.ParseOurs | crates/ssh-transport/src/algo.rs:82-165 | What `ours_with` builds is what `parse` reads: cookie, every list, the guess flag and the payload itself |
| Algo.WritePayload | crates/ssh-transport/src/algo.rs:82-132 | The writer calls of `ours_with` produce the KEXINIT payload |
| Algo.ReadPayload | crates/ssh-transport/src/algo.rs:135-165 | Stepping the reader through a KEXINIT gives the specified parse or its error |
| OnWire.KexinitReadsBack | crates/ssh-transport/src/algo.rs:135-165 | Any KEXINIT, ours or not: each of the ten lists is read into its own place |
| OnWire.OursInOrder | crates/ssh-transport/src/algo.rs:82-132 | Our lists in wire order, with the strict-KEX marker of our own side and only that |
| OnWire.NegotiatedExactly | crates/ssh-transport/src/algo.rs:179-207 | Two offers settle if and only if every pair of lists shares a name, and each name settled on is the client's first shared one in its own pair of lists |
| Algo.PickIsClientsFirst | crates/ssh-transport/src/algo.rs:201-207 | `pick` succeeds if and only if the lists share a name, and yields the client's first shared one |
| Algo.OursUseOneCipher | crates/ssh-transport/src/algo.rs:179-188 | Two endpoints of this engine settle on one cipher and one compression for both directions, which is what makes `finish_kex`'s use of `cipher_c2s` for both right |
| Engine.Endpoint.constructor | crates/ssh-transport/src/transport.rs:334-392 | A new endpoint is the initial state with its identification line and first KEXINIT queued |
| Engine.Endpoint.OnInput | crates/ssh-transport/src/transport.rs:414-422 | Appending to `rx` and driving does to the state, the unread bytes and the error what the machine does; a closing endpoint neither reads nor keeps them |
| Engine.Endpoint.Drive | crates/ssh-transport/src/transport.rs:689-754 | The receive loop over `rx_pos` computes the machine's run over the unread bytes |
| Engine.Endpoint.TakeOne | crates/ssh-transport/src/transport.rs:689-754 | One turn: the identification line or one packet, or the compaction when more bytes are needed |
| Engine.Endpoint.TakeVersion | crates/ssh-transport/src/transport.rs:689-754 | The first turn: scan for the peer's line, then start on packets |
| Engine.Endpoint.CompactRx | crates/ssh-transport/src/transport.rs:677-687 | Drops exactly the consumed front of the receive buffer |
| Engine.Endpoint.Accept | crates/ssh-transport/src/transport.rs:705-754 | Counts one opened packet, enforces the hard cap, dispatches it and re-keys on the inbound budget |
| Engine.Endpoint.HandlePacket | crates/ssh-transport/src/transport.rs:756-821 | Dispatch by message id, with the quiet-period and strict-KEX refusals |
| Engine.Endpoint.OnDisconnect | crates/ssh-transport/src/transport.rs:756-821 | A peer's DISCONNECT surfaces and closes |
| Engine.Endpoint.OnOther | crates/ssh-transport/src/transport.rs:756-821 | Every other packet is surfaced once the transport is up, an error before |
| Engine.Endpoint.SendPacket | crates/ssh-transport/src/transport.rs:483-499 | An application packet is written or held back, and the outbound budget may start a re-key |
| Engine.Endpoint.WritePacket | crates/ssh-transport/src/transport.rs:610-655 | Seals one packet into `tx` and steps the counters, unless closing |
| Engine.Endpoint.SealFrame | crates/ssh-transport/src/transport.rs:610-655 | The output buffer gains exactly the sealed frame; the packet that reaches the cap is the last |
| Engine.Endpoint.SendKexinit | crates/ssh-transport/src/transport.rs:395-412 | Builds and queues our KEXINIT and remembers it for the hash |
| Engine.Endpoint.BuildKexinit | crates/ssh-transport/src/transport.rs:395-412 | One draw of the generator gives the cookie |
| Engine.Endpoint.BeginRekeyRound | crates/ssh-transport/src/transport.rs:582-591 | Resets the state of the round and offers a new one |
| Engine.Endpoint.InitiateRekey | crates/ssh-transport/src/transport.rs:554-558 | Starts a round only when established and idle |
| Engine.Endpoint.SendChaff | crates/ssh-transport/src/transport.rs:513-534 | An IGNORE packet through the same path, nothing before the transport is up |
| Engine.Endpoint.Disconnect | crates/ssh-transport/src/transport.rs:595-606 | Queues one DISCONNECT and closes, once |
| Engine.Endpoint.OnPeerKexinit | crates/ssh-transport/src/transport.rs:823-888 | Answers or refuses a peer's round, negotiates, fixes strict KEX on the first round, and asks as a client |
| Engine.Endpoint.Agree | crates/ssh-transport/src/transport.rs:834-859 | Both offers settle the algorithms and the guess to skip; strict KEX is decided by the first round only |
| Engine.Endpoint.AnswerRekey | crates/ssh-transport/src/transport.rs:823-833 | A round the peer starts is answered, unless there were too many in a row, which closes the endpoint |
| Engine.Endpoint.SendEcdhInit | crates/ssh-transport/src/transport.rs:861-886 | The client sends its ephemeral key and keeps it for the reply |
| Engine.Endpoint.OnEcdhInit | crates/ssh-transport/src/transport.rs:890-936 | The server's half, wrong-guess skipping and error cases included |
| Engine.Endpoint.Respond | crates/ssh-transport/src/transport.rs:905-936 | Secret, hash, signed reply, keys, NEWKEYS, in that order |
| Engine.Endpoint.OnEcdhReply | crates/ssh-transport/src/transport.rs:938-985 | The client's half: a reply without a round or a bad signature is an error |
| Engine.Endpoint.Conclude | crates/ssh-transport/src/transport.rs:955-985 | Secret, hash, signature check, keys, NEWKEYS, in that order |
| Engine.Endpoint.ComputeExchangeHash | crates/ssh-transport/src/transport.rs:995-1040 | Each value is hashed under the name of the side it came from |
| Engine.Endpoint.SendReply | crates/ssh-transport/src/transport.rs:923-931 | The signed reply goes out under the old keys and the round is on record |
| Engine.Endpoint.AcceptReply | crates/ssh-transport/src/transport.rs:978-980 | The ephemeral key is used up, the host key surfaces and the round is on record |
| Engine.Endpoint.FinishKex | crates/ssh-transport/src/transport.rs:1043-1071 | Fixes the session id on the first round only and stages both directions' keys |
| Engine.Endpoint.DeriveCipher | crates/ssh-transport/src/transport.rs:1050-1062 | Key and IV of one direction |
| Engine.Endpoint.SendNewkeys | crates/ssh-transport/src/transport.rs:1073-1091 | NEWKEYS goes out under the old keys, then the new ones take effect |
| Engine.Endpoint.SwitchOut | crates/ssh-transport/src/transport.rs:1078-1091 | New outbound keys, and under strict KEX sequence number zero, at every NEWKEYS |
| Engine.Endpoint.OnNewkeys | crates/ssh-transport/src/transport.rs:1093-1108 | The inbound keys take effect; without pending keys it is an error |
| Engine.Endpoint.MaybeCompleteKex | crates/ssh-transport/src/transport.rs:1112-1137 | Completes the round when both NEWKEYS are done |
| Engine.Endpoint.EndRound | crates/ssh-transport/src/transport.rs:1112-1132 | Counters reset, the phase is Established |
| Engine.Endpoint.FlushQueue | crates/ssh-transport/src/transport.rs:1133-1137 | The held-back packets are written in order and not counted as traffic |
| Engine.Endpoint.TakeOutput | crates/ssh-transport/src/transport.rs:430-432 | Every byte queued is handed out once |
| Engine.Endpoint.PollEvent | crates/ssh-transport/src/transport.rs:450-452 | Every event is handed out once, oldest first |
| Engine.Endpoint.SetRekeyLimits | crates/ssh-transport/src/transport.rs:576-579 | Both traffic thresholds |
| Engine.Endpoint.SetMaxPeerRekeys | crates/ssh-transport/src/transport.rs:568-570 | The limit on consecutive peer re-keys |
| Safety.NoncesNeverRepeat | crates/ssh-transport/src/transport.rs:610-644 | Any peer, any calls, any re-key limits: two packets sealed in one outbound key epoch differ in nonce and in sequence number, and the packets of one epoch, before and after round completion, span fewer than 2^32, with and without strict KEX |
| Safety.QuietAndExactlyOnce | crates/ssh-transport/src/transport.rs:483-606 | Any peer: between its KEXINIT and its NEWKEYS an endpoint writes no application packet, nothing waits when no round is running, and while it is not closing what it accepted is what it wrote followed by what waits |
| Safety.QuietByPosition | crates/ssh-transport/src/transport.rs:483-606 | The same by position: every application packet has a NEWKEYS before it with no KEXINIT in between |
| Safety.HandleSafe | crates/ssh-transport/src/transport.rs:756-821 | Every packet of any peer keeps both laws |
| Safety.DriveSafe | crates/ssh-transport/src/transport.rs:689-754 | Any input keeps both laws, also up to the packet that fails |
| Safety.SendSafe | crates/ssh-transport/src/transport.rs:483-499 | Sending keeps both laws and accepts exactly the payload |
| Safety.InstallSafe | crates/ssh-transport/src/transport.rs:1073-1091 | Switching the outbound keys keeps both laws: a new epoch in which nothing was sealed, although the packet counter goes on |
| Safety.CompleteSafe | crates/ssh-transport/src/transport.rs:1112-1137 | Completing a round keeps both laws although it resets the counter after the keys changed, and flushes the whole queue |
| Exchange.EveryRoundSigned | crates/ssh-transport/src/transport.rs:938-985 | Any server, any calls: each host key a client surfaced, in order, is the one hashed in a round, with a signature of that round's hash that was good under it; a client that is up has been through such a round, and its session id is a hash that was signed |
| Exchange.NoForgery | crates/ssh-transport/src/transport.rs:977-980 | Where no signature is good, no client gets up, has a session id or surfaces a host key, whatever it is sent |
| Exchange.EveryRoundMine | crates/ssh-transport/src/transport.rs:890-1040 | Any peer, any calls: what an endpoint hashed in a round is its own identification, an offer it sent, the ephemeral key (a server: the host key, the ephemeral key and its signature of this very hash) of a packet it sent, and the identification it read |
| Exchange.HandleRecorded | crates/ssh-transport/src/transport.rs:756-821 | Every packet of any peer keeps that record |
| Cleartext.NothingInTheClear | crates/ssh-transport/src/transport.rs:1043-1091 | Any peer, any calls: every application packet ever written is encrypted |
| Budget.SendDecides | crates/ssh-transport/src/transport.rs:483-490 | A packet is taken if and only if the endpoint is up, and waits, unwritten, while a round runs |
| Budget.SendSpends | crates/ssh-transport/src/transport.rs:483-499 | An idle endpoint writes the packet at once; if that brings bytes or packets to a limit, its KEXINIT follows and a round is running, and otherwise nothing else goes out |
| Budget.AcceptSpends | crates/ssh-transport/src/transport.rs:705-746 | Every ordinary packet received counts; the one that brings the inbound bytes or packets to a limit makes the endpoint send its KEXINIT, any other makes it send nothing |
| Budget.NeverIdleOverBudget | crates/ssh-transport/src/transport.rs:483-754 | Any peer, any calls, any positive limits: a live endpoint that is up with no round running has sent and received less than the limits since its last round; unset, they are 1 GiB and 2^28 packets |
| Budget.CapRefuses | crates/ssh-transport/src/transport.rs:712-720 | The packet that reaches the inbound cap ends the connection |
| Budget.FewTaken | crates/ssh-transport/src/transport.rs:705-754 | Any peer, any calls: fewer than 2^31 packets are taken between two rounds |
| Budget.RekeyStarts | crates/ssh-transport/src/transport.rs:554-591 | A round asked for starts at an idle endpoint, with a KEXINIT, and nowhere else |
| Budget.ChaffSent | crates/ssh-transport/src/transport.rs:513-534 | One IGNORE message once the endpoint is up, and nothing before |
| Dispatch.OutsideExchange | crates/ssh-transport/src/transport.rs:773-821 | Packets that are no part of an exchange: before the endpoint is up an error, but for IGNORE and DEBUG until strict KEX is settled; afterwards those two change nothing, and anything else surfaces unchanged and restarts the count of the peer's re-keys |
| Dispatch.ChaffUnseen | crates/ssh-transport/src/transport.rs:781-782 | The chaff one end sends changes nothing at the other |
| Dispatch.DisconnectTold | crates/ssh-transport/src/transport.rs:593-606 | A DISCONNECT goes out once, closes its sender, and tells the other end its reason |
| Dispatch.PeerRekeys | crates/ssh-transport/src/transport.rs:823-833 | A round the peer starts is counted and answered with an offer, but for one too many, which is answered with a DISCONNECT alone |
| Dispatch.StrictSettled | crates/ssh-transport/src/transport.rs:841-853 | Strict KEX is on if and only if the peer's first offer carries its marker, and later offers do not change it |
| Dispatch.AgreedAsClientLikes | crates/ssh-transport/src/transport.rs:834-859 | At either end, each name settled on is the first of the client's that the server lists too, in its own pair of lists |
| Dispatch.GuessCosts | crates/ssh-transport/src/transport.rs:855-859 | A guess that does not match what was settled costs the peer one packet, which is ignored |
| Dispatch.AskSent | crates/ssh-transport/src/transport.rs:864-886 | The client asks with a fresh ephemeral key of the method that was settled, and keeps that key |
| Dispatch.ReplyAcceptedExactly | crates/ssh-transport/src/transport.rs:938-985 | A reply is accepted if and only if the client has asked, both offers are settled, the ephemeral keys make a secret, and the signature is good for the hash of what the client itself sent and read; the ephemeral key is then used up |
| Dispatch.RequestAnsweredExactly | crates/ssh-transport/src/transport.rs:890-936 | A request is answered if and only if both offers are settled and the ephemeral keys make a secret, with the host key, the server's ephemeral key and its signature of what goes on record |
| Dispatch.IgnoredBeforeOffer | crates/ssh-transport/src/transport.rs:771-782 | An IGNORE that precedes the peer's offer is let through into an exchange that is then strict |
| Dispatch.AnsweredUnasked | crates/ssh-transport/src/transport.rs:890-936 | Right after a round, with none running, a server answers a request and goes through another one |
| Dispatch.NumbersRestart | crates/ssh-transport/src/transport.rs:1073-1091 | NEWKEYS goes out under the old key and number; the next packet goes out under the new key, numbered zero under strict KEX |
| Dispatch.PeerNumbersRestart | crates/ssh-transport/src/transport.rs:1093-1108 | The peer's NEWKEYS puts the staged key in force, and its numbers restart likewise |
| Keys.KeysStaged | crates/ssh-transport/src/transport.rs:1043-1071 | Byte by byte: a client sends under a key from letter C and a nonce from A and receives under D and B, a server the other way round, each byte a digest of K, H, the letter and the session id; ChaCha20's second key follows from the first; each direction has the compression negotiated for it; and it fails only for a cipher of unknown key lengths |
| Keys.DirectionsApart | crates/ssh-transport/src/kdf.rs:118-154 | For every exchange there is a digest under which the two directions' keys differ |
| Sessions.SessionIdStays | crates/ssh-transport/src/transport.rs:1043-1071 | Once there is a session id it never changes, through every call, every input and every further round |
| Sessions.RoundsCounted | crates/ssh-transport/src/transport.rs:1043-1071 | Any peer: one outbound key epoch for each round gone through, and the session id is the hash of the first round |
| Chunking.TwoReadsAreOne | crates/ssh-transport/src/transport.rs:414-421 | Two reads give the events, output, error and state of one read of both, up to consumed or ignored bytes |
| Chunking.ReadsDoNotMatter | crates/ssh-transport/src/transport.rs:414-421 | However a stream is cut into reads, the endpoint ends the same |
| Chunking.DriveSplit | crates/ssh-transport/src/transport.rs:689-754 | The receive loop with its cursor refines parsing the stream as a whole |
| PairRuns.OpenedAsSealed | crates/ssh-transport/src/transport.rs:610-754 | Two honest endpoints over FIFO streams, any interleaving of calls, deliveries and re-keys from either or both sides: an endpoint has taken the peer's first k packets, for a live one exactly those delivered whole, holds exactly the delivered bytes after them, and stands at the cipher state, sequence number and epoch the next packet is sealed with |
| PairRuns.DeliveredInOrder | crates/ssh-transport/src/transport.rs:483-499 | What is handed up is always an in-order, duplicate-free prefix of what the peer accepted for sending, and all of it once a live endpoint has been given every byte the peer wrote and the peer is not closing and has nothing waiting |
| PairRuns.Settles | crates/ssh-transport/src/transport.rs:1112-1137 | Once two live endpoints have been given every byte the other wrote, no round is open or stuck: both are up, share the session id and the hash inputs of all rounds, stand at each other's sending state, have empty queues and have handed up everything accepted |
| PairRuns.FailsOnlyWithExcuse | crates/ssh-transport/src/transport.rs:689-821 | An honest peer is never rejected for a corrupt, misplaced or badly signed packet: only incompatible configurations or the packet cap end a connection with an error |
| PairRuns.OutcomesAgree | crates/ssh-transport/src/transport.rs:823-888 | Both ends hold the same session id and negotiated names, and each end's outbound compression is the other's inbound one |
| PairRuns.RoundsAgree | crates/ssh-transport/src/transport.rs:890-1040 | Every interleaving: the list of hash inputs the client has gone through, each with its own ephemeral key and the secret it computed, is the server's list, one round behind exactly while a reply is unread; each end has keyed one outbound epoch per round, and the session id is the hash of the first |
| PairRuns.HashInputsAgree | crates/ssh-transport/src/transport.rs:995-1040 | While the client waits for a reply the server has yet to send, both ends would hash the same bytes, whatever the ephemeral keys and the secret come out as |
| PairRuns.RunInStep | crates/ssh-transport/src/transport.rs:689-1137 | The joint invariant of the two endpoints and two streams holds over every run |
| TwoParty.DriveInStep | crates/ssh-transport/src/transport.rs:689-754 | The receive loop keeps two endpoints in step, however much it has to read |
| TwoParty.DeliverInStep | crates/ssh-transport/src/transport.rs:414-421 | Delivering any number of bytes keeps them in step |
| TwoParty.WholeTaken | crates/ssh-transport/src/transport.rs:689-754 | The receive loop never stops with a whole packet unread: what it has taken is exactly what was delivered whole |
| TwoParty.OpensNext | crates/ssh-transport/src/cipher.rs:177-231 | The next packet on the stream opens under the reader's own cipher and number |
| TwoParty.WaitsForUnit | crates/ssh-transport/src/transport.rs:689-754 | With less than one packet delivered the reader waits |
| Paired.GreetedWent | crates/ssh-transport/src/transport.rs:689-704 | Reading the identification line starts the packets and changes nothing else |
| Joint.ClientReadsKexinit | crates/ssh-transport/src/transport.rs:823-888 | The client reading the server's offer, in every phase, simultaneous re-keys included, stays in lockstep or refuses with an excuse |
| Joint.ServerReadsKexinit | crates/ssh-transport/src/transport.rs:823-888 | The server reading the client's offer likewise |
| Joint.ServerReadsAsk | crates/ssh-transport/src/transport.rs:890-936 | The server reading the client's ephemeral key answers, and fails only on a cipher without known key lengths |
| Joint.ClientReadsReply | crates/ssh-transport/src/transport.rs:938-985 | The client always accepts an honest reply: its hash passes the signature check |
| Joint.ClientReadsNewkeys | crates/ssh-transport/src/transport.rs:1093-1108 | The NEWKEYS the client reads announces exactly its pending inbound keys |
| Joint.ServerReadsNewkeys | crates/ssh-transport/src/transport.rs:1093-1108 | The NEWKEYS the server reads announces exactly its pending inbound keys |
| Rounds.ConcludeIs | crates/ssh-transport/src/transport.rs:938-1071 | The client computes what the server computed: same secret, hash and keys, directions mirrored |
| Rounds.RespondIs | crates/ssh-transport/src/transport.rs:890-1071 | The server's answer is the round both offers determine |
| Rounds.NewkeysMoves | crates/ssh-transport/src/transport.rs:1093-1137 | NEWKEYS completes the round: the receiver switches to the announced keys and starts clean, sequence number zero |
| Rounds.OneCipher | crates/ssh-transport/src/transport.rs:1047-1059 | Both directions use one cipher and one compression name |
| Rounds.HonestSuiteExists | crates/ssh-transport/src/transport.rs:890-985 | What is asked of the cryptography can be had, over any keystreams and digests |
| Lockstep.OfferMade | crates/ssh-transport/src/transport.rs:395-412 | Every KEXINIT an endpoint builds parses as an offer of its configuration |
| Delivery.ClientAccepts | crates/ssh-transport/src/transport.rs:705-821 | The client taking the next packet of an honest server stays in step or has an excuse |
| Delivery.ServerAccepts | crates/ssh-transport/src/transport.rs:705-821 | The server taking the next packet of an honest client stays in step or has an excuse |
| Channels.DrainRefinesQueue | crates/ssh-transport/src/connection.rs:200-224 | Emitted chunks followed by the remaining queue are what was queued, byte for byte with the stream tag; each chunk is non-empty and within packet size and cap; the window pays for exactly the bytes emitted; draining stops only at an empty queue or an empty window |
| Channels.DrainSendsAll | crates/ssh-transport/src/connection.rs:200-224 | Draining sends the longest prefix of the queue that the window allows |
| Channels.DrainsOnceRemote | crates/ssh-transport/src/connection.rs:161-224 | Whatever window and packet size the peer names, draining is held up by the window alone |
| Channels.EnqueueAppends | crates/ssh-transport/src/connection.rs:167-185 | Enqueueing appends to what is pending, whatever is half sent in front of it |
| Channels.AckKeepsWindow | crates/ssh-transport/src/connection.rs:246-257 | Whatever is acknowledged, the window never passes its initial size, no counter wraps, and a grant moves pending bytes into the window |
| Channels.AckBatches | crates/ssh-transport/src/connection.rs:246-257 | No grant while some window is left and less than half a window is due; all that is due once it is half a window |
| Channels.AckExact | crates/ssh-transport/src/connection.rs:246-257 | Acknowledging no more than was received is never clamped |
| Channels.NeverStuck | crates/ssh-transport/src/connection.rs:246-257 | All acknowledged means more than half a window open; a shut window means more than half a window unconsumed, and any acknowledgement grants |
| ChannelObject.Channel.constructor | crates/ssh-transport/src/connection.rs:96-114 | A fresh channel: full local window, nothing known of the peer |
| ChannelObject.Channel.SetRemote | crates/ssh-transport/src/connection.rs:161-165 | The peer's window and packet size |
| ChannelObject.Channel.EnqueueStdout | crates/ssh-transport/src/connection.rs:167-175 | Appends one item, none for empty data |
| ChannelObject.Channel.EnqueueStderr | crates/ssh-transport/src/connection.rs:177-185 | The same, tagged |
| ChannelObject.Channel.AddRemoteWindow | crates/ssh-transport/src/connection.rs:187-190 | Saturating growth of the peer's window |
| ChannelObject.Channel.RequestClose | crates/ssh-transport/src/connection.rs:142-144 | Only the wish to close changes |
| ChannelObject.Channel.RequestEof | crates/ssh-transport/src/connection.rs:152-154 | Only the wish to end changes |
| ChannelObject.Channel.DrainOutput | crates/ssh-transport/src/connection.rs:200-224 | The mutating loop over the deque computes the specified messages and the specified rest |
| ChannelObject.Channel.EmitOne | crates/ssh-transport/src/connection.rs:200-224 | One message off the front of the queue, paid for from the window |
| ChannelObject.Channel.SetPty | crates/ssh-transport/src/connection.rs:117-119 | The terminal granted on the channel |
| ChannelObject.Channel.UpdatePtySize | crates/ssh-transport/src/connection.rs:128-139 | A new size for the terminal, refused when none was ever granted |
| ChannelObject.Channel.SendLimit | crates/ssh-transport/src/connection.rs:200-210 | The least of window, packet size and cap, the cap never below one |
| ChannelObject.Channel.ConsumeIncoming | crates/ssh-transport/src/connection.rs:234-240 | Takes received bytes off the window, or reports an overrun and changes nothing |
| ChannelObject.Channel.AckIncoming | crates/ssh-transport/src/connection.rs:246-257 | Credits consumed bytes, clamped, and grants in batches |
| ChannelObject.Channel.TakeFlushedOut | crates/ssh-transport/src/connection.rs:261-263 | Hands out the flushed count once |
| Flow.WindowsConserved | crates/ssh-transport/src/connection.rs:200-257 | One channel between this client and this server, every interleaving, any chunk caps: each receiver's window is its sender's window plus data plus grants under way; "channel window exceeded" never fires; no window passes its initial size |
| Flow.NothingStuck | crates/ssh-transport/src/server.rs:671-710 | With nothing under way the server's output is sent out; stdin waits only for the server's application, which then has more than half a window unread and whose next acknowledgement grants; with all acknowledged, nothing waits |
| Flow.StepBalanced | crates/ssh-transport/src/server.rs:613-710 | Every step of either end keeps the windows balanced |
| Flow.FlushPays | crates/ssh-transport/src/client.rs:589-624 | Flushing, on either side, moves window into data under way and nothing else |
| Flow.ServerDataBalanced | crates/ssh-transport/src/server.rs:613-635 | The server taking data never sees an overrun |
| Flow.ClientDataBalanced | crates/ssh-transport/src/client.rs:494-513 | The client taking and at once acknowledging data never sees an overrun |
| Flow.ServerAdjustBalanced | crates/ssh-transport/src/server.rs:637-646 | A grant taken by the server ends up in its window |
| Flow.ClientAdjustBalanced | crates/ssh-transport/src/client.rs:515-524 | A grant taken by the client ends up in its window |
| Flow.ConsumesBalanced | crates/ssh-transport/src/server.rs:241-251 | Consumption of any size keeps the balance |
| Flow.AcceptBalanced | crates/ssh-transport/src/server.rs:431-468 | Accepting the channel starts the balance |
| Flow.ClientConfirmBalanced | crates/ssh-transport/src/client.rs:433-477 | The confirmation, with stdin queued before it, starts the other direction |
| Closing.OrderKeptExactly | crates/ssh-transport/src/server.rs:671-710 | A deed of the driver or the peer keeps "all output, then exit-status, EOF, CLOSE" if and only if it is not output written after the CLOSE went out |
| Closing.EndsInOrder | crates/ssh-transport/src/server.rs:211-235 | Through any run without such late output, any window adjusts included: the ending comes once, complete and after all that was written, and a reported exit waits only for queued output; or the peer closed first |
| Closing.LateBreaks | crates/ssh-transport/src/server.rs:211-218 | Output accepted after the CLOSE can no longer be sent in order |
| Closing.ServerClosesOnce | crates/ssh-transport/src/server.rs:648-710 | Every run, late output and repeated exits included: the server sends one CLOSE once its channel is closed and none before |
| ClientClosing.StdinKeptExactly | crates/ssh-transport/src/client.rs:275-289 | A deed keeps EOF behind all stdin if and only if it is not stdin written after the EOF went out |
| ClientClosing.EofFollowsStdin | crates/ssh-transport/src/client.rs:589-624 | Through any run without such late stdin: EOF goes out once, after all stdin; and an end that was asked for waits only for queued stdin |
| ClientClosing.AfterEofBreaks | crates/ssh-transport/src/client.rs:275-280 | Stdin accepted after the EOF can no longer be sent in order |
| ClientClosing.ClientClosesOnce | crates/ssh-transport/src/client.rs:554-566 | Every run: the client sends one CLOSE once its channel is closed and none before |
| ClientChannel.ClientDoesSame | crates/ssh-transport/src/client.rs:275-289 | Every call and packet does to the client's channel, and sends on it, exactly what the session of the ordering results does |
| ClientStreams.HearsAll | crates/ssh-transport/src/client.rs:494-513 | Through any calls: what the client surfaces as data is what was delivered to it, in order and on its stream |
| ClientStreams.HearsWhatIsCarried | crates/ssh-transport/src/client.rs:494-513 | Given a server's channel messages, the client surfaces exactly the bytes they carry, each on its stream |
| ClientStreams.SessionOpens | crates/ssh-transport/src/client.rs:264-273 | The client's request is one the server confirms, and each end then has for its sending window the other's receiving window |
| ClientStreams.SessionEnds | crates/ssh-transport/src/client.rs:554-566 | One CLOSE unless one went out, the end surfaces, the requests that waited are forgotten; a refused channel likewise, without the CLOSE |
| Requests.AskedAndAnswered | crates/ssh-transport/src/client.rs:433-472 | The requests of one session, end to end: they never cross; the client hears of a terminal exactly when the policy allows one, and then the server holds the very terminal it asked for; the program it asked for is the one that surfaces; and a refusal ends its session |
| Requests.ConfirmedAsks | crates/ssh-transport/src/client.rs:433-477 | On confirmation the terminal request goes out before the session request, and both wait in the reply queue in that order, whatever stdin is flushed behind them |
| Requests.TerminalAnswered | crates/ssh-transport/src/server.rs:525-554 | A terminal request on an open channel is answered at once, by the policy, and if granted the channel holds exactly what was asked for |
| ClientObject.ClientConnection.constructor | crates/ssh-transport/src/client.rs:139-154 | Nothing asked, nothing waiting |
| ClientObject.ClientConnection.RequestPty | crates/ssh-transport/src/client.rs:243-249 | The terminal wanted with the next session |
| ClientObject.ClientConnection.OpenSession | crates/ssh-transport/src/client.rs:264-273 | Asks for a session channel with the full window, on a fresh channel, and keeps the request for later; an error before login |
| ClientObject.ClientConnection.WriteStdin | crates/ssh-transport/src/client.rs:275-280 | Queues stdin and flushes it |
| ClientObject.ClientConnection.SendEof | crates/ssh-transport/src/client.rs:284-289 | The wish to end, then a flush |
| ClientObject.ClientConnection.HandleOpenConfirmation | crates/ssh-transport/src/client.rs:433-477 | The peer's window and packet size, the terminal request, the session request, then the stdin queued so far, in that order |
| ClientObject.ClientConnection.AskPty | crates/ssh-transport/src/client.rs:449-462 | The terminal request, once, and its place in the reply queue |
| ClientObject.ClientConnection.AskSession | crates/ssh-transport/src/client.rs:463-474 | The session request, once, and its place in the reply queue |
| ClientObject.ClientConnection.HandleOpenFailure | crates/ssh-transport/src/client.rs:479-492 | Drops the channel, forgets the requests that wait and surfaces the failure |
| ClientObject.ClientConnection.HandleData | crates/ssh-transport/src/client.rs:494-513 | Accounts for the data, then surfaces it on its stream |
| ClientObject.ClientConnection.HandleSuccess | crates/ssh-transport/src/client.rs:366-372 | The oldest request that waits was granted |
| ClientObject.ClientConnection.HandleFailure | crates/ssh-transport/src/client.rs:373-382 | The oldest request that waits was refused: survivable for a terminal, else the end of the session |
| ClientObject.ClientConnection.GiveUp | crates/ssh-transport/src/client.rs:539-552 | CLOSE if none went out, then the channel and the reply queue are gone |
| ClientObject.ClientConnection.SendAll | crates/ssh-transport/src/client.rs:589-604 | What the transport takes, nothing once closing |
| ClientObject.ClientConnection.HandleWindowAdjust | crates/ssh-transport/src/client.rs:515-524 | Grows the window, then flushes |
| ClientObject.ClientConnection.ReplenishWindow | crates/ssh-transport/src/client.rs:568-587 | Accounts for received data and acknowledges it at once; an overrun closes the connection |
| ClientObject.ClientConnection.HandleChannelClose | crates/ssh-transport/src/client.rs:554-566 | Answers CLOSE once, drops the channel, forgets the requests that wait and surfaces the end |
| ClientObject.ClientConnection.FlushChannel | crates/ssh-transport/src/client.rs:589-624 | Drains, then the EOF that was asked for, once the queue is empty |
| ServerRuns.EventsAreGuarded | crates/ssh-transport/src/server.rs:267-409 | Every run: at most one Authenticated, every channel event after it, every AuthExhausted before it; without an exhaustion, fewer failures than allowed (none when the limit is 0); the policy is consulted for at most `max_auth_requests` requests |
| ServerRuns.GatedAt | crates/ssh-transport/src/server.rs:267-409 | The same by position in the event stream |
| ServerRuns.CallGuarded | crates/ssh-transport/src/server.rs:267-409 | Every call of the driver and every packet keeps it |
| LateLogin.LoginExactly | crates/ssh-transport/src/server.rs:321-393 | A call logs in if and only if it is a request the policy grants, within the cap on requests, before any login; that the server is closing or has exhausted its attempts makes no difference |
| LateLogin.LateLoginsExactly | crates/ssh-transport/src/server.rs:267-291 | Every run: a login follows an exhaustion in the event stream if and only if such a request comes after it |
| LateLogin.CallLateExactly | crates/ssh-transport/src/server.rs:267-409 | One call: afterwards there is a late login if and only if there was one before or the call is such a request |
| LateLogin.PoliciesExactly | crates/ssh-transport/src/server.rs:35-48 | A login can follow an exhaustion under exactly the policies that allow more requests than failed attempts, shown by a run for each of them |
| Logins.LoginAnswered | crates/ssh-transport/src/server.rs:321-409 | A live server answers a readable login request within the cap with exactly one message: success if and only if it is granted, a go-ahead if and only if it is a probe for a key that would do, the end of the connection if and only if it is the last failure allowed, a failure otherwise |
| Logins.UnreadableFails | crates/ssh-transport/src/server.rs:321-345 | A login request is an error if and only if it cannot be read and is within the cap |
| Logins.LoginOverCap | crates/ssh-transport/src/server.rs:321-335 | A request over the cap ends the connection and is put to nobody |
| Logins.SuccessForEachLogin | crates/ssh-transport/src/server.rs:384-393 | Every run: one success message for each login that comes while the server is live and no other, and nothing that concerns a channel goes out before it |
| Logins.OpenedAt | crates/ssh-transport/src/server.rs:384-393 | The same by position in what was sent |
| Logins.ServiceAnswered | crates/ssh-transport/src/server.rs:301-319 | The authentication service is accepted, with the banner behind the first request only; any other service ends the connection |
| Logins.OpenAnswered | crates/ssh-transport/src/server.rs:431-468 | A channel request gets exactly one answer; it is confirmed if and only if it is for a session, none is open and the packet size is workable, and the channel then has the full window and just what the client granted |
| Logins.AskAnswered | crates/ssh-transport/src/server.rs:517-592 | A request that is not for a program gets one answer, at once, if it wants one: success for an environment variable, a terminal the policy allows on an open channel, or a resize of a terminal that is held, and failure for all else; a granted terminal is held as it was asked for |
| Logins.DecisionSent | crates/ssh-transport/src/server.rs:596-611 | The driver's decision is sent if it was asked for, once |
| Logins.PhaseDecides | crates/ssh-transport/src/server.rs:267-299 | Before the login only requests for service or for a login do anything, after it neither does; what cannot be read is an error where it would be looked at |
| Logins.PacketSurfaces | crates/ssh-transport/src/server.rs:413-663 | What surfaces of each packet: data byte for byte unless it overruns the window, EOF, CLOSE, a first program, a resize of a terminal that is held, and nothing else |
| ServerRuns.OneProgramPerChannel | crates/ssh-transport/src/server.rs:470-515 | Between two opens or closes of the channel at most one program request surfaces, and none while one is running |
| ServerChannel.ServerDoesSame | crates/ssh-transport/src/server.rs:211-255 | Every call and packet does to the channel, and sends on it, exactly what the session of the ordering and window results does |
| Replies.AnswersKeptExactly | crates/ssh-transport/src/server.rs:470-611 | A call keeps the answers in the order of the requests if and only if it does not answer a request, or start a program, while an earlier program waits for the driver |
| Replies.AnswersInOrder | crates/ssh-transport/src/client.rs:452-472 | In every run without such overtaking the k-th answer is the one due to the k-th request that wants one, which is what the client's reply queue relies on |
| Replies.AnswersCross | crates/ssh-transport/src/server.rs:470-603 | A concrete crossing: the refusal of a later request is sent, and read by the client, as the answer to the program request before it |
| ServerObject.ServerConnection.constructor | crates/ssh-transport/src/server.rs:106-119 | A new connection with its limits |
| ServerObject.ServerConnection.Pump | crates/ssh-transport/src/server.rs:267-291 | The loop over the decrypted packets computes the run of the machine, packets after the decision to close included |
| ServerObject.ServerConnection.HandlePreauth | crates/ssh-transport/src/server.rs:293-299 | Before authentication only service and userauth requests count |
| ServerObject.ServerConnection.HandleServiceRequest | crates/ssh-transport/src/server.rs:301-319 | Accepts userauth, shows the banner once, refuses anything else |
| ServerObject.ServerConnection.HandleUserAuth | crates/ssh-transport/src/server.rs:321-345 | Counts the request before anything else, probes included, and decides by method |
| ServerObject.ServerConnection.HandlePublicKey | crates/ssh-transport/src/server.rs:347-382 | Unreadable, unauthorized, probe, or signed: one answer each |
| ServerObject.ServerConnection.FinishAuth | crates/ssh-transport/src/server.rs:384-393 | Success and the login event, or a failure |
| ServerObject.ServerConnection.SendFailure | crates/ssh-transport/src/server.rs:395-409 | Counts; the last allowed failure disconnects and reports exhaustion |
| ServerObject.ServerConnection.HandleConnection | crates/ssh-transport/src/server.rs:413-429 | Dispatch of the connection protocol |
| ServerObject.ServerConnection.HandleChannelOpen | crates/ssh-transport/src/server.rs:431-468 | One session channel, packet size at least 256, window and program state reset |
| ServerObject.ServerConnection.HandleProgramRequest | crates/ssh-transport/src/server.rs:470-515 | One program per channel, the answer deferred to the driver |
| ServerObject.ServerConnection.HandleOtherRequest | crates/ssh-transport/src/server.rs:517-592 | Environment, terminal, resize and unknown requests: what each changes, and one answer if one is wanted |
| ServerObject.ServerConnection.HandlePtyRequest | crates/ssh-transport/src/server.rs:525-547 | A terminal is granted where the policy allows one and a channel is open, and the channel holds it |
| ServerObject.ServerConnection.HandleWindowChange | crates/ssh-transport/src/server.rs:557-575 | A resize of a terminal the channel holds is applied and surfaces; any other is refused |
| ServerObject.ServerConnection.AnswerChannel | crates/ssh-transport/src/server.rs:596-611 | The deferred answer, given once |
| ServerObject.ServerConnection.HandleChannelData | crates/ssh-transport/src/server.rs:613-635 | Accounts and surfaces the data; an overrun disconnects |
| ServerObject.ServerConnection.HandleWindowAdjust | crates/ssh-transport/src/server.rs:637-646 | Grows the window, then flushes |
| ServerObject.ServerConnection.HandleChannelClose | crates/ssh-transport/src/server.rs:648-663 | Answers CLOSE once and forgets the channel |
| ServerObject.ServerConnection.FlushChannel | crates/ssh-transport/src/server.rs:671-710 | Drains, then exit-status, EOF and CLOSE once the queue is empty |
| ServerObject.ServerConnection.ChannelOutput | crates/ssh-transport/src/server.rs:212-226 | Queues output and flushes |
| ServerObject.ServerConnection.ChannelExit | crates/ssh-transport/src/server.rs:229-235 | The status and the wish to close, then a flush |
| ServerObject.ServerConnection.ChannelConsumed | crates/ssh-transport/src/server.rs:241-251 | Acknowledges and announces the grant |
| ServerObject.ServerConnection.TakeFlushedOutput | crates/ssh-transport/src/server.rs:255-259 | Hands out the flushed count once |
| ServerObject.ServerConnection.Disconnect | crates/ssh-transport/src/server.rs:395-409 | One DISCONNECT, then nothing |
| Serve.BudgetLaw | crates/ssh-io/src/serve.rs:132-175 | A handler started on an open channel, every interleaving of handler and loop: free permits, queued outbound bytes and bytes in flight make up `out_limit`; in flight is what the channel queues plus what was flushed and not credited; drained and credited, every reservation can be met; a reservation waits only while something is left to drain |
| Serve.UnreadIsBounded | crates/ssh-io/src/serve.rs:186-202 | A handler started on an open channel, any client: the stdin accepted for the handler and not yet read never exceeds one window, and window plus unacknowledged plus unread bytes never pass it |
| Serve.UnreadIsBoundedExactly | crates/ssh-transport/src/server.rs:622-633 | For a handler that was just given its program: the stdin it has not read stays within one window in every run, whatever the client sends, if and only if a channel was open |
| Serve.UnreadGrows | crates/ssh-transport/src/server.rs:622-633 | Without a channel the client can have any number of bytes queued, shown by a run |
| Serve.BudgetExactly | crates/ssh-io/src/serve.rs:164-175 | Bytes in flight are what the channel holds, as long as the handler runs, if and only if a channel was open when it was started |
| Serve.OutputVanishes | crates/ssh-transport/src/server.rs:212-226 | Without a channel output stays in flight although nothing holds it |
| Serve.StartsWithoutChannel | crates/ssh-transport/src/server.rs:470-500 | A client that logs in and asks for a program at once has a handler started without a channel |
| Serve.StepFair | crates/ssh-io/src/serve.rs:132-315 | Every step of a handler started on an open channel, and of the loop, keeps both laws |
| Serve.PollWriteFair | crates/ssh-io/src/exec.rs:322-352 | A write moves exactly the written bytes from the budget to the queue, also when the caller changes its buffer between polls |
| Serve.PollReadFair | crates/ssh-io/src/exec.rs:222-244 | A read keeps the budget and the window count: each byte given is counted once |
| Streams.ReadsFront | crates/ssh-io/src/exec.rs:222-244 | A read gives exactly the front of the unread bytes, some if there is room, and waits only when there are none |
| Streams.ReadsWhatWasSent | crates/ssh-io/src/serve.rs:271-283 | Every interleaving: what the handler has read followed by what it has not is what the client sent before its EOF or CLOSE, byte for byte and in order |
| Streams.WritesGoOut | crates/ssh-io/src/serve.rs:303-315 | Every interleaving, as long as the handler runs on a live connection with a channel: the data sent, queued on the channel and waiting for the loop is what there was and all the handler has written, in order, each byte on the stream it was written to |
| Streams.WriteReady | crates/ssh-io/src/exec.rs:322-352 | A write goes through as soon as the budget has what it asks for or had reserved |
| Streams.ChunkReady | crates/ssh-io/src/exec.rs:290-307 | A piece is queued on its stream as soon as the budget covers it |
| Streams.TakesOldest | crates/ssh-io/src/serve.rs:303-315 | The loop takes messages one at a time, oldest first; an exit hands its own status to the channel |
| Streams.ProgramAnswered | crates/ssh-io/src/serve.rs:227-264 | A first program is answered by whether there is a handler for it, and the handler then started replaces the one before |
| Streams.NeverStarves | crates/ssh-io/src/serve.rs:186-202 | The loop's report leaves nothing read unreported; a handler that has read all it was sent leaves its client more than half a window |
| Serve.CreditFair | crates/ssh-io/src/serve.rs:164-175 | The credit is the whole of what was flushed |
| Serve.RefillFair | crates/ssh-io/src/serve.rs:186-202 | The refill passes on exactly what was read since last time |
| Serve.TakeFair | crates/ssh-io/src/serve.rs:303-315 | Taking a message moves its bytes from the queue into flight |
| Serve.DataFair | crates/ssh-io/src/serve.rs:271-280 | On an open channel, data from any client, within or beyond its window, keeps both laws |
| Serve.EndFair | crates/ssh-io/src/serve.rs:281-297 | EOF and close from the client keep both laws |
| ServeObjects.SessionReader.PollRead | crates/ssh-io/src/exec.rs:222-244 | The chunk-and-cursor reader skips empty chunks, gives the front bytes and counts them |
| ServeObjects.SessionWriter.PollWrite | crates/ssh-io/src/exec.rs:322-352 | The polled writer with its stored reservation writes what the state machine writes |
| ServeObjects.SessionWriter.ReserveAndSend | crates/ssh-io/src/exec.rs:290-307 | Piece by piece, each paid for: the sent prefix is queued in order, and it stops only at the end or at a piece the budget does not cover |
| ServeObjects.PiecesCarryAll | crates/ssh-io/src/exec.rs:290-307 | The pieces of a write carry every byte, on its stream, none empty and none above the reservation limit |
| ServeObjects.ServeLoop.TakeOutbound | crates/ssh-io/src/serve.rs:303-315 | Takes the next message into the channel and adds its length to the bytes in flight |
| ServeObjects.ServeLoop.Credit | crates/ssh-io/src/serve.rs:164-175 | Frees as much budget as was flushed |
| ServeObjects.ServeLoop.Refill | crates/ssh-io/src/serve.rs:186-202 | Acknowledges what the handler has read since last time |
| ServeObjects.ServeLoop.RouteEvents | crates/ssh-io/src/serve.rs:222-297 | Routes each event of a read, in order: data and its end to the handler's stdin, a program request to its answer and to a new handler, a close to the end of this one |
| Typing.TwoFeedsAreOne | crates/ssh-tui/src/input.rs:116-133 | Two feeds give the keys and leftover of one, unless the first ends by decoding a bare escape byte and something other than an escape byte follows |
| Typing.SplitMattersExactly | crates/ssh-tui/src/input.rs:116-133 | Splitting never matters, for any continuation, if and only if decoding up to the split does not end by taking a lone escape byte for Esc |
| Typing.SplitShows | crates/ssh-tui/src/input.rs:116-133 | For a single continuation: after a lone escape byte was taken for Esc the split shows in the keys, unless nothing, another escape byte or a sequence that is skipped follows |
| Typing.SkippedCanHide | crates/ssh-tui/src/input.rs:116-133 | A continuation behind a lone escape byte whose skipped sequence hides the split |
| Typing.KeysComeBack | crates/ssh-tui/src/input.rs:116-271 | Every canonically encoded list of keys other than lone Esc decodes to itself with nothing left over |
| Typing.KeyBack | crates/ssh-tui/src/input.rs:135-271 | Each such key decodes from exactly its own bytes |
| Typing.CharBack | crates/ssh-tui/src/input.rs:252-271 | Every printable character is what its UTF-8 encoding, of one to four bytes, decodes to |
| Forms.OtherFormsComeBack | crates/ssh-tui/src/input.rs:145-249 | The other forms terminals use (Home and End by number, F1 to F4 by number, application-mode cursor keys, line feed, BS) decode to their keys from exactly their own bytes, whatever follows |
| Forms.NumbersRead | crates/ssh-tui/src/input.rs:184-203 | A parameter is a number of 16 bits, with or without a plus sign and leading zeros |
| Forms.OthersSkipped | crates/ssh-tui/src/input.rs:175-222 | A whole control sequence that stands for no key is dropped as a whole |
| Forms.CharExactly | crates/ssh-tui/src/input.rs:252-271 | A character is decoded if and only if the buffer begins with its own UTF-8 encoding; no overlong form, surrogate or broken sequence stands for one |
| Typing.StepStable | crates/ssh-tui/src/input.rs:135-271 | A decided step stays decided, but for an escape byte with nothing after it yet |
| Input.InputParser.Feed | crates/ssh-tui/src/input.rs:116-133 | The loop that drains `pending` ends, and computes the keys and the leftover |
| Input.StepAt | crates/ssh-tui/src/input.rs:135-143 | Every decided step consumes at least one byte and never more than there are |
| Drawing.DrawPaintsExactly | crates/ssh-tui/src/backend.rs:204-231 | Run through a terminal that reads bytes (control sequences, then UTF-8), what `draw` emits for on-screen cells in any order, each symbol one whole glyph, paints exactly those cells with exactly their colours and modifiers, ends in the reset style and keeps any on-screen tracked cursor equal to the terminal's, whatever the terminal does with wide and combining characters |
| Drawing.SetStyleAt | crates/ssh-tui/src/backend.rs:71-143 | From a style the terminal is in, the emitted codes lead to exactly the style asked for, for all colours and modifiers |
| Drawing.MoveAt | crates/ssh-tui/src/backend.rs:59-66 | The cursor sequence puts the terminal's cursor at the position, 1-based on the wire, clamped to the screen |
| Drawing.FrameShownExactly | crates/ssh-tui/src/backend.rs:204-231 | For cells that do not overlap, the terminal shows exactly them if and only if every symbol is one whole glyph: well-formed UTF-8, a first character that is neither a control nor combining, and only combining characters after it |
| Drawing.EscapeErases | crates/ssh-tui/src/backend.rs:204-231 | A frame with an erase sequence as one symbol shows only the cells drawn after it: everything before, on an empty or a painted screen, is gone |
| Drawing.Untouched | crates/ssh-tui/src/backend.rs:204-231 | A position that is neither on nor next to a drawn cell keeps what it showed |
| Drawing.LastShows | crates/ssh-tui/src/backend.rs:204-231 | A cell shows if no later one overlaps it; a wide one covers its own column and the next, and no more |
| Drawing.OthersKeepSync | crates/ssh-tui/src/backend.rs:263-271 | A fresh backend agrees with a terminal in the reset style; cursor calls and clearing keep the agreement, and clearing empties the screen |
| Drawing.CodeShape | crates/ssh-tui/src/backend.rs:115-139 | A colour code is one of the three SGR forms, with its numbers |
| Economy.StyleCosts | crates/ssh-tui/src/backend.rs:71-94 | A style in force costs nothing, and a change of colours alone resets nothing |
| Economy.CellCosts | crates/ssh-tui/src/backend.rs:204-231 | A cell in the style in force costs its symbol, and a cursor sequence only if the cursor is elsewhere |
| Economy.SettleCosts | crates/ssh-tui/src/backend.rs:204-231 | The reset behind a frame goes out only if a style is in force |
| Economy.TextIsBare | crates/ssh-tui/src/backend.rs:204-231 | Text of one style along a row, from where the cursor is, goes out without a single code |
| Screen.SymbolShown | crates/ssh-tui/src/backend.rs:214-215 | The bytes of a whole glyph put exactly it at the cursor, in the current style, over the columns of its first character |
| Screen.ShowProper | crates/ssh-tui/src/backend.rs:204-231 | Whatever bytes arrive, a terminal shows whole glyphs only |
| Ansi.DecReads | crates/ssh-tui/src/backend.rs:59-66 | A number written in decimal reads back as itself |
| Screen.SequenceShown | crates/ssh-tui/src/backend.rs:59-101 | A control sequence reaches the terminal with exactly its numbers and final byte, and no character combines across it |
| BackendObject.SshBackend.Draw | crates/ssh-tui/src/backend.rs:204-231 | The loop over the cells leaves exactly the specified bytes, cursor and style; symbols go out unchecked |
| BackendObject.SshBackend.SetStyle | crates/ssh-tui/src/backend.rs:71-94 | Codes only where something changes, a full reset when a modifier must go |
| BackendObject.SshBackend.MoveTo | crates/ssh-tui/src/backend.rs:59-66 | The 1-based cursor sequence, and the tracked cursor |
| BackendObject.SshBackend.Sgr | crates/ssh-tui/src/backend.rs:96-101 | One SGR sequence |
| BackendObject.SshBackend.TakeFrame | crates/ssh-tui/src/backend.rs:55-57 | The frame is handed out once |
| BackendObject.SshBackend.constructor | crates/ssh-tui/src/backend.rs:38-45 | An empty buffer, no tracked cursor and a reset style |

## Left out

- Real cryptography and random contents: ChaCha20, Poly1305, AES-GCM, SHA-2, X25519, ML-KEM and Ed25519 are foreign code; key agreement, signatures, keystreams and tags are uninterpreted functions. The optional sntrup761 exchange is not modelled.
- Compression: every packet is sent as if "none" were negotiated; the names are negotiated and mirrored, the zlib contexts are not part of this model.
- A state after an error: an `Err` from the peer's bytes ends the connection, and what the fields then hold is not stated.
- Error texts: errors with different texts are one class each, and parsing a host key and verifying its signature fail with one error.
- UTF-8 validity of text fields: user names, commands and descriptions are byte strings.
- Counters of failed logins, requests and peer re-keys are natural numbers; their 32-bit overflow is not modelled, as the limits stop them long before.
- Guesses: an endpoint skips a wrong guess of its peer, but neither modelled endpoint ever sends one.
- Framing.PaddingLen: only the block size 8 that the plain form uses; the loop that pads up to the minimum packet size never runs, as `Framing.PlainLongEnough` proves, and is not repeated.
- GCM nonces are four fixed bytes and an eight-byte counter rather than one twelve-byte array.
- Obfuscation: a burst of chaff is a number of single chaff packets; timing is not modelled.
- Sockets, timers, tasks, process spawning, key files, the command-line programs, connection and rate limiters and the retry policy.
- The two connection objects sit on their transport through the packets they hand to it and take from it; they are not composed with the two-party transport into one system.
- Messages of the connection and authentication layers travel as values: their byte builders and parsers, and the client's authentication dialogue, are not modelled. A malformed one is a packet of its own kind.
- What the policy handler and the signature check would answer comes with the authentication request.
- The client's own `window_change`, and the feed of terminal sizes to a running handler.
- A client that opens a second session before the first is over: `Requests.AskedAndAnswered` is about the requests of one session.
- Serve.BudgetLaw: one handler; handlers that replace one another, and several channels one after the other, share the output queue in the code, and what becomes of it is not modelled once a handler has ended. The semaphore is a number and acquiring from it is atomic.
- ServeObjects.ServeLoop.RouteEvents: a login or an exhaustion cannot come once a handler runs and does nothing here, and the sizes of a resize are not passed on.
- `flushed_out` counts bytes handed to the transport, as in the code, where they may still wait for the end of a re-key.
- The backend's `append_lines`, `clear_region`, cursor visibility and cursor queries.
- Drawing.DrawPaintsExactly: a terminal whose combining characters do not depend on what they follow, and that joins no two full characters into one glyph; on one that does, a symbol of several full characters is several glyphs here. Line wrapping at the last column is left to the terminal.
- Drawing.DrawPaintsExactly: cells beyond the terminal's columns or rows are excluded.
- Memory scrubbing and constant-time comparison.
