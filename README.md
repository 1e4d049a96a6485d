# WhatsApp gateway core, modelled in Dafny

This project models the core of a small multi-session WhatsApp gateway built on Express and the
Baileys library. It covers five parts:

- the recipient normaliser that turns a raw phone number into a WhatsApp address (`Address`);
- the in-memory session registry (`SessionRepo`);
- the per-session inbox store (`InboxRepo`);
- the session lifecycle and inbound-message pipeline, with its auto-reply matcher (`Service`, `AutoReply`);
- the guard sequences of the four HTTP handlers (`Controller`).

`Scenarios` holds client runs that are proved from the contracts alone.

The shared registry, the inbox files, the credential folders and the restart timers are fields of a
`Gateway` object. A session handle `{ sock, lastQr }` is a `Session` object that the registry points to,
so the connection handler updates `lastQr` in place, as the source does. The Baileys socket is a
`Socket` object. It holds `user`, the log of messages handed to it, and whether a logout was accepted.
Each answer the provider gives is a parameter of the operation that asks for it: a send, a logout, or
loading the credential folder. The restart timer is a queue of session ids. When a timer fires,
`FireRestart` runs `startSock` for the oldest one.

Files: `wrappers.dfy`, `address.dfy`, `autoreply.dfy`, `sessionrepo.dfy`, `inboxrepo.dfy`,
`service.dfy`, `controller.dfy`, `scenarios.dfy`.

## Behaviour worth knowing

- The registry's `add` overwrites an existing entry and never fails. Rejecting a duplicate start is
  done only by the `startSession` handler.
- The normaliser strips every non-digit from its input, an address's suffix included, and then
  appends the suffix again. So an already-normalised address comes back unchanged
  (`Address.CanonicalIsFixed`), because the suffix holds no digit.
- Inbound messages are dropped only when `fromMe` is set or `message` is absent. A message without
  text (an image, say) is stored with text `''`. A rule with an empty keyword then answers it.
- `close` schedules one restart per event, and nothing removes duplicates. Several restarts can be
  pending for one session, and a reset cancels none of them.
- The handlers store no connection state. `checkSession` derives `connected` or `disconnected` from
  `sock.user`.
- After a reset, the fresh handle has `lastQr == null`. A new QR appears only when the provider sends
  one in a later `connection.update`.
- There is no logout, pairing-challenge, inbox, media or rule-update endpoint.

## Model

| member | source | states |
|---|---|---|
| `Address.StripNonDigits` | src/utils/formatNumber.js:2 | The result is all digits, is no longer than the input, and leaves an all-digit input unchanged |
| `Address.StripKeepsDigits` | src/utils/formatNumber.js:2 | Stripping keeps every digit of the input with its multiplicity and no other character |
| `Address.StripAppend` | src/utils/formatNumber.js:2 | Stripping distributes over concatenation, so the digits keep their relative order |
| `Address.FormatNumber` | src/utils/formatNumber.js:1-11 | Every success is a digit string that starts with `62`, followed by `@s.whatsapp.net`; it fails, with the message "Nomor harus diawali dengan 62 atau 0.", exactly when the cleaned digits start with neither `0` nor `62` |
| `Address.CanonicalIsFixed` | src/utils/formatNumber.js:2-10 | Every address of the output shape is mapped to itself |
| `Address.FormatIdempotent` | src/utils/formatNumber.js:2-10 | Normalising a successful output gives the same output |
| `Address.FormatDigits` | src/utils/formatNumber.js:4-10 | A leading `0` is replaced by `62`, giving n+1 digits; digits led by `62` are kept as they are, giving n digits |
| `Address.FormatKeepsCountryCode` | src/utils/formatNumber.js:6-10 | Cleaned digits that start with `62` are returned unchanged, with the suffix |
| `Address.FormatIgnoresNonDigits` | src/utils/formatNumber.js:2 | Two inputs with the same digits normalise to the same result |
| `Address.FormatRejectsNoDigits` | src/utils/formatNumber.js:2-7 | An input without digits, the empty string included, fails with the prefix error |
| `Address.FormatNationalExample` | src/utils/formatNumber.js:4-5 | `081234567` becomes `6281234567@s.whatsapp.net` |
| `Address.FormatCanonicalExample` | src/utils/formatNumber.js:2-10 | `6281234567@s.whatsapp.net` passes through unchanged |
| `Address.FormatForeignExample` | src/utils/formatNumber.js:6-7 | `1234` is refused |
| `AutoReply.IncludesIff` | src/services/whatsappService.js:40 | The substring test holds exactly when the keyword occurs at some position of the text (empty keyword included) |
| `AutoReply.FirstMatch` | src/services/whatsappService.js:40 | The position found holds a matching rule and no earlier rule matches; there is none exactly when no rule matches |
| `AutoReply.Find` | src/services/whatsappService.js:40 | The rule `find` returns is in the list and matches; none is returned exactly when no rule matches |
| `AutoReply.FindIsFirst` | src/services/whatsappService.js:40 | The rule at position k is chosen if and only if it matches and no earlier rule matches |
| `AutoReply.EmptyKeywordMatchesAll` | src/services/whatsappService.js:40 | A rule with an empty keyword matches every text |
| `AutoReply.MatchIgnoresCase` | src/services/whatsappService.js:40 | Lower-casing the text or the keyword does not change whether they match |
| `AutoReply.FirstMatchWinsExample` | src/services/whatsappService.js:39-40 | With rules `hi -> A` and `hi there -> B`, the text `Hi there` gets rule `A` |
| `SessionRepo.Registry.constructor` | src/repositories/whatsappSessionRepo.js:1 | The registry starts empty |
| `SessionRepo.Registry.Add` | src/repositories/whatsappSessionRepo.js:4 | After `add`, `get` gives the new handle whether or not one was registered before; every other id is unchanged |
| `SessionRepo.Registry.Get` | src/repositories/whatsappSessionRepo.js:5 | Gives the registered handle or none, and changes nothing |
| `SessionRepo.Registry.Remove` | src/repositories/whatsappSessionRepo.js:6 | After `remove`, the id is absent and every other id is unchanged; removing an absent id changes nothing |
| `SessionRepo.Registry.Exists` | src/repositories/whatsappSessionRepo.js:7 | True exactly when `get` would find a handle; changes nothing |
| `SessionRepo.RemoveIdempotent` | src/repositories/whatsappSessionRepo.js:6 | Two `remove` calls for one id on a registry leave exactly what one call leaves: the registry without that id |
| `SessionRepo.AddReplaces` | src/repositories/whatsappSessionRepo.js:4 | Two `add` calls under one id on a registry leave only the second handle there, and every other id as it was |
| `InboxRepo.InboxOf` | src/repositories/inboxRepo.js:11-14 | A session without a stored inbox reads as the empty list |
| `InboxRepo.Saved` | src/repositories/inboxRepo.js:4-9 | Saving appends the message after all earlier entries of that session; every other session's inbox is unchanged |
| `InboxRepo.SavedAllAppends` | src/repositories/inboxRepo.js:4-9 | N saves to one session leave exactly those N entries, in arrival order, after the earlier ones |
| `InboxRepo.SavedAllIsolated` | src/repositories/inboxRepo.js:5 | Any number of saves to one session leave every other session's inbox unchanged |
| `InboxRepo.SaveFirst` | src/repositories/inboxRepo.js:6-8 | The first save for a session without an inbox gives the inbox `[m]` |
| `InboxRepo.InboxStore.SaveMessage` | src/repositories/inboxRepo.js:4-9 | The stored files become exactly those after the append |
| `InboxRepo.InboxStore.GetInbox` | src/repositories/inboxRepo.js:11-14 | Gives the stored list or `[]`, and changes nothing |
| `Service.Socket.constructor` | src/services/whatsappService.js:13 | A new socket carries the identity stored in the credentials it is built from, has sent nothing, and is not logged out |
| `Service.Socket.SendMessage` | src/services/whatsappService.js:41 | The message is handed to the provider, and the provider's answer is returned |
| `Service.Socket.Logout` | src/services/whatsappService.js:55 | The socket counts as logged out exactly when the provider accepts the logout |
| `Service.Session.constructor` | src/services/whatsappService.js:14 | A new handle holds its socket and `lastQr == null` |
| `Service.QrAfter` | src/services/whatsappService.js:19-23 | A truthy `qr` is stored; `open` clears `lastQr` even when the same event carries a `qr`; any other event leaves it unchanged |
| `Service.RestartsFor` | src/services/whatsappService.js:24 | Each `close` event schedules exactly one restart, of the same session id, unless the handler threw earlier; other events schedule none |
| `Service.TextOf` | src/services/whatsappService.js:30 | The text is a truthy `conversation`, else a truthy `extendedTextMessage.text`, else `''` |
| `Service.EntryOf` | src/services/whatsappService.js:31-36 | The inbox entry holds the sender, the extracted text, the timestamp and the message id |
| `Service.ReplyFor` | src/services/whatsappService.js:39-41 | There is at most one reply, only to the sender, carrying the reply of the first matching rule; there is none for a message from the gateway itself, one without a body, or one that no rule matches |
| `Service.Gateway.constructor` | src/repositories/whatsappSessionRepo.js:1 | The gateway starts with no sessions, inboxes, credential folders or pending restarts |
| `Service.Gateway.UserOf` | src/controllers/whatsappController.js:21-22 | Gives none when no session is registered, otherwise the registered socket's `user` |
| `Service.Gateway.StartSock` | src/services/whatsappService.js:9-14 | Creates the credential folder and registers a fresh handle with a fresh socket and `lastQr == null`, replacing any previous handle. The socket is unpaired when the folder is new, and carries the folder's stored identity when it already existed. If loading credentials rejects, nothing changes |
| `Service.Gateway.OnConnectionUpdate` | src/services/whatsappService.js:17-25 | The registered handle's `lastQr` becomes `QrAfter` of the event; a `close` adds one restart of the same id; it throws, changing nothing, when the session is gone and a QR or `open` must be recorded |
| `Service.Gateway.FireRestart` | src/services/whatsappService.js:24 | The oldest pending restart is removed and `startSock` runs for its session id; the new socket carries the identity stored in that session's existing folder |
| `Service.Gateway.OnMessagesUpsert` | src/services/whatsappService.js:27-43 | Only `messages[0]` is used; a qualifying message is appended to its session's inbox and gets at most the reply `ReplyFor` gives, on the same socket; any other message changes nothing |
| `Service.Gateway.ResetSession` | src/services/whatsappService.js:46-60 | The credential folder is removed; logout is tried only on a registered socket, and its failure is ignored; the session is always unregistered |
| `Controller.StartGuard` | src/controllers/whatsappController.js:8-9 | A falsy id gives 400 "sessionId is required!"; a registered id gives 400 "Session already exists!"; only an unregistered truthy id goes on |
| `Controller.SendGuard` | src/controllers/whatsappController.js:17-31 | Missing fields are rejected first, then an absent or logged-out session, then a bad number (400 with the normaliser's message); only then is the formatted, canonical address used |
| `Controller.CheckAnswer` | src/controllers/whatsappController.js:46-53 | An absent session gives status false; otherwise the status is `connected` exactly when `sock.user` is present, and `user` is that value or null |
| `Controller.ResetGuard` | src/controllers/whatsappController.js:60-63 | A falsy id gives 400 "sessionId is required!"; an unregistered id gives 400 "Session does not exist!" |
| `Controller.StartSession` | src/controllers/whatsappController.js:6-12 | A rejected start leaves the registry and credentials unchanged and starts nothing; otherwise the session is started, its socket unpaired unless the id's folder already existed, and the answer is 200 |
| `Controller.SendMessage` | src/controllers/whatsappController.js:14-40 | On any guard failure, the guard's answer is returned and nothing is sent; otherwise exactly `{text: message}` is handed to the formatted address, giving 200 on success and 500 with the provider's error |
| `Controller.CheckSession` | src/controllers/whatsappController.js:42-54 | Answers `CheckAnswer` of what the registry holds, and changes nothing |
| `Controller.ResetSession` | src/controllers/whatsappController.js:57-73 | A rejected reset changes nothing (registry, credentials, restarts and the named session's socket); otherwise the service reset runs (the old socket keeps its `user`), then a fresh start: 200 with a fresh, unpaired handle that has sent nothing, or 500 with the session left unregistered and its credentials deleted |
| `Scenarios.DuplicateStart` | src/controllers/whatsappController.js:9-10 | A second start of the same id gets 400 and the first handle stays registered |
| `Scenarios.ConnectThenDrop` | src/services/whatsappService.js:19-24 | The QR is kept until `open`; the session is connected while open; a `close` schedules one restart; the restart reloads the paired folder, so the session reads as connected again with the same identity |
| `Scenarios.SendBeforeLogin` | src/controllers/whatsappController.js:21-24 | A session that is not logged in refuses to send and hands nothing to its socket |
| `Scenarios.InboundWithAutoReply` | src/services/whatsappService.js:28-41 | An inbound message is stored in the inbox and answered once, with the first matching rule, to its sender |
| `Scenarios.ResetUnpairs` | src/services/whatsappService.js:46-60 | After a reset of a paired session, the session started in its place reads as disconnected, while the old socket keeps its identity and is logged out |

## Left out

- Express wiring (`app.js`, the route table, the error-handler middleware): these are server setup with no logic to check. What Express does with a handler whose promise rejects (`Controller.Response.Rejected`) is not modelled.
- `src/utils/autoReply.js` is not part of this model. It is a plain read and write of a JSON file; the rule list is a parameter of the matcher.
- Baileys internals are not modelled: `makeWASocket`, `useMultiFileAuthState`, `fetchLatestBaileysVersion`, the `creds.update` → `saveCreds` persistence (src/services/whatsappService.js:16) and the wire protocol. These are foreign code. The provider decides `sock.user`: a socket built from an existing folder starts with the identity the provider finds there (the `stored` parameter of `StartSock`, `FireRestart` and `StartSession`), and later pairing or unpairing is `Socket.SetUser`. The link between `sock.user` and what `saveCreds` writes to the folder is the provider's and is not modelled.
- QR rendering with `qrcode-terminal` (src/services/whatsappService.js:21) is display only.
- The 2000 ms delay is not modelled, only the order in which timers fire. Neither is async interleaving: `startSock` is atomic here, although it awaits twice before it registers. So two `start-session` requests for one id that arrive together can both pass the `exists` check while the first start is still awaiting, and the later `add` then overwrites the first handle. `Scenarios.DuplicateStart` holds only for requests made one after the other.
- Concurrency: within one process a save is atomic. `saveMessage` reads, appends and writes the file synchronously, and the `messages.upsert` handler calls it without awaiting anything in between, so saves never interleave and the model's sequential saves match the code. Other processes writing the same inbox files are out of scope.
- The unhandled rejections are not modelled: the unawaited auto-reply send and a restart's `startSock`. Their outcomes change nothing in the model.
- Filesystem paths and JSON serialisation are not modelled. The inbox files are a map, and the credential folders are a set of ids. `fs.rmSync` failures are not modelled.
- JavaScript quirks are not modelled:
  - `in` also finds `Object.prototype` keys;
  - `toLowerCase` beyond ASCII;
  - request fields that are not strings. For example, a numeric `number` makes `replace` throw, and the handler answers 400 with that TypeError's message.
- `msg.messageTimestamp` is taken to be an integer. Baileys may deliver a Long object.
- Service.Gateway.StartSock: when loading the credential folder rejects, the model assumes nothing was created yet, so `credentials` is left as it was.
