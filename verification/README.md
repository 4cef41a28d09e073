# mail-listener: a verified model of the listener core

This project models `MailListener` from `index.js`, an event emitter that
watches an IMAP mailbox. The IMAP session, the MIME parser and the file
system stay abstract. The model keeps the deterministic decisions the class
makes on top of them:

- how the constructor turns a raw options object into the listener's
  configuration, with JavaScript truthiness, `||` defaults and strict-mode
  property writes written out (module `Options`, over the value model in
  `Js`);
- what each lifecycle handler does: `start`, `stop`, `end`, `destroy`, and
  the session's `ready`, `close`, `error`, `mail` and `update` (module
  `Lifecycle`);
- the discovery pipeline: the search, the fetch fan-out over the search
  results, and the exact event trace for one parsed message, including the
  attachment paths (module `Discovery`);
- the post-processing plans of `addLabel` and `moveToProcessedMailbox`
  (module `Actions`).

Every handler is a pure function that returns the ordered list of its steps
(module `Trace`). A step is an application event (`Emit`), a command on the
IMAP session (`Call`, which also covers `imap.on` subscriptions), or an
attachment file write (`Write`). The arguments of an asynchronous callback
become parameters of the function that models it. For example, `OpenBoxDone`
takes the `(error, mailbox)` of the `openBox` callback, and `StatusDone` takes
the `(err, box)` of the `status` callback. Counting (`CountKind`) and the
filters `Emitted` and `Issued` state the ordering and count properties.

Behaviour of `index.js` worth noting, which the model follows:

- A `searchFilter` of `[]` is kept as given, since arrays are truthy. The
  filter can therefore be empty. `''` becomes `['']`, because the string test
  comes before the truthiness test.
- `stop()` calls `connect()`, exactly like `start()` (`Lifecycle.Stop`).
- The `async.each` iteratee never calls its completion callback. The
  aggregate-error callback (index.js:151-156) is therefore never reached, and
  no aggregate `error` is modelled.
- A failed attachment write is never reported as `error`. `writeFileSync`
  takes the arrow function as its options argument and never calls it.

## Model

| member | source | states |
|---|---|---|
| Options.Normalize | index.js:16-39 | The constructor succeeds exactly when no property has to be set on a primitive. The two such writes are `streamAttachments` on non-object parser options when streaming is requested, and `directory` on non-object attachment options. Every configuration it produces is well-formed: truthy mailboxes, labels and filter, and a filter that is never a bare string. The directory is truthy or `''`. `attachments` is truthy or `false`. Streaming requested implies `streamAttachments: true`. |
| Options.NormalizeSearchFilter | index.js:23-30 | A string `s`, including `''`, becomes `[s]`. Any other truthy value, `[]` included, is kept unchanged. Anything falsy becomes `['UNSEEN']`. |
| Options.NormalizeFields | index.js:18-22 | `markSeen` and `fetchUnreadOnStart` are the truthiness of the options. `mailbox` and `processedMailbox` default to `'INBOX'` when falsy. The label lists default to `[]`. `attachments` defaults to `false`. Truthy values are kept as given. |
| Options.NormalizeAttachmentOptions | index.js:32-39 | The attachment directory defaults to `''` when falsy. Every other attachment option is kept. `streamAttachments` is set in the parser options exactly when `attachments`, `attachmentOptions` and `attachmentOptions.stream` are all truthy. Otherwise the parser options are the given ones, or `{}`. |
| Options.BareFilterEqualsWrapped | index.js:23-30 | Passing a filter term as a bare string and passing it as a one-element array configure the same listener, or throw the same error. |
| Options.NormalizeFixpoint | index.js:16-39 | Feeding a well-formed configuration back in as options reproduces it exactly. |
| Options.NormalizeIdempotent | index.js:16-39 | Normalising the options of a normalised configuration changes nothing. |
| Lifecycle.Start | index.js:57-59 | `start()` issues a single `connect` and emits nothing. |
| Lifecycle.Stop | index.js:61-63 | `stop()` behaves exactly like `start()`: it connects and never ends or destroys the session. |
| Lifecycle.End | index.js:70-73 | `end()` emits `server:ending` once and issues one `end`, with the event first. |
| Lifecycle.Destroy | index.js:65-68 | `destroy()` emits `server:destroying` once and issues one `destroy`, with the event first. |
| Lifecycle.ImapClose | index.js:96-98 | A session `close` emits `server:disconnected` and issues no command, so there is no reconnect. |
| Lifecycle.ImapError | index.js:100-102 | A session `error` is re-emitted unchanged, and no command is issued. |
| Lifecycle.ImapMail | index.js:104-106 | A `mail` or `update` notification issues one search with the configured filter and emits nothing. |
| Lifecycle.ReadyOpensMailboxOnce | index.js:75-76 | On `ready`, the first step is `openBox(mailbox, false)`, and it is the only `openBox`. |
| Lifecycle.ReadyFailure | index.js:76-80 | A failed open emits exactly one `error`, carrying the cause. It emits no `server:connected` or `mailbox`, issues no search and subscribes no listener. |
| Lifecycle.ReadySuccess | index.js:81-92 | A successful open emits only `server:connected` and then `mailbox`, right after the open. It searches once if and only if `fetchUnreadOnStart` is set, right after `mailbox`. It ends by subscribing one listener to `mail` and then `update`, with exactly two subscriptions. |
| Discovery.ParseUnread | index.js:108-110 | A discovery run starts with exactly one search using the configured filter and emits nothing. |
| Discovery.FetchSteps | index.js:117-121 | One fetch per search result, in result order. Each fetch asks for `bodies: ''` with the configured `markSeen`. |
| Discovery.SearchDone | index.js:110-121 | Corrected search callback. An error is emitted once, with no fetch. Otherwise exactly one fetch per result and no event, so an empty result issues nothing. No `mail` or `attachment` event is emitted in any case. |
| Discovery.SearchDoneAsWritten | index.js:110-116 | Search callback as written. A truthy error throws a ReferenceError for `err` before any step. Otherwise it does what the corrected callback does. |
| Discovery.SearchErrorIsLost | index.js:111-114 | For every search error, the code as written emits no `error` and the corrected callback emits exactly one. |
| Discovery.AttachmentPath | index.js:134-137 | The path is the literal concatenation `directory ++ filename`, with no separator. With the default `''` directory it is the file name alone. An undefined file name prints as `undefined`. |
| Discovery.AttachmentStepsShape | index.js:128-143 | With attachments enabled, each attachment is written to its path and then announced with that path. Otherwise it is announced with a null path and nothing is written. Attachment order is preserved. |
| Discovery.AttachmentEvents | index.js:130-143 | One `attachment` event per attachment, in order. Each carries the saved path (or null), the message's seqno and the fetched search result. No session command is issued. |
| Discovery.AttachmentKinds | index.js:130-143 | Per kind of step: one `attachment` event per attachment and, when enabled, one write per attachment. There is nothing else. |
| Discovery.MessageTraceShape | index.js:122-145 | A parsed message with K attachments emits exactly `mail`, `headers` and `body`, then K `attachment` events in attachment order (3+K events). All of them carry the same seqno. The payloads are the parsed record, its headers, and the html/text/textAsHtml triple. |
| Discovery.MessageTraceKinds | index.js:122-145 | Per kind: one `mail`, one `headers`, one `body`, K `attachment` events, and no `error` and no session command. |
| Discovery.RunTraceCounts | index.js:117-150 | In any completion order, each delivered message yields one `mail`, one `headers` and one `body`. Each failed fetch yields one `error`. A failure suppresses none of its siblings' events. |
| Discovery.SearchToEvents | index.js:110-150 | A successful search issues one fetch per result. When every fetch delivers, any completion order of those fetches (a permutation of the results) yields one `mail`, one `headers` and one `body` per result, and no `error`. |
| Discovery.TwoPlainMessages | index.js:117-150 | Two fetched messages without attachments, with attachments disabled, give two `mail`, two `headers`, two `body`, no `attachment` and no `error` events. |
| Actions.AddLabel | index.js:161-173 | Exactly one `addLabels` on `uid`. It uses the success labels when `success` is truthy and the failure labels otherwise. Nothing is emitted. |
| Actions.MoveToProcessedMailbox | index.js:175-178 | The move starts with one `status` query for the processed mailbox and emits nothing. |
| Actions.StatusDonePlan | index.js:178-192 | `addBox(processedMailbox)` is issued exactly when the status result is null or undefined. Exactly one `move(uid, processedMailbox)` follows in every case, issued last and without waiting for the `addBox` callback. The status error plays no part. |

## Findings

| source | as written | input that shows it | evidently intended | confidence | as-written member | corrected member |
|---|---|---|---|---|---|---|
| index.js:111-114 | The search-error branch calls `self.emit('error', err)`. `err` is not declared anywhere, so the branch throws a ReferenceError and the search error is never emitted. | Any search callback with a truthy `error`, e.g. a search rejected by the server | Emit `error` with the callback's `error` and fetch nothing | high (not executed) | Discovery.SearchDoneAsWritten | Discovery.SearchDone |

`Discovery.SearchErrorIsLost` states the discrepancy for every search
error. The rest of the model uses the corrected `Discovery.SearchDone`.

## Left out

- IMAP connection settings (index.js:40-51): `xoauth2`, `password`, `host`, `port` and `tls` are passed to the IMAP client as given, and `username` is passed as `user`. The others get `||` defaults: `{}` for `tlsOptions`, and `null` for `connTimeout`, `authTimeout` and `debug` when falsy. The client itself is a network component and is not modelled.
- Options.Normalize: a missing or `null` options argument makes the constructor throw a TypeError at index.js:18 when it reads `options.markSeen`. The model takes an options record, so that input is not represented.
- The MIME parser (index.js:124): the parsed message is an input record. `mailParserOptions` is computed but never passed to `simpleParser`. A parser failure becomes an unhandled promise rejection in the source; the model has no case for it.
- Attachment write failures (index.js:134-136): `writeFileSync` either succeeds or throws synchronously. A throw would abandon the remaining attachments of that message. The model assumes every write succeeds.
- Interleaving across messages (index.js:117-156): `async.each` starts all fetches at once. The `await` between attachments lets other messages' events interleave. The model covers one message's trace, the set of fetches, and counts over any completion order, but not interleavings inside a message's trace.
- A fetch that yields a message and also an error is not modelled; each fetch either delivers one message or fails once.
- `self.emit(err)` in the `addLabel`, `addBox` and `move` callbacks (index.js:164-170, 180-191) emits an event named by the error value. It is not an error channel, and it is not modelled. The same goes for `console.log` (index.js:182-188).
- Registering listeners again on a repeated `ready` is not modelled. Neither is Node's rule that an `error` emitted with no listener throws.
- Object identity: the caller's `attachmentOptions` and `mailParserOptions` objects are modified in place. The model treats them as values, so effects through aliasing are not modelled. One example is a single object passed as both.
- Numbers are integers. Fractional values, infinities, the exponent text of magnitudes of 10^21 and more, symbols and user-defined `toString` are outside the value model.
