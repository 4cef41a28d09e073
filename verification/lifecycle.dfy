/** The listener's lifecycle handlers (index.js:57-106): the public
    `start`/`stop`/`end`/`destroy` calls and the reactions to the session's
    `ready`, `close`, `error` and new-mail notifications. */
module Lifecycle {
  import opened Js
  import opened Trace
  import opened Options
  import Discovery

  /** `start()`: connect the session; nothing is emitted. */
  function Start(): (r: seq<Step>)
    ensures Issued(r) == [Connect]
    ensures Emitted(r) == []
  {
    [Call(Connect)]
  }

  /** `stop()` connects too: it does exactly what `start()` does. */
  function Stop(): (r: seq<Step>)
    ensures r == Start()
    ensures CountKind(r, KEnd) == 0 && CountKind(r, KDestroy) == 0
  {
    [Call(Connect)]
  }

  /** `end()`: `server:ending` is emitted before the graceful close. */
  function End(): (r: seq<Step>)
    ensures Emitted(r) == [ServerEnding]
    ensures Issued(r) == [EndSession]
    ensures Precedes(r, KServerEnding, KEnd)
  {
    [Emit(ServerEnding), Call(EndSession)]
  }

  /** `destroy()`: `server:destroying` is emitted before the forced close. */
  function Destroy(): (r: seq<Step>)
    ensures Emitted(r) == [ServerDestroying]
    ensures Issued(r) == [DestroySession]
    ensures Precedes(r, KServerDestroying, KDestroy)
  {
    [Emit(ServerDestroying), Call(DestroySession)]
  }

  /** The session's `close`: report the disconnection, never reconnect. */
  function ImapClose(): (r: seq<Step>)
    ensures Emitted(r) == [ServerDisconnected]
    ensures Issued(r) == []
  {
    [Emit(ServerDisconnected)]
  }

  /** The session's `error`: pass the error on, touch nothing else. */
  function ImapError(error: JsValue): (r: seq<Step>)
    ensures Emitted(r) == [ErrorRaised(error)]
    ensures Issued(r) == []
  {
    [Emit(ErrorRaised(error))]
  }

  /** The session's `mail` and `update` notifications: start a discovery. */
  function ImapMail(cfg: Config): (r: seq<Step>)
    ensures Issued(r) == [Search(cfg.searchFilter)]
    ensures Emitted(r) == []
  {
    Discovery.ParseUnread(cfg)
  }

  /** What the `openBox` callback does with its `(error, mailbox)`. */
  function OpenBoxDone(cfg: Config, error: JsValue, box: JsValue): seq<Step> {
    if Truthy(error) then
      [Emit(ErrorRaised(error))]
    else
      [Emit(ServerConnected), Emit(MailboxInfo(box))]
      + (if cfg.fetchUnreadOnStart then Discovery.ParseUnread(cfg) else [])
      + [Call(Listen(NewMail)), Call(Listen(MailboxUpdate))]
  }

  /** The session's `ready`: open the configured mailbox read-write, then
      react to the outcome of the open. */
  function ImapReady(cfg: Config, error: JsValue, box: JsValue): seq<Step> {
    [Call(OpenBox(cfg.mailbox, false))] + OpenBoxDone(cfg, error, box)
  }

  /** `ready` opens the configured mailbox exactly once, read-write, before
      anything else happens. */
  lemma ReadyOpensMailboxOnce(cfg: Config, error: JsValue, box: JsValue)
    ensures var r := ImapReady(cfg, error, box);
      && r[0] == Call(OpenBox(cfg.mailbox, false))
      && CountKind(r, KOpenBox) == 1
  {
    if Truthy(error) {
      OpenBoxFailedKinds(cfg, error, box, KOpenBox);
    } else {
      OpenBoxOpenedKinds(cfg, error, box);
    }
    ReadyCount(cfg, error, box, KOpenBox);
  }

  /** A failed open emits exactly one `error` carrying the cause, and
      neither connects, reports the mailbox, searches nor subscribes. */
  lemma ReadyFailure(cfg: Config, error: JsValue, box: JsValue)
    requires Truthy(error)
    ensures Emitted(ImapReady(cfg, error, box)) == [ErrorRaised(error)]
    ensures Issued(ImapReady(cfg, error, box)) == [OpenBox(cfg.mailbox, false)]
    ensures CountKind(ImapReady(cfg, error, box), KListen) == 0
    ensures CountKind(ImapReady(cfg, error, box), KSearch) == 0
    ensures CountKind(ImapReady(cfg, error, box), KServerConnected) == 0
    ensures CountKind(ImapReady(cfg, error, box), KMailbox) == 0
  {
    var open := Call(OpenBox(cfg.mailbox, false));
    var failed := Emit(ErrorRaised(error));
    assert ImapReady(cfg, error, box) == [open] + [failed];
    EmittedConcat([open], [failed]);
    IssuedConcat([open], [failed]);
    SingleStep(open);
    SingleStep(failed);
    ReadyCount(cfg, error, box, KListen);
    ReadyCount(cfg, error, box, KSearch);
    ReadyCount(cfg, error, box, KServerConnected);
    ReadyCount(cfg, error, box, KMailbox);
    OpenBoxFailedKinds(cfg, error, box, KListen);
    OpenBoxFailedKinds(cfg, error, box, KSearch);
    OpenBoxFailedKinds(cfg, error, box, KServerConnected);
    OpenBoxFailedKinds(cfg, error, box, KMailbox);
  }

  /** A successful open emits `server:connected` then `mailbox` right after
      the open; searches (once) exactly when unread messages are to be
      fetched on start; and ends by subscribing one listener to `mail` and
      then `update`. Nothing else is emitted and nothing is subscribed
      twice. */
  lemma ReadySuccess(cfg: Config, error: JsValue, box: JsValue)
    requires !Truthy(error)
    ensures var r := ImapReady(cfg, error, box);
      && |r| == (if cfg.fetchUnreadOnStart then 6 else 5)
      && r[1] == Emit(ServerConnected)
      && r[2] == Emit(MailboxInfo(box))
      && (cfg.fetchUnreadOnStart ==> r[3] == Call(Search(cfg.searchFilter)))
      && r[|r| - 2] == Call(Listen(NewMail))
      && r[|r| - 1] == Call(Listen(MailboxUpdate))
      && Emitted(r) == [ServerConnected, MailboxInfo(box)]
      && CountKind(r, KSearch) == (if cfg.fetchUnreadOnStart then 1 else 0)
      && CountKind(r, KListen) == 2
  {
    ReadyLayout(cfg, error, box);
    ReadyEvents(cfg, error, box);
    ReadyCount(cfg, error, box, KSearch);
    ReadyCount(cfg, error, box, KListen);
    OpenBoxOpenedKinds(cfg, error, box);
  }

  /** Where the steps of a successful open sit in the `ready` reaction. */
  lemma ReadyLayout(cfg: Config, error: JsValue, box: JsValue)
    requires !Truthy(error)
    ensures var r := ImapReady(cfg, error, box);
      && |r| == (if cfg.fetchUnreadOnStart then 6 else 5)
      && r[1] == Emit(ServerConnected)
      && r[2] == Emit(MailboxInfo(box))
      && (cfg.fetchUnreadOnStart ==> r[3] == Call(Search(cfg.searchFilter)))
      && r[|r| - 2] == Call(Listen(NewMail))
      && r[|r| - 1] == Call(Listen(MailboxUpdate))
  {
    var scan := if cfg.fetchUnreadOnStart then Discovery.ParseUnread(cfg) else [];
    OpenedSplit(cfg, error, box, scan);
  }

  /** The events of the `ready` reaction after a successful open. */
  lemma ReadyEvents(cfg: Config, error: JsValue, box: JsValue)
    requires !Truthy(error)
    ensures Emitted(ImapReady(cfg, error, box)) == [ServerConnected, MailboxInfo(box)]
  {
    var open := Call(OpenBox(cfg.mailbox, false));
    OpenBoxDoneEvents(cfg, error, box);
    SingleStep(open);
    EmittedConcat([open], OpenBoxDone(cfg, error, box));
  }

  /** Counting one kind in the `ready` reaction: the open adds one
      `openBox` to what the open's callback does. */
  lemma ReadyCount(cfg: Config, error: JsValue, box: JsValue, k: Kind)
    ensures CountKind(ImapReady(cfg, error, box), k) ==
      (if k == KOpenBox then 1 else 0) + CountKind(OpenBoxDone(cfg, error, box), k)
  {
    var open := Call(OpenBox(cfg.mailbox, false));
    SingleKind(open, k);
    CountKindConcat([open], OpenBoxDone(cfg, error, box), k);
  }

  /** The events of a successful open. */
  lemma OpenBoxDoneEvents(cfg: Config, error: JsValue, box: JsValue)
    requires !Truthy(error)
    ensures Emitted(OpenBoxDone(cfg, error, box)) == [ServerConnected, MailboxInfo(box)]
  {
    var events := [Emit(ServerConnected), Emit(MailboxInfo(box))];
    var scan := if cfg.fetchUnreadOnStart then Discovery.ParseUnread(cfg) else [];
    var listen := [Call(Listen(NewMail)), Call(Listen(MailboxUpdate))];
    assert OpenBoxDone(cfg, error, box) == events + (scan + listen);
    EmittedConcat(events, scan + listen);
    EmittedConcat(scan, listen);
    assert events == [events[0]] + [events[1]];
    EmittedConcat([events[0]], [events[1]]);
    SingleStep(events[0]);
    SingleStep(events[1]);
    EmittedOfCalls(listen);
  }

  /** A failed open: the one `error` event and nothing else. */
  lemma OpenBoxFailedKinds(cfg: Config, error: JsValue, box: JsValue, k: Kind)
    requires Truthy(error)
    ensures CountKind(OpenBoxDone(cfg, error, box), k) == if k == KError then 1 else 0
  {
    SingleKind(Emit(ErrorRaised(error)), k);
  }

  /** A successful open, counted per kind of step: one `server:connected`,
      one `mailbox`, a search only when fetching unread mail on start, two
      subscriptions, no error and no second `openBox`. */
  lemma OpenBoxOpenedKinds(cfg: Config, error: JsValue, box: JsValue)
    requires !Truthy(error)
    ensures var r := OpenBoxDone(cfg, error, box);
      && CountKind(r, KServerConnected) == 1
      && CountKind(r, KMailbox) == 1
      && CountKind(r, KSearch) == (if cfg.fetchUnreadOnStart then 1 else 0)
      && CountKind(r, KListen) == 2
      && CountKind(r, KError) == 0
      && CountKind(r, KOpenBox) == 0
  {
    var scan := if cfg.fetchUnreadOnStart then Discovery.ParseUnread(cfg) else [];
    OpenedKindAt(cfg, error, box, scan, KServerConnected);
    OpenedKindAt(cfg, error, box, scan, KMailbox);
    OpenedKindAt(cfg, error, box, scan, KSearch);
    OpenedKindAt(cfg, error, box, scan, KListen);
    OpenedKindAt(cfg, error, box, scan, KError);
    OpenedKindAt(cfg, error, box, scan, KOpenBox);
  }

  /** The count of one kind in a successful open, from its three parts. */
  lemma OpenedKindAt(cfg: Config, error: JsValue, box: JsValue, scan: seq<Step>, k: Kind)
    requires !Truthy(error)
    requires scan == if cfg.fetchUnreadOnStart then Discovery.ParseUnread(cfg) else []
    ensures CountKind(OpenBoxDone(cfg, error, box), k) ==
      (if k == KServerConnected || k == KMailbox then 1 else 0)
      + (if k == KSearch && cfg.fetchUnreadOnStart then 1 else 0)
      + (if k == KListen then 2 else 0)
  {
    OpenedKind(cfg, error, box, scan, k);
    OpenedEventsKind(box, k);
    ListenKind(k);
    if cfg.fetchUnreadOnStart {
      SingleKind(Call(Search(cfg.searchFilter)), k);
    }
  }

  /** The two events of a successful open, counted per kind. */
  lemma OpenedEventsKind(box: JsValue, k: Kind)
    ensures CountKind([Emit(ServerConnected), Emit(MailboxInfo(box))], k) ==
      if k == KServerConnected || k == KMailbox then 1 else 0
  {
    PairKind(Emit(ServerConnected), Emit(MailboxInfo(box)), k);
  }

  /** The two subscriptions, counted per kind. */
  lemma ListenKind(k: Kind)
    ensures CountKind([Call(Listen(NewMail)), Call(Listen(MailboxUpdate))], k) ==
      if k == KListen then 2 else 0
  {
    SameKindPair(Call(Listen(NewMail)), Call(Listen(MailboxUpdate)), KListen, k);
  }


  /** Counting one kind over the three parts of a successful open. */
  lemma OpenedKind(cfg: Config, error: JsValue, box: JsValue, scan: seq<Step>, k: Kind)
    requires !Truthy(error)
    requires scan == if cfg.fetchUnreadOnStart then Discovery.ParseUnread(cfg) else []
    ensures CountKind(OpenBoxDone(cfg, error, box), k) ==
      CountKind([Emit(ServerConnected), Emit(MailboxInfo(box))], k)
      + CountKind(scan, k)
      + CountKind([Call(Listen(NewMail)), Call(Listen(MailboxUpdate))], k)
  {
    OpenedSplit(cfg, error, box, scan);
    CountAroundScan(Emit(ServerConnected), Emit(MailboxInfo(box)), scan,
      Call(Listen(NewMail)), Call(Listen(MailboxUpdate)), k);
  }

  /** A successful open as its three parts: the two events, the optional
      scan, the two subscriptions. */
  lemma OpenedSplit(cfg: Config, error: JsValue, box: JsValue, scan: seq<Step>)
    requires !Truthy(error)
    requires scan == if cfg.fetchUnreadOnStart then Discovery.ParseUnread(cfg) else []
    ensures OpenBoxDone(cfg, error, box) ==
      [Emit(ServerConnected), Emit(MailboxInfo(box))] + (scan + [Call(Listen(NewMail)), Call(Listen(MailboxUpdate))])
  {
  }
}
