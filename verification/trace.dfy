/** What a handler of the listener does, as an ordered list of steps: events
    it emits to the application, commands it issues on the IMAP session, and
    attachment files it writes. */
module Trace {
  import opened Js

  newtype byte = x: int | 0 <= x < 256

  /** The session notifications the listener subscribes to once the
      mailbox is open: `mail` (new message) and `update`. */
  datatype Notice = NewMail | MailboxUpdate

  /** Calls on the IMAP session (and `imap.on(...)` subscriptions). */
  datatype Command =
    | Connect
    | EndSession
    | DestroySession
    | OpenBox(name: JsValue, readOnly: bool)
    | Search(criteria: JsValue)
    | Fetch(source: nat, bodies: string, markSeen: bool)
    | AddLabels(uid: JsValue, labels: JsValue)
    | Status(mailbox: JsValue)
    | AddBox(mailbox: JsValue)
    | Move(uid: JsValue, mailbox: JsValue)
    | Listen(notice: Notice)

  datatype Attachment = Attachment(filename: JsValue, content: seq<byte>)

  /** A message as the MIME parser hands it over. */
  datatype ParsedMail = ParsedMail(
    headers: map<string, JsValue>,
    text: JsValue,
    html: JsValue,
    textAsHtml: JsValue,
    attachments: seq<Attachment>)

  /** The payload of the `body` event. */
  datatype BodyParts = BodyParts(html: JsValue, text: JsValue, textAsHtml: JsValue)

  /** Application-facing events, one constructor per event name:
      `server:connected`, `server:disconnected`, `server:destroying`,
      `server:ending`, `mailbox`, `mail`, `headers`, `body`, `attachment`,
      `error`. */
  datatype Event =
    | ServerConnected
    | ServerDisconnected
    | ServerDestroying
    | ServerEnding
    | MailboxInfo(box: JsValue)
    | MailReceived(parsed: ParsedMail, seqno: nat)
    | HeadersReceived(headers: map<string, JsValue>, seqno: nat)
    | BodyReceived(body: BodyParts, seqno: nat)
    | AttachmentReceived(attachment: Attachment, path: Option<string>, seqno: nat, uid: nat)
    | ErrorRaised(cause: JsValue)
  {
    /** The sequence number a message event carries. */
    function Seqno(): Option<nat> {
      match this
      case MailReceived(_, n) => Some(n)
      case HeadersReceived(_, n) => Some(n)
      case BodyReceived(_, n) => Some(n)
      case AttachmentReceived(_, _, n, _) => Some(n)
      case _ => None
    }
  }

  datatype Step =
    | Emit(event: Event)
    | Call(command: Command)
    | Write(path: string, content: seq<byte>)

  /** A handler either runs to completion or throws part-way. */
  datatype Reaction =
    | Returned(steps: seq<Step>)
    | Threw(steps: seq<Step>, error: JsError)

  /** One tag per kind of step, for counting and ordering. */
  datatype Kind =
    | KConnect | KEnd | KDestroy | KOpenBox | KSearch | KFetch | KAddLabels
    | KStatus | KAddBox | KMove | KListen
    | KWrite
    | KServerConnected | KServerDisconnected | KServerDestroying | KServerEnding
    | KMailbox | KMail | KHeaders | KBody | KAttachment | KError

  function KindOf(s: Step): Kind {
    match s
    case Write(_, _) => KWrite
    case Call(c) => (
      match c
      case Connect => KConnect
      case EndSession => KEnd
      case DestroySession => KDestroy
      case OpenBox(_, _) => KOpenBox
      case Search(_) => KSearch
      case Fetch(_, _, _) => KFetch
      case AddLabels(_, _) => KAddLabels
      case Status(_) => KStatus
      case AddBox(_) => KAddBox
      case Move(_, _) => KMove
      case Listen(_) => KListen)
    case Emit(e) => (
      match e
      case ServerConnected => KServerConnected
      case ServerDisconnected => KServerDisconnected
      case ServerDestroying => KServerDestroying
      case ServerEnding => KServerEnding
      case MailboxInfo(_) => KMailbox
      case MailReceived(_, _) => KMail
      case HeadersReceived(_, _) => KHeaders
      case BodyReceived(_, _) => KBody
      case AttachmentReceived(_, _, _, _) => KAttachment
      case ErrorRaised(_) => KError)
  }

  /** How many steps of kind `k` there are. */
  function CountKind(s: seq<Step>, k: Kind): nat {
    if |s| == 0 then 0
    else (if KindOf(s[0]) == k then 1 else 0) + CountKind(s[1..], k)
  }

  /** Every step of kind `a` comes before every step of kind `b`. */
  predicate Precedes(s: seq<Step>, a: Kind, b: Kind) {
    forall i, j :: 0 <= i < |s| && 0 <= j < |s| && KindOf(s[i]) == a && KindOf(s[j]) == b ==> i < j
  }

  /** The events among the steps, in order. */
  function Emitted(s: seq<Step>): seq<Event> {
    if |s| == 0 then []
    else (if s[0].Emit? then [s[0].event] else []) + Emitted(s[1..])
  }

  /** The session commands among the steps, in order. */
  function Issued(s: seq<Step>): seq<Command> {
    if |s| == 0 then []
    else (if s[0].Call? then [s[0].command] else []) + Issued(s[1..])
  }

  lemma {:induction false} CountKindConcat(a: seq<Step>, b: seq<Step>, k: Kind)
    ensures CountKind(a + b, k) == CountKind(a, k) + CountKind(b, k)
    decreases |a|
  {
    if |a| == 0 {
      assert a + b == b;
    } else {
      assert (a + b)[0] == a[0];
      assert (a + b)[1..] == a[1..] + b;
      CountKindConcat(a[1..], b, k);
    }
  }

  lemma {:induction false} EmittedConcat(a: seq<Step>, b: seq<Step>)
    ensures Emitted(a + b) == Emitted(a) + Emitted(b)
    decreases |a|
  {
    if |a| == 0 {
      assert a + b == b;
    } else {
      assert (a + b)[0] == a[0];
      assert (a + b)[1..] == a[1..] + b;
      EmittedConcat(a[1..], b);
    }
  }

  lemma {:induction false} IssuedConcat(a: seq<Step>, b: seq<Step>)
    ensures Issued(a + b) == Issued(a) + Issued(b)
    decreases |a|
  {
    if |a| == 0 {
      assert a + b == b;
    } else {
      assert (a + b)[0] == a[0];
      assert (a + b)[1..] == a[1..] + b;
      IssuedConcat(a[1..], b);
    }
  }

  /** A list made of steps of one kind counts all of them and nothing else. */
  lemma {:induction false} CountUniform(s: seq<Step>, k: Kind, other: Kind)
    requires forall i :: 0 <= i < |s| ==> KindOf(s[i]) == k
    requires other != k
    ensures CountKind(s, k) == |s|
    ensures CountKind(s, other) == 0
    decreases |s|
  {
    if |s| > 0 {
      CountUniform(s[1..], k, other);
    }
  }

  /** Steps that are all calls contribute no events. */
  lemma {:induction false} EmittedOfCalls(s: seq<Step>)
    requires forall i :: 0 <= i < |s| ==> s[i].Call?
    ensures Emitted(s) == []
    decreases |s|
  {
    if |s| > 0 {
      EmittedOfCalls(s[1..]);
    }
  }

  /** Emitted and Issued of a one-step list. */
  lemma SingleStep(s: Step)
    ensures Emitted([s]) == if s.Emit? then [s.event] else []
    ensures Issued([s]) == if s.Call? then [s.command] else []
  {
    assert [s][1..] == [];
  }

  /** CountKind of a one-step list. */
  lemma SingleKind(s: Step, k: Kind)
    ensures CountKind([s], k) == if KindOf(s) == k then 1 else 0
  {
    assert [s][1..] == [];
  }

  /** CountKind of a two-step list. */
  lemma PairKind(s: Step, t: Step, k: Kind)
    ensures CountKind([s, t], k) == (if KindOf(s) == k then 1 else 0) + (if KindOf(t) == k then 1 else 0)
  {
    assert [s, t][1..] == [t];
    SingleKind(t, k);
  }

  /** CountKind of two steps of the same kind. */
  lemma SameKindPair(s: Step, t: Step, same: Kind, k: Kind)
    requires KindOf(s) == same && KindOf(t) == same
    ensures CountKind([s, t], k) == if k == same then 2 else 0
  {
    PairKind(s, t, k);
  }

  /** CountKind of a list made of two steps, a middle part and two more
      steps. */
  lemma CountAroundScan(a: Step, b: Step, mid: seq<Step>, c: Step, d: Step, k: Kind)
    ensures CountKind([a, b] + (mid + [c, d]), k) ==
      CountKind([a, b], k) + CountKind(mid, k) + CountKind([c, d], k)
  {
    CountKindConcat([a, b], mid + [c, d], k);
    CountKindConcat(mid, [c, d], k);
  }
}
