/** Unread-message discovery (`parseUnread`, index.js:108-159): search with
    the configured filter, fetch each result, and emit the events of each
    parsed message. The session's asynchronous answers arrive as arguments
    of the callback functions below. */
module Discovery {
  import opened Js
  import opened Trace
  import opened Options

  /** The synchronous part of `parseUnread`: one search with the filter. */
  function ParseUnread(cfg: Config): (r: seq<Step>)
    ensures Issued(r) == [Search(cfg.searchFilter)]
    ensures Emitted(r) == []
  {
    [Call(Search(cfg.searchFilter))]
  }

  /** The fetches `async.each` starts, one per search result, all issued
      before any of them completes. */
  function FetchSteps(cfg: Config, results: seq<nat>): (r: seq<Step>)
    ensures |r| == |results|
    ensures forall i :: 0 <= i < |results| ==> r[i] == Call(Fetch(results[i], "", cfg.markSeen))
  {
    if |results| == 0 then []
    else [Call(Fetch(results[0], "", cfg.markSeen))] + FetchSteps(cfg, results[1..])
  }

  /** The search callback as written: its error branch reads the undeclared
      name `err`, so it throws a ReferenceError before emitting anything. */
  function SearchDoneAsWritten(cfg: Config, error: JsValue, results: seq<nat>): (r: Reaction)
    ensures r.Threw? <==> Truthy(error)
    ensures r.Threw? ==> r.steps == [] && r.error == ReferenceError("err")
    ensures r.Returned? ==> r.steps == SearchDone(cfg, error, results)
  {
    if Truthy(error) then Threw([], ReferenceError("err"))
    else if |results| > 0 then Returned(FetchSteps(cfg, results))
    else Returned([])
  }

  /** The search callback with the error branch emitting the error it was
      given: an error is reported once and fetches nothing; an empty result
      does nothing; otherwise exactly one fetch per result, in result order,
      each asking for the whole message (`bodies: ''`) and using the
      configured mark-seen flag. No event is emitted on success. */
  function SearchDone(cfg: Config, error: JsValue, results: seq<nat>): (r: seq<Step>)
    ensures Truthy(error) ==> Emitted(r) == [ErrorRaised(error)] && Issued(r) == []
    ensures !Truthy(error) ==> Emitted(r) == []
    ensures !Truthy(error) ==> |r| == |results|
    ensures !Truthy(error) ==>
      forall i :: 0 <= i < |results| ==> r[i] == Call(Fetch(results[i], "", cfg.markSeen))
    ensures CountKind(r, KFetch) == (if Truthy(error) then 0 else |results|)
    ensures CountKind(r, KMail) == 0 && CountKind(r, KAttachment) == 0
  {
    if Truthy(error) then
      [Emit(ErrorRaised(error))]
    else
      var r := if |results| > 0 then FetchSteps(cfg, results) else [];
      CountUniform(r, KFetch, KMail);
      CountUniform(r, KFetch, KAttachment);
      EmittedOfCalls(r);
      r
  }

  /** The search failure the source means to report is lost: the code as
      written emits no `error` event, while the corrected callback emits
      exactly one. */
  lemma SearchErrorIsLost(cfg: Config, error: JsValue, results: seq<nat>)
    requires Truthy(error)
    ensures SearchDoneAsWritten(cfg, error, results).Threw?
    ensures CountKind(SearchDoneAsWritten(cfg, error, results).steps, KError) == 0
    ensures CountKind(SearchDone(cfg, error, results), KError) == 1
  {
  }

  /** The file an attachment is written to: the directory and the file
      name as template-literal text, concatenated with no separator. */
  function AttachmentPath(cfg: Config, a: Attachment): (r: string)
    ensures cfg.Directory().Str? && a.filename.Str? ==> r == cfg.Directory().s + a.filename.s
    ensures cfg.Directory() == Str("") ==> r == TemplateText(a.filename)
    ensures cfg.Directory().Str? && a.filename.Undefined? ==> r == cfg.Directory().s + "undefined"
  {
    TemplateText(cfg.Directory()) + TemplateText(a.filename)
  }

  /** The path the `attachment` event carries: the file path when
      attachments are enabled, `null` otherwise. */
  function SavedPath(cfg: Config, a: Attachment): Option<string> {
    if Truthy(cfg.attachments) then Some(AttachmentPath(cfg, a)) else None
  }

  /** One loop iteration over `parsed.attachments`. */
  function AttachmentStep(cfg: Config, a: Attachment, seqno: nat, uid: nat): seq<Step> {
    if Truthy(cfg.attachments) then
      [Write(AttachmentPath(cfg, a), a.content), Emit(AttachmentReceived(a, Some(AttachmentPath(cfg, a)), seqno, uid))]
    else
      [Emit(AttachmentReceived(a, None, seqno, uid))]
  }

  function AttachmentSteps(cfg: Config, atts: seq<Attachment>, seqno: nat, uid: nat): seq<Step> {
    if |atts| == 0 then []
    else AttachmentStep(cfg, atts[0], seqno, uid) + AttachmentSteps(cfg, atts[1..], seqno, uid)
  }

  /** The attachment loop, step by step: with attachments enabled each
      attachment is written and then announced with its path; otherwise it
      is announced with a null path and nothing is written. Order follows
      the parsed attachment list. */
  lemma {:induction false} AttachmentStepsShape(cfg: Config, atts: seq<Attachment>, seqno: nat, uid: nat)
    ensures var r := AttachmentSteps(cfg, atts, seqno, uid);
      && (Truthy(cfg.attachments) ==>
            && |r| == 2 * |atts|
            && forall i :: 0 <= i < |atts| ==>
                 && r[2 * i] == Write(AttachmentPath(cfg, atts[i]), atts[i].content)
                 && r[2 * i + 1] == Emit(AttachmentReceived(atts[i], Some(AttachmentPath(cfg, atts[i])), seqno, uid)))
      && (!Truthy(cfg.attachments) ==>
            && |r| == |atts|
            && forall i :: 0 <= i < |atts| ==> r[i] == Emit(AttachmentReceived(atts[i], None, seqno, uid)))
    decreases |atts|
  {
    if |atts| > 0 {
      AttachmentStepsShape(cfg, atts[1..], seqno, uid);
    }
  }

  /** The attachment events, one per attachment in order, and no command. */
  lemma {:induction false} AttachmentEvents(cfg: Config, atts: seq<Attachment>, seqno: nat, uid: nat)
    ensures var e := Emitted(AttachmentSteps(cfg, atts, seqno, uid));
      && |e| == |atts|
      && forall i :: 0 <= i < |atts| ==> e[i] == AttachmentReceived(atts[i], SavedPath(cfg, atts[i]), seqno, uid)
    ensures Issued(AttachmentSteps(cfg, atts, seqno, uid)) == []
    decreases |atts|
  {
    if |atts| > 0 {
      var head := AttachmentStep(cfg, atts[0], seqno, uid);
      var tail := AttachmentSteps(cfg, atts[1..], seqno, uid);
      AttachmentEvents(cfg, atts[1..], seqno, uid);
      EmittedConcat(head, tail);
      IssuedConcat(head, tail);
    }
  }

  /** Per kind of step: one `attachment` event per attachment, one write
      per attachment when enabled and none otherwise, nothing else. */
  lemma {:induction false} AttachmentKinds(cfg: Config, atts: seq<Attachment>, seqno: nat, uid: nat, k: Kind)
    ensures CountKind(AttachmentSteps(cfg, atts, seqno, uid), k) ==
      if k == KAttachment then |atts|
      else if k == KWrite && Truthy(cfg.attachments) then |atts|
      else 0
    decreases |atts|
  {
    if |atts| > 0 {
      var head := AttachmentStep(cfg, atts[0], seqno, uid);
      var tail := AttachmentSteps(cfg, atts[1..], seqno, uid);
      AttachmentKinds(cfg, atts[1..], seqno, uid, k);
      CountKindConcat(head, tail, k);
      AttachmentStepKind(cfg, atts[0], seqno, uid, k);
    }
  }

  /** Per kind of step, for one attachment. */
  lemma AttachmentStepKind(cfg: Config, a: Attachment, seqno: nat, uid: nat, k: Kind)
    ensures CountKind(AttachmentStep(cfg, a, seqno, uid), k) ==
      (if k == KAttachment then 1 else 0) + (if k == KWrite && Truthy(cfg.attachments) then 1 else 0)
  {
    var announce := Emit(AttachmentReceived(a, SavedPath(cfg, a), seqno, uid));
    if Truthy(cfg.attachments) {
      PairKind(Write(AttachmentPath(cfg, a), a.content), announce, k);
    } else {
      SingleKind(announce, k);
    }
  }

  /** The `body` handler for one fetched message once it is parsed. */
  function MessageTrace(cfg: Config, m: ParsedMail, seqno: nat, uid: nat): seq<Step> {
    MessageHead(m, seqno) + AttachmentSteps(cfg, m.attachments, seqno, uid)
  }

  function MessageHead(m: ParsedMail, seqno: nat): seq<Step> {
    [ Emit(MailReceived(m, seqno)),
      Emit(HeadersReceived(m.headers, seqno)),
      Emit(BodyReceived(BodyParts(m.html, m.text, m.textAsHtml), seqno)) ]
  }

  lemma MessageHeadFacts(m: ParsedMail, seqno: nat)
    ensures Emitted(MessageHead(m, seqno)) ==
      [MailReceived(m, seqno), HeadersReceived(m.headers, seqno),
       BodyReceived(BodyParts(m.html, m.text, m.textAsHtml), seqno)]
    ensures Issued(MessageHead(m, seqno)) == []
  {
    var h0 := [Emit(MailReceived(m, seqno))];
    var h1 := [Emit(HeadersReceived(m.headers, seqno))];
    var h2 := [Emit(BodyReceived(BodyParts(m.html, m.text, m.textAsHtml), seqno))];
    assert MessageHead(m, seqno) == h0 + (h1 + h2);
    EmittedConcat(h0, h1 + h2);
    EmittedConcat(h1, h2);
    IssuedConcat(h0, h1 + h2);
    IssuedConcat(h1, h2);
  }

  lemma MessageHeadKinds(m: ParsedMail, seqno: nat, k: Kind)
    ensures CountKind(MessageHead(m, seqno), k) ==
      if k == KMail || k == KHeaders || k == KBody then 1 else 0
  {
    var h0 := [Emit(MailReceived(m, seqno))];
    var h1 := [Emit(HeadersReceived(m.headers, seqno))];
    var h2 := [Emit(BodyReceived(BodyParts(m.html, m.text, m.textAsHtml), seqno))];
    assert MessageHead(m, seqno) == h0 + (h1 + h2);
    CountKindConcat(h0, h1 + h2, k);
    CountKindConcat(h1, h2, k);
    SingleKind(h0[0], k);
    SingleKind(h1[0], k);
    SingleKind(h2[0], k);
  }

  /** A message with K attachments yields exactly `mail`, `headers`, `body`
      and then K `attachment` events in attachment order, all carrying the
      message's sequence number; attachment events carry the fetched
      search result and the saved path (or null). No session command is
      issued. */
  lemma MessageTraceShape(cfg: Config, m: ParsedMail, seqno: nat, uid: nat)
    ensures var e := Emitted(MessageTrace(cfg, m, seqno, uid));
      && |e| == 3 + |m.attachments|
      && e[0] == MailReceived(m, seqno)
      && e[1] == HeadersReceived(m.headers, seqno)
      && e[2] == BodyReceived(BodyParts(m.html, m.text, m.textAsHtml), seqno)
      && (forall i :: 0 <= i < |m.attachments| ==>
            e[3 + i] == AttachmentReceived(m.attachments[i], SavedPath(cfg, m.attachments[i]), seqno, uid))
      && (forall i :: 0 <= i < |e| ==> e[i].Seqno() == Some(seqno))
    ensures Issued(MessageTrace(cfg, m, seqno, uid)) == []
  {
    var head := MessageHead(m, seqno);
    var tail := AttachmentSteps(cfg, m.attachments, seqno, uid);
    AttachmentEvents(cfg, m.attachments, seqno, uid);
    EmittedConcat(head, tail);
    IssuedConcat(head, tail);
    MessageHeadFacts(m, seqno);
  }

  /** Per kind of step, for one message: one `mail`, one `headers`, one
      `body`, one `attachment` per attachment, and no error or command. */
  lemma MessageTraceKinds(cfg: Config, m: ParsedMail, seqno: nat, uid: nat, k: Kind)
    ensures CountKind(MessageTrace(cfg, m, seqno, uid), k) ==
      if k == KMail || k == KHeaders || k == KBody then 1
      else if k == KAttachment then |m.attachments|
      else if k == KWrite && Truthy(cfg.attachments) then |m.attachments|
      else 0
  {
    var head := MessageHead(m, seqno);
    AttachmentKinds(cfg, m.attachments, seqno, uid, k);
    CountKindConcat(head, AttachmentSteps(cfg, m.attachments, seqno, uid), k);
    MessageHeadKinds(m, seqno, k);
  }

  /** How one fetch of a search result ended: the message arrived and was
      parsed, or the fetch emitted `error`. */
  datatype FetchOutcome =
    | Delivered(parsed: ParsedMail, seqno: nat)
    | Failed(cause: JsValue)

  datatype FetchRun = FetchRun(uid: nat, outcome: FetchOutcome)

  /** The steps of a batch of fetches, in the order they completed. */
  function RunTrace(cfg: Config, runs: seq<FetchRun>): seq<Step> {
    if |runs| == 0 then []
    else
      var head := match runs[0].outcome
        case Delivered(m, n) => MessageTrace(cfg, m, n, runs[0].uid)
        case Failed(e) => [Emit(ErrorRaised(e))];
      head + RunTrace(cfg, runs[1..])
  }

  function DeliveredCount(runs: seq<FetchRun>): nat {
    if |runs| == 0 then 0
    else (if runs[0].outcome.Delivered? then 1 else 0) + DeliveredCount(runs[1..])
  }

  function AttachmentCount(runs: seq<FetchRun>): nat {
    if |runs| == 0 then 0
    else
      (if runs[0].outcome.Delivered? then |runs[0].outcome.parsed.attachments| else 0)
      + AttachmentCount(runs[1..])
  }

  /** Whatever order the fetches complete in, each delivered message
      yields one `mail`, one `headers` and one `body` event, each failed
      fetch one `error`, and a failure suppresses nothing of its siblings.
      Handling the messages issues no further fetch. */
  lemma {:induction false} RunTraceCounts(cfg: Config, runs: seq<FetchRun>)
    ensures CountKind(RunTrace(cfg, runs), KMail) == DeliveredCount(runs)
    ensures CountKind(RunTrace(cfg, runs), KHeaders) == DeliveredCount(runs)
    ensures CountKind(RunTrace(cfg, runs), KBody) == DeliveredCount(runs)
    ensures CountKind(RunTrace(cfg, runs), KAttachment) == AttachmentCount(runs)
    ensures CountKind(RunTrace(cfg, runs), KError) == |runs| - DeliveredCount(runs)
    ensures CountKind(RunTrace(cfg, runs), KFetch) == 0
    decreases |runs|
  {
    if |runs| > 0 {
      RunTraceCounts(cfg, runs[1..]);
      RunHeadKinds(cfg, runs, KMail);
      RunHeadKinds(cfg, runs, KHeaders);
      RunHeadKinds(cfg, runs, KBody);
      RunHeadKinds(cfg, runs, KAttachment);
      RunHeadKinds(cfg, runs, KError);
      RunHeadKinds(cfg, runs, KFetch);
    }
  }

  /** One unfolding of RunTrace, counted for kind `k`. */
  lemma RunHeadKinds(cfg: Config, runs: seq<FetchRun>, k: Kind)
    requires |runs| > 0
    ensures CountKind(RunTrace(cfg, runs), k) ==
      CountKind(RunTrace(cfg, runs[1..]), k) +
      match runs[0].outcome
        case Delivered(m, _) =>
          if k == KMail || k == KHeaders || k == KBody then 1
          else if k == KAttachment then |m.attachments|
          else if k == KWrite && Truthy(cfg.attachments) then |m.attachments|
          else 0
        case Failed(_) => if k == KError then 1 else 0
  {
    var head := match runs[0].outcome
      case Delivered(m, n) => MessageTrace(cfg, m, n, runs[0].uid)
      case Failed(e) => [Emit(ErrorRaised(e))];
    CountKindConcat(head, RunTrace(cfg, runs[1..]), k);
    match runs[0].outcome {
      case Delivered(m, n) => MessageTraceKinds(cfg, m, n, runs[0].uid, k);
      case Failed(e) =>
    }
  }

  /** Two plain messages (no attachments) fetched for a search, attachments
      disabled: two `mail`, two `headers`, two `body` events, no
      `attachment` and no `error`, whichever completes first. */
  lemma TwoPlainMessages(cfg: Config, first: ParsedMail, second: ParsedMail, u1: nat, u2: nat, n1: nat, n2: nat)
    requires !Truthy(cfg.attachments)
    requires first.attachments == [] && second.attachments == []
    ensures var r := RunTrace(cfg, [FetchRun(u1, Delivered(first, n1)), FetchRun(u2, Delivered(second, n2))]);
      && CountKind(r, KMail) == 2 && CountKind(r, KHeaders) == 2 && CountKind(r, KBody) == 2
      && CountKind(r, KAttachment) == 0 && CountKind(r, KError) == 0
  {
    var runs := [FetchRun(u1, Delivered(first, n1)), FetchRun(u2, Delivered(second, n2))];
    RunTraceCounts(cfg, runs);
    assert runs[1..][1..] == [];
    assert AttachmentCount(runs[1..]) == 0;
    assert DeliveredCount(runs[1..]) == 1;
  }

  /** The search results a batch of completed fetches belongs to. */
  function Uids(runs: seq<FetchRun>): seq<nat> {
    seq(|runs|, i requires 0 <= i < |runs| => runs[i].uid)
  }

  lemma {:induction false} AllDelivered(runs: seq<FetchRun>)
    requires forall i :: 0 <= i < |runs| ==> runs[i].outcome.Delivered?
    ensures DeliveredCount(runs) == |runs|
    decreases |runs|
  {
    if |runs| > 0 {
      AllDelivered(runs[1..]);
    }
  }

  /** End to end: when the fetches the search callback issues all deliver
      their message (one completed fetch per search result, in any order),
      there are as many `mail`, `headers` and `body` events as fetches, and
      as search results, and no `error`. */
  lemma {:induction false} SearchToEvents(cfg: Config, error: JsValue, results: seq<nat>, runs: seq<FetchRun>)
    requires !Truthy(error)
    requires multiset(Uids(runs)) == multiset(results)
    requires forall i :: 0 <= i < |runs| ==> runs[i].outcome.Delivered?
    ensures CountKind(SearchDone(cfg, error, results), KFetch) == |results|
    ensures CountKind(RunTrace(cfg, runs), KMail) == |results|
    ensures CountKind(RunTrace(cfg, runs), KHeaders) == |results|
    ensures CountKind(RunTrace(cfg, runs), KBody) == |results|
    ensures CountKind(RunTrace(cfg, runs), KError) == 0
  {
    assert |runs| == |Uids(runs)| == |multiset(Uids(runs))| == |multiset(results)| == |results|;
    AllDelivered(runs);
    RunTraceCounts(cfg, runs);
  }
}
