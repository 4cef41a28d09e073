/** The post-processing actions a consumer calls for a handled message:
    `addLabel` (index.js:161-173) and `moveToProcessedMailbox`
    (index.js:175-193). */
module Actions {
  import opened Js
  import opened Trace
  import opened Options

  /** `addLabel(uid, success)`: one `addLabels` on `uid`, with the success
      labels when `success` is truthy and the failure labels otherwise.
      Nothing is emitted before the session answers. */
  function AddLabel(cfg: Config, uid: JsValue, success: JsValue): (r: seq<Step>)
    ensures |Issued(r)| == 1 && Issued(r)[0].AddLabels? && Issued(r)[0].uid == uid
    ensures Truthy(success) ==> Issued(r)[0].labels == cfg.addLabelsOnSuccess
    ensures !Truthy(success) ==> Issued(r)[0].labels == cfg.addLabelsOnFailure
    ensures Emitted(r) == []
  {
    if Truthy(success) then [Call(AddLabels(uid, cfg.addLabelsOnSuccess))]
    else [Call(AddLabels(uid, cfg.addLabelsOnFailure))]
  }

  /** `moveToProcessedMailbox(uid)`: first ask for the processed mailbox's
      status; everything else happens in the status callback. */
  function MoveToProcessedMailbox(cfg: Config, uid: JsValue): (r: seq<Step>)
    ensures Issued(r) == [Status(cfg.processedMailbox)]
    ensures Emitted(r) == []
  {
    [Call(Status(cfg.processedMailbox))]
  }

  /** The status callback `(err, box)`. When `box == null` (null or
      undefined, whatever `err` says) the mailbox is created; the move is
      issued right after, without waiting for the creation to finish, and
      in every case. */
  function StatusDone(cfg: Config, uid: JsValue, err: JsValue, box: JsValue): seq<Step> {
    if box.Null? || box.Undefined? then
      [Call(AddBox(cfg.processedMailbox)), Call(Move(uid, cfg.processedMailbox))]
    else
      [Call(Move(uid, cfg.processedMailbox))]
  }

  /** The move plan: an `addBox` of the processed mailbox exactly when the
      status lookup yielded nothing, then exactly one move of `uid` into it,
      issued last; no event, and the status error plays no part. */
  lemma StatusDonePlan(cfg: Config, uid: JsValue, err: JsValue, box: JsValue)
    ensures var r := StatusDone(cfg, uid, err, box);
      && CountKind(r, KAddBox) == (if box.Null? || box.Undefined? then 1 else 0)
      && CountKind(r, KMove) == 1
      && r[|r| - 1] == Call(Move(uid, cfg.processedMailbox))
      && (forall i :: 0 <= i < |r| && r[i].Call? && r[i].command.AddBox? ==>
            r[i].command.mailbox == cfg.processedMailbox && i < |r| - 1)
      && Emitted(r) == []
      && r == StatusDone(cfg, uid, Undefined, box)
  {
    var move := Call(Move(uid, cfg.processedMailbox));
    if box.Null? || box.Undefined? {
      CreateThenMove(Call(AddBox(cfg.processedMailbox)), move);
    } else {
      MoveOnly(move);
    }
  }

  /** The plan when the processed mailbox has to be created: two commands,
      the creation first. */
  lemma CreateThenMove(add: Step, move: Step)
    requires add.Call? && add.command.AddBox?
    requires move.Call? && move.command.Move?
    ensures CountKind([add, move], KAddBox) == 1
    ensures CountKind([add, move], KMove) == 1
    ensures Emitted([add, move]) == []
  {
    PairKind(add, move, KAddBox);
    PairKind(add, move, KMove);
    EmittedOfCalls([add, move]);
  }

  /** The plan when the processed mailbox exists: the move alone. */
  lemma MoveOnly(move: Step)
    requires move.Call? && move.command.Move?
    ensures CountKind([move], KAddBox) == 0
    ensures CountKind([move], KMove) == 1
    ensures Emitted([move]) == []
  {
    SingleKind(move, KAddBox);
    SingleKind(move, KMove);
    SingleStep(move);
  }
}
