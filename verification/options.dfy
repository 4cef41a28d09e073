/** The `MailListener` constructor's option handling (index.js:16-39): a raw
    options object becomes the listener's fixed configuration. */
module Options {
  import opened Js

  /** The options the listener interprets itself; an absent field is
      `Undefined`. Connection settings go to the IMAP client unchanged and
      are not part of this record. */
  datatype RawOptions = RawOptions(
    markSeen: JsValue,
    mailbox: JsValue,
    processedMailbox: JsValue,
    addLabelsOnSuccess: JsValue,
    addLabelsOnFailure: JsValue,
    searchFilter: JsValue,
    fetchUnreadOnStart: JsValue,
    mailParserOptions: JsValue,
    attachments: JsValue,
    attachmentOptions: JsValue)

  /** The listener's configuration after construction. */
  datatype Config = Config(
    markSeen: bool,
    mailbox: JsValue,
    processedMailbox: JsValue,
    addLabelsOnSuccess: JsValue,
    addLabelsOnFailure: JsValue,
    searchFilter: JsValue,
    fetchUnreadOnStart: bool,
    mailParserOptions: JsValue,
    attachmentOptions: JsValue,
    attachments: JsValue)
  {
    /** The prefix attachment paths are built from. */
    function Directory(): JsValue {
      Prop(attachmentOptions, "directory")
    }
  }

  const DefaultMailbox: JsValue := Str("INBOX")
  const DefaultSearchFilter: JsValue := Arr([Str("UNSEEN")], map[])
  const EmptyLabels: JsValue := Arr([], map[])

  /** `attachments && attachmentOptions && attachmentOptions.stream` */
  predicate StreamRequested(attachments: JsValue, attachmentOptions: JsValue) {
    Truthy(attachments) && Truthy(attachmentOptions) && Truthy(Prop(attachmentOptions, "stream"))
  }

  /** What every constructed listener's configuration satisfies. */
  predicate WellFormed(c: Config) {
    && Truthy(c.mailbox)
    && Truthy(c.processedMailbox)
    && Truthy(c.addLabelsOnSuccess)
    && Truthy(c.addLabelsOnFailure)
    && Truthy(c.searchFilter) && !c.searchFilter.Str?
    && Truthy(c.mailParserOptions)
    && IsObject(c.attachmentOptions)
    && (Truthy(c.Directory()) || c.Directory() == Str(""))
    && (Truthy(c.attachments) || c.attachments == Bool(false))
    && (StreamRequested(c.attachments, c.attachmentOptions) ==>
          IsObject(c.mailParserOptions) && Prop(c.mailParserOptions, "streamAttachments") == Bool(true))
  }

  /** The search filter rule: a string is wrapped in a one-element array
      (checked before truthiness, so `''` becomes `['']`); any other truthy
      value is kept as given; anything falsy becomes `['UNSEEN']`. */
  function NormalizeSearchFilter(f: JsValue): (r: JsValue)
    ensures Truthy(r) && !r.Str?
    ensures f.Str? ==> r.Arr? && r.items == [f]
    ensures !f.Str? && Truthy(f) ==> r == f
    ensures !f.Str? && !Truthy(f) ==> r == DefaultSearchFilter
  {
    if f.Str? then Arr([f], map[]) else Or(f, DefaultSearchFilter)
  }

  /** The constructor. It throws (strict mode) when it has to set a property
      on a primitive: `streamAttachments` on a non-object `mailParserOptions`
      when streaming is requested, or `directory` on a non-object
      `attachmentOptions`. */
  function Normalize(o: RawOptions): (r: Result<Config>)
    ensures r.Ok? ==> WellFormed(r.value)
    ensures r.Thrown? <==>
      || (StreamRequested(o.attachments, o.attachmentOptions) && !IsObject(Or(o.mailParserOptions, EmptyObject)))
      || !IsObject(Or(o.attachmentOptions, EmptyObject))
  {
    var parserOptions := Or(o.mailParserOptions, EmptyObject);
    var streamed :=
      if StreamRequested(o.attachments, o.attachmentOptions)
      then SetProp(parserOptions, "streamAttachments", Bool(true))
      else Ok(parserOptions);
    if streamed.Thrown? then Thrown(streamed.error)
    else
      var attachmentOptions := Or(o.attachmentOptions, EmptyObject);
      var directory := Prop(attachmentOptions, "directory");
      var withDirectory :=
        SetProp(attachmentOptions, "directory", if Truthy(directory) then directory else Str(""));
      if withDirectory.Thrown? then Thrown(withDirectory.error)
      else
        Ok(Config(
          markSeen := Truthy(o.markSeen),
          mailbox := Or(o.mailbox, DefaultMailbox),
          processedMailbox := Or(o.processedMailbox, DefaultMailbox),
          addLabelsOnSuccess := Or(o.addLabelsOnSuccess, EmptyLabels),
          addLabelsOnFailure := Or(o.addLabelsOnFailure, EmptyLabels),
          searchFilter := NormalizeSearchFilter(o.searchFilter),
          fetchUnreadOnStart := Truthy(o.fetchUnreadOnStart),
          mailParserOptions := streamed.value,
          attachmentOptions := withDirectory.value,
          attachments := Or(o.attachments, Bool(false))))
  }

  /** The defaults and coercions, field by field. */
  lemma NormalizeFields(o: RawOptions)
    requires Normalize(o).Ok?
    ensures var c := Normalize(o).value;
      && c.markSeen == Truthy(o.markSeen)
      && c.fetchUnreadOnStart == Truthy(o.fetchUnreadOnStart)
      && (Truthy(o.mailbox) ==> c.mailbox == o.mailbox)
      && (!Truthy(o.mailbox) ==> c.mailbox == Str("INBOX"))
      && (Truthy(o.processedMailbox) ==> c.processedMailbox == o.processedMailbox)
      && (!Truthy(o.processedMailbox) ==> c.processedMailbox == Str("INBOX"))
      && (Truthy(o.addLabelsOnSuccess) ==> c.addLabelsOnSuccess == o.addLabelsOnSuccess)
      && (!Truthy(o.addLabelsOnSuccess) ==> c.addLabelsOnSuccess == Arr([], map[]))
      && (Truthy(o.addLabelsOnFailure) ==> c.addLabelsOnFailure == o.addLabelsOnFailure)
      && (!Truthy(o.addLabelsOnFailure) ==> c.addLabelsOnFailure == Arr([], map[]))
      && (Truthy(o.attachments) ==> c.attachments == o.attachments)
      && (!Truthy(o.attachments) ==> c.attachments == Bool(false))
  {
  }

  /** Attachment handling: the directory defaults to the empty string, every
      other attachment option is kept, and `streamAttachments` is switched on
      in the parser options exactly when streaming is requested. */
  lemma NormalizeAttachmentOptions(o: RawOptions)
    requires Normalize(o).Ok?
    ensures var c := Normalize(o).value;
      && (Truthy(Prop(o.attachmentOptions, "directory")) ==> c.Directory() == Prop(o.attachmentOptions, "directory"))
      && (!Truthy(Prop(o.attachmentOptions, "directory")) ==> c.Directory() == Str(""))
      && (forall k :: k != "directory" ==> Prop(c.attachmentOptions, k) == Prop(Or(o.attachmentOptions, EmptyObject), k))
      && (StreamRequested(o.attachments, o.attachmentOptions) ==>
            Prop(c.mailParserOptions, "streamAttachments") == Bool(true)
            && forall k :: k != "streamAttachments" ==> Prop(c.mailParserOptions, k) == Prop(o.mailParserOptions, k))
      && (!StreamRequested(o.attachments, o.attachmentOptions) ==>
            c.mailParserOptions == Or(o.mailParserOptions, EmptyObject))
  {
  }

  /** A bare filter term and the same term wrapped in a one-element array
      configure the same listener. */
  lemma BareFilterEqualsWrapped(o: RawOptions, term: string)
    ensures Normalize(o.(searchFilter := Str(term))) == Normalize(o.(searchFilter := Arr([Str(term)], map[])))
  {
  }

  /** The options object that describes a configuration field for field. */
  function ToOptions(c: Config): RawOptions {
    RawOptions(
      markSeen := Bool(c.markSeen),
      mailbox := c.mailbox,
      processedMailbox := c.processedMailbox,
      addLabelsOnSuccess := c.addLabelsOnSuccess,
      addLabelsOnFailure := c.addLabelsOnFailure,
      searchFilter := c.searchFilter,
      fetchUnreadOnStart := Bool(c.fetchUnreadOnStart),
      mailParserOptions := c.mailParserOptions,
      attachments := c.attachments,
      attachmentOptions := c.attachmentOptions)
  }

  /** A well-formed configuration is a fixed point of the constructor. */
  lemma NormalizeFixpoint(c: Config)
    requires WellFormed(c)
    ensures Normalize(ToOptions(c)) == Ok(c)
  {
    if StreamRequested(c.attachments, c.attachmentOptions) {
      SetPropSameValue(c.mailParserOptions, "streamAttachments");
    }
    SetPropSameValue(c.attachmentOptions, "directory");
  }

  /** Normalising twice is normalising once. */
  lemma NormalizeIdempotent(o: RawOptions)
    requires Normalize(o).Ok?
    ensures Normalize(ToOptions(Normalize(o).value)) == Normalize(o)
  {
    NormalizeFixpoint(Normalize(o).value);
  }
}
