/**
 * The composer's decision procedure as functions of the store contents: what a submission
 * attempt produces, the state it leaves behind, how a mutation result is handled, and when
 * the submit button is disabled.
 */
module ComposerSpec {
  import opened Wrappers
  import opened ComposerTypes

  // ---------------------------------------------------------------------------
  // Derived flags
  // ---------------------------------------------------------------------------

  function Content(s: ComposerState): string { s.publicationStore.content }

  function Quoted(s: ComposerState): Option<TargetPublication> { s.publicationStore.quotedPublication }

  function Attachments(s: ComposerState): seq<Attachment> { s.attachmentStore.attachments }

  predicate IsComment(s: ComposerState) { s.publication.Some? }

  predicate IsQuote(s: ComposerState) { Quoted(s).Some? }

  /** Comment takes precedence over quote, which takes precedence over post. */
  function KindOf(s: ComposerState): Kind
  {
    if IsComment(s) then Comment else if IsQuote(s) then Quote else Post
  }

  function KindName(k: Kind): string
  {
    match k
    case Comment => "Comment"
    case Quote => "Quote"
    case Post => "Post"
  }

  /** `attachments[0]?.type === t` */
  predicate FirstIs(attachments: seq<Attachment>, t: AttachmentType)
  {
    |attachments| > 0 && attachments[0].kind == t
  }

  predicate HasCollect(c: CollectModule) { Truthy(c.moduleType) }

  /** Relay eligibility: the target's momoka proof for a comment or quote, "no collect" for a post. */
  predicate UseMomoka(s: ComposerState)
  {
    if IsComment(s) then Truthy(s.publication.value.momokaProof)
    else if IsQuote(s) then Truthy(Quoted(s).value.momokaProof)
    else !HasCollect(s.collectModule)
  }

  // ---------------------------------------------------------------------------
  // Metadata
  // ---------------------------------------------------------------------------

  function AnimationUrl(attachments: seq<Attachment>): (url: string)
    ensures url == ANIMATION_FALLBACK || (|attachments| > 0 && attachments[0].uri == Some(url))
  {
    if |attachments| > 0 || FirstIs(attachments, Audio) || FirstIs(attachments, Video) then
      (if Truthy(attachments[0].uri) then attachments[0].uri.value else ANIMATION_FALLBACK)
    else
      ANIMATION_FALLBACK
  }

  function TitlePrefix(s: ComposerState): (prefix: string)
    ensures prefix in {"Video", "Comment", "Quote", "Post"}
  {
    if FirstIs(Attachments(s), Video) then "Video" else KindName(KindOf(s))
  }

  function Title(s: ComposerState, profile: ProfileView): string
  {
    if FirstIs(Attachments(s), Audio) then s.audio.title
    else TitlePrefix(s) + " by " + profile.slugWithPrefix
  }

  function EmptyMessage(k: Kind): string
  {
    KindName(k) + " should not be empty!"
  }

  /** Empty content is sent as undefined. */
  function ProcessedContent(content: string): Option<string>
  {
    if |content| > 0 then Some(content) else None
  }

  /** The attributes block, present only for a truthy poll id. */
  function PollAttributes(pollId: Option<string>): Option<seq<MetadataAttribute>>
  {
    if Truthy(pollId) then Some([MetadataAttribute(PollId, StringAttribute, pollId.value)]) else None
  }

  function BaseMetadataOf(s: ComposerState, profile: ProfileView, pollId: Option<string>): BaseMetadata
  {
    var content := ProcessedContent(Content(s));
    var title := Title(s, profile);
    BaseMetadata(
      content,
      title,
      PollAttributes(pollId),
      Marketplace(AnimationUrl(Attachments(s)), content, EXTERNAL_URL_BASE + profile.link, title))
  }

  // ---------------------------------------------------------------------------
  // Requests
  // ---------------------------------------------------------------------------

  /** The NFT embed first, then the collect action, each only when present. */
  function OpenActionModules(nftEmbed: Option<NftEmbed>, collectModule: CollectModule): seq<OpenAction>
  {
    (if nftEmbed.Some? then [NftOpenAction(nftEmbed.value)] else [])
    + (if HasCollect(collectModule) then [CollectOpenAction(collectModule)] else [])
  }

  function ReferenceModule(s: ComposerState): Option<ReferenceModuleParams>
  {
    if !s.referenceStore.onlyFollowers then None
    else if s.referenceStore.selectedReferenceModule == FollowerOnlyReferenceModule then Some(FollowerOnly)
    else Some(DegreesOfSeparationParams(true, s.referenceStore.degreesOfSeparation, true, true))
  }

  function ContentUri(arweaveId: string): string
  {
    CONTENT_URI_SCHEME + arweaveId
  }

  function CommentOn(s: ComposerState): Option<string>
  {
    if IsComment(s) then Some(s.publication.value.id) else None
  }

  function QuoteOn(s: ComposerState): Option<string>
  {
    if IsQuote(s) then Some(Quoted(s).value.id) else None
  }

  function MomokaRequestFor(s: ComposerState, arweaveId: string): Request
  {
    MomokaRequest(CommentOn(s), QuoteOn(s), ContentUri(arweaveId))
  }

  function OnchainRequestFor(s: ComposerState, arweaveId: string, modules: seq<OpenAction>): Request
  {
    OnchainRequest(ContentUri(arweaveId), CommentOn(s), QuoteOn(s), modules, ReferenceModule(s))
  }

  /** The request the chosen operation is called with. */
  function RequestFor(s: ComposerState, op: Operation, arweaveId: string): Request
  {
    if op.channel == Momoka then MomokaRequestFor(s, arweaveId)
    else OnchainRequestFor(s, arweaveId, OpenActionModules(s.local.nftEmbed, s.collectModule))
  }

  /** Only on-chain typed-data requests pass `overrideSigNonce`. */
  function SigNonceFor(op: Operation, nonce: nat): Option<nat>
  {
    if op.channel == Onchain && op.signing == TypedData then Some(nonce) else None
  }

  /** The twelve-way choice of mutation, in the order the source tests its conditions. */
  function SelectOperation(s: ComposerState, canUseLensManager: bool): (op: Operation)
    ensures op.kind == KindOf(s)
    ensures op.kind == Comment <==> IsComment(s)
    ensures op.kind == Quote <==> !IsComment(s) && IsQuote(s)
    ensures op.kind == Post <==> !IsComment(s) && !IsQuote(s)
    ensures op.channel == Momoka <==> UseMomoka(s) && s.local.nftEmbed.None?
    ensures op.signing == LensManager <==> canUseLensManager
  {
    if UseMomoka(s) && s.local.nftEmbed.None? then
      if canUseLensManager then
        if IsComment(s) then Operation(Comment, Momoka, LensManager)
        else if IsQuote(s) then Operation(Quote, Momoka, LensManager)
        else Operation(Post, Momoka, LensManager)
      else
        if IsComment(s) then Operation(Comment, Momoka, TypedData)
        else if IsQuote(s) then Operation(Quote, Momoka, TypedData)
        else Operation(Post, Momoka, TypedData)
    else
      if canUseLensManager then
        if IsComment(s) then Operation(Comment, Onchain, LensManager)
        else if IsQuote(s) then Operation(Quote, Onchain, LensManager)
        else Operation(Post, Onchain, LensManager)
      else
        if IsComment(s) then Operation(Comment, Onchain, TypedData)
        else if IsQuote(s) then Operation(Quote, Onchain, TypedData)
        else Operation(Post, Onchain, TypedData)
  }

  // ---------------------------------------------------------------------------
  // Submission
  // ---------------------------------------------------------------------------

  /** The audio check fails: the draft starts with audio and the schema rejects it. */
  predicate AudioRejected(s: ComposerState, env: Env)
  {
    FirstIs(Attachments(s), Audio) && env.audioCheck.SchemaFailed?
  }

  predicate DraftEmpty(s: ComposerState)
  {
    |Content(s)| == 0 && |Attachments(s)| == 0
  }

  /** The poll id the metadata carries: only asked for while the poll editor is shown. */
  function PollIdOf(s: ComposerState, env: Env): Option<string>
  {
    if s.pollStore.showPollEditor && env.poll.Returned? then env.poll.value else None
  }

  /**
   * The draft checks that follow the start of loading: the audio schema, then emptiness.
   * `None` when the draft may be published.
   */
  function CheckDraft(s: ComposerState, env: Env): (r: Option<Outcome>)
    ensures r.None? <==> !AudioRejected(s, env) && !DraftEmpty(s)
    ensures r.Some? ==> r.value.ContentRejected? || r.value.Aborted?
  {
    if AudioRejected(s, env) then
      var issues := env.audioCheck.issues;
      // with no issue to read, `issue.message` throws and the catch block takes over
      if |issues| == 0 then Some(Aborted) else Some(ContentRejected(issues[0]))
    else if DraftEmpty(s) then Some(ContentRejected(EmptyMessage(KindOf(s))))
    else None
  }

  /** The field-level message the draft checks leave. */
  function CheckedError(r: Option<Outcome>): string
  {
    if r.Some? && r.value.ContentRejected? then r.value.message else ""
  }

  /** Poll creation, upload and the one mutation, once the draft has passed its checks. */
  function Publish(s: ComposerState, profile: ProfileView, session: Session, env: Env): (o: Outcome)
    ensures o.Aborted? || o.Invoked?
    ensures o.Invoked? <==> env.upload.Returned? && (s.pollStore.showPollEditor ==> env.poll.Returned?)
  {
    if s.pollStore.showPollEditor && env.poll.Threw? then Aborted
    else if env.upload.Threw? then Aborted
    else
      var op := SelectOperation(s, session.canUseLensManager);
      Invoked(
        op,
        RequestFor(s, op, env.upload.value),
        SigNonceFor(op, session.sigNonce),
        BaseMetadataOf(s, profile, PollIdOf(s, env)))
  }

  /** The draft checks and the publishing steps read neither the loading flag nor the message. */
  lemma SubmitIgnoresLoading(s: ComposerState, profile: ProfileView, session: Session, env: Env,
                             isLoading: bool, contentError: string)
    ensures var t := s.(local := s.local.(isLoading := isLoading, contentError := contentError));
            CheckDraft(t, env) == CheckDraft(s, env) && Publish(t, profile, session, env) == Publish(s, profile, session, env)
  {
  }

  /**
   * One submission attempt: the validation chain (signed in, not suspended, audio schema,
   * non-empty draft), then poll creation and upload, then the one mutation chosen.
   */
  function Submit(s: ComposerState, session: Session, env: Env): (o: Outcome)
    ensures o.AuthRejected? <==> session.profile.None? || session.isSuspended
    ensures o.ContentRejected? ==> AudioRejected(s, env) || DraftEmpty(s)
    ensures o.Invoked? ==>
      && session.profile.Some? && !session.isSuspended
      && !AudioRejected(s, env) && !DraftEmpty(s)
      && env.upload.Returned? && (s.pollStore.showPollEditor ==> env.poll.Returned?)
      && o.op == SelectOperation(s, session.canUseLensManager)
      && o.request.contentURI == CONTENT_URI_SCHEME + env.upload.value
  {
    if session.profile.None? then AuthRejected(SignWallet)
    else if session.isSuspended then AuthRejected(Suspended)
    else
      match CheckDraft(s, env)
      case Some(rejection) => rejection
      case None => Publish(s, session.profile.value, session, env)
  }

  /**
   * The state a submission attempt with outcome `o` leaves: only the loading flag and the
   * field-level message change, and only once loading has started.
   */
  function AfterSubmit(s: ComposerState, o: Outcome, mutationThrows: bool): ComposerState
  {
    match o
    case AuthRejected(_) => s
    case ContentRejected(message) => s.(local := s.local.(isLoading := false, contentError := message))
    case Aborted => s.(local := s.local.(isLoading := false, contentError := ""))
    case Invoked(_, _, _, _) => s.(local := s.local.(isLoading := !mutationThrows, contentError := ""))
  }

  // ---------------------------------------------------------------------------
  // Reset and completion
  // ---------------------------------------------------------------------------

  /** `reset`: the editor, content, tags and every per-draft store back to its default. */
  function ResetState(s: ComposerState, d: StoreDefaults): ComposerState
  {
    s.(editorText := "",
       publicationStore := s.publicationStore.(content := "", tags := None),
       pollStore := PollStore(false, d.pollConfig),
       liveStore := LiveStore(false, d.liveVideoConfig),
       attachmentStore := s.attachmentStore.(attachments := []),
       videoThumbnail := d.videoThumbnail,
       audio := d.audio,
       license := None,
       attributes := d.attributes,
       collectModule := d.collectModule)
  }

  predicate IsRelayError(t: ResultTypename)
  {
    t == RelayError || t == LensProfileManagerRelayError
  }

  /** `onCompleted`: relay errors take the error path; anything else clears the draft. */
  function Completed(s: ComposerState, d: StoreDefaults, t: ResultTypename): ComposerState
  {
    if IsRelayError(t) then s.(local := s.local.(isLoading := false))
    else
      var unquoted := s.(local := s.local.(isLoading := false),
                         publicationStore := s.publicationStore.(quotedPublication := None));
      var cleared := ResetState(unquoted, d);
      if IsComment(s) then cleared else cleared.(modals := cleared.modals.(showNewPostModal := false))
  }

  /** `onDiscardClick`: the quote dropped, both modals closed, and the draft reset. */
  function Discarded(s: ComposerState, d: StoreDefaults): ComposerState
  {
    var closed := s.(publicationStore := s.publicationStore.(quotedPublication := None),
                     modals := ModalStore(false, false));
    ResetState(closed, d)
  }

  // ---------------------------------------------------------------------------
  // Submit button
  // ---------------------------------------------------------------------------

  /** `options.some((option) => !option.length)` */
  function SomeEmpty(options: seq<string>): (b: bool)
    ensures b <==> exists i :: 0 <= i < |options| && options[i] == ""
  {
    if |options| == 0 then false
    else if |options[0]| == 0 then true
    else SomeEmpty(options[1..])
  }

  predicate SubmitDisabledByPoll(s: ComposerState)
  {
    if s.pollStore.showPollEditor then
      |s.pollStore.pollConfig.options| == 0 || SomeEmpty(s.pollStore.pollConfig.options)
    else false
  }

  predicate SubmitDisabled(s: ComposerState)
  {
    || s.local.isLoading
    || s.attachmentStore.isUploading
    || SubmitDisabledByPoll(s)
    || s.videoThumbnail.uploading
    || s.local.exceededMentionsLimit
  }

  /** The effect run when the content changes, given how many mentions it holds. */
  function ContentChanged(s: ComposerState, mentionCount: nat): ComposerState
  {
    if mentionCount > MENTION_LIMIT then
      s.(local := s.local.(exceededMentionsLimit := true, contentError := MENTION_LIMIT_MESSAGE))
    else
      s.(local := s.local.(exceededMentionsLimit := false, contentError := ""))
  }
}
