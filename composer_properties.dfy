/**
 * What the composer's submission logic guarantees, stated over the functions of
 * `ComposerSpec` (which the methods of `Composer.NewPublication` are proved against).
 */
module ComposerProperties {
  import opened Wrappers
  import opened ComposerTypes
  import opened ComposerSpec

  // ---------------------------------------------------------------------------
  // The validation chain
  // ---------------------------------------------------------------------------

  /**
   * Signed-out is reported before suspension, both before loading starts: the attempt
   * changes no state and builds no request.
   */
  lemma AuthChecksComeFirst(s: ComposerState, session: Session, env: Env)
    requires session.profile.None? || session.isSuspended
    ensures Submit(s, session, env) == AuthRejected(if session.profile.None? then SignWallet else Suspended)
    ensures AfterSubmit(s, Submit(s, session, env), env.mutationThrows) == s
  {
  }

  /** A failing audio schema shows exactly its first issue and stops loading. */
  lemma AudioSchemaRejects(s: ComposerState, session: Session, env: Env)
    requires session.profile.Some? && !session.isSuspended
    requires FirstIs(Attachments(s), Audio) && env.audioCheck.SchemaFailed?
    requires |env.audioCheck.issues| > 0
    ensures Submit(s, session, env) == ContentRejected(env.audioCheck.issues[0])
    ensures AfterSubmit(s, Submit(s, session, env), env.mutationThrows)
            == s.(local := s.local.(isLoading := false, contentError := env.audioCheck.issues[0]))
  {
  }

  /** An empty draft is refused with the kind's own message, and loading stops. */
  lemma EmptyDraftRejected(s: ComposerState, session: Session, env: Env)
    requires session.profile.Some? && !session.isSuspended
    requires |Content(s)| == 0 && |Attachments(s)| == 0
    ensures Submit(s, session, env) == ContentRejected(EmptyMessage(KindOf(s)))
    ensures !AfterSubmit(s, Submit(s, session, env), env.mutationThrows).local.isLoading
  {
  }

  /**
   * A refused attempt calls neither poll creation, nor the upload, nor a mutation: its outcome
   * and the state it leaves are the same whatever those calls would have returned.
   */
  lemma RejectionsMakeNoCalls(s: ComposerState, session: Session, env: Env, other: Env)
    requires other.audioCheck == env.audioCheck
    requires session.profile.None? || session.isSuspended || CheckDraft(s, env).Some?
    ensures Submit(s, session, other) == Submit(s, session, env)
    ensures AfterSubmit(s, Submit(s, session, other), other.mutationThrows)
            == AfterSubmit(s, Submit(s, session, env), env.mutationThrows)
  {
  }

  /** Once loading has started, any call that throws returns the loading flag to false. */
  lemma LoadingFlagAfterSubmit(s: ComposerState, session: Session, env: Env)
    ensures var o := Submit(s, session, env);
            AfterSubmit(s, o, env.mutationThrows).local.isLoading
            <==> (o.AuthRejected? && s.local.isLoading) || (o.Invoked? && !env.mutationThrows)
    ensures var o := Submit(s, session, env);
            !o.AuthRejected? && (o.Aborted? || env.mutationThrows)
            ==> !AfterSubmit(s, o, env.mutationThrows).local.isLoading
  {
  }

  // ---------------------------------------------------------------------------
  // Channel and operation
  // ---------------------------------------------------------------------------

  /**
   * The Momoka channel is taken exactly when the publication is relay-eligible and carries no
   * NFT open action; an NFT embed, a commented or quoted publication without proof, or a post
   * with a collect module all go on-chain.
   */
  lemma ChannelChoice(s: ComposerState, session: Session, env: Env)
    requires Submit(s, session, env).Invoked?
    ensures var o := Submit(s, session, env);
            (o.op.channel == Momoka <==> UseMomoka(s) && s.local.nftEmbed.None?)
            && (o.op.channel == Momoka <==> o.request.MomokaRequest?)
    ensures s.local.nftEmbed.Some? ==> Submit(s, session, env).op.channel == Onchain
    ensures IsComment(s) && !Truthy(s.publication.value.momokaProof) ==> Submit(s, session, env).op.channel == Onchain
    ensures !IsComment(s) && IsQuote(s) && !Truthy(Quoted(s).value.momokaProof)
            ==> Submit(s, session, env).op.channel == Onchain
    ensures !IsComment(s) && !IsQuote(s) && HasCollect(s.collectModule)
            ==> Submit(s, session, env).op.channel == Onchain
    ensures !IsComment(s) && !IsQuote(s) && !HasCollect(s.collectModule) && s.local.nftEmbed.None?
            ==> Submit(s, session, env).op.channel == Momoka
  {
  }

  /**
   * The profile-manager permission only picks between the direct call and the typed-data
   * request: with it flipped, the same kind and channel are chosen and the same request and
   * metadata are sent.
   */
  lemma SigningOnlyPicksTheCall(s: ComposerState, session: Session, env: Env)
    requires Submit(s, session, env).Invoked?
    ensures var o := Submit(s, session, env);
            var flipped := Submit(s, session.(canUseLensManager := !session.canUseLensManager), env);
            && flipped.Invoked?
            && flipped.op == o.op.(signing := if session.canUseLensManager then TypedData else LensManager)
            && flipped.request == o.request
            && flipped.metadata == o.metadata
  {
  }

  // ---------------------------------------------------------------------------
  // Request payloads
  // ---------------------------------------------------------------------------

  /**
   * Every request points at the upload; `commentOn` is there exactly for comments, `quoteOn`
   * exactly when a publication is quoted (so a quote carries no `commentOn` and a post neither);
   * only on-chain typed-data calls pass the signature nonce.
   */
  lemma RequestPayload(s: ComposerState, session: Session, env: Env)
    requires Submit(s, session, env).Invoked?
    ensures var o := Submit(s, session, env);
            && o.request.contentURI == "ar://" + env.upload.value
            && (o.request.commentOn.Some? <==> o.op.kind == Comment)
            && (o.request.commentOn.Some? ==> o.request.commentOn.value == s.publication.value.id)
            && (o.request.quoteOn.Some? <==> IsQuote(s))
            && (o.op.kind == Quote ==> o.request.commentOn.None? && o.request.quoteOn == Some(Quoted(s).value.id))
            && (o.op.kind == Post ==> o.request.commentOn.None? && o.request.quoteOn.None?)
    ensures var o := Submit(s, session, env);
            && (o.overrideSigNonce.Some? <==> o.op.channel == Onchain && o.op.signing == TypedData)
            && (o.overrideSigNonce.Some? ==> o.overrideSigNonce.value == session.sigNonce)
  {
  }

  /** On-chain requests carry the open actions and the reference module; Momoka ones carry neither. */
  lemma OnchainPayload(s: ComposerState, session: Session, env: Env)
    requires Submit(s, session, env).Invoked?
    requires Submit(s, session, env).op.channel == Onchain
    ensures var r := Submit(s, session, env).request;
            && r.OnchainRequest?
            && r.openActionModules == OpenActionModules(s.local.nftEmbed, s.collectModule)
            && (r.referenceModule.Some? <==> s.referenceStore.onlyFollowers)
            && (r.referenceModule.Some? ==>
                  (r.referenceModule.value == FollowerOnly
                   <==> s.referenceStore.selectedReferenceModule == FollowerOnlyReferenceModule))
            && (r.referenceModule.Some? && s.referenceStore.selectedReferenceModule != FollowerOnlyReferenceModule
                ==> r.referenceModule.value
                    == DegreesOfSeparationParams(true, s.referenceStore.degreesOfSeparation, true, true))
  {
  }

  /** The NFT embed comes first and the collect action last, each only when present. */
  lemma OpenActionModulesOrder(nftEmbed: Option<NftEmbed>, collectModule: CollectModule)
    ensures var m := OpenActionModules(nftEmbed, collectModule);
            && |m| == (if nftEmbed.Some? then 1 else 0) + (if HasCollect(collectModule) then 1 else 0)
            && (nftEmbed.Some? ==> m[0] == NftOpenAction(nftEmbed.value))
            && (HasCollect(collectModule) ==> m[|m| - 1] == CollectOpenAction(collectModule))
            && (forall a | a in m :: a.NftOpenAction? ==> nftEmbed == Some(a.embed))
            && (forall a | a in m :: a.CollectOpenAction? ==> a.collect == collectModule)
  {
  }

  // ---------------------------------------------------------------------------
  // Metadata
  // ---------------------------------------------------------------------------

  /** The title is the audio title for audio, otherwise "<prefix> by <handle>". */
  lemma TitleCases(s: ComposerState, profile: ProfileView, pollId: Option<string>)
    ensures var m := BaseMetadataOf(s, profile, pollId);
            && m.marketplace.name == m.title
            && (FirstIs(Attachments(s), Audio) ==> m.title == s.audio.title)
            && (!FirstIs(Attachments(s), Audio) ==> m.title == TitlePrefix(s) + " by " + profile.slugWithPrefix)
    ensures TitlePrefix(s) == "Video" <==> FirstIs(Attachments(s), Video)
    ensures !FirstIs(Attachments(s), Video) ==> TitlePrefix(s) == KindName(KindOf(s))
  {
  }

  /**
   * The animation URL is the first attachment's URI; the fallback is used when there is no
   * attachment or its URI is absent or empty.
   */
  lemma AnimationUrlCases(attachments: seq<Attachment>)
    ensures |attachments| == 0 ==> AnimationUrl(attachments) == ANIMATION_FALLBACK
    ensures |attachments| > 0 && Truthy(attachments[0].uri) ==> AnimationUrl(attachments) == attachments[0].uri.value
    ensures |attachments| > 0 && !Truthy(attachments[0].uri) ==> AnimationUrl(attachments) == ANIMATION_FALLBACK
  {
  }

  /**
   * The metadata carries an attributes block, holding the poll id alone, exactly when the
   * poll editor is shown and poll creation returned an id; empty content is sent as absent.
   */
  lemma MetadataOfInvoked(s: ComposerState, session: Session, env: Env)
    requires Submit(s, session, env).Invoked?
    ensures var m := Submit(s, session, env).metadata;
            && (m.attributes.Some? <==> s.pollStore.showPollEditor && Truthy(env.poll.value))
            && (m.attributes.Some? ==> m.attributes.value == [MetadataAttribute(PollId, StringAttribute, env.poll.value.value)])
            && m.content == m.marketplace.description
            && (m.content.Some? <==> |Content(s)| > 0)
            && m.marketplace.externalUrl == "https://hey.xyz" + session.profile.value.link
  {
  }

  // ---------------------------------------------------------------------------
  // Completion and reset
  // ---------------------------------------------------------------------------

  /** A relay error only stops loading: the draft is left for a retry. */
  lemma RelayErrorKeepsDraft(s: ComposerState, d: StoreDefaults, t: ResultTypename)
    requires t == RelayError || t == LensProfileManagerRelayError
    ensures Completed(s, d, t) == s.(local := s.local.(isLoading := false))
  {
  }

  /**
   * Any other result stops loading, drops the quoted publication, returns every draft store
   * to its default, and closes the new-post modal unless composing a comment.
   */
  lemma SuccessClearsDraft(s: ComposerState, d: StoreDefaults, t: ResultTypename)
    requires t != RelayError && t != LensProfileManagerRelayError
    ensures var r := Completed(s, d, t);
            && !r.local.isLoading
            && Quoted(r).None?
            && r.editorText == "" && Content(r) == "" && r.publicationStore.tags.None?
            && r.pollStore == PollStore(false, d.pollConfig)
            && r.liveStore == LiveStore(false, d.liveVideoConfig)
            && Attachments(r) == []
            && r.videoThumbnail == d.videoThumbnail && r.audio == d.audio
            && r.license.None? && r.attributes == d.attributes && r.collectModule == d.collectModule
    ensures var r := Completed(s, d, t);
            && r.modals.showNewPostModal == (IsComment(s) && s.modals.showNewPostModal)
            && r.modals.showDiscardModal == s.modals.showDiscardModal
            && r.publication == s.publication
            && r.attachmentStore.isUploading == s.attachmentStore.isUploading
            && r.referenceStore == s.referenceStore
            && r.local == s.local.(isLoading := false)
  {
  }

  lemma ResetIdempotent(s: ComposerState, d: StoreDefaults)
    ensures ResetState(ResetState(s, d), d) == ResetState(s, d)
  {
  }

  /**
   * Discarding clears the same stores as a successful publication, but closes both modals
   * whatever is being composed and leaves the component's own state alone.
   */
  lemma DiscardIsSuccessResetWithModalsClosed(s: ComposerState, d: StoreDefaults)
    ensures Discarded(s, d) == Completed(s, d, RelaySuccess).(local := s.local, modals := ModalStore(false, false))
  {
  }

  lemma DiscardIdempotent(s: ComposerState, d: StoreDefaults)
    ensures Discarded(Discarded(s, d), d) == Discarded(s, d)
  {
  }

  /** Retrying after a relay error builds the same outcome as the attempt that failed. */
  lemma RetryAfterRelayError(s: ComposerState, d: StoreDefaults, t: ResultTypename, session: Session, env: Env)
    requires t == RelayError || t == LensProfileManagerRelayError
    ensures Submit(Completed(s, d, t), session, env) == Submit(s, session, env)
  {
    if session.profile.Some? {
      SubmitIgnoresLoading(s, session.profile.value, session, env, false, s.local.contentError);
    }
  }

  /** After a success the draft is empty, so submitting again is refused as empty. */
  lemma ResubmitAfterSuccessIsEmpty(s: ComposerState, d: StoreDefaults, t: ResultTypename, session: Session, env: Env)
    requires t != RelayError && t != LensProfileManagerRelayError
    requires session.profile.Some? && !session.isSuspended
    ensures Submit(Completed(s, d, t), session, env)
            == ContentRejected(EmptyMessage(if IsComment(s) then Comment else Post))
  {
    var r := Completed(s, d, t);
    SuccessClearsDraft(s, d, t);
    EmptyDraftRejected(r, session, env);
  }

  // ---------------------------------------------------------------------------
  // The submit button
  // ---------------------------------------------------------------------------

  /** Disabled while loading or uploading, over the mention limit, or with an incomplete poll. */
  lemma SubmitDisabledCases(s: ComposerState)
    ensures SubmitDisabled(s) <==>
            || s.local.isLoading
            || s.attachmentStore.isUploading
            || s.videoThumbnail.uploading
            || s.local.exceededMentionsLimit
            || (s.pollStore.showPollEditor &&
                (|s.pollStore.pollConfig.options| == 0 ||
                 exists i :: 0 <= i < |s.pollStore.pollConfig.options| && s.pollStore.pollConfig.options[i] == ""))
  {
  }

  /** More than 50 mentions set the limit flag and its message, and disable submit. */
  lemma MentionLimit(s: ComposerState, mentionCount: nat)
    ensures ContentChanged(s, mentionCount).local.exceededMentionsLimit <==> mentionCount > 50
    ensures mentionCount > 50 ==> ContentChanged(s, mentionCount).local.contentError == MENTION_LIMIT_MESSAGE
    ensures mentionCount > 50 ==> SubmitDisabled(ContentChanged(s, mentionCount))
  {
  }

  /** While a mutation is in flight the button stays disabled: no second submission. */
  lemma InFlightDisablesSubmit(s: ComposerState, session: Session, env: Env)
    requires Submit(s, session, env).Invoked? && !env.mutationThrows
    ensures SubmitDisabled(AfterSubmit(s, Submit(s, session, env), env.mutationThrows))
  {
  }
}
