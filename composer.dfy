/**
 * The composer component over its stores: each store field is a field of `NewPublication`,
 * and the handlers update them step by step. Every handler is proved against the function
 * of `ComposerSpec` that describes its effect on the abstract state `State()`.
 */
module Composer {
  import opened Wrappers
  import opened ComposerTypes
  import opened ComposerSpec

  /** Builds the open-action module list by appending, as the source pushes onto an array. */
  method BuildOpenActionModules(nftEmbed: Option<NftEmbed>, collectModule: CollectModule)
    returns (modules: seq<OpenAction>)
    ensures modules == OpenActionModules(nftEmbed, collectModule)
  {
    modules := [];
    if nftEmbed.Some? {
      modules := modules + [NftOpenAction(nftEmbed.value)];
    }
    if HasCollect(collectModule) {
      modules := modules + [CollectOpenAction(collectModule)];
    }
  }

  class NewPublication {
    // the component's prop and the defaults the store resets restore
    const publication: Option<TargetPublication>
    const defaults: StoreDefaults

    // the editor and the stores the composer uses
    var editorText: string
    var publicationStore: PublicationStore
    var pollStore: PollStore
    var liveStore: LiveStore
    var attachmentStore: AttachmentStore
    var videoThumbnail: VideoThumbnail
    var audio: AudioPublication
    var license: Option<string>
    var attributes: seq<CustomAttribute>
    var collectModule: CollectModule
    var referenceStore: ReferenceStore
    var modals: ModalStore
    // the component's own state
    var isLoading: bool
    var contentError: string
    var nftEmbed: Option<NftEmbed>
    var exceededMentionsLimit: bool

    /** The abstract value of the composer. */
    function State(): ComposerState
      reads this
    {
      ComposerState(publication, editorText, publicationStore, pollStore, liveStore, attachmentStore,
                    videoThumbnail, audio, license, attributes, collectModule, referenceStore,
                    LocalState(isLoading, contentError, nftEmbed, exceededMentionsLimit), modals)
    }

    /** Mounting over existing stores: the component's own state starts cleared. */
    constructor (stores: ComposerState, defaults: StoreDefaults)
      ensures this.defaults == defaults
      ensures State() == stores.(local := LocalState(false, "", None, false))
    {
      this.publication := stores.publication;
      this.defaults := defaults;
      editorText := stores.editorText;
      publicationStore := stores.publicationStore;
      pollStore := stores.pollStore;
      liveStore := stores.liveStore;
      attachmentStore := stores.attachmentStore;
      videoThumbnail := stores.videoThumbnail;
      audio := stores.audio;
      license := stores.license;
      attributes := stores.attributes;
      collectModule := stores.collectModule;
      referenceStore := stores.referenceStore;
      modals := stores.modals;
      isLoading, contentError, nftEmbed, exceededMentionsLimit := false, "", None, false;
    }

    /** `reset`: one setter per store, each back to its cleared value or the store's default. */
    method Reset()
      modifies this
      ensures State() == ResetState(old(State()), defaults)
    {
      ResetText();
      ResetEditors();
      ResetMedia();
      ResetSettings();
    }

    /** The editor, the publication content and the tags. */
    method ResetText()
      modifies this
      ensures State() == old(State()).(editorText := "",
                publicationStore := old(publicationStore).(content := "", tags := None))
    {
      editorText := "";
      publicationStore := publicationStore.(content := "");
      publicationStore := publicationStore.(tags := None);
    }

    /** The poll and live-video editors, closed and back to their default configurations. */
    method ResetEditors()
      modifies this
      ensures State() == old(State()).(pollStore := PollStore(false, defaults.pollConfig),
                liveStore := LiveStore(false, defaults.liveVideoConfig))
    {
      pollStore := pollStore.(showPollEditor := false);
      pollStore := pollStore.(pollConfig := defaults.pollConfig);
      liveStore := liveStore.(showLiveVideoEditor := false);
      liveStore := liveStore.(liveVideoConfig := defaults.liveVideoConfig);
    }

    /** No attachments, and the default video thumbnail and audio details. */
    method ResetMedia()
      modifies this
      ensures State() == old(State()).(attachmentStore := old(attachmentStore).(attachments := []),
                videoThumbnail := defaults.videoThumbnail, audio := defaults.audio)
    {
      attachmentStore := attachmentStore.(attachments := []);
      videoThumbnail := defaults.videoThumbnail;
      audio := defaults.audio;
    }

    /** No license, and the default attributes and collect settings. */
    method ResetSettings()
      modifies this
      ensures State() == old(State()).(license := None, attributes := defaults.attributes,
                collectModule := defaults.collectModule)
    {
      license := None;
      attributes := defaults.attributes;
      collectModule := defaults.collectModule;
    }

    /** `onError`: loading stops; the toast is a side channel. */
    method OnError()
      modifies this
      ensures State() == old(State()).(local := old(State()).local.(isLoading := false))
    {
      isLoading := false;
    }

    /** `onCompleted`, called by the mutation hook with the result's `__typename`. */
    method OnCompleted(typename: ResultTypename)
      modifies this
      ensures State() == Completed(old(State()), defaults, typename)
    {
      if typename == RelayError || typename == LensProfileManagerRelayError {
        OnError();
        return;
      }
      isLoading := false;
      publicationStore := publicationStore.(quotedPublication := None);
      Reset();
      if publication.None? {
        modals := modals.(showNewPostModal := false);
      }
    }

    /** `onDiscardClick`: drop the quote, close the new-post and discard modals, then `reset`. */
    method OnDiscardClick()
      modifies this
      ensures State() == Discarded(old(State()), defaults)
    {
      publicationStore := publicationStore.(quotedPublication := None);
      modals := modals.(showNewPostModal := false);
      modals := modals.(showDiscardModal := false);
      Reset();
    }

    /** `setNftOpenActionEmbed`, the setter the open-action previews are given. */
    method SetNftOpenActionEmbed(embed: Option<NftEmbed>)
      modifies this
      ensures State() == old(State()).(local := old(State()).local.(nftEmbed := embed))
    {
      nftEmbed := embed;
    }

    /** The effect run whenever the audio details change: the field-level message clears. */
    method OnAudioChanged()
      modifies this
      ensures State() == old(State()).(local := old(State()).local.(contentError := ""))
    {
      contentError := "";
    }

    /** The effect that re-counts mentions whenever the content changes. */
    method OnContentChanged(mentionCount: nat)
      modifies this
      ensures State() == ContentChanged(old(State()), mentionCount)
    {
      if mentionCount > MENTION_LIMIT {
        exceededMentionsLimit := true;
        contentError := MENTION_LIMIT_MESSAGE;
      } else {
        exceededMentionsLimit := false;
        contentError := "";
      }
    }

    /**
     * `createPublication`: the two sign-in checks return before loading starts; the draft
     * checks and the publishing steps follow. `env` supplies what the awaited calls return.
     */
    method CreatePublication(session: Session, env: Env) returns (o: Outcome)
      modifies this
      ensures o == Submit(old(State()), session, env)
      ensures State() == AfterSubmit(old(State()), o, env.mutationThrows)
    {
      if session.profile.None? {
        return AuthRejected(SignWallet);
      }
      if session.isSuspended {
        return AuthRejected(Suspended);
      }
      ghost var s := State();
      isLoading := true;
      SubmitIgnoresLoading(s, session.profile.value, session, env, true, s.local.contentError);
      SubmitIgnoresLoading(s, session.profile.value, session, env, true, "");
      var rejection := CheckDraftStores(env);
      if rejection.Some? {
        return rejection.value;
      }
      o := PublishDraft(session.profile.value, session, env);
    }

    /** The audio schema check and the empty-draft check, with their early returns. */
    method CheckDraftStores(env: Env) returns (r: Option<Outcome>)
      modifies this
      ensures r == CheckDraft(old(State()), env)
      ensures State() == old(State()).(local := old(State()).local.(
                isLoading := old(isLoading) && r.None?, contentError := CheckedError(r)))
    {
      var s := State();
      if FirstIs(attachmentStore.attachments, Audio) {
        contentError := "";
        if env.audioCheck.SchemaFailed? {
          var issues := env.audioCheck.issues;
          if |issues| == 0 {
            // reading the first issue throws; the catch block calls onError
            OnError();
            return Some(Aborted);
          }
          isLoading := false;
          contentError := issues[0];
          return Some(ContentRejected(issues[0]));
        }
      }

      if |publicationStore.content| == 0 && |attachmentStore.attachments| == 0 {
        isLoading := false;
        contentError := EmptyMessage(KindOf(s));
        return Some(ContentRejected(contentError));
      }

      contentError := "";
      r := None;
    }

    /** Poll creation, metadata, upload, the payloads and the one mutation. */
    method PublishDraft(profile: ProfileView, session: Session, env: Env) returns (o: Outcome)
      modifies this
      ensures o == Publish(old(State()), profile, session, env)
      ensures State() == old(State()).(local := old(State()).local.(
                isLoading := old(isLoading) && o.Invoked? && !env.mutationThrows))
    {
      var s := State();
      var pollId: Option<string> := None;
      if pollStore.showPollEditor {
        if env.poll.Threw? {
          OnError();
          return Aborted;
        }
        pollId := env.poll.value;
      }

      var metadata := BaseMetadataOf(s, profile, pollId);
      if env.upload.Threw? {
        OnError();
        return Aborted;
      }
      var arweaveId := env.upload.value;

      var modules := BuildOpenActionModules(nftEmbed, collectModule);
      var op := SelectOperation(s, session.canUseLensManager);
      var request := if op.channel == Momoka then MomokaRequestFor(s, arweaveId)
                     else OnchainRequestFor(s, arweaveId, modules);
      o := Invoked(op, request, SigNonceFor(op, session.sigNonce), metadata);
      if env.mutationThrows {
        OnError();
      }
    }
  }
}
