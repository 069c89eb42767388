/**
 * The data the post composer (`NewPublication`) works on: the publication stores it reads
 * and writes, the signed-in session, the results of the asynchronous calls it awaits, and
 * the requests and outcomes a submission produces.
 */
module ComposerTypes {
  import opened Wrappers

  /** JavaScript truthiness of an optional string: absent and "" are both falsy. */
  predicate Truthy(s: Option<string>)
  {
    s.Some? && s.value != ""
  }

  // ---------------------------------------------------------------------------
  // Constants of the composer
  // ---------------------------------------------------------------------------

  /** Animation URL used when the first attachment gives none. */
  const ANIMATION_FALLBACK: string := "ipfs://bafkreiaoua5s4iyg4gkfjzl6mzgenw4qw7mwgxj7zf7ev7gga72o5d3lf4"
  /** Scheme of the uploaded metadata document's pointer. */
  const CONTENT_URI_SCHEME: string := "ar://"
  /** Prefix of the marketplace external URL. */
  const EXTERNAL_URL_BASE: string := "https://hey.xyz"
  /** Most mentions a publication may carry. */
  const MENTION_LIMIT: nat := 50
  const MENTION_LIMIT_MESSAGE: string := "You can only mention 50 people at a time!"

  // ---------------------------------------------------------------------------
  // Store contents
  // ---------------------------------------------------------------------------

  datatype AttachmentType = Image | Video | Audio

  datatype Attachment = Attachment(kind: AttachmentType, uri: Option<string>, mimeType: string)

  /** A publication the composer refers to: the one commented on or the one quoted. */
  datatype TargetPublication = TargetPublication(id: string, momokaProof: Option<string>)

  datatype AudioPublication = AudioPublication(title: string, artist: string, cover: string)

  datatype VideoThumbnail = VideoThumbnail(url: string, uploading: bool)

  datatype PollConfig = PollConfig(length: nat, options: seq<string>)

  datatype LiveVideoConfig = LiveVideoConfig(id: string, playbackId: string, streamKey: string)

  /** The collect settings; `moduleType` is absent when collecting is switched off. */
  datatype CollectModule = CollectModule(moduleType: Option<string>, settings: string)

  /** An entry of the free-form publication attributes store. */
  datatype CustomAttribute = CustomAttribute(key: string, value: string)

  /** An NFT open action picked up from a link preview; its content is opaque here. */
  datatype NftEmbed = NftEmbed(payload: string)

  datatype ReferenceModuleType =
    | FollowerOnlyReferenceModule
    | DegreesOfSeparationReferenceModule
    | UnknownReferenceModule

  /** The values the store resets restore (defined by the stores themselves). */
  datatype StoreDefaults = StoreDefaults(
    pollConfig: PollConfig,
    liveVideoConfig: LiveVideoConfig,
    videoThumbnail: VideoThumbnail,
    audio: AudioPublication,
    attributes: seq<CustomAttribute>,
    collectModule: CollectModule)

  /** The publication store: the editor's markdown, the quoted publication and the tags. */
  datatype PublicationStore = PublicationStore(
    content: string,
    quotedPublication: Option<TargetPublication>,
    tags: Option<seq<string>>)

  datatype PollStore = PollStore(showPollEditor: bool, pollConfig: PollConfig)

  datatype LiveStore = LiveStore(showLiveVideoEditor: bool, liveVideoConfig: LiveVideoConfig)

  datatype AttachmentStore = AttachmentStore(attachments: seq<Attachment>, isUploading: bool)

  datatype ReferenceStore = ReferenceStore(
    onlyFollowers: bool,
    selectedReferenceModule: ReferenceModuleType,
    degreesOfSeparation: nat)

  /** The global modal store: the new-post modal and the discard confirmation. */
  datatype ModalStore = ModalStore(showNewPostModal: bool, showDiscardModal: bool)

  /** The component's own state (`useState`). */
  datatype LocalState = LocalState(
    isLoading: bool,
    contentError: string,
    nftEmbed: Option<NftEmbed>,
    exceededMentionsLimit: bool)

  /** Everything the composer reads or writes, besides the session: one entry per store. */
  datatype ComposerState = ComposerState(
    publication: Option<TargetPublication>,       // the prop: present when composing a comment
    editorText: string,
    publicationStore: PublicationStore,
    pollStore: PollStore,
    liveStore: LiveStore,
    attachmentStore: AttachmentStore,
    videoThumbnail: VideoThumbnail,
    audio: AudioPublication,
    license: Option<string>,
    attributes: seq<CustomAttribute>,
    collectModule: CollectModule,
    referenceStore: ReferenceStore,
    local: LocalState,
    modals: ModalStore)

  // ---------------------------------------------------------------------------
  // Session and asynchronous results
  // ---------------------------------------------------------------------------

  /** What `getProfile` yields for the signed-in profile. */
  datatype ProfileView = ProfileView(slugWithPrefix: string, link: string)

  /**
   * The signed-in session: the profile (absent when signed out), the suspension flag,
   * the dispatcher permission (`canUseLensManager`) and the on-chain signature nonce.
   */
  datatype Session = Session(
    profile: Option<ProfileView>,
    isSuspended: bool,
    canUseLensManager: bool,
    sigNonce: nat)

  /** The audio schema's verdict on the audio draft. */
  datatype SchemaResult = SchemaPassed | SchemaFailed(issues: seq<string>)

  /**
   * The results of the foreign calls one submission awaits: the audio schema, poll creation
   * (a poll id, possibly undefined), the Arweave upload (an id), and whether the mutation threw.
   */
  datatype Env = Env(
    audioCheck: SchemaResult,
    poll: Call<Option<string>>,
    upload: Call<string>,
    mutationThrows: bool)

  /** The `__typename` a mutation reports to `onCompleted` (`Absent` for undefined). */
  datatype ResultTypename =
    | CreateMomokaPublicationResult
    | LensProfileManagerRelayError
    | RelayError
    | RelaySuccess
    | Absent

  // ---------------------------------------------------------------------------
  // Requests and outcomes
  // ---------------------------------------------------------------------------

  datatype Kind = Comment | Quote | Post

  datatype Channel = Momoka | Onchain

  /** Direct call through the profile manager, or a typed-data request to sign. */
  datatype Signing = LensManager | TypedData

  /** One of the 3 x 2 x 2 mutations, e.g. `Operation(Comment, Momoka, LensManager)` is `createCommentOnMomka`. */
  datatype Operation = Operation(kind: Kind, channel: Channel, signing: Signing)

  datatype OpenAction =
    | NftOpenAction(embed: NftEmbed)
    | CollectOpenAction(collect: CollectModule)   // stands for `collectModuleParams(collect)`

  datatype ReferenceModuleParams =
    | FollowerOnly
    | DegreesOfSeparationParams(
        commentsRestricted: bool,
        degreesOfSeparation: nat,
        mirrorsRestricted: bool,
        quotesRestricted: bool)

  datatype Request =
    | MomokaRequest(commentOn: Option<string>, quoteOn: Option<string>, contentURI: string)
    | OnchainRequest(
        contentURI: string,
        commentOn: Option<string>,
        quoteOn: Option<string>,
        openActionModules: seq<OpenAction>,
        referenceModule: Option<ReferenceModuleParams>)

  datatype KnownAttribute = PollId

  datatype MetadataAttributeType = StringAttribute

  datatype MetadataAttribute = MetadataAttribute(key: KnownAttribute, attributeType: MetadataAttributeType, value: string)

  datatype Marketplace = Marketplace(
    animationUrl: string,
    description: Option<string>,
    externalUrl: string,
    name: string)

  /** The base metadata handed to the metadata builder before upload. */
  datatype BaseMetadata = BaseMetadata(
    content: Option<string>,
    title: string,
    attributes: Option<seq<MetadataAttribute>>,
    marketplace: Marketplace)

  /** The two toasts shown before a submission starts. */
  datatype AuthError = SignWallet | Suspended

  datatype Outcome =
    | AuthRejected(error: AuthError)        // toast; loading never starts
    | ContentRejected(message: string)      // field-level message under the editor
    | Aborted                               // an awaited call threw before any mutation
    | Invoked(op: Operation, request: Request, overrideSigNonce: Option<nat>, metadata: BaseMetadata)
}
