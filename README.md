# Post composer submission logic

A Dafny model of the submission core of the web app's post composer,
`NewPublication` (`apps/web/src/components/Composer/NewPublication.tsx`), with the
React view stripped away. The model covers:

- the ordered validation chain of `createPublication`: signed in, not suspended, the
  audio schema, a non-empty draft;
- the publication kind (comment, then quote, then post) and relay eligibility (`useMomoka`);
- the twelve-way choice between the Momoka and on-chain mutations, each called directly
  through the profile manager or as typed data to sign;
- the payloads: the metadata with its title, animation URL and optional poll attribute,
  the Momoka and on-chain requests, the open-action list and the reference-module block;
- the state the composer keeps across a submission: the loading flag and the field-level
  message;
- `onCompleted` / `onError`, `reset` and `onDiscardClick`, and the setter the open-action
  previews use to attach an NFT embed;
- the effects on the content (the mention limit) and on the audio details;
- the predicate that disables the submit button.

Layout:

- `wrappers.dfy`: `Option`, and `Call` for an awaited call that returns or throws.
- `composer_types.dfy`: the stores, the session, the results of the awaited calls, and
  the requests and outcomes.
- `composer_spec.dfy`: the decision procedure as functions of the store contents (`Submit`,
  `AfterSubmit`, `Completed`, `ResetState`, `SubmitDisabled`, …).
- `composer.dfy`: the composer as a class over its stores. Each handler updates the fields
  step by step and is proved against the function that specifies it.
- `composer_properties.dfy`: the properties of that specification.

The foreign calls are inputs. `Env` carries what each awaited call would give: the audio
schema's verdict, the poll id from `createPoll` (or a throw), the Arweave id, and whether
the mutation throws. `Session` carries the signed-in profile, the suspension flag,
`canUseLensManager` and the on-chain signature nonce. The values the store `reset`s restore
are defined in the stores, outside this model. They are the class constant `defaults`.
JavaScript truthiness of an optional string (absent or `""` are both false) is `Truthy`.

## Model

| member | source | states |
|---|---|---|
| ComposerSpec.UseMomoka | apps/web/src/components/Composer/NewPublication.tsx:180-186 | relay eligibility: the commented publication's proof for a comment, else the quoted publication's proof, else "no collect module"; its use in the channel choice is stated by `ComposerProperties.ChannelChoice` |
| ComposerSpec.Title | apps/web/src/components/Composer/NewPublication.tsx:349-351 | the audio title for audio, otherwise "<prefix> by <handle>"; stated by `ComposerProperties.TitleCases` |
| ComposerSpec.BaseMetadataOf | apps/web/src/components/Composer/NewPublication.tsx:347-376 | the base metadata: content absent when empty, the title, the poll attribute block, and the marketplace fields; stated by `ComposerProperties.MetadataOfInvoked` and `ComposerProperties.TitleCases` |
| ComposerSpec.OpenActionModules | apps/web/src/components/Composer/NewPublication.tsx:382-392 | the NFT embed, then the collect action, each when present; stated by `ComposerProperties.OpenActionModulesOrder` |
| ComposerSpec.ReferenceModule | apps/web/src/components/Composer/NewPublication.tsx:447-460 | present only when only followers may interact: follower-only for that type, otherwise degrees of separation with everything restricted; stated by `ComposerProperties.OnchainPayload` |
| ComposerSpec.MomokaRequestFor | apps/web/src/components/Composer/NewPublication.tsx:395-402 | `commentOn` for a comment, `quoteOn` when quoting, and the "ar://" content URI; stated by `ComposerProperties.RequestPayload` |
| ComposerSpec.OnchainRequestFor | apps/web/src/components/Composer/NewPublication.tsx:439-461 | the content URI, `commentOn`, `quoteOn`, the open actions and the reference module; stated by `ComposerProperties.RequestPayload` and `ComposerProperties.OnchainPayload` |
| ComposerSpec.SubmitDisabledByPoll | apps/web/src/components/Composer/NewPublication.tsx:518-521 | with the poll editor shown, disabled when there is no option or an empty one; stated by `ComposerProperties.SubmitDisabledCases` |
| ComposerSpec.SubmitDisabled | apps/web/src/components/Composer/NewPublication.tsx:590-596 | the disabled expression of the submit button; stated by `ComposerProperties.SubmitDisabledCases` |
| ComposerSpec.AnimationUrl | apps/web/src/components/Composer/NewPublication.tsx:291-300 | the animation URL is either the IPFS fallback or the URI of the first attachment |
| ComposerSpec.TitlePrefix | apps/web/src/components/Composer/NewPublication.tsx:302-308 | the title prefix is one of "Video", "Comment", "Quote", "Post" |
| ComposerSpec.SelectOperation | apps/web/src/components/Composer/NewPublication.tsx:404-502 | the operation's kind is comment iff a comment, quote iff quoting and not a comment, post otherwise; it goes through Momoka iff relay-eligible with no NFT embed; it is a direct call iff the profile manager may be used |
| ComposerSpec.CheckDraft | apps/web/src/components/Composer/NewPublication.tsx:321-338 | the draft passes iff the audio schema does not reject it and it is not empty; otherwise the attempt is refused with a message or aborted |
| ComposerSpec.Publish | apps/web/src/components/Composer/NewPublication.tsx:342-505 | once the draft passes, a mutation is invoked iff the upload returns and, with the poll editor shown, poll creation returns; otherwise the attempt aborts |
| ComposerSpec.SubmitIgnoresLoading | apps/web/src/components/Composer/NewPublication.tsx:319-340 | the draft checks and the publishing steps do not depend on the loading flag or the field-level message |
| ComposerSpec.Submit | apps/web/src/components/Composer/NewPublication.tsx:310-506 | the auth refusals happen exactly when signed out or suspended; a content refusal comes only from the audio schema or an empty draft; an invoked mutation implies every check passed, the awaited calls returned, the operation is the selected one and the content URI is "ar://" followed by the Arweave id |
| ComposerSpec.SomeEmpty | apps/web/src/components/Composer/NewPublication.tsx:518-521 | true iff some poll option is the empty string |
| Composer.BuildOpenActionModules | apps/web/src/components/Composer/NewPublication.tsx:381-392 | the list built by pushing is the NFT embed followed by the collect action, each only when present |
| Composer.NewPublication.constructor | apps/web/src/components/Composer/NewPublication.tsx:161-166 | mounting keeps the stores and starts the component state cleared: not loading, no message, no NFT embed, under the mention limit |
| Composer.NewPublication.Reset | apps/web/src/components/Composer/NewPublication.tsx:188-202 | the new state is `ResetState` of the old one: the editor, content and tags cleared and every draft store back to its default, nothing else changed |
| Composer.NewPublication.ResetText | apps/web/src/components/Composer/NewPublication.tsx:189-191 | only the editor text, the content and the tags change, to empty |
| Composer.NewPublication.ResetEditors | apps/web/src/components/Composer/NewPublication.tsx:192-195 | only the poll and live-video stores change: closed, with default configurations |
| Composer.NewPublication.ResetMedia | apps/web/src/components/Composer/NewPublication.tsx:196-198 | only the attachments (emptied), the video thumbnail and the audio details (defaults) change |
| Composer.NewPublication.ResetSettings | apps/web/src/components/Composer/NewPublication.tsx:199-201 | only the license (cleared), the attributes and the collect settings (defaults) change |
| Composer.NewPublication.OnError | apps/web/src/components/Composer/NewPublication.tsx:204-207 | only the loading flag changes, to false |
| Composer.NewPublication.OnCompleted | apps/web/src/components/Composer/NewPublication.tsx:209-229 | the new state is `Completed` of the old one and the result's type name |
| Composer.NewPublication.OnDiscardClick | apps/web/src/components/Composer/NewPublication.tsx:523-528 | the new state is `Discarded` of the old one: the quote dropped, both modals closed, then the draft reset |
| Composer.NewPublication.SetNftOpenActionEmbed | apps/web/src/components/Composer/NewPublication.tsx:165 | only the NFT open-action embed changes, to the one given |
| Composer.NewPublication.OnAudioChanged | apps/web/src/components/Composer/NewPublication.tsx:277-279 | only the field-level message changes, to empty |
| Composer.NewPublication.OnContentChanged | apps/web/src/components/Composer/NewPublication.tsx:281-289 | the new state is `ContentChanged` of the old one and the mention count |
| Composer.NewPublication.CreatePublication | apps/web/src/components/Composer/NewPublication.tsx:310-506 | the outcome is `Submit` of the old state, and the new state is `AfterSubmit` of that outcome |
| Composer.NewPublication.CheckDraftStores | apps/web/src/components/Composer/NewPublication.tsx:319-340 | the result is `CheckDraft` of the old state; only the loading flag (kept only if the draft passes) and the message change |
| Composer.NewPublication.PublishDraft | apps/web/src/components/Composer/NewPublication.tsx:342-505 | the outcome is `Publish` of the old state; loading stays on only while a mutation that did not throw is in flight |
| ComposerProperties.AuthChecksComeFirst | apps/web/src/components/Composer/NewPublication.tsx:311-317 | signed out gives SignWallet even when suspended; suspended gives Suspended; either leaves the whole state unchanged and builds no request |
| ComposerProperties.AudioSchemaRejects | apps/web/src/components/Composer/NewPublication.tsx:321-328 | a failing audio schema refuses with exactly its first issue; loading stops and the message is that issue |
| ComposerProperties.EmptyDraftRejected | apps/web/src/components/Composer/NewPublication.tsx:331-337 | an empty draft is refused with "<kind> should not be empty!", where the kind is comment, then quote, then post |
| ComposerProperties.RejectionsMakeNoCalls | apps/web/src/components/Composer/NewPublication.tsx:311-338 | a refused attempt has the same outcome and leaves the same state whatever poll creation, the upload or the mutation would do, so none of them is called |
| ComposerProperties.LoadingFlagAfterSubmit | apps/web/src/components/Composer/NewPublication.tsx:319-505 | after an attempt the composer is loading iff it was loading and was refused sign-in, or a mutation is in flight that did not throw; an abort or a throwing mutation always clears loading |
| ComposerProperties.ChannelChoice | apps/web/src/components/Composer/NewPublication.tsx:180-186 | the Momoka channel and a Momoka request happen exactly when relay-eligible with no NFT embed; an NFT embed, a target without proof, or a post with a collect module go on-chain; a post without collect module and embed goes through Momoka |
| ComposerProperties.SigningOnlyPicksTheCall | apps/web/src/components/Composer/NewPublication.tsx:405-502 | flipping the profile-manager permission swaps the direct call for the typed-data request (or back) and changes nothing else: same kind, channel, request and metadata |
| ComposerProperties.RequestPayload | apps/web/src/components/Composer/NewPublication.tsx:395-402 | the content URI is "ar://" followed by the Arweave id; `commentOn` holds the commented id exactly for comments; `quoteOn` is there exactly when quoting; a quote has no `commentOn` and a post neither; the nonce is passed exactly for on-chain typed data |
| ComposerProperties.OnchainPayload | apps/web/src/components/Composer/NewPublication.tsx:439-461 | an on-chain request carries the open-action list and a reference module exactly when only followers may interact: follower-only for that type, otherwise degrees of separation with comments, mirrors and quotes restricted |
| ComposerProperties.OpenActionModulesOrder | apps/web/src/components/Composer/NewPublication.tsx:382-392 | the list has one entry per present action, the NFT embed first and the collect action last, and nothing else |
| ComposerProperties.TitleCases | apps/web/src/components/Composer/NewPublication.tsx:302-308 | the title, also the marketplace name, is the audio title for audio, otherwise "<prefix> by <handle>"; the prefix is "Video" exactly for a video, otherwise the kind |
| ComposerProperties.AnimationUrlCases | apps/web/src/components/Composer/NewPublication.tsx:291-300 | no attachment gives the fallback; otherwise the first attachment's URI, or the fallback when it is absent or empty |
| ComposerProperties.MetadataOfInvoked | apps/web/src/components/Composer/NewPublication.tsx:347-376 | the metadata carries an attributes block exactly when the poll editor is shown and a poll id came back, and it then holds just that id; empty content is sent as absent, as content and description alike; the external URL is the site plus the profile link |
| ComposerProperties.RelayErrorKeepsDraft | apps/web/src/components/Composer/NewPublication.tsx:216-221 | the two relay-error results only stop loading, and the draft is kept |
| ComposerProperties.SuccessClearsDraft | apps/web/src/components/Composer/NewPublication.tsx:223-229 | any other result stops loading, drops the quoted publication and resets every draft store; the modal closes unless composing a comment; the uploading flag, the reference settings and the rest of the component state are kept |
| ComposerProperties.ResetIdempotent | apps/web/src/components/Composer/NewPublication.tsx:188-202 | resetting twice is the same as resetting once |
| ComposerProperties.DiscardIsSuccessResetWithModalsClosed | apps/web/src/components/Composer/NewPublication.tsx:523-528 | discarding clears exactly the stores a successful publication clears, but closes both modals whatever is composed and keeps the loading flag and the rest of the component state |
| ComposerProperties.DiscardIdempotent | apps/web/src/components/Composer/NewPublication.tsx:523-528 | discarding twice is the same as discarding once |
| ComposerProperties.RetryAfterRelayError | apps/web/src/components/Composer/NewPublication.tsx:216-221 | after a relay error, submitting again has the same outcome as the failed attempt |
| ComposerProperties.ResubmitAfterSuccessIsEmpty | apps/web/src/components/Composer/NewPublication.tsx:223-225 | after a success, submitting again is refused as an empty comment, or an empty post when not commenting |
| ComposerProperties.SubmitDisabledCases | apps/web/src/components/Composer/NewPublication.tsx:590-596 | submit is disabled iff loading, uploading, thumbnail uploading, over the mention limit, or the poll editor is shown with no option or an empty one |
| ComposerProperties.MentionLimit | apps/web/src/components/Composer/NewPublication.tsx:281-289 | the limit flag is set iff there are more than 50 mentions, and then the message is set and submit is disabled |
| ComposerProperties.InFlightDisablesSubmit | apps/web/src/components/Composer/NewPublication.tsx:319-320 | while a mutation that did not throw is in flight, submit stays disabled |

## Left out

- The JSX view, with its dynamic imports, the emoji, GIF and shimmer widgets, and the styling. It is UI.
- `uploadToArweave`, `createPoll`, the twelve mutation hooks and `usePublicationMetadata` are foreign calls. They appear only as their results in `Env`, as the chosen `Operation`, and as the `BaseMetadata` handed to the metadata builder, which is not modelled further.
- `AudioPublicationSchema.safeParse` is not part of this model; its verdict is an input (`SchemaResult`).
- `getMentions` is not part of this model; the mention count is the input of `OnContentChanged`.
- `collectModuleParams` is not part of this model; the collect action carries the collect settings as they are.
- `getProfile` and `checkDispatcherPermissions` are not part of this model; their results are the `ProfileView` and `canUseLensManager` of `Session`.
- The default values of the stores (`DEFAULT_VIDEO_THUMBNAIL`, `DEFAULT_AUDIO_PUBLICATION` and the defaults behind `resetPollConfig`, `resetLiveVideoConfig`, `resetAttributes` and `resetCollectSettings`) are defined outside this file, so they are the parameter `defaults`.
- The error toasts and the `Leafwatch.track` analytics event in `onCompleted` are fire-and-forget side channels.
- The timing of the effects and of the unmount `reset` are left out, as are the race between an unmount and an in-flight response and the mutation hook's own error callback. Each is a handler run at the moment React runs it; `onCompleted` is a separate event that follows the mutation.
- `setGifAttachment` only adds an attachment through the attachment store, and that store's own logic is not part of this model.
- The unmount effect only calls `reset`, which is modelled. Only its timing is left out.
- The error object a throwing call produces is not modelled; a throw is the outcome `Aborted`, or the `mutationThrows` flag for the mutation.
- A comment composed while the quoted-publication store is also set gets `quoteOn` as well as `commentOn`, because both spreads apply. The model keeps this behaviour (`RequestPayload` states `quoteOn` iff quoting) and does not treat it as a defect.
