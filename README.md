# Video screening MVP — a Dafny model of its core

The system lets a recruiter create interview invites, tag them and watch the
video a candidate uploads; the candidate records a clip in the browser and
uploads it. This project models the parts of it that hold logic:

- the in-memory invite repository (`MemoryRepo`): a dictionary from invite id
  to a record `(invite_id, url?, tags)`, where every write is an upsert, tags
  are added only when absent and removed by first occurrence
  (`memory_repo.dfy`, with the tag-list updates in `tags.dfy`);
- the older single-file backend, whose module-level `VIDEOS` dictionary is
  read by the `video` resolver and updated by the `createInvite` and `addTag`
  resolvers and by the upload handler (`legacy_backend.dfy`); it is proved to act on its
  dictionary exactly as the repository acts on its own, through the
  abstraction `AsStore`;
- the GraphQL resolvers of the modular backend, composed over the repository
  (`graphql_schema.dfy`);
- the candidate page's recording/upload state machine (`idle`, `recording`,
  `stopped`, `uploading`, `uploaded`, `error`, plus the held blob and the error
  message), its handlers, its status texts and the controls its rendering
  offers in each state (`invite_record.dfy`);
- the recorder component: a once-a-second elapsed counter, the chunk buffer,
  the auto-stop rule at the maximum duration and the start/stop button gating
  (`recorder.dfy`);
- the video player's rewrite of stored upload paths into backend URLs
  (`video_player.dfy`).

Stateful parts are classes whose fields the methods update; each method is
proved against a pure function of the old state (`View() ==
AfterTick(old(View()), ...)`, `videos == Tagged(old(videos), ...)`), and the
lemmas about those functions carry the properties: idempotence, round trips,
frame conditions, preserved invariants and the auto-stop deadline.

The model follows the code where its behaviour is easy to misread:

- creating an invite that exists is not an error; it is an idempotent upsert
  that keeps the existing record;
- tags are deduplicated when added, so a record never holds a tag twice;
- tag removal removes the first occurrence only, and there is no tag-removal
  GraphQL mutation on either backend;
- the recorder's elapsed counter is 0 from mount and ticks once the media
  stream is granted, not from when a recording starts, and neither start nor stop resets it, so a
  recording started after the maximum is stopped at the next tick;
- the recorder component ignores the page's `onStart` and `disabled`
  properties, so no control of the rendered page leads to `recording`, and the
  recorder stays usable while an upload is in flight;
- the recorder's chunk array is never emptied while that recorder lives, so a
  second recording's blob from the same recorder starts with the first one's
  chunks. This is behaviour of the component alone: on the page, every stop
  re-renders it with a new `onStop` callback (and the first stop remounts it
  through its `key`), which installs a new recorder with an empty chunk array.

## Model

| member | source | states |
|---|---|---|
| `Tags.WithTag` | backend/app/repo/memory.py:32-36 | the tag is present afterwards, the old list is kept as a prefix, the list grows only when the tag was new, and a duplicate-free list stays duplicate-free |
| `Tags.WithTagIdempotent` | backend/app/repo/memory.py:33-34 | adding the same tag twice gives the same list as adding it once |
| `Tags.WithoutFirst` | backend/app/repo/memory.py:42-45 | an absent tag leaves the list unchanged; otherwise exactly one occurrence is removed (multiset minus one copy) |
| `Tags.WithoutFirstSplices` | backend/app/repo/memory.py:43-44 | removal cuts out exactly the first occurrence and keeps the other tags in order |
| `Tags.WithoutFirstOnNoDuplicates` | backend/app/repo/memory.py:38-46 | on a duplicate-free list the tag is absent afterwards and the list stays duplicate-free |
| `Tags.RemoveUndoesAdd` | backend/app/repo/memory.py:28-46 | removing a tag that was just added (being new) gives back the original list |
| `Tags.RemoveAfterAppend` | backend/app/repo/memory.py:33-44 | removing the first copy of a tag appended to a list that lacked it gives back that list |
| `VideoRecords.Blank` | backend/app/repo/memory.py:11 | the default record of an id has that id, no url and no tags |
| `MemoryRepository.Lookup` | backend/app/repo/memory.py:15-20 | `get_video` answers the stored record, or for an unknown id a record with that id, no url and no tags; on a well-formed store the answer has the asked id and no duplicate tag |
| `MemoryRepository.Created` | backend/app/repo/memory.py:9-13 | `create_invite` adds the id to the keys, keeps every existing record (the id's own included) and keeps the store well formed |
| `MemoryRepository.WithUrl` | backend/app/repo/memory.py:22-26 | `set_video_url` upserts the record, sets its url, keeps its id and tags and every other record |
| `MemoryRepository.Tagged` | backend/app/repo/memory.py:28-36 | `add_tag` upserts the record, leaves the tag present, keeps url, id and every other record, and keeps the store well formed |
| `MemoryRepository.Untagged` | backend/app/repo/memory.py:38-46 | `remove_tag` upserts the record, removes the first occurrence, keeps url, id and every other record |
| `MemoryRepository.UntaggedWellFormed` | backend/app/repo/memory.py:38-46 | removal keeps the store well formed and leaves the tag absent from the record |
| `MemoryRepository.CreatedIdempotent` | backend/app/repo/memory.py:10-12 | creating twice equals creating once, and creating a known id changes nothing |
| `MemoryRepository.LookupAfterCreated` | backend/app/repo/memory.py:9-20 | a lookup answers the same before and after any `create_invite` |
| `MemoryRepository.TaggedIdempotent` | backend/app/repo/memory.py:33-34 | two `add_tag` calls with the same tag leave the same store as one |
| `MemoryRepository.UntagUndoesTag` | backend/app/repo/memory.py:28-46 | removing a tag that `add_tag` just added leaves the store as `create_invite` would |
| `MemoryRepository.UntagAbsentIsCreate` | backend/app/repo/memory.py:38-46 | removing an absent tag only upserts the record |
| `MemoryRepository.MemoryRepo.constructor` | backend/app/repo/memory.py:6-7 | a new repository is empty and well formed |
| `MemoryRepository.MemoryRepo.SetDefault` | backend/app/repo/memory.py:10-12 | `setdefault` leaves the store as `create_invite` does and returns the stored record |
| `MemoryRepository.MemoryRepo.CreateInvite` | backend/app/repo/memory.py:9-13 | returns its argument; the new store is `Created` of the old one |
| `MemoryRepository.MemoryRepo.GetVideo` | backend/app/repo/memory.py:15-20 | returns `Lookup` of the store, with the asked id and no duplicate tag; the store is not changed |
| `MemoryRepository.MemoryRepo.SetVideoUrl` | backend/app/repo/memory.py:22-26 | the new store is `WithUrl` of the old one; the record's tags are unchanged |
| `MemoryRepository.MemoryRepo.AddTag` | backend/app/repo/memory.py:28-36 | the new store is `Tagged` of the old one; the returned list is the stored one and holds the tag |
| `MemoryRepository.MemoryRepo.RemoveTag` | backend/app/repo/memory.py:38-46 | the new store is `Untagged` of the old one; the returned list is the stored one and lacks the tag |
| `LegacyBackend.AsStore` | backend/main.py:9-11 | each `{url, tags}` entry seen as a record filed under its key, with the same keys |
| `LegacyBackend.AsStoreInjective` | backend/main.py:9-11 | two dictionaries with the same record view are equal |
| `LegacyBackend.UploadPath` | backend/main.py:59-65 | the stored path is `uploads/`, then the invite id, then `.webm` |
| `LegacyBackend.UploadPathInjective` | backend/main.py:65 | distinct invites get distinct upload paths |
| `LegacyBackend.CreateInviteNeverOverwrites` | backend/main.py:30-32 | `createInvite` on a known id leaves `VIDEOS` unchanged |
| `LegacyBackend.AddTagTwiceIsOnce` | backend/main.py:34-39 | a second `addTag` with the same tag leaves `VIDEOS` as the first left it |
| `LegacyBackend.Backend.constructor` | backend/main.py:9-11 | `VIDEOS` starts empty |
| `LegacyBackend.EntryOrBlank` | backend/main.py:24 | the entry a lookup with the blank default yields is, as a record, what `get_video` answers |
| `LegacyBackend.TagEntry` | backend/main.py:34-39 | writing back the entry with the tag appended when absent changes the record view exactly as `add_tag` does |
| `LegacyBackend.UrlEntry` | backend/main.py:68-69 | writing back the entry with a new url changes the record view exactly as `set_video_url` does |
| `LegacyBackend.Backend.SetDefault` | backend/main.py:31 | `setdefault` acts as the repository's `create_invite` and returns the stored entry |
| `LegacyBackend.Backend.Video` | backend/main.py:23-25 | answers the repository-style lookup with the asked id, url `None` and no tags for an unknown id, and does not insert |
| `LegacyBackend.Backend.CreateInvite` | backend/main.py:30-32 | returns the id; acts on `VIDEOS` as `create_invite` acts on the repository |
| `LegacyBackend.Backend.AddTag` | backend/main.py:34-39 | acts on `VIDEOS` as `add_tag` does; the returned tags are the stored tags and hold the tag |
| `LegacyBackend.Backend.Upload` | backend/main.py:63-70 | sets the record's url to the upload path as `set_video_url` would, keeps its tags, and answers status `uploaded` with that same url |
| `GraphQLSchema.Video` | backend/app/graphql/schema.py:11-14 | returns the repository's record field for field without changing the repository; a blank record for an unknown id |
| `GraphQLSchema.CreateInvite` | backend/app/graphql/schema.py:20-22 | returns the id; the repository changes as `create_invite` says, not at all for a known id |
| `GraphQLSchema.AddTag` | backend/app/graphql/schema.py:25-29 | the repository changes as `add_tag` says; the answer is the stored record, with the asked id, the tag present, no duplicates and the old url |
| `VideoPlayer.VideoSrc` | frontend/src/components/VideoPlayer.tsx:3-5 | a source under `app/uploads/` gets the backend origin in front, any other is unchanged; the source is always a suffix and the result never starts with `app/uploads/` |
| `VideoPlayer.VideoSrcIdempotent` | frontend/src/components/VideoPlayer.tsx:3-5 | rewriting twice equals rewriting once |
| `VideoPlayer.LegacyUploadPathNotRewritten` | frontend/src/components/VideoPlayer.tsx:3-5 | a path stored by the single-file backend is passed through unchanged |
| `RecorderComponent.Concat` | frontend/src/components/Recorder.tsx:37 | the blob of no chunks is empty, the first chunk begins it, and it is at least as long as every chunk |
| `RecorderComponent.ConcatAppend` | frontend/src/components/Recorder.tsx:34-37 | a chunk pushed last ends the blob |
| `RecorderComponent.ConcatPrefix` | frontend/src/components/Recorder.tsx:34-37 | earlier chunks form the beginning of the blob (arrival order) |
| `RecorderComponent.Mounted` | frontend/src/components/Recorder.tsx:19-20 | on mount there is no recorder, the counter is 0 and no chunk is held |
| `RecorderComponent.Acquired` | frontend/src/components/Recorder.tsx:22-39 | a granted stream installs an inactive recorder with an empty chunk array; the counter is kept |
| `RecorderComponent.StartEnabled` | frontend/src/components/Recorder.tsx:110-124 | Start and Stop are never enabled together; without a recorder both are disabled, with one exactly one of them is enabled (judged on the live recorder state) |
| `RecorderComponent.StopEnabled` | frontend/src/components/Recorder.tsx:119-122 | Stop is enabled exactly when a recorder exists and is recording (judged on the live recorder state) |
| `RecorderComponent.MaxReached` | frontend/src/components/Recorder.tsx:152-160 | the "Maximum recording time reached" caption shows once the counter has reached the maximum |
| `RecorderComponent.CaptionStays` | frontend/src/components/Recorder.tsx:20-52 | nothing lowers the counter, so once the caption shows, ticks, both buttons, new chunks and a re-acquired stream all keep it |
| `RecorderComponent.AfterStart` | frontend/src/components/Recorder.tsx:110-113 | Start works only when a recorder exists and is not recording (live state), and never touches the counter or the chunks |
| `RecorderComponent.ChunkReceived` | frontend/src/components/Recorder.tsx:35 | a chunk is appended and nothing else changes |
| `RecorderComponent.Stopped` | frontend/src/components/Recorder.tsx:36-37 | stopping flushes the last chunk, makes the recorder inactive and hands over all chunks concatenated in order; the counter is kept |
| `RecorderComponent.AfterStop` | frontend/src/components/Recorder.tsx:119-122 | Stop delivers a blob exactly when the recorder is recording (live state); otherwise nothing changes; the counter is kept |
| `RecorderComponent.AfterTick` | frontend/src/components/Recorder.tsx:39-52 | a tick raises the counter by exactly one, stops a recording exactly when the counter reaches the maximum, delivering every chunk so far plus the flushed one as `Stopped` does, and otherwise changes nothing else and delivers nothing; it never leaves a recording at or past the maximum |
| `RecorderComponent.Ticks` | frontend/src/components/Recorder.tsx:39-52 | `n` ticks raise the counter by `n`, keep the recorder, and never start a recording |
| `RecorderComponent.AutoStopDeadline` | frontend/src/components/Recorder.tsx:39-52 | from a recording with the counter below the maximum, `n` ticks raise it by `n`, and the recording lasts exactly until the counter reaches the maximum |
| `RecorderComponent.TicksWhileInactive` | frontend/src/components/Recorder.tsx:39-52 | ticks never start a recording and only raise the counter |
| `RecorderComponent.LateStartStopsAtNextTick` | frontend/src/components/Recorder.tsx:48-52 | a recording started once the maximum is reached is stopped by the next tick and delivers its blob |
| `RecorderComponent.ChunksReceived` | frontend/src/components/Recorder.tsx:35 | chunks arriving in turn are appended in order and nothing else changes |
| `RecorderComponent.LaterBlobExtendsEarlier` | frontend/src/components/Recorder.tsx:34-37 | within one recorder, stop, start again and more chunks: the next stop's blob begins with the earlier stop's blob |
| `RecorderComponent.Recorder.constructor` | frontend/src/components/Recorder.tsx:11-20 | `maxSeconds` is the property or 120 by default; the state is `Mounted` |
| `RecorderComponent.Recorder.Acquire` | frontend/src/components/Recorder.tsx:22-39 | the state becomes `Acquired` of the old one |
| `RecorderComponent.Recorder.ReceiveChunk` | frontend/src/components/Recorder.tsx:35 | the state becomes `ChunkReceived` of the old one |
| `RecorderComponent.Recorder.ClickStart` | frontend/src/components/Recorder.tsx:110-113 | the state becomes `AfterStart` of the old one |
| `RecorderComponent.Recorder.StopRecorder` | frontend/src/components/Recorder.tsx:36-37 | the state and blob are those of `Stopped` |
| `RecorderComponent.Recorder.ClickStop` | frontend/src/components/Recorder.tsx:119-122 | the state and delivered blob are those of `AfterStop` |
| `RecorderComponent.Recorder.Tick` | frontend/src/components/Recorder.tsx:39-52 | the state and delivered blob are those of `AfterTick` with the component's maximum |
| `InviteRecordPage.Initial` | frontend/src/pages/InviteRecord.tsx:30-32 | the page starts idle, with no blob and no error |
| `InviteRecordPage.FailureMessage` | frontend/src/pages/InviteRecord.tsx:82-97 | a non-2xx answer gives "Upload failed: " and the body, or the status text when the body is empty or unreadable; a thrown `Error` keeps its message; anything else thrown gives the connection message |
| `InviteRecordPage.OnStop` | frontend/src/pages/InviteRecord.tsx:52-55 | from any state, stopped with the given blob; the error is untouched |
| `InviteRecordPage.UploadBegun` | frontend/src/pages/InviteRecord.tsx:57-80 | a request is sent exactly when a blob is held; without one the page fails with "No video recorded to upload"; with one it is uploading with the error cleared, posting the blob as `file`, named `<id>.webm`, to the invite's upload URL |
| `InviteRecordPage.UploadFinished` | frontend/src/pages/InviteRecord.tsx:82-98 | ends in `uploaded` exactly for a 2xx answer and in `error` with `FailureMessage` otherwise; the blob is kept |
| `InviteRecordPage.Redone` | frontend/src/pages/InviteRecord.tsx:101-105 | from any state, back to idle with no blob and no error |
| `InviteRecordPage.RecordingStarted` | frontend/src/pages/InviteRecord.tsx:107-111 | from any state, recording with no blob and no error |
| `InviteRecordPage.ErrorDismissed` | frontend/src/pages/InviteRecord.tsx:567-570 | closing the snackbar clears the message only |
| `InviteRecordPage.StatusMessage` | frontend/src/pages/InviteRecord.tsx:113-130 | every state has a non-empty status caption, the text `getStatusMessage` returns for it |
| `InviteRecordPage.StatusMessagesDistinct` | frontend/src/pages/InviteRecord.tsx:113-130 | different states show different status messages |
| `InviteRecordPage.StatusColor` | frontend/src/pages/InviteRecord.tsx:132-149 | red exactly for recording and error, green exactly for stopped and uploaded, info for uploading, secondary for idle |
| `InviteRecordPage.RecorderShown` | frontend/src/pages/InviteRecord.tsx:279-287 | the recorder is rendered in every state except `uploaded` |
| `InviteRecordPage.UploadEnabled` | frontend/src/pages/InviteRecord.tsx:301-307 | the upload button is rendered only in `stopped` and enabled only with a blob |
| `InviteRecordPage.RedoOffered` | frontend/src/pages/InviteRecord.tsx:301-425 | a redo button ("Record Again", "Record New Video", "Try Again") is rendered in `stopped`, `uploaded` and `error` |
| `InviteRecordPage.SnackbarOpen` | frontend/src/pages/InviteRecord.tsx:567-568 | the snackbar is open exactly when a non-empty message is held (`!!uploadError`) |
| `InviteRecordPage.OnEvent` | frontend/src/pages/InviteRecord.tsx:52-105 | a rendered control runs its handler; only an upload click with a blob sends a request, and no other control sets an error |
| `InviteRecordPage.ConsistentPreserved` | frontend/src/pages/InviteRecord.tsx:279-307 | every control the page renders and every upload outcome keep the page out of `recording` and keep a blob in `stopped` and `uploading` |
| `InviteRecordPage.UploadClickSends` | frontend/src/pages/InviteRecord.tsx:301-307 | an upload click the page allows always sends the held blob and moves to `uploading` |
| `InviteRecordPage.UploadedUntilRedo` | frontend/src/pages/InviteRecord.tsx:279-307 | in `uploaded` every offered control but redo keeps the page uploaded and sends nothing |
| `InviteRecordPage.StopUploadSucceed` | frontend/src/pages/InviteRecord.tsx:52-89 | stop, upload and a 2xx answer end in `uploaded` with that blob and no error |
| `InviteRecordPage.FailureIsRecoverable` | frontend/src/pages/InviteRecord.tsx:90-105 | a failed upload ends in `error` with the snackbar open and a redo button that leads back to the initial state |
| `InviteRecordPage.EmptyThrownMessageIsSilent` | frontend/src/pages/InviteRecord.tsx:92-97 | a thrown `Error` with an empty message fails the upload with the snackbar closed |
| `InviteRecordPage.InviteRecord.constructor` | frontend/src/pages/InviteRecord.tsx:29-50 | with a non-empty invite id the page starts in `Initial` |
| `InviteRecordPage.InviteRecord.HandleStop` | frontend/src/pages/InviteRecord.tsx:52-55 | the state becomes `OnStop` of the old one |
| `InviteRecordPage.InviteRecord.BeginUpload` | frontend/src/pages/InviteRecord.tsx:57-80 | state and request are those of `UploadBegun` |
| `InviteRecordPage.InviteRecord.FinishUpload` | frontend/src/pages/InviteRecord.tsx:82-98 | the state becomes `UploadFinished` of the old one |
| `InviteRecordPage.InviteRecord.HandleUpload` | frontend/src/pages/InviteRecord.tsx:57-99 | without a blob the state is that of `UploadBegun` and nothing is sent; otherwise the request of `UploadBegun` is sent and its outcome applied by `UploadFinished` |
| `InviteRecordPage.InviteRecord.HandleRedo` | frontend/src/pages/InviteRecord.tsx:101-105 | the state becomes `Redone` |
| `InviteRecordPage.InviteRecord.HandleStartRecording` | frontend/src/pages/InviteRecord.tsx:107-111 | the state becomes `RecordingStarted` |
| `InviteRecordPage.InviteRecord.DismissError` | frontend/src/pages/InviteRecord.tsx:567-570 | the state becomes `ErrorDismissed` |

## Left out

- The MongoDB repository (`backend/app/repo/mongo.py`): its semantics live in the database's update operators; its tag removal removes every occurrence, unlike the in-memory one.
- The modular backend's wiring, settings, CORS set-up and local file storage (`backend/app/main.py`, `backend/app/storage/`, `backend/app/settings.py`); the stored url is treated as an opaque string passed to `set_video_url`.
- The file write of the single-file upload handler; only its store update and response are modelled.
- `LegacyBackend.Backend.Upload`: requires an invite id without `/`, as a path parameter is; for other strings the joined path could differ from plain concatenation.
- The repository interface and the GraphQL type declaration carry no logic; the resolvers are modelled over the in-memory repository only.
- Aliasing: `get_video` and `add_tag` return the stored objects themselves in Python; the model returns values, so later mutation through such a reference is not captured.
- Asynchrony: every repository call, resolver and handler is modelled as one atomic step; the upload handler is split into the part before the request and the part after it, with the request's outcome as an input.
- Browser machinery: camera and microphone acquisition (its failure leaves the component without a recorder and is not modelled further), the media recorder itself (reduced to an inactive/recording flag), `setInterval` (an explicit `Tick`), the remount the page forces by changing the recorder's `key`, re-running of the acquisition effect when the `onStop` callback changes (the old recorder and a possibly leaked interval are not tracked), the snackbar's auto-hide timer, and all styling.
- The progress bar's percentage, which is floating point.
- `RecorderComponent.StartEnabled`: reads the recorder's live state, while the component computes the Start button's `disabled` at render time; `start()` and `stop()` set no state, so the rendered value is refreshed only at the next render (the next tick at the latest).
- `RecorderComponent.StopEnabled`: reads the recorder's live state in the same way; the rendered Stop button can lag behind it until the next render.
- `RecorderComponent.AfterStart`: a Start clicked after an auto-stop but before the next render is a no-op in the component (the button still shows disabled) and starts the recorder in the model.
- `RecorderComponent.AfterStop`: a Stop clicked after a Start but before the next render is a no-op in the component (the button still shows disabled) and stops the recorder, delivering a blob, in the model.
- `RecorderComponent.Recorder.constructor`: `maxSeconds` is a `nat`; the property is a JavaScript number, and a fractional or negative maximum is not modelled.
- The dashboard, the Apollo client and GraphQL documents (including the client's `removeTag` mutation, which no server resolver implements), routing, theme and the preset tag list.
- The `!id` branch inside the upload handler: it cannot run, because the page renders only an "Invalid Invite" notice without an id; the page is constructed with a non-empty id instead.
