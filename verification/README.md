# Voice relay engine: a verified model

The relay captures voice in some channels of a guild and plays it in others, and
between guilds. This project models its stateful, concurrent parts and proves what
they keep over every run:

- the auto-router: the cascade that chooses off, copy or mix per source (`Routes`),
  the graph and the installs (`Topology`, `Pipelines`), the voice probe
  (`VoiceProbe`), the router that applies a decision one pause and one install at a
  time (`AutoRouter`), and who writes raw into a queue meanwhile (`Handover`,
  `HandoverRun`, `StarRun`);
- the server-deafen controller: its critical sections (`Deafen`), every interleaving
  with timers, PATCH goroutines, Discord and `Close` (`DeafenRuns`), and the
  controller object over every such run (`DeafenDrive`);
- the audio path: the ring (`SourceBuffer`), ownership of pooled buffers
  (`Ownership`), the code that moves them, with every other goroutine free to act
  between any two of its steps (`FramePath`), the list of frames a mixer's tick
  goroutines share (`SharedMixer`), the target cache (`Receiver`) and the
  fixed-point mix (`MixArithmetic`);
- the relay between guilds (`Relay`), and its objects over whole calls (`RelayDrive`);
- the accounting of encrypted frames (`DaveStats`, `DaveStatsRuns`, `DaveSession`),
  and its session objects over whole calls (`DaveDrive`);
- the bindings store (`Store`), the guard in front of channel bindings (`Bindings`)
  and two rate limiters (`Backoff`, `ReadyGuard`).

Objects the program updates in place are classes whose methods are proved against
functions on values; concurrency is a state machine over single statements or
critical sections, and the theorems quantify over every run of it.

## What the code does not keep

Where a promise fails, the model keeps the code and states when the promise holds.

- A speaker in the owner's channel gives the guild-caller pipeline two destinations
  with one channel: the second replaces the first's mixer and sink, so mixing does
  not reach all queues that copying reaches. The star pipeline's hub has the same
  sink problem. Mixing reaches everything exactly when no speaker shares that
  channel (`Pipelines.BuildGuildCaller`, `Pipelines.BuildStar`); what the router
  promises holds for such graphs too.
- The mixer of such a channel is started once per destination (helpers.go:51-84), so
  two tick goroutines share its unguarded list of frames: a PCM buffer can be put
  back twice and another lost (`SharedMixer.ClashRuns`). The buffers are safe
  exactly when no mixer is started twice (`SharedMixer.MixersAreSound`), which is
  again when no speaker shares the owner's channel.
- When such a speaker captures beside the owner bot, a caller of that channel enters
  mixers twice, once through each (`AutoRouter.CallerHeardTwice` is the exact
  condition), and a star writes every raw packet of that channel twice: queues of
  speakers elsewhere have two raw writers (`StarRun.Play` is the exact condition).
- `Service.BindChannel` (service_commands.go:205-218) refuses a channel that the
  owner or another bot of the pool has, which keeps channels exclusive
  (`Bindings.GuardKeepsExclusive`, `Bindings.BuildGuarded`). There are two ways past
  it: a document, which is loaded unchecked (yaml_store.go:157-164,
  `Bindings.DocumentShares`), and a bot bound while another is out of the pool
  (`Bindings.LeavingAndReturningShares`). There is no third:
  `Bindings.SharingBegins` says exactly which call makes two bots share.
- In the middle of an apply a queue can have two raw writers: exactly when a new
  copy source of its destination is visited before the old one, and the visiting
  order is that of a Go map (`AutoRouter.Router.Recompute`). It takes no more than a
  lone caller changing channels (`HandoverRun.Raid`). Outside an apply only shared
  fixed raw targets do that (`AutoRouter.SharedWriters`).
- The skip test for an unchanged user list is set equality exactly when its second
  list names nobody twice (`AutoRouter.SameUsersIsSetEquality`). The voice probe's
  lists never do (`VoiceProbe.EnumerateCallers`), so in use the test is right
  (`VoiceProbe.Route`).
- `Close` of the deafen controller can strand a deafened bot when a timer callback
  has unlocked but not yet entered the wait group (speaker_deafen.go:333-344).
  `DeafenRuns.CloseStrandsNothing` is the exact condition, and
  `DeafenRuns.CloseCanStrand` a run from the start.
- session.go:269-276 wants no frame delegated to a backend without a decryptor. The
  lookup keeps to that, but the backend sees the frame later, and a removal in
  between breaks it (`DaveSession.DelegatedInVain`, `DaveSession.FrameInVain`).
- voice_provider.go:40-45 says the bleed-off engages when the channel is full. It
  needs more frames queued than the channel can hold, so it never does
  (`FramePath.VoiceProvider.ProvideOpusFrame`).
- Five or more full-scale frames overflow the 32-bit mix
  (`MixArithmetic.ExactUpToFourFrames`).
- A bot bound to channel zero is not read back (`Store.ReachableRoundTrip`); no
  command binds to it.
- Deleting a bot's record forgets its spacing too: rejoins are closer than 30 s
  exactly when a report follows so soon after a deletion
  (`Backoff.TooSoonIffForgotten`).

## Assumed of the surroundings

- Discord: a refused PATCH leaves the deaf flag as it was, an accepted one sets it;
  each bot is registered once, with the flag it has. The cache shortcut in front of
  the PATCH is taken as truthful.
- The router is the only setter of a mixer's pause.
- `RLock` excludes writers for as long as it is held; channel operations, atomic
  operations and the listed critical sections are single steps.
- One goroutine ticks a mixer: `FramePath.Audio.Tick` and `Ownership` take a tick's
  list of frames as its own. `SharedMixer` says when that is so.
- Collections of metrics come one after the other. A decrypt session makes its own
  calls in order. Clocks do not go back.
- A source's bots, queues and channels are distinct, as Discord's ids are.

## Model

| member | source | states |
|---|---|---|
| Routes.ComputeRoutes | internal/manager/router/router.go:198-243 | the fixpoint loop ends after at most three passes and yields the closed form for every source and destination |
| Routes.Pass | internal/manager/router/router.go:214-241 | one pass moves modes and marks toward the closed form and never past it; when it changes nothing they are there |
| Routes.VisitDest | internal/manager/router/router.go:215-240 | one destination is marked and its copy sources promoted exactly when it needs its mixer |
| Routes.CountLive | internal/manager/router/router.go:216-225 | the live and mixed entries of a destination are counted, repeats included |
| Routes.PromoteCopies | internal/manager/router/router.go:234-239 | exactly the listed copy sources become mixed |
| Routes.BaselineOf | internal/manager/router/router.go:202-211 | before the cascade a source's mode follows from its channel's caller count alone |
| Routes.SourceClosedForm | internal/manager/router/router.go:198-243 | a source is mixed iff its channel has two callers, or one and some fed destination is relay-fed or has another live source; it is off iff there is no caller |
| Routes.EdgeAgreement | internal/manager/router/router.go:213-242 | a live source is mixed iff each destination it feeds runs its mixer; a destination that does not has at most one live entry |
| Routes.OrderIndependent | internal/manager/router/router.go:213-242 | the result depends on which destinations exist, not on the order they are visited in |
| Topology.UnionOuts | internal/manager/pipeline/install.go:54-59 | copy mode without fixed raw targets writes to the union of the fed destinations' queues |
| Topology.AddUserInputs | internal/manager/pipeline/install.go:87-111 | a mixed user gets one input in each fed destination that has a mixer |
| Topology.BuildPerUserMix | internal/manager/pipeline/install.go:83-122 | the mix install, and a teardown that names exactly the inputs it registered |
| Topology.BuildInstall | internal/manager/pipeline/install.go:48-76 | the install of each mode, its teardown, and the mixers' inputs after it |
| Topology.CopyTouches | internal/manager/pipeline/install.go:53-65 | a copy install writes into a destination's queues iff the source feeds it, and then into all of them |
| Topology.MixReachesFed | internal/manager/pipeline/install.go:83-122 | a mixed user reaches a destination's mixer iff the source feeds it |
| Topology.OneRoute | internal/manager/pipeline/install.go:48-122 | in either live mode a source reaches exactly the destinations it feeds, by exactly one route; the ally callback is set iff the source relays and is in copy mode |
| AutoRouter.Bound | internal/manager/router/router.go:349-362 | binding users keeps the ids they have and gives one to everybody else |
| AutoRouter.BoundFresh | internal/manager/router/router.go:349-362 | new synthetic ids lie above every id given before, so none is reused after pruning, and differ from each other |
| AutoRouter.NeverReused | internal/manager/router/router.go:349-362 | over a whole session no two bindings give out the same id, however sources' ids were pruned in between |
| AutoRouter.SameUserSet | internal/manager/router/router.go:366-380 | the skip test: equal lengths and no element of the second list missing from the first |
| AutoRouter.SameUsersIsSetEquality | internal/manager/router/router.go:366-380 | the skip test is set equality against every duplicate-free list exactly when its second list names nobody twice; only then is no skip wrong |
| AutoRouter.ReinstallKeepsLedger | internal/manager/router/router.go:488-541 | a reinstall keeps all input ids distinct and the mixers' inputs exactly those the teardowns name |
| AutoRouter.WiredAfterReinstall | internal/manager/router/router.go:517-527 | a reinstall publishes the install of the recorded mode and users |
| AutoRouter.CascadeIsCoherent | internal/manager/router/router.go:400-464 | any probe, however stale, yields a decision in which copy and mix never meet at a destination |
| AutoRouter.DecidedByUsers | internal/manager/router/router.go:198-243 | the cascade told by the users listed: off without one, mixed with two, or with one where a destination is relay-fed or another source with a user feeds it, copied otherwise |
| AutoRouter.DestNeeded | internal/manager/router/router.go:213-242 | a destination runs its mixer iff another guild feeds it or a source that ends mixed does |
| AutoRouter.OneCopyPerDest | internal/manager/router/router.go:213-242 | a destination has at most one copy source in any decision |
| AutoRouter.InputsAreActiveUsers | internal/manager/router/router.go:488-541 | relay feeds apart, a mixer's inputs are exactly the ids of the users whose mixed source feeds it |
| AutoRouter.AppliedRoutes | internal/manager/router/router.go:476-543 | once a probe's decision is applied, for every live source and every destination: raw packets touch the destination iff the source feeds it, has no fixed targets, and nothing is mixed there, and then they reach all its queues; a mixed user reaches its mixer iff the source feeds it and it mixes; fixed raw targets are written in both live modes and belong to no destination; the relay callback is set iff the source relays in copy mode |
| AutoRouter.AllyHearsOnce | internal/manager/pipeline/install.go:48-122 | a relaying source is heard by the other guilds through exactly one of its broadcast and a running relay mixer |
| AutoRouter.HeardTwiceIffMixedTwice | internal/manager/router/router.go:488-541 | a user enters a mixer under two ids iff two sources mix it there |
| AutoRouter.CallerHeardTwice | internal/manager/router/router.go:476-543 | once a decision is applied, someone who calls in one channel is heard twice by a destination iff it mixes and two live sources of that channel feed it |
| AutoRouter.SharedWriters | internal/manager/router/router.go:476-543 | outside an apply a queue has two raw writers iff two live sources have it among their fixed raw targets |
| AutoRouter.FollowedShowsHandovers | internal/manager/router/router.go:488-541 | of a history that shows the visits of one apply: a destination's queue has two raw writers at some instant iff a new copy source of it was visited before the old one |
| AutoRouter.DecidedOneCopy | internal/manager/router/router.go:213-242 | any coherent decision has at most one copy source per destination |
| Handover.MeetsWhenHandedOver | internal/manager/router/router.go:488-541 | the same on values, for any graph, two decisions with one copy source per destination, and any order |
| Handover.SettledWriters | internal/manager/router/router.go:488-541 | with one copy source per destination, two sources write raw into a queue iff two live ones share it as a fixed target |
| Handover.InstalledWriters | internal/opus/voice_receiver.go:135-143 | the published installs have two raw writers of a queue iff two sources' modes do |
| HandoverRun.LoneCaller | internal/manager/router/router.go:198-243 | with one caller in all, the only source of its channel copies and every other source is off |
| HandoverRun.Change | internal/manager/router/router.go:408-543 | on any graph and open router: if two sources that are alone in their channels feed a destination with queues, the only caller moving from the one channel to the other can leave its queue with two raw writers for a while |
| HandoverRun.Raid | internal/manager/pipeline/guild_caller.go:30-104 | such a run from the start of a guild-caller raid, for any three speakers in channels of their own, two of them capturing, and any users |
| AutoRouter.InstallIsQuiet | internal/manager/router/router.go:480-486 | an install writes raw into a destination only if the decision leaves its mixer stopped |
| AutoRouter.AppliedIsQuiet | internal/manager/router/router.go:542-567 | when resuming starts, nobody writes raw into the destinations to be resumed |
| AutoRouter.TeardownsDisjoint | internal/manager/pipeline/install.go:113-120 | no two sources registered the same input |
| AutoRouter.OnlyRelayLeft | internal/manager/router/router.go:654-662 | detaching every source leaves only relay inputs |
| AutoRouter.Router.constructor | internal/manager/router/router.go:292-309 | every source off, every mixer unpaused |
| AutoRouter.Router.SetPaused | internal/manager/router/router.go:565 | resuming is safe only when no raw writer uses the queues of any destination on that mixer; the step is added to the observable history |
| AutoRouter.Router.SetDestPaused | internal/manager/router/router.go:553-567 | one direction of pausing, over the destinations in any order, without passing an unsafe instant |
| AutoRouter.Router.BindUsers | internal/manager/router/router.go:571-580 | allocates the ids of a source's users in order |
| AutoRouter.Router.Publish | internal/opus/voice_receiver.go:135-143 | the atomic swap of one source's dispatch is one observable step |
| AutoRouter.Router.Rebuild | internal/manager/router/router.go:512-527 | detach, bind, build and register, as one new slot state |
| AutoRouter.Router.Replace | internal/manager/router/router.go:512-540 | a reinstall, with pruning of absent users' ids |
| AutoRouter.Router.Reinstall | internal/manager/router/router.go:512-540 | a reinstall keeps the router's whole invariant |
| AutoRouter.Router.ApplyInstall | internal/manager/router/router.go:488-541 | a source ends in its decided mode mixing exactly the users present; with the same mode and, when mixing, the same user set, its slot, install, inputs and the history stay as they are |
| AutoRouter.Router.ApplyInstalls | internal/manager/router/router.go:488-541 | the same for every source, in any order of the map; the history shows exactly the visits of that order, one after the other |
| AutoRouter.Router.ApplyModes | internal/manager/router/router.go:476-543 | stop, install, resume: any coherent decision, however stale, is applied through safe instants only; the mixers that run afterwards are exactly those with something to mix and a listener; and the history shows two raw writers of a destination's queue iff a new copy source was visited before the old one |
| AutoRouter.Router.Decide | internal/manager/router/router.go:446-462 | runs the cascade over one probe: a source is off iff no user is listed in its channel, mixed iff two are, or one is and some destination it feeds is relay-fed or fed from elsewhere too |
| AutoRouter.Router.Recompute | internal/manager/router/router.go:408-465 | an open router ends with every source in the mode the listed users call for, mixing exactly them, and with exactly the mixers running that another guild or a mixed source feeds and somebody listens to; its history shows two raw writers exactly at handovers in the wrong order; a closed router is left alone |
| AutoRouter.Router.SetRelayInput | internal/manager/pipeline/helpers.go:122-155 | a relay bridge may attach or detach at any time without disturbing the router's inputs |
| AutoRouter.Router.Silence | internal/manager/router/router.go:654-662 | one source is emptied and detached |
| AutoRouter.Router.SilenceAll | internal/manager/router/router.go:654-662 | every source is emptied and detached, in any order |
| AutoRouter.Router.Close | internal/manager/router/router.go:646-663 | every dispatch is empty and only relay inputs remain |
| AutoRouter.Recomputes | internal/manager/router/router.go:400-465 | after any run of recomputations the last probe is in force |
| AutoRouter.Run | internal/manager/router/router.go:400-465 | over any run of recomputations and a close, no instant lets a running mixer and a copy source write into the same queue |
| VoiceProbe.EnumerateCallers | internal/manager/service.go:434-453 | every user of the channel with the caller role, no bot, each once |
| VoiceProbe.Listeners | internal/manager/service.go:416-429 | every user of the channel that is no bot, each once |
| VoiceProbe.HasListeners | internal/manager/service.go:410-412 | true iff the channel has such a user |
| VoiceProbe.Snapshot | internal/manager/router/router.go:421-460 | every source channel is asked for its callers, every destination with queues for a listener, though the caches change in between |
| VoiceProbe.Route | internal/manager/router/router.go:408-465 | after a recomputation on the caches, by what its channel had when it was asked about: a source is off iff there was no caller, two callers are mixed, and a mixed source mixes exactly the callers |
| Pipelines.GroupByChannel | internal/manager/pipeline/helpers.go:314-322 | a channel's queues are those of its speakers, in order |
| Pipelines.BuildDestinations | internal/manager/pipeline/helpers.go:313-328 | one destination per speaker channel, holding exactly its speakers' queues |
| Pipelines.DeduplicatedCaptures | internal/manager/pipeline/helpers.go:248-260 | exactly the first capturing speaker of each channel, in order |
| Pipelines.CapturedOnce | internal/manager/pipeline/helpers.go:248-260 | no channel is captured twice |
| Pipelines.CapturedAtLeastOnce | internal/manager/pipeline/helpers.go:248-260 | a channel with a capturing speaker is captured |
| Pipelines.BuildSources | internal/manager/pipeline/helpers.go:265-271 | the owner first, then one source per captured channel, all with distinct ids |
| Pipelines.WireSource | internal/manager/pipeline/guild_caller.go:86-92 | a source is wired, both ways, to every destination outside its channel |
| Pipelines.WireAll | internal/manager/pipeline/guild_caller.go:77-104 | wiring every source gives the mix-minus graph |
| Pipelines.MixMinusEdges | internal/manager/pipeline/guild_caller.go:77-104 | feeds and sources are two views of one edge set, which leaves out exactly a source's own channel |
| Pipelines.StartChannelMixers | internal/manager/pipeline/helpers.go:51-85 | the queues a channel's mixer plays into, the last destination with that channel winning; and how many tick goroutines each mixer gets: one each iff no two destinations share a channel |
| Pipelines.StartedOnceIffDistinct | internal/manager/pipeline/helpers.go:51-85 | no mixer is started twice iff no two destinations share a channel |
| Pipelines.BuildGuildCaller | internal/manager/pipeline/guild_caller.go:30-104 | the mix-minus graph, always one the router's claims hold for, with a mixer at every destination, every queue in its place and the relay fed by all; each mixer has one tick goroutine, and mixing reaches whatever copying reaches, each iff no speaker shares the owner's channel; no destination names a source twice and each captured channel has one source beside the owner's |
| Pipelines.GuildCallerMixes | internal/manager/pipeline/guild_caller.go:77-104 | in mix mode each caller of a source enters the mixer of every destination outside its channel, the relay's too, and of no other |
| Pipelines.SharedClashes | internal/manager/pipeline/guild_caller.go:33-38 | a speaker in the owner's channel gives two destinations with one channel and one mixer, and a queue mixing does not reach |
| Pipelines.BuildOneCaller | internal/manager/pipeline/one_caller.go:27-71 | the owner feeds every speaker channel and the relay, each with a mixer and its own queues; always well-formed, with one tick goroutine for each mixer |
| Pipelines.OneCallerMixes | internal/manager/pipeline/one_caller.go:44-71 | in mix mode each caller of the owner's channel enters every mixer |
| Pipelines.Partition | internal/manager/pipeline/star_caller.go:40-50 | hub destinations and raw speaker queues are split by channel |
| Pipelines.WireStar | internal/manager/pipeline/star_caller.go:93-127 | the owner feeds the relay with fixed raw targets, speakers feed the hub |
| Pipelines.BuildStar | internal/manager/pipeline/star_caller.go:36-127 | the star graph, always one the router's claims hold for: its hub and relay, each with a mixer, the hub with exactly the queues of the owner and of speakers in its channel; which sources it has and what each writes and feeds; the hub mixer plays into all hub queues, and has no second tick goroutine, each iff no speaker shares the owner's channel |
| Pipelines.StarMixes | internal/manager/pipeline/star_caller.go:93-127 | in mix mode the owner channel's callers enter the relay's mixer only, all others the hub's only |
| StarRun.Play | internal/manager/pipeline/star_caller.go:93-127 | after any run of recomputations of a star, some queue has two raw writers iff the owner bot and a speaker both capture the owner's channel, somebody calls there, and some speaker is elsewhere |
| StarRun.StarShares | internal/manager/pipeline/star_caller.go:93-127 | the same about the modes a probe decides |
| StarRun.LiveWithCallers | internal/manager/router/router.go:198-243 | a source is live iff its channel has a caller |
| Bindings.Service.BindChannel | internal/manager/service_commands.go:205-218 | binds the channel unless the owner or a bot of the pool other than this one has it; then changes nothing and names the one that has it |
| Bindings.GuardKeepsExclusive | internal/manager/service_commands.go:205-218 | while the pool stays, guarded binds keep a guild's channels exclusive |
| Bindings.SharingBegins | internal/manager/service_commands.go:205-218 | a call makes two bots share a channel iff it binds one of them to the channel of the other, the other is out of the pool, and no bot of the pool has that channel |
| Bindings.SharingBeginsAt | internal/manager/service_commands.go:205-218 | the same at every call of every run |
| Bindings.SharedMeansJoined | internal/manager/service_commands.go:205-218 | two bots share in the end iff they have all along, or such a call joined them and they have since |
| Bindings.LeavingAndReturningShares | internal/manager/service_commands.go:205-218 | it happens when a bot leaves the pool and comes back, for any two bots and any channel |
| Bindings.DocumentShares | internal/store/yaml_store.go:150-164 | and when the document says so, which is loaded as it is |
| Bindings.NobodySharesWithOwner | internal/manager/service_commands.go:205-218 | with exclusive bindings no speaker that joined as bound is in the owner's channel |
| Bindings.BuildGuarded | internal/manager/pipeline/guild_caller.go:30-104 | so in the guild-caller graph mixing reaches all that copying does |
| Deafen.DeafController.ReconcileLocked | internal/manager/speaker_deafen.go:288-313 | drives one member toward its wanted state and says whether to undeafen at once |
| Deafen.DeafController.Observe | internal/manager/speaker_deafen.go:243-279 | every member is observed; returns exactly the members to undeafen now |
| Deafen.DeafController.ApplyAfterDelay | internal/manager/speaker_deafen.go:319-335 | a live timer puts its member in flight for the state wanted now |
| Deafen.DeafController.RecordAnswer | internal/manager/speaker_deafen.go:350-366 | records Discord's answer and reconciles again |
| DeafenDrive.Step | internal/manager/speaker_deafen.go:228-482 | one event of the run below, its controller part done by the controller's own method, whose answers drive the rest |
| DeafenDrive.Drive | internal/manager/speaker_deafen.go:228-482 | over every run the controller object is in the state of the run |
| DeafenRuns.NextKeepsInv | internal/manager/speaker_deafen.go:228-482 | every event of every goroutine keeps the invariant of every bot |
| DeafenRuns.RunKeepsInv | internal/manager/speaker_deafen.go:228-482 | so does every run |
| DeafenRuns.RecordedOk | internal/manager/speaker_deafen.go:350-369 | recording an answer keeps the invariant, a follow-up undeafen included |
| DeafenRuns.ObservedOk | internal/manager/speaker_deafen.go:253-278 | so does an observation, mid-PATCH or not |
| DeafenRuns.NoLostWakeup | internal/manager/speaker_deafen.go:243-379 | in every reachable state neither closed nor disabled, a bot not in its wanted state has a PATCH in flight, a timer, or no budget left, and never a PATCH and a timer at once |
| DeafenRuns.OnePatchInFlight | internal/manager/speaker_deafen.go:319-379 | a bot has exactly one unrecorded PATCH while it is marked in flight, and none otherwise |
| DeafenRuns.ConfirmedIsDiscord | internal/manager/speaker_deafen.go:343-379 | whenever nothing is in flight the confirmed state is Discord's flag |
| DeafenRuns.ObservationIsHonoured | internal/manager/speaker_deafen.go:243-274 | after every observation each bot is wanted in the observed state with a full budget, and is there, in flight or on a timer |
| DeafenRuns.ObserveStarts | internal/manager/speaker_deafen.go:253-278 | an observation starts a PATCH at once iff an idle deafened bot is now capturing and this is no retry, and then it is an undeafen |
| DeafenRuns.UndeafenedAtOnceUnlessRefused | internal/manager/speaker_deafen.go:243-313 | over every run an observation undeafens at once exactly a deafened, idle bot whose channel captures, unless the session is off or Discord's last answer refused just that state and it has been asked for ever since |
| DeafenRuns.TimerStarts | internal/manager/speaker_deafen.go:319-335 | a timer that fires starts a PATCH for the state wanted now iff it is live |
| DeafenRuns.RecordUndeafensAtOnce | internal/manager/speaker_deafen.go:343-369 | recording starts a PATCH iff a deafen was accepted and the bot is meanwhile wanted undeafened, and then the undeafen goes out at once |
| DeafenRuns.FailuresAreRefusals | internal/manager/speaker_deafen.go:243-366 | over every run a bot's failures are the refusals recorded since it was last observed or accepted; one that is where it should be may have its budget back early |
| DeafenRuns.RefusalIsNoted | internal/manager/speaker_deafen.go:343-427 | a permission refusal Discord gives is not forgotten: later in any run its goroutine has it still to note, or everything has stopped |
| DeafenRuns.RefusalStopsAll | internal/manager/speaker_deafen.go:404-427 | once a permission refusal has been noted, for the rest of any run no bot has a timer and no observation, timer or answer starts a PATCH |
| DeafenRuns.WhatStartsAPatch | internal/manager/speaker_deafen.go:252-379 | a deafen starts from a live timer only; a refused state is not asked for again without one |
| DeafenRuns.AtMostThreeBetweenObserves | internal/manager/speaker_deafen.go:207-379 | from one observation to the next a bot gets at most three PATCHes |
| DeafenRuns.SettledMeansWantedOrSpent | internal/manager/speaker_deafen.go:243-379 | with nothing in flight and no timer, Discord has the wanted state, or the budget is spent after at least two PATCHes since the last observation |
| DeafenRuns.CloseStrandsNothing | internal/manager/speaker_deafen.go:429-482 | when the wait ends drained, no later run leaves a bot deafened behind a clean Close iff no deafen sits between its timer's unlock and the wait group |
| DeafenRuns.Stranding | internal/manager/speaker_deafen.go:333-344 | from any state in which one sits there when the wait ends: the run in which Close returns clean, then the deafen is sent and accepted |
| DeafenRuns.GapIsReachable | internal/manager/speaker_deafen.go:319-344 | such a state is reached from the start, with any bot: joined, idle, timer fired, Close begun |
| DeafenRuns.CloseCanStrand | internal/manager/speaker_deafen.go:319-482 | so a run from the start ends with a clean Close and the bot deafened |
| SourceBuffer.Ring.Feed | internal/opus/source.go:57-81 | appends, the oldest going out exactly when three are queued; returns how many were ahead and the buffers put back, and counts one drop per eviction |
| SourceBuffer.Ring.Len | internal/opus/source.go:86-91 | the queue length |
| SourceBuffer.Ring.Pull | internal/opus/source.go:94-105 | removes and returns the oldest frame, or nothing |
| SourceBuffer.Ring.Drain | internal/opus/source.go:108-122 | empties the queue and puts every buffer back, once, in order |
| SourceBuffer.StepDropsOldest | internal/opus/source.go:57-122 | one operation keeps the account of every frame fed |
| SourceBuffer.RingDropsOldest | internal/opus/source.go:57-122 | over every run the frames that left are the first ones fed, in order, each pulled, evicted or drained exactly once, and the rest are the newest three at most |
| SourceBuffer.EvictsOnlyWhenFull | internal/opus/source.go:57-81 | over every run a frame is evicted exactly when another comes in while three are queued, and it is the oldest; otherwise the newcomer just queues up |
| SourceBuffer.Drive | internal/opus/source.go:37-122 | the array ring does over every run what the queue does, with one drop per eviction and the buffers of evicted and drained frames put back |
| Ownership.LegalKeepsValid | internal/opus/mixer.go:57-96 | no step on pools, channels or rings gives a buffer a second owner or loses one, when the goroutine making it holds what it touches |
| Ownership.FeedValid | internal/opus/source.go:57-81 | the same for a feed with eviction |
| Ownership.DrainedValid | internal/opus/source.go:108-122 | the same for a drain |
| Ownership.RingStepsFollowTheQueue | internal/opus/source.go:57-81 | a feed acts on the queue as the ring does and returns the evicted buffers to their pools |
| Ownership.DrainFollowsTheQueue | internal/opus/source.go:108-122 | a drain empties the queue and returns all its buffers |
| Ownership.HandsAfter | internal/opus/mixer.go:63-96 | a step changes its own goroutine's hand by exactly what it gained and gave, and no other hand |
| Ownership.EveryBufferHasOneOwner | internal/opus/mixer.go:57-96 | in every state of every run a buffer is in exactly one place, once, and a PCM buffer is never lost |
| FramePath.Audio.PutPcm | internal/opus/mixer.go:67-69 | only a held PCM buffer is put back; it is in its pool afterwards and not held, and the log grows by it |
| FramePath.Audio.PutEncoded | internal/opus/mixer.go:83-96 | the same for an Opus buffer |
| FramePath.Audio.Pull | internal/opus/source.go:94-105 | takes the head of the queue found in the ring and leaves its tail; on a ring nobody else works on, that queue is what was there |
| FramePath.Audio.Drain | internal/opus/source.go:108-122 | empties a ring and puts back exactly the buffers of the queue found in it, which is what was there if nobody else works on the ring |
| FramePath.Audio.CopyOpusFrame | internal/opus/voice_receiver.go:44-48 | a pooled copy of a held buffer |
| FramePath.Audio.Offer | internal/ally/session.go:73-79 | with room on the channel at that instant, the channel ends with the buffer behind what was queued and nothing is put back; on a full one exactly the buffer is put back, and the channel keeps its queue if nobody else receives from it |
| FramePath.Audio.ToSpeakers | internal/manager/pipeline/helpers.go:56-81 | every destination is offered its own buffer, the last one the packet itself: where there was room the buffer stands behind what was queued, and exactly the refused ones are put back; nothing stays in hand |
| FramePath.Audio.Broadcast | internal/ally/session.go:67-82 | every channel of every other guild, each guild once, is offered its own copy: where there was room it stands behind what was queued, exactly the refused ones are put back, and then the packet |
| FramePath.EverybodyOffered | internal/ally/session.go:67-82 | guild by guild, the channels a sink offers to are all of its channels but those of the excluded guild |
| FramePath.Audio.OwnBuffers | internal/ally/session.go:67-82 | after any number of offers, the destinations that had room and that nobody else receives from hold a buffer each, no two the same |
| FramePath.Audio.Emit | internal/opus/mixer.go:525-533 | the packet reaches all destinations of the sink as above, or goes back to its pool without one |
| FramePath.Audio.DispatchFanout | internal/opus/voice_receiver.go:315-374 | raw targets, relay and rings each get their own copies, and what was sent or fed is there afterwards where nobody else takes it; only a closing receiver stops early, with nothing in hand |
| FramePath.Audio.ToTargets | internal/opus/voice_receiver.go:323-339 | every raw target is offered one buffer unless the receiver closes; where there was room it stands behind what was queued, and exactly the refused ones are put back |
| FramePath.Audio.Feed | internal/opus/source.go:57-81 | a frame goes behind what the ring held, the oldest going out of a full one |
| FramePath.Audio.FeedAll | internal/opus/voice_receiver.go:358-370 | every ring is fed one frame of its own PCM and Opus buffers, and a ring nobody else works on then holds exactly what was fed to it on top of what it held |
| FramePath.Audio.BridgePacket | internal/manager/pipeline/helpers.go:161-181 | every relay ring gets its own copies, and the one inbound buffer received goes back on every path; a queued packet is not passed over |
| FramePath.Audio.CollectFrames | internal/opus/mixer.go:412-441 | looks at every ring once, in order: takes its head, or everything when paused; the queue it finds is the ring's; returns exactly the heads with samples, and puts back exactly the buffers of the rest |
| FramePath.Audio.RecyclePcm | internal/opus/mixer.go:446-450 | puts back the frames' PCM buffers, each once, in order |
| FramePath.Audio.LeaveOpus | internal/opus/mixer.go:384-389 | the Opus copies of mixed frames go to the collector |
| FramePath.Audio.MixAndEncode | internal/opus/mixer.go:480-523 | reads every PCM buffer, then puts back exactly these, once, on the error path too |
| FramePath.Audio.PlayFrames | internal/opus/mixer.go:374-389 | a lone frame's packet goes to the sink as it is, several are mixed; their PCM buffers go back, each once, and of the Opus ones exactly what the sink puts back |
| FramePath.Audio.Tick | internal/opus/mixer.go:350-390 | a tick takes the head of every ring, or everything when paused; in every branch the PCM buffers put back are exactly those of the frames taken, each once; nothing stays in hand; if there is something to play the sink gets it, once: the lone frame's packet or the mix is offered to every destination and stands where there was room |
| FramePath.MixedOrNot | internal/opus/mixer.go:412-450 | silent or mixed, every PCM buffer taken is accounted for once |
| SharedMixer.OneIsSound | internal/opus/mixer.go:350-450 | with one tick goroutine, over every run of its statements, no frame taken is lost or put back twice |
| SharedMixer.ClashRuns | internal/opus/mixer.go:350-450 | with two, a run in which one frame is put back twice and another never |
| SharedMixer.SoundIffAlone | internal/opus/mixer.go:350-450 | a mixer's buffers are safe in every interleaving iff it has at most one tick goroutine |
| SharedMixer.MixersAreSound | internal/manager/pipeline/helpers.go:51-85 | all mixers a pipeline starts are safe iff none is started twice |
| FramePath.VoiceProvider.ProvideOpusFrame | internal/opus/voice_provider.go:55-110 | the previous frame is put back once, of the frames received all but the last go back too, and the last is returned and stays held; with a frame queued and the provider open there is one; the only consumer of a channel drops one frame past the soft threshold, down to it past the hard one, and on a channel no longer than the threshold nothing is ever dropped |
| FramePath.VoiceProvider.DiscardFrame | internal/opus/voice_provider.go:115-126 | true iff a frame was queued; exactly that frame is taken and put back |
| Receiver.VoiceReceiver.TargetsAndDecoder | internal/opus/voice_receiver.go:272-305 | the cached lookup always agrees with the installed table; speakers never share a decoder and keep theirs |
| Receiver.VoiceReceiver.CleanupUser | internal/opus/voice_receiver.go:401-412 | drops one speaker's decoder and the cache entry about it |
| MixArithmetic.Scale | internal/opus/mixer.go:508 | the largest integer whose square times the frame count is within 2^30 |
| MixArithmetic.Clamp16 | internal/opus/mixer.go:509-511 | the 16-bit value nearest to the sample, so one in range is kept |
| MixArithmetic.AddFrame | internal/opus/mixer.go:488-496 | the unrolled loop adds each sample once, in 32 bits |
| MixArithmetic.Accumulate | internal/opus/mixer.go:480-496 | the accumulator holds the column sums modulo 2^32 |
| MixArithmetic.Mix | internal/opus/mixer.go:480-511 | every output sample is the 32-bit formula, and for up to four full-range frames the exact attenuated sum |
| MixArithmetic.FirstScales | internal/opus/mixer.go:501-508 | the attenuations for one to five frames |
| MixArithmetic.FourFit | internal/opus/mixer.go:480-511 | up to four full-range frames neither sum nor product leaves 32 bits |
| MixArithmetic.ProductPasses | internal/opus/mixer.go:508-510 | from five frames on a full-scale product passes 2^31 |
| MixArithmetic.Overflowing | internal/opus/mixer.go:508-510 | five or more frames: an input the loop accepts on which the 32-bit and the exact mix differ |
| MixArithmetic.ExactUpToFourFrames | internal/opus/mixer.go:480-511 | the 32-bit mix is exact for every input iff there are at most four frames (or so many that the scale is zero) |
| RelayDrive.CapturingIsMarked | internal/ally/session.go:103-188 | over every sequence of calls a guild counts as capturing, or as watching, iff its last mark, or watch, is newer than its last departure |
| RelayDrive.PeersAreMarked | internal/ally/session.go:117-138 | so a guild has capturing peers iff that holds of some other guild |
| RelayDrive.RegisterRun | internal/manager/pipeline/helpers.go:198-204 | what the statements of a registration, run in a row, amount to |
| RelayDrive.RegisterLists | internal/manager/pipeline/helpers.go:198-204 | after a whole registration a guild holds as many new channels as asked for and, with some or as a guest that attaches, is in the table with them |
| RelayDrive.ClosesRun | internal/manager/pipeline/helpers.go:208-222 | and those of a teardown |
| RelayDrive.Drive | internal/ally/session.go:103-188 | over every sequence of whole calls the session and the host's inputs are in the state of the state machine, and the channels they closed are the ones it closed |
| Relay.Session.HasCapturingPeers | internal/ally/session.go:129-138 | true iff some other guild captures |
| Relay.Session.GuestGuildIDs | internal/ally/session.go:192-200 | lists every guest once |
| Relay.HostRelayInputs.Register | internal/manager/pipeline/helpers.go:198-204 | registers the channels made unless closed, when it adds nothing |
| Relay.HostRelayInputs.Close | internal/manager/pipeline/helpers.go:208-222 | detaches, then closes every channel once; nothing the second time |
| Relay.NextKeepsInv | internal/ally/session.go:48-188 | every statement of every broadcast, registration and teardown keeps the invariant |
| Relay.RegisteredIsListed | internal/ally/session.go:103-188 | over every run a guild that has finished registering channels and not begun to close is in the broadcast table with exactly those, and the guests are the guilds in the table but the host |
| Relay.BroadcastReachesAll | internal/ally/session.go:67-100 | in every interleaving a broadcast that runs from its start to its end sends exactly once on each channel of each guild in the table but the excluded one, so on each channel of every other registered guild |
| Relay.NoSendOnClosed | internal/ally/session.go:54-82 | in every interleaving no broadcast sends on a closed channel and no channel is closed twice |
| Relay.ClosedLeaksNothing | internal/manager/pipeline/helpers.go:188-222 | a host that has finished closing is detached and every channel ever made for it is closed |
| Relay.LeftLeaksNothing | internal/manager/voice_raid.go:191-207 | a guest that has left has no channel open |
| Relay.LateRegisterAddsNothing | internal/manager/pipeline/helpers.go:198-222 | once closed, whatever runs later adds no channel and no guild |
| DaveStats.Stats.Lookup | internal/dave/stats.go:277-293 | returns the series' counter, a new one at zero on first use |
| DaveStats.Stats.Record | internal/dave/stats.go:178-185 | counting a frame raises what its series would export by one and no other series |
| DaveStats.Stats.Totals | internal/dave/stats.go:295-341 | each exported total is the retired count plus the live counters of the series |
| DaveStats.Stats.EvictRetired | internal/dave/stats.go:357-371 | exactly the retiring senders' counters go, and no total moves |
| DaveStats.RetiringIsReleased | internal/dave/stats.go:245-275 | over every run a sender is held as often as holds are left, and is to be evicted exactly from the release of its last hold up to the next hold or collection |
| DaveStats.Drive | internal/dave/stats.go:178-371 | one caller's run: every collection exports exactly the frames counted so far in each series, however often senders come, go and are evicted; a series has a counter exactly from its first frame up to the collection after its sender's last release |
| DaveStatsRuns.NextKept | internal/dave/stats.go:178-371 | one step of any goroutine keeps the account of a series and does not lower its export |
| DaveStatsRuns.NothingElseIsLost | internal/dave/stats.go:178-371 | in every run, increments made are live, retired, or landed on an evicted counter |
| DaveStatsRuns.FramesAreCounted | internal/dave/stats.go:178-293 | whatever goes on between a lookup and its increment, the increment counts once, in the series looked up and in no other |
| DaveStatsRuns.HoldsAreCounted | internal/dave/stats.go:245-269 | a keep raises the sender's holds and takes it off the list to be evicted, the release of the last hold puts it there |
| DaveStatsRuns.EvictionIsComplete | internal/dave/stats.go:357-371 | an eviction that runs to its end removes exactly the counters of the senders to be evicted when it began |
| DaveStatsRuns.ExportsNeverDecrease | internal/dave/stats.go:295-371 | over every run an exported total never goes down and never disappears |
| DaveStatsRuns.ExportsAreFresh | internal/dave/stats.go:295-353 | a finished collection exports at least everything counted before it began, whatever lands meanwhile |
| DaveStatsRuns.ExportsAreCounted | internal/dave/stats.go:295-353 | an export never exceeds what was counted |
| DaveSession.CountingSession.AddUser | internal/dave/session.go:277-283 | takes one hold however often the add repeats |
| DaveSession.CountingSession.RemoveUser | internal/dave/session.go:285-291 | releases the hold once |
| DaveSession.DelegatedInVain | internal/dave/session.go:199-218 | a frame meets a backend without a decryptor for its sender iff, between its lookup and the backend, the session removed the sender and did not add it again |
| DaveSession.BackendLoses | internal/dave/session.go:277-291 | over any run the backend has lost a decryptor iff the session removed it and did not add it again |
| DaveSession.FrameInVain | internal/dave/session.go:199-291 | it happens whenever a known user leaves while one of its frames is on the way |
| DaveSession.AddedIsKnown | internal/dave/session.go:277-283 | and an added user is known, with a decryptor |
| DaveSession.HoldersCountSessions | internal/dave/session.go:277-333 | between calls, holds equal the number of sessions that know the user |
| DaveSession.HeldIsNotRetiring | internal/dave/stats.go:245-269 | a user any session holds is never retiring |
| DaveSession.ReleasesAreHeld | internal/dave/session.go:285-291 | a release always has a hold to release |
| DaveSession.KnownHaveDecryptors | internal/dave/session.go:269-291 | at every step inside adds and removes, known users have a decryptor |
| DaveDrive.AddRun | internal/dave/session.go:277-283 | the statements of an add run in a row: the backend has the user, it is known, and it is held once if it was not known |
| DaveDrive.RemoveRun | internal/dave/session.go:285-291 | those of a removal: not known, released if it was, and out of the backend |
| DaveDrive.FrameRun | internal/dave/session.go:199-218 | those of a frame: it is on its way to the backend in between iff its sender is known, and nothing changes in the end |
| DaveDrive.CallsSettle | internal/dave/session.go:199-333 | over every sequence of calls a session knows exactly the users its last word on whom was an add, and its backend has exactly their decryptors |
| DaveDrive.Drive | internal/dave/session.go:199-333 | over every sequence of calls on any number of session objects and their shared counters: the objects are in the state of the state machine; a sender's holds are the sessions whose last word on it was an add; a frame is delegated iff its session's last word on its sender was an add, and otherwise dropped iff the group is encrypted |
| Store.YamlStore.constructor | internal/store/yaml_store.go:142-176 | reading a document puts every entry in its map |
| Store.YamlStore.LoadChannels | internal/store/yaml_store.go:157-164 | zero channels are skipped, disabled flags are not |
| Store.YamlStore.Save | internal/store/yaml_store.go:180-241 | the document's guilds are strictly ascending, each mentioned guild is listed once with exactly its bindings, whatever order the maps are walked in |
| Store.YamlStore.Group | internal/store/yaml_store.go:182-222 | the maps regrouped by guild, disabled but unbound speakers included |
| Store.SortedIds | internal/store/yaml_store.go:224-237 | the guild ids in ascending order |
| Store.ReadBack | internal/store/yaml_store.go:142-241 | reading a document back gives the store without zero channels and empty texts |
| Store.RoundTrip | internal/store/yaml_store.go:142-241 | the round trip keeps a store iff it has no zero channel, no empty code and no empty locale |
| Store.LoadedTextsKept | internal/store/yaml_store.go:142-176 | a loaded store has no empty text and no zero channel |
| Store.MutatorsKeepTexts | internal/store/yaml_store.go:298-400 | over every run of the mutators on a store opened from any document no code or locale is empty, and no two guilds share a code iff the document's did not |
| Store.LastBindWins | internal/store/yaml_store.go:298-310 | a bot's channel is what the last operation on it said, whatever else was done |
| Store.LastRoleWins | internal/store/yaml_store.go:319-331 | the same for a role |
| Store.LastLocaleWins | internal/store/yaml_store.go:359-375 | for a locale, the empty one clearing it |
| Store.LastDisabledWins | internal/store/yaml_store.go:384-393 | and for a disabled speaker |
| Store.CodesStay | internal/store/yaml_store.go:340-350 | a code once given stays |
| Store.ReachableRoundTrip | internal/store/yaml_store.go:142-400 | a store the mutators can reach from any document round-trips iff no bot was last bound to channel zero |
| Store.NoneLastZeroIs | internal/store/yaml_store.go:298-310 | which holds iff no channel in the store is zero |
| Store.NoZeroBinds | internal/store/yaml_store.go:298-310 | and always, when nobody binds to channel zero |
| Store.Drive | internal/store/yaml_store.go:142-400 | one life of a store object: opened from a document, used and saved, its new document has the last word on every key, and the next life starts where this one ended iff no bot was last bound to channel zero |
| Store.FirstUnusedIsUnused | internal/store/store.go:77-88 | the chosen code is an unused draw, and there is none only when every draw is used |
| Store.YamlStore.GetOrCreateAllyCode | internal/store/yaml_store.go:340-350 | returns the guild's code, made once; a guild without one gets an unused draw whenever there is one |
| Backoff.StallBackoff.Report | internal/manager/voice_raid_reconnect.go:104-119 | records a report and says whether to rejoin |
| Backoff.Drive | internal/manager/voice_raid_reconnect.go:104-125 | over every run of reports and deletions, for any number of bots, the limiter answers as each bot's history says |
| Backoff.ReportKeepsConsistent | internal/manager/voice_raid_reconnect.go:104-119 | one report keeps the spacing of all rejoins |
| Backoff.RejoinsExactly | internal/manager/voice_raid_reconnect.go:104-125 | over every run a report rejoins iff it is the bot's first since the last deletion, or five minutes after the one before, or the wait Gap(k) after the kth rejoin of its episode is over; the first two begin a new episode |
| Backoff.RejoinsAreSpaced | internal/manager/voice_raid_reconnect.go:76-125 | over every run of reports and deletions: since its record was last deleted a bot's rejoins are at least 30 s apart, the kth gap of an episode is at least Gap(k), and the delay stays within both bounds |
| Backoff.TooSoonOnlyAcrossADeletion | internal/manager/voice_raid_reconnect.go:104-125 | two rejoins of a bot are closer than 30 s only if its record was deleted in between |
| Backoff.TooSoonIffForgotten | internal/manager/voice_raid_reconnect.go:104-125 | a run has two rejoins of a bot closer than 30 s iff the bot reports within 30 s of a rejoin with its record deleted in between |
| Backoff.DeletionForgets | internal/manager/voice_raid_reconnect.go:121-125 | right after a deletion any report rejoins |
| Backoff.GapIsDoubling | internal/manager/voice_raid_reconnect.go:81-84 | Gap(k) is min(30 s * 2^(k-1), 5 min) |
| Backoff.StartingOverShortensNothing | internal/manager/voice_raid_reconnect.go:92-110 | when the record starts over, the pending wait has already run out |
| Backoff.NeverStarved | internal/manager/voice_raid_reconnect.go:104-119 | a report five minutes after the last rejoin always rejoins |
| ReadyGuard.Guard.Filter | internal/bot/ready_guard.go:37-42 | the in-place filter keeps exactly the recent times, in order |
| ReadyGuard.Guard.Append | internal/bot/ready_guard.go:43 | appends in the same array while there is room |
| ReadyGuard.Guard.Admit | internal/bot/ready_guard.go:31-52 | admits iff at most five are in the window; trips on the first refusal of a storm |
| ReadyGuard.Feed | internal/bot/ready_guard.go:31-52 | over every run the guard admits and trips as specified, tripping once per storm |
| ReadyGuard.SeenIsTheWindow | internal/bot/ready_guard.go:35-43 | with a nondecreasing clock the list is exactly the READYs inside the window |
| ReadyGuard.AdmitsIffFew | internal/bot/ready_guard.go:31-52 | with a nondecreasing clock a READY is admitted iff at most five, it included, came in the ten minutes that end with it |
| ReadyGuard.AtMostFivePerWindow | internal/bot/ready_guard.go:31-52 | no ten-minute window has more than five admitted READYs |

## Left out

- Discord calls, gateways, voice handshakes, libdave and the Opus codec: their answers are parameters or nondeterministic choices.
- Telemetry, logging, tracing, configuration, setup screens and slash commands.
- The drain watcher: its pause flag can be stale after the router pauses again, so the router's claims assume it away.
- A recomputation that straddles `Close`: `applyModes` does not look at `closed` again, so nothing is claimed for it.
- A packet already being dispatched under a replaced install, and a tick that read its mixer's pause flag before the flag was set: both may still write once. `AutoRouter` speaks of the published installs and flags.
- Debounce and scheduled timers of the router, and the capture notification after an apply.
- Slots and mixers are values in the router's maps and not objects of their own. The router's map keeps one destination per channel; the model visits all of them, which decides and does the same because they are fed alike.
- AutoRouter.BoundFresh: ids are distinct as long as fewer than 2^63 were given out in a session, because the counter shares the word with the marker bit.
- The exact length of the deafen delay: a stale timer callback can consume a newer arm, so a deafen is shown to come through a timer, not after the full delay.
- FramePath.Audio.Tick: buffers are tracked by identity, not by content; `MixArithmetic` treats the samples.
- FramePath.Audio.ToSpeakers: where another goroutine receives from a destination's channel meanwhile, only the account of the refused buffers is claimed, because what was sent may be gone again. The same holds of `Broadcast`, `ToTargets` and, for rings others work on, `FeedAll`.
- FramePath.Audio.DispatchFanout: the packet and channel lengths feed no decision beyond the ones shown, and the recorded metrics are left out.
- MixArithmetic.Scale: the scale is the exact floor of 2^15 / sqrt(n); the rounding of the floating-point square root is not modelled.
- The mixer's tick schedule, idle time, the count of frames a paused mixer discards, and the rebuilding of its input snapshot.
- The notifications of the relay's observers run elsewhere; the model says only who is notified.
- RelayDrive.Drive: whole calls one after the other; how their statements interleave is `Relay`'s part. DaveDrive.Drive likewise, beside `DaveSession`.
- SharedMixer: the list's backing array stays where it is; growing it past its capacity moves it.
- The registry of sessions (`ally.Manager`), and guest teardown beyond the order of detaching and closing.
- Health buckets, encrypt counters, talk-spurt positions and the encrypt-stall callback of the frame accounting.
- A session dropped without removing its users keeps its holds; the code relies on the gateway's removals too.
- Store.YamlStore.Save: stops at the document; its text, the temporary file, sync and rename are not modelled, nor is the debounced flush.
- Store.YamlStore.GetOrCreateAllyCode: random codes are a given finite list of draws, because drawing until an unused code comes up has no bound.
