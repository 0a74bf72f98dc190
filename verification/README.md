# throcc's state machines, modelled and proved

throcc is an end-to-end encrypted voice and screen-share system. Its hardest code sits in state
machines without I/O, driven by explicit arguments. This project models them in Dafny and proves
what each is for. `dafny verify dfyconfig.toml` checks everything.

Where the code updates things step by step, the model is a class or a method with the code's own
fields, branches and loops. Such a class has a specification beside it: a datatype, and functions
that say what each operation does to it, mostly as comprehensions and minima where the class has
loops, indexes and caches. Each method's `ensures` ties the class to those functions, and the
theorems are about the functions: over whole runs, over every interleaving, or against an
independent definition. So that no function is measured only by itself, what each operation comes
to is also stated without them, on the fields a caller sees: who is trusted and who is sent what,
which unit a fragment joins, when a warning stands, what a bucket holds at the next call.

| component | specification | theorems | class |
|---|---|---|---|
| Video queues of a receiver | `VideoModel`: one list of units by id, and its history | `VideoInvariants`, `VideoTheorems`, `VideoFragments`, `VideoBudget` | `Egress.Queues`, with the invariant `EgressIndex.IsGood` over its indexes |
| Audio queues | `AudioModel` | `AudioModel`, `AudioEgress` | `AudioEgress.AudioQueues` |
| Key manager | `KeyModel` | `KeyInvariants`, `KeyTheorems`, `KeyRuns`, `KeyFloors`, `KeyTrust`, `KeyLaws`, `KeyGrace` | `KeyManaging.KeyManager`, with `KeyLoops` |
| Epoch floors and their file | `FloorsFile.World`: any number of clones and loads | `FloorsFile` | `FloorsFile.EpochFloors`, `FloorsFile.ServersFile` |
| One room, its server and its clients' key managers | `NetModel.Net` | `NetSafety`, `NetArrival`, `NetRuns`, `NetRest`, `NetTracks`, `NetSecrets`, `NetMesh`, `NetPrompt`, `NetDrain`, `NetLate`; `NetHub` ties the room to the hub's | the key manager above |
| Hub | `HubModel` | `HubInvariants`, `HubSteps`, `HubRuns`, `HubEpochs`, `HubIds`, `HubForwarding`, `HubLaws` | `Hubs.Hub`, `Hubs.Database`, with `HubLoops` |
| Reorder buffer | `ReorderModel` | `ReorderModel` | `Reordering.Reorder` |
| Verified keys | `VerifiedModel`: writing at once, and putting off | `VerifiedModel`, `VerifiedWarnings` | `VerifiedStore.VerifiedKeys` |
| Calendar | `Calendar`: counting days one by one | `Calendar` | none, the code is an expression |
| Token buckets, audio policer | `BucketModel`, `PolicerModel`: every bucket kept for ever | the same modules, `BucketLaw`, `PolicerLaw` | `Limits.Buckets`, `Policing.AudioPolicer` |
| Admission gate | `GateModel` | `GateModel` | `Gates.Gate` |
| Invite runs | `InviteModel` | `InviteModel` | `Enrollments.InviteRuns`, `Enrollments.Enrolling` |

How to read the model:

- Cryptography is abstract. A secret of user `u` is `Secret(u, n)` with a serial number, so two
  secrets are equal only if they are the same one. A wrap is a record of the secret, both
  encryption keys and the context, and unwraps exactly when keys and context match. A track key
  is the pair of secret and media id. HPKE refuses the public keys in a set `weak` fixed in
  advance.
- A time is an integer count of nanoseconds and doesn't fall. Bucket levels are reals where the
  code has `f64`. Widths are written out where they matter: media ids, epochs and fragment
  numbers stop at `u32::MAX`.
- What the database, the clock, permissions, passwords and rate limits decide is a parameter:
  `Luck` says whether each database write of a step succeeds, `allowed` and `hasKey` stand for
  the rest.
- `Net` is one room of the server, with one link for each client: requests on their way up,
  messages on their way down in order, and the answer to a join or leave, which another part of the
  client takes in at any point among those messages. A kick is an event as well, but the session acts
  on it, any time after the keys have seen the events around it, and not while it waits for the
  answer to a join (crates/throcc-client-core/src/session.rs:497-517 and 1060-1063). The server may
  refuse any request of a client for its rate. Any interleaving of entering, leaving, kicking, losing
  the connection, accepting, refusing, handing on, delivering, answering and acting on kicks is a run.

What turned out to hold only in part:

- A room's epoch does not always tell its members. Whoever must leave is taken out even when the
  epoch cannot be moved: `leave_room` falls back to that when the database fails or the epoch is
  exhausted. A restart empties the rooms at the epochs they had. `HubEpochs.Smooth` is the guard of
  those branches, `HubEpochs.RisesExactly` and `HubEpochs.EpochsTellMembers` prove that the property
  holds of an operation and of a run if and only if they are smooth, and
  `HubEpochs.OneEpochTwoMemberSets` is a run from an empty server that breaks it.
- Not every member hears every other once all is delivered. A kick that a client acts on after the
  server let it in again puts it out of a room that it is a member of, and joining once more does not
  help: it took part in that epoch, so its floor refuses every key of it. A client let in while it
  still takes itself to be in the room may have the answer overtaken by a newer room state, and then
  keeps the tracks of its last membership. And a publish that the server refuses for its rate is not
  sent again until there is a new secret. `NetMesh.HeardExactly` says for every run who hears whom:
  those who `Listens` holds of hear those who `Speaks` holds of, and nobody else does.
  `NetPrompt.IsPrompt` is the guard on moves under which all members do, and
  `NetLate.OneHearsNobody` is a run of two people that breaks it.
- `enforce_budget` looks only at the first waiting unit, which is enough as long as times don't
  fall: then the first one waits longest.
- An invite is not refused by the clock once a run has claimed it: the run reads the clock before the
  claim and enrolls by that time, so it succeeds while the invite is still stored, however long the
  exchange took (`InviteModel.EnrolledExactly`, crates/throcc-server/src/auth.rs:121-142).
- The cap on queued bytes can cost a started unit, but only with nothing waiting and the
  started units alone over it.

## Model

| member | source | states |
|---|---|---|
| AudioModel.ServedWithinItsTurn | crates/throcc-server/src/egress.rs:184-195 | While nothing is evicted, and whatever is pushed meanwhile, the track at place i of the turns is served by pop number i, with the packet that is its oldest now |
| AudioModel.LongestIsAtLeastAverage | crates/throcc-server/src/egress.rs:173-182 | Pigeonhole: a track holding less than the average of all queues never is the longest one, so it never makes room for another |
| AudioModel.EnqueueIsFair | crates/throcc-server/src/egress.rs:158-171 | Pushing keeps one turn for each non-empty track and none for others, and adds one packet in all |
| AudioModel.EvictIsFair | crates/throcc-server/src/egress.rs:173-182 | Evicting keeps the same and removes one packet in all, also where it empties the queue |
| AudioModel.PopIsFair | crates/throcc-server/src/egress.rs:184-195 | So does serving a track, which goes to the back of the turns while it holds packets |
| AudioEgress.PushConserves | crates/throcc-server/src/egress.rs:158-171 | On every track, what was pushed stays what left, in order, followed by what is queued |
| AudioEgress.DepartureConserves | crates/throcc-server/src/egress.rs:173-195 | The same when a packet is served or evicted: on every track only the oldest one leaves |
| AudioEgress.AudioQueues.Push | crates/throcc-server/src/egress.rs:158-171 | Evicts exactly when the cap is reached, from a longest queue, its oldest packet; then appends. The class keeps `len` as the sum of its queues, within the cap, and packets conserved |
| AudioEgress.AudioQueues.EvictFromLongest | crates/throcc-server/src/egress.rs:173-182 | Whichever longest queue is picked, its oldest packet leaves, and its turn with the last one |
| AudioEgress.AudioQueues.Pop | crates/throcc-server/src/egress.rs:184-195 | Serves the track whose turn it is; nothing exactly when nothing is queued |
| VideoTheorems.RunsKeepInv | crates/throcc-server/src/egress.rs:239-350 | After any run of pushes, losses, budgets, pops and forgetting: every started unit is older than every waiting one, waiting units hold packets, each `Queued` fate names a queued unit of that track and start, and no history outgrows its bound |
| VideoTheorems.UnitsFlowInOrder | crates/throcc-server/src/egress.rs:239-302 | Along any run each unit serves its packets in the order they came, none skipped or twice; while it is queued, what it was given is what it served followed by what it holds; once gone it serves nothing and never comes back |
| VideoTheorems.BudgetIsMet | crates/throcc-server/src/egress.rs:355-370 | At the end of any run with times that do not fall, no waiting unit at all is over the budget, though only the first is looked at, and queued bytes are within their cap |
| VideoTheorems.FirstWaitedLongest | crates/throcc-server/src/egress.rs:421-425 | Why looking at the first is enough: ids are in the order of arrival |
| VideoTheorems.BudgetDropsStartedLast | crates/throcc-server/src/egress.rs:355-370 | A started unit that is not idle is dropped only once nothing waits any more and the started units alone are over the byte cap |
| VideoTheorems.BudgetDropsWholeUnits | crates/throcc-server/src/egress.rs:352-370 | Whatever the budget leaves is exactly as it was: units go whole |
| VideoTheorems.RunsKeepArrivals | crates/throcc-server/src/egress.rs:239-310 | Units stand in the order of their arrival times, over any run |
| VideoTheorems.OverdueSparesStarted | crates/throcc-server/src/egress.rs:355-363 | Units over the time budget are dropped without touching a started one |
| VideoFragments.StartIsClosest | crates/throcc-server/src/egress.rs:256-271 | A fragment is looked up under the closest remembered start at or below its number, and under none exactly if all are after it |
| VideoFragments.FirstOpensUnit | crates/throcc-server/src/egress.rs:246-269 | A first fragment opens a unit behind all others, a copy exactly if its start is remembered and not dropped, and takes a dropped one back from the count |
| VideoFragments.FragmentJoins | crates/throcc-server/src/egress.rs:266-301 | What becomes of any other: onto the end of the queued unit at that start, or that unit goes if it has all it may have; a unit of its own if it was sent; nowhere if it was dropped |
| VideoFragments.FragmentIsLost | crates/throcc-server/src/egress.rs:266-301 | With every remembered start after it, a fragment is let go |
| VideoFragments.UnitsTakeTheirOwn | crates/throcc-server/src/egress.rs:237-302 | In any run, every packet a unit takes after the one it came with is of its track, numbered after its first fragment and before every later start remembered by then |
| VideoFragments.LossTakesItsUnit | crates/throcc-server/src/egress.rs:312-350 | A lost fragment takes the unit at the closest start out, whole and alone, and its start counts as dropped; of a sent unit the start becomes a dropped one |
| VideoFragments.LossIsNoted | crates/throcc-server/src/egress.rs:312-350 | A loss before every remembered start, or of a start not remembered, goes down as a dropped unit that begins there |
| VideoFragments.LostUnitsAreNotServed | crates/throcc-server/src/egress.rs:312-350 | After a loss its unit gives no packet in any run |
| VideoFragments.DropCounts | crates/throcc-server/src/egress.rs:399-416 | A dropped unit adds one to the count exactly if it is no stray and no copy and no copy of it is queued; else one of its copies counts in its place |
| VideoFragments.ServingTakesTheOldest | crates/throcc-server/src/egress.rs:486-518 | Which packet is served, what starts and leaves with it, and when that counts as forwarding |
| VideoInvariants.NewestKeepsNewest | crates/throcc-server/src/egress.rs:533-538 | Of the starts of a track the newest 32 are kept |
| VideoBudget.WaitingUnitsGoInOrder | crates/throcc-server/src/egress.rs:352-397 | The budget never drops a waiting unit and leaves one that has to go first: strays before others, then the one that came first |
| VideoBudget.StartedUnitsGoInOrder | crates/throcc-server/src/egress.rs:364-370 | Nor a started unit that holds packets before one that came earlier |
| VideoBudget.OnlyTheOverdueGo | crates/throcc-server/src/egress.rs:355-363 | For the time alone, a waiting unit that is no stray goes only if it has waited too long itself |
| VideoBudget.NoMoreGoThanMust | crates/throcc-server/src/egress.rs:364-370 | For the room alone, the last unit to go was one too many |
| VideoBudget.IdleUnitsAreGivenUp | crates/throcc-server/src/egress.rs:372-387 | A check that is due gives up exactly the started units with nothing to send and no fragment for a second, whose starts are sent; one that is not due does nothing |
| VideoBudget.QuietTracksAreForgotten | crates/throcc-server/src/egress.rs:456-463 | Between two rounds of forgetting, exactly the tracks that nothing came for and that have nothing queued are forgotten |
| EgressIndex.VictimIsFound | crates/throcc-server/src/egress.rs:389-397 | The front of `strays`, once stale ids are skipped, or else the first waiting unit, is the victim that the plain list defines: the oldest waiting stray or, with none, the oldest waiting unit |
| EgressIndex.NextIs | crates/throcc-server/src/egress.rs:486-518 | The first id of `sending` or, with none, the first waiting unit is the oldest queued unit that holds packets |
| EgressIndex.CopiesAreTwins | crates/throcc-server/src/egress.rs:198-223 | `copies` finds exactly the queued units of a track and first number that are not strays |
| EgressIndex.FragmentFinds | crates/throcc-server/src/egress.rs:256-275 | A `Queued` fate a fragment is looked up by names a unit that is queued and no stray |
| EgressIndex.PopIs | crates/throcc-server/src/egress.rs:486-518 | What serving is on the plain list: the first packet of the oldest unit holding any leaves, the unit is started, and it leaves with its last packet once complete |
| Egress.RememberFate | crates/throcc-server/src/egress.rs:533-538 | The loop keeps exactly the newest starts of a track, up to HISTORY |
| Egress.Queues.PushAudio | crates/throcc-server/src/egress.rs:226-235 | Queues audio, and counts a drop on the track that made room |
| EgressIndex.QueuedIsLinedUp | crates/throcc-server/src/egress.rs:304-310 | Why: the newest unit is in neither map yet, and later than every stray |
| Egress.Queues.PushVideo | crates/throcc-server/src/egress.rs:239-302 | Does to the indexes what pushing does to the plain list, in all cases: a first fragment with or without queued copies or a dropped original, a stray, a late fragment of a queued, sent or dropped unit, a unit over its fragment limit |
| Egress.Queues.QueueUnit | crates/throcc-server/src/egress.rs:304-310 | Puts a new unit behind all others: started and waiting units stay apart, the strays stay in order, one of them last if it is a stray, and the bytes stay summed up |
| Egress.Queues.Lose | crates/throcc-server/src/egress.rs:314-350 | Accounts for a packet lost on the way as the plain list does, dropping the unit it was of |
| Egress.Queues.EnforceBudget | crates/throcc-server/src/egress.rs:355-370 | Both loops together do what the plain list defines unit by unit |
| Egress.Queues.GiveUpIdleUnits | crates/throcc-server/src/egress.rs:373-387 | Finishes exactly the started units idle for a second, and only when a check is due |
| Egress.Queues.UnstartedVictim | crates/throcc-server/src/egress.rs:389-397 | Skips stale ids in `strays` and finds the victim of the plain list |
| Egress.Queues.DropUnit | crates/throcc-server/src/egress.rs:400-416 | Drops one unit whole; it counts exactly when no copy of it is left |
| Egress.Queues.IsOverBudget | crates/throcc-server/src/egress.rs:421-425 | True exactly when the oldest waiting unit has waited too long |
| Egress.Queues.Finish | crates/throcc-server/src/egress.rs:427-454 | Takes a unit out of every index, and notes its fate where its start still points at it |
| Egress.Queues.ForgetQuietTracks | crates/throcc-server/src/egress.rs:458-463 | Forgets exactly the tracks that were quiet and have nothing queued |
| Egress.Queues.Pop | crates/throcc-server/src/egress.rs:486-518 | Audio first, by turns; with none queued, the front packet of the oldest video unit holding any |
| KeyTheorems.RoomStateRekeys | crates/throcc-client-core/src/keys.rs:260-343 | After an accepted room state there is a secret, wrapped to exactly the peers of now under their keys. It is a fresh one just when the epoch moved, the trusted users or keys changed, or there was none, and only then is one request sent, to all of them |
| KeyTheorems.ApplyingTwiceIsOnce | crates/throcc-client-core/src/keys.rs:171-177 | Applying a room state again at the same clock sends nothing and changes nothing but the generation, HPKE refusals included |
| KeyTheorems.CacheIsInvisible | crates/throcc-client-core/src/keys.rs:591-606 | What is read for a media id is what the stored secret of its present owner derives, and nothing below the floor, whatever was cached |
| KeyTheorems.GraceEnds | crates/throcc-client-core/src/keys.rs:609-624 | A tick at or after `epoch_since` plus the grace period leaves only secrets and cached keys of the current epoch |
| KeyTheorems.TrustedAgain | crates/throcc-client-core/src/keys.rs:358-391 | Trusting the same list again leaves out just the peers whose key HPKE has refused since |
| KeyInvariants.NoSharedIds | crates/throcc-client-core/src/keys.rs:346-355 | No two trusted peers share a media id, unless the whole list was refused |
| KeyInvariants.WrapSettles | crates/throcc-client-core/src/keys.rs:456-494 | Wrapping leaves `wrapped_to` equal to the peers that stay |
| KeyRuns.RunsKeep | crates/throcc-client-core/src/keys.rs:202-343 | Over any run: every cached key is the one its owner's stored secret derives, owners are the peers', stored secrets of earlier epochs retire within the grace period of `epoch_since`, early keys are few and still waited for, and a secret is wrapped to exactly the peers |
| KeyInvariants.PlacementKeeps | crates/throcc-client-core/src/keys.rs:202-252 | A placement keeps all of that, with the stashed room state it may apply at once |
| KeyInvariants.TakeEarlyKeeps | crates/throcc-client-core/src/keys.rs:320-343 | So does judging the early keys again |
| KeyRuns.SecretsArePublishedOnce | crates/throcc-client-core/src/keys.rs:456-494 | Over any run, reconnects included, two requests never carry the same secret of ours |
| KeyFloors.ReplaysAreRefused | crates/throcc-client-core/src/keys.rs:418-452 | Along any run of room changes, lobby trips and reconnects: once in a room again, no secret is stored or read there for any epoch at or below the newest we took part in before entering |
| KeyFloors.EpochsRise | crates/throcc-client-core/src/keys.rs:202-252 | Floors only rise, and our epoch never falls within one stay |
| KeyFloors.StepRemembers | crates/throcc-client-core/src/keys.rs:418-436 | Each step keeps every epoch we took part in, from 1 up, under the floor of its room |
| KeyTrust.RefusedListsAre | crates/throcc-client-core/src/keys.rs:273-279 | A list is refused as a whole exactly if it has more than 30 entries, lists someone else twice, or has a media id on two tracks of the others or on one of theirs and one of ours |
| KeyTrust.TrustedExactly | crates/throcc-client-core/src/keys.rs:358-391 | Of a list without clashes, those shown in the room and vouched for are trusted, under the keys they were listed with, and nobody else whose key HPKE takes |
| KeyTrust.StateTrustsExactly | crates/throcc-client-core/src/keys.rs:260-416 | After an accepted room state nobody is trusted if the list is refused, and otherwise exactly those shown in the room by their presence who are listed under a key that is in date, that their identity signed for this server and user, and that HPKE takes |
| KeyTrust.PeersAreVouchedFor | crates/throcc-client-core/src/keys.rs:260-416 | Over any run, whoever is trusted was listed for this room under just these keys, with that signature, in date at some step, and is shown in the room now |
| KeyTrust.SecretsGoToVouchedPeers | crates/throcc-client-core/src/keys.rs:438-494 | Whatever came before, each wrap that is published seals a secret of ours, for this server, room, epoch and recipient, to a key listed for them in this room, in date now and signed by the identity listed beside it |
| KeyLaws.StoredExactly | crates/throcc-client-core/src/keys.rs:509-562 | A sender key is stored exactly if it is of our epoch or, for two seconds, of the last one, past the floor, its sender is trusted, and they wrapped it for us here to an encryption key we still have |
| KeyLaws.StoredIs | crates/throcc-client-core/src/keys.rs:550-573 | What storing it changes: it, and two seconds for the older ones of that sender |
| KeyLaws.HeldExactly | crates/throcc-client-core/src/keys.rs:519-531 | One is held, if there is room, exactly while it is recent and its room state is missing |
| KeyLaws.RefusedExactly | crates/throcc-client-core/src/keys.rs:499-548 | Which ones are refused as stale or of the wrong length; none of them changes anything |
| KeyLaws.RetiredKeyOpens | crates/throcc-client-core/src/keys.rs:186-193 | Over any run: after a renewal the last encryption key opens until the first tick ten seconds later, and no longer |
| KeyGrace.AnotherIdentityRetires | crates/throcc-client-core/src/keys.rs:295-305 | Once a user is listed under another identity only, or no more, every secret they gave us has at most two seconds left |
| KeyGrace.SameIdentityKeeps | crates/throcc-client-core/src/keys.rs:295-305 | While identity and epoch stay, what a trusted peer gave us stays as it is |
| KeyGrace.SecretsOutliveTheirEpoch | crates/throcc-client-core/src/keys.rs:565-573 | Over any run within a room, whatever epochs and newer keys come, a secret in use stays for two seconds more unless another of its own epoch takes its place |
| KeyGrace.TickDropsExactly | crates/throcc-client-core/src/keys.rs:608-624 | A tick drops exactly the secrets whose time has come and the early keys of two seconds ago |
| KeyGrace.OnlyFreshEarlyKeysAreStored | crates/throcc-client-core/src/keys.rs:329-340 | Of the early keys a room state stores only some that came in the last two seconds, from a peer trusted now who wrapped them for us here |
| KeyGrace.ReadsExactly | crates/throcc-client-core/src/keys.rs:587-606 | A media id is read exactly with what the secret of the one peer gives who sends on it, of that epoch, if it is recent |
| KeyGrace.SendsExactly | crates/throcc-client-core/src/keys.rs:574-578 | We send on exactly our own tracks, while we have a secret, with what it gives |
| KeyGrace.StashedStateIsApplied | crates/throcc-client-core/src/keys.rs:237-251 | A room state that comes before its placement is applied with it |
| KeyGrace.OlderStashIsLetGo | crates/throcc-client-core/src/keys.rs:237-251 | One that is no newer than the placement is let go, and the list of the placement counts |
| KeyGrace.OlderStatesAreIgnored | crates/throcc-client-core/src/keys.rs:267-283 | An older room state changes nothing, stashed or applied |
| KeyGrace.LeavingForgets | crates/throcc-client-core/src/keys.rs:213-236 | In the lobby nobody is trusted and there is nothing to read, send with or catch up on |
| KeyGrace.EnteringForgets | crates/throcc-client-core/src/keys.rs:213-251 | No secret of one room is one in the next |
| KeyGrace.PresencesAreNoted | crates/throcc-client-core/src/keys.rs:155-168 | Presences are noted for 260 users, one by one |
| KeyGrace.MovesAreTold | crates/throcc-client-core/src/keys.rs:155-168 | And it is told exactly whether someone else came into our room or left it |
| KeyManaging.KeyManager.constructor | crates/throcc-client-core/src/keys.rs:113-147 | A new manager knows nobody and has no secret |
| KeyManaging.KeyManager.SetPresence | crates/throcc-client-core/src/keys.rs:159-168 | Notes a presence unless the map is full, and says whether it changed |
| KeyManaging.KeyManager.ReapplyPeers | crates/throcc-client-core/src/keys.rs:171-177 | Applies the last room state again |
| KeyManaging.KeyManager.ReplaceEncryption | crates/throcc-client-core/src/keys.rs:190-193 | Keeps the last encryption key pair for a while |
| KeyManaging.KeyManager.ApplyPlacement | crates/throcc-client-core/src/keys.rs:202-252 | Enters, leaves or stays; raises to the floor; applies the stashed or placed room state |
| KeyManaging.KeyManager.PeersChanged | crates/throcc-client-core/src/keys.rs:260-343 | Applies a room state, stashes one that came before its placement, or ignores a stale one |
| KeyManaging.KeyManager.ClashingTracks | crates/throcc-client-core/src/keys.rs:346-355 | The loop over a growing set finds exactly the lists that name a user or a media id twice |
| KeyManaging.KeyManager.TrustedPeers | crates/throcc-client-core/src/keys.rs:358-391 | The loop with its early continues trusts what the declarative definition does |
| KeyManaging.KeyManager.SignedByIdentity | crates/throcc-client-core/src/keys.rs:394-416 | The kept answer or a new check: whether this identity signed this key for this server and user, whatever was checked before |
| KeyManaging.KeyManager.StartEpoch | crates/throcc-client-core/src/keys.rs:418-436 | A new epoch raises the floor, retires earlier secrets and needs a new one of ours |
| KeyManaging.KeyManager.BelowFloor | crates/throcc-client-core/src/keys.rs:450-452 | True exactly for an epoch at or below the room's floor |
| KeyManaging.KeyManager.WrapForNewPeers | crates/throcc-client-core/src/keys.rs:456-494 | Wraps to the peers that lack our secret; those HPKE refuses leave the peers and owners |
| KeyManaging.KeyManager.SenderKey | crates/throcc-client-core/src/keys.rs:499-510 | Refuses a wrap of the wrong length before anything else |
| KeyManaging.KeyManager.SenderKeyAt | crates/throcc-client-core/src/keys.rs:512-563 | Refuses, stores or keeps early, in the code's order of checks |
| KeyManaging.KeyManager.TakeEarly | crates/throcc-client-core/src/keys.rs:320-343 | Judging early keys one by one, in whatever order, comes to the same as judging all against the state before |
| KeyManaging.KeyManager.RetireReceived | crates/throcc-client-core/src/keys.rs:566-572 | Starts the grace period of exactly the picked secrets that have none yet |
| KeyManaging.KeyManager.SendKey | crates/throcc-client-core/src/keys.rs:575-577 | The key of our secret for one of our tracks, and its epoch |
| KeyManaging.KeyManager.RecvKey | crates/throcc-client-core/src/keys.rs:591-606 | Reads through the cache |
| KeyManaging.KeyManager.Tick | crates/throcc-client-core/src/keys.rs:609-624 | Drops what is past its grace period, and the retired encryption key |
| FloorsFile.RunsKeepFloors | crates/throcc-client-core/src/floors.rs:54-99 | Under any interleaving of raises, saves begun, written and failed, and last saves, by clones and separate loads: each floor on disk never falls, and each floor in memory is on disk, in a save under way, or marked unsaved |
| FloorsFile.SavedFloorsComeBack | crates/throcc-client-core/src/floors.rs:32-48 | Floors that were all saved come back from any later load, whatever ran in between |
| FloorsFile.NextKeeps | crates/throcc-client-core/src/floors.rs:68-91 | Each single step keeps this |
| FloorsFile.FloorsWereRaised | crates/throcc-client-core/src/floors.rs:35-91 | However saves overlap and fail, every floor in the file and in memory was raised to just that epoch for that user and room, or was there from the start |
| FloorsFile.FinishedStaysUnwritten | crates/throcc-client-core/src/floors.rs:35-91 | Once finished, no save begins any more |
| FloorsFile.EpochFloors.Raise | crates/throcc-client-core/src/floors.rs:54-64 | Raises a floor if it is newer, and marks it unsaved just then |
| FloorsFile.EpochFloors.Save | crates/throcc-client-core/src/floors.rs:68-91 | Writes what is unsaved; a failed write leaves it unsaved. On its own a save is a run of the moves that the interleavings are made of |
| FloorsFile.EpochFloors.SaveLast | crates/throcc-client-core/src/floors.rs:95-99 | Saves, then never again: a save's moves and the one that ends them |
| FloorsFile.EpochFloors.Get | crates/throcc-client-core/src/floors.rs:50-52 | The floor of a room, if there is one |
| FloorsFile.ServersFile.Update | crates/throcc-client-core/src/floors.rs:68-91 | The loop merges each floor into the file at the newer of the two |
| NetMesh.HeardExactly | crates/throcc-client-core/src/keys.rs:202-343 | However people entered, left, were kicked or lost connections, requests were refused and messages overtook each other: once everything sent is delivered, a member's receive key for a track of another is the key it is sent with if and only if the one's client is in the room above its floor, and the other's is in the room, with the tracks it has there and a secret that no refused request carried |
| NetPrompt.EveryoneHearsEveryone | crates/throcc-client-core/src/media/engine.rs:207-262 | So two members hear each other on every track, if whenever the server let them in their client knew that it was out and had acted on every kick, and none of their requests was refused |
| NetPrompt.RunsKeepHome | crates/throcc-client-core/src/session.rs:705-719 | From any moment at which a client is where the server has it, it stays so along any such run |
| NetPrompt.LateKickLoses | crates/throcc-client-core/src/session.rs:1766-1773 | A kick acted on by a client that the server has let in again leaves a member who neither hears nor is heard, and is deaf to the epoch from then on just if it was or had taken part in it |
| NetLate.AMemberHearsNobody | crates/throcc-server/src/rooms.rs:1325-1338 | From any start with two people: entering, a kick, entering again, acting on the kick and joining once more ends with both in the room in everyone's eyes, nothing on its way, and one of them hearing nothing |
| NetLate.OneHearsNobody | crates/throcc-server/src/rooms.rs:1325-1338 | There is such a start |
| NetLate.FewKeysDontClog | crates/throcc-client-core/src/keys.rs:512-563 | While epochs times accounts stay below the cap on early keys, no client's early keys fill up |
| NetDrain.EveryDeliveryArrives | crates/throcc-client-core/src/keys.rs:260-343 | From any point of any run, once nobody comes or goes: every order of deliveries that cannot go on took no more of them than the weight of what was on its way, and leaves just those who listen hearing just those who speak, all of them if all were prompt, unless it stopped at sender keys for clients whose early keys are full |
| NetDrain.KeysArriveInTheEnd | crates/throcc-client-core/src/keys.rs:260-343 | And one such order of deliveries exists from everywhere |
| NetDrain.DeliveriesEnd | crates/throcc-server/src/rooms.rs:1451-1487 | Requests, room states and keys do not set each other off for ever: deliveries in a row are no more than the weight of what was on its way, and leave the members alone |
| NetDrain.EverythingArrives | crates/throcc-server/src/rooms.rs:1451-1487 | Delivering alone leads from any state to one with nothing on its way, or to one where only keys for full clients are left |
| NetRuns.NoKeyIsLost | crates/throcc-server/src/rooms.rs:1451-1487 | At every point of every run, kicks and refusals included: if A's secret of the room's epoch was wrapped to B, who has not left since that epoch began, and its request was not refused, that very wrap is the newest on its way from A to B, or else B holds it early or has stored it |
| NetPrompt.NoPromptKeyIsLost | crates/throcc-server/src/rooms.rs:1451-1487 | For two people who were prompt, it is so of every secret the one wrapped to the other |
| NetArrival.KickDeafens | crates/throcc-client-core/src/keys.rs:202-252 | Put out of the room, a client is deaf to the room's epoch exactly if it was before or had taken part in it |
| NetSecrets.RunsSend | crates/throcc-client-core/src/keys.rs:456-494 | Every interleaving keeps requests still to be handled with secrets nobody has yet, each with its own, and refused secrets unknown to everyone |
| NetSecrets.RefusedIsUnknown | crates/throcc-server/src/rooms.rs:408-436 | Nobody ever stores a secret whose request was refused |
| NetSecrets.NextSecretIsUnrefused | crates/throcc-client-core/src/keys.rs:418-436 | That lasts until the next secret, which no refused request carried |
| NetTracks.RunsFit | crates/throcc-server/src/database.rs:199-215 | Every interleaving keeps the tracks a client takes for its own apart from those of every other member, also where they are of a membership that ended |
| NetRuns.RunsKeepNet | crates/throcc-server/src/rooms.rs:818-864 | Every interleaving keeps the room's invariant: states on their way are of past epochs or tell the members of now, and every pair of members conveys its secret |
| NetRest.RunsInform | crates/throcc-server/src/rooms.rs:644-654 | Every interleaving keeps each client informed: it knows, or has on its way, each member's presence and, if it is in the room or about to be, the newest room state |
| NetMesh.TrustsEveryone | crates/throcc-client-core/src/keys.rs:358-391 | Once everything is delivered, a member whose client is in the room trusts every other member, under the tracks they have |
| NetMesh.KnowsTheRoom | crates/throcc-client-core/src/media/engine.rs:207-262 | Once everything is delivered, a member whose client is in the room has the room's epoch, member list and presences, and a secret |
| NetArrival.KeyReaches | crates/throcc-client-core/src/keys.rs:512-563 | A wrap of the room's epoch that arrives at a client that is not deaf to it is stored or kept early, and never refused |
| NetArrival.StateKeepsReached | crates/throcc-client-core/src/keys.rs:260-343 | A room state of the epoch loses no secret or early key of a client that is not deaf to it |
| NetHub.PlacingEnters | crates/throcc-server/src/rooms.rs:818-864 | What the hub does to a room's members, tracks, epoch and the media ids to come when it places someone in it is what the protocol's room does |
| NetHub.PlacingLeaves | crates/throcc-server/src/rooms.rs:818-864 | The same for someone placed out of it |
| NetHub.EvictingTakesOut | crates/throcc-server/src/rooms.rs:516-521 | The same for someone signed out whose leave moves the epoch |
| NetHub.KickingTakesOut | crates/throcc-server/src/rooms.rs:1325-1338 | The same for someone kicked whose leave moves the epoch |
| NetHub.PublishingIsAccepting | crates/throcc-server/src/rooms.rs:1451-1487 | The hub hands the wraps of a request on if and only if the protocol's room accepts it |
| NetSafety.StateSends | crates/throcc-client-core/src/keys.rs:260-343 | Whatever secret a room state leaves us with, whoever it was given to has its wrap in the newest request for them |
| HubRuns.MembershipHolds | crates/throcc-server/src/rooms.rs:888-899 | In every reachable state a session names a room exactly when the room's members contain the user, has tracks exactly while in a room, and rooms keep within their members and shares |
| HubRuns.RoutesAreFresh | crates/throcc-server/src/rooms.rs:1519-1590 | After every operation, also those that skip the rebuild, the published table is a from-scratch recomputation, and the last `Audiences` a member was sent, which has the highest number, is its room's list of now |
| HubForwarding.TracksReachWhomTheyShould | crates/throcc-server/src/rooms.rs:1519-1590 | In every state there can be, on the sessions alone: a voice goes to exactly the others in the room who are not deafened, a picture to those who watch it, a sound to those who watch it and are not deafened, to the connection of each once, from the member's own |
| HubForwarding.NothingElseIsForwarded | crates/throcc-server/src/rooms.rs:1519-1590 | The table has exactly the media ids of the tracks of members |
| HubForwarding.MembersAreToldWhoReceives | crates/throcc-server/src/rooms.rs:1555-1590 | The last list each member was told has the running shares of their room that anyone receives, each with exactly its receivers, and nothing else |
| HubLaws.OthersAreLeftAlone | crates/throcc-server/src/rooms.rs:408-470 | Whatever operation comes, whoever it is not about keeps their connection, room, tracks, key and settings |
| HubLaws.MovesExactly | crates/throcc-server/src/rooms.rs:818-864 | When a move goes through, what it then does to the user, to the members and the epochs of all rooms, and that a refused one does nothing but use up media ids |
| HubLaws.PlacementsTell | crates/throcc-server/src/rooms.rs:900-915 | The answer names the room, its epoch and the tracks of now, and carries the list the connection was told last |
| HubLaws.ChangesAreTold | crates/throcc-server/src/rooms.rs:1571-1590 | A rebuild tells a member the list of their room exactly if it is not the one they were told last |
| HubLaws.PublishesExactly | crates/throcc-server/src/rooms.rs:1451-1475 | A publish is accepted exactly if it is of the room's epoch, each wrap is for someone else in the room, nobody gets two, and none is longer than 256 bytes |
| HubLaws.LeavesExactly | crates/throcc-server/src/rooms.rs:867-885 | Leaving always succeeds; only the epoch stays where the move is refused |
| HubLaws.SignsInExactly | crates/throcc-server/src/rooms.rs:301-362 | Who is turned away, the fresh session of everyone else, and when they return to their room |
| HubLaws.SignsOutExactly | crates/throcc-server/src/rooms.rs:516-521 | Signing out takes just that user out of their room and the sessions |
| HubLaws.HangsUpExactly | crates/throcc-server/src/rooms.rs:365-370 | A connection signs out its own user exactly while it is the current one |
| HubLaws.MediaIsSetExactly | crates/throcc-server/src/rooms.rs:1075-1112 | Deafening always applies; sharing does unless it is a sixth share of the room or a change not allowed |
| HubLaws.WatchingIsSetExactly | crates/throcc-server/src/rooms.rs:1388-1421 | Watching is set exactly if it is at most ten ids, each of a share of someone else in the room |
| HubLaws.KeysAreSetExactly | crates/throcc-server/src/rooms.rs:1022-1068 | When a key is stored, when that moves the epoch, and when it fails although the key stays |
| HubLaws.KicksExactly | crates/throcc-server/src/rooms.rs:1325-1338 | A kick takes effect exactly on a member of that room, where allowed |
| HubLaws.DeletesExactly | crates/throcc-server/src/rooms.rs:1234-1257 | A deleted room is gone and its members in the lobby; nobody else is touched, deleted or not |
| HubLaws.AddsExactly | crates/throcc-server/src/rooms.rs:1163-1180 | A room that is added has a new id, nobody in it and epoch 0 |
| HubRuns.RunsKeep | crates/throcc-server/src/rooms.rs:818-934 | Over any run: all of the hub's invariant, with distinct connections, media ids apart and epochs stored |
| HubEpochs.EpochsTellMembers | crates/throcc-server/src/rooms.rs:625-642 | At any two moments of a run no room's epoch has fallen and a room at the same epoch has the same members, if and only if every operation of the run is smooth |
| HubEpochs.RisesExactly | crates/throcc-server/src/rooms.rs:867-885 | An operation lets no epoch fall and moves that of every room whose members it changes, if and only if it is smooth: nobody is taken out while the epoch cannot move, unless a reconnect puts them back at once, and a restart finds every room empty |
| HubEpochs.OneEpochTwoMemberSets | crates/throcc-server/src/rooms.rs:867-885 | From an empty server: someone signs in, enters a room and is removed while the database fails, which leaves the room at the same epoch without its member |
| HubEpochs.ForcedLeaveKeepsEpoch | crates/throcc-server/src/rooms.rs:867-885 | A leave whose epoch cannot move takes just that member out, at the same epoch |
| HubEpochs.ReentryRises | crates/throcc-server/src/rooms.rs:301-362 | Except that a reconnect which returns to the same room at once moves its epoch, whatever became of the leave |
| HubIds.MediaIdsAreUnique | crates/throcc-server/src/database.rs:199-215 | If tracks of two moments of a run share a media id, they are the same user's, who at every moment in between was in with the same tracks: no id is ever of two memberships, server restarts included |
| HubRuns.RestartKeeps | crates/throcc-server/src/rooms.rs:253-295 | So does a restart, on what was stored |
| HubRuns.StartKeeps | crates/throcc-server/src/rooms.rs:253-295 | A server started on a stored database starts with the invariant |
| HubSteps.PlaceKeeps | crates/throcc-server/src/rooms.rs:818-864 | Moving a user keeps it, whatever the database does |
| HubSteps.LeaveKeeps | crates/throcc-server/src/rooms.rs:867-885 | Whatever the database does, whoever must leave their room has left it, and the invariant holds |
| HubSteps.DisconnectKeeps | crates/throcc-server/src/rooms.rs:365-370 | Disconnecting needs no rebuild after the one of leaving |
| HubSteps.QuietSettingsKeep | crates/throcc-server/src/rooms.rs:1075-1112 | Settings that routes do not depend on need no rebuild |
| HubSteps.SharesStayFew | crates/throcc-server/src/rooms.rs:1120-1129 | A share that is not refused keeps the room within MAX_ROOM_SHARES |
| HubSteps.RoomIsEmptied | crates/throcc-server/src/rooms.rs:1234-1257 | A room is empty once every member has been moved out of it |
| HubEpochs.PlaceRises | crates/throcc-server/src/rooms.rs:818-864 | Whoever a move takes out of or into a room, that room's epoch rises |
| Hubs.Hub.constructor | crates/throcc-server/src/rooms.rs:253-295 | Starts from the stored epochs, with nobody signed in |
| Hubs.Hub.Connect | crates/throcc-server/src/rooms.rs:301-362 | Evicts the last connection, signs in, and may put the user back in a room |
| Hubs.Hub.Disconnect | crates/throcc-server/src/rooms.rs:365-370 | Only the current connection signs its user out |
| HubSteps.EvictKeeps | crates/throcc-server/src/rooms.rs:516-521 | Signing a user out, in a room or not, leaves no session of theirs and keeps the invariant |
| Hubs.Hub.Evict | crates/throcc-server/src/rooms.rs:516-521 | Takes a user out of their room and signs them out |
| Hubs.Hub.BumpEpochs | crates/throcc-server/src/rooms.rs:625-642 | All or none of the rooms move to their next epoch, in memory and stored alike; none exactly when one is exhausted or unknown or the write fails |
| Hubs.Hub.Place | crates/throcc-server/src/rooms.rs:818-864 | Moves a user in one step, or leaves all as it was |
| Hubs.Hub.LeaveRoom | crates/throcc-server/src/rooms.rs:867-885 | Takes a user out, by force if the move fails |
| Hubs.Hub.SetMembership | crates/throcc-server/src/rooms.rs:888-899 | Keeps room and tracks in step, and ends the share and what was watched |
| Hubs.Hub.Placement | crates/throcc-server/src/rooms.rs:901-915 | Tells a room's audiences with the next number |
| Hubs.Hub.AllocateTracks | crates/throcc-server/src/rooms.rs:917-934 | Takes consecutive ids for a membership, or fails without taking any |
| Hubs.Hub.SetEncryptionKey | crates/throcc-server/src/rooms.rs:1022-1068 | A changed key of a member moves the room's epoch first |
| Hubs.Hub.SetMedia | crates/throcc-server/src/rooms.rs:1075-1112 | Changes deafened and share, refuses one share too many, and rebuilds only when routes may change |
| Hubs.Hub.MustRefuseShare | crates/throcc-server/src/rooms.rs:1075-1088 | Refuses exactly a share not allowed or beyond the room's number |
| Hubs.Hub.KickFromRoom | crates/throcc-server/src/rooms.rs:1325-1338 | Takes a member of that room out |
| Hubs.Hub.DeleteRoom | crates/throcc-server/src/rooms.rs:1234-1257 | Moves each member out, and deletes the room unless one could not be moved |
| Hubs.Hub.AddRoom | crates/throcc-server/src/rooms.rs:1163-1180 | A new room is empty, at epoch 0 |
| Hubs.Hub.SetWatched | crates/throcc-server/src/rooms.rs:1388-1421 | Keeps just the shares in the user's room that may be watched |
| Hubs.Hub.PublishKey | crates/throcc-server/src/rooms.rs:1451-1487 | Hands every wrapped secret to the connection of its recipient in the room, in order, exactly when all are of the room's epoch, each for another member, once, and within its size |
| Hubs.Hub.ShareTrack | crates/throcc-server/src/rooms.rs:1490-1505 | Finds the one session whose share has an id |
| Hubs.Hub.RebuildRoutes | crates/throcc-server/src/rooms.rs:1519-1590 | The nested loops compute the declarative table and audiences, and tell exactly the rooms whose list changed |
| Hubs.Hub.RoomRoutes | crates/throcc-server/src/rooms.rs:1519-1570 | One room's pass adds its members' routes and lists who receives its shares |
| Hubs.Hub.TellChanged | crates/throcc-server/src/rooms.rs:1571-1590 | Tells each member of a changed room once, with the next number |
| Hubs.Database.AllocateMediaIds | crates/throcc-server/src/database.rs:201-215 | Consecutive ids never given before, or none |
| Hubs.Database.SetEpochs | crates/throcc-server/src/database.rs:438-448 | All or none of the epochs are stored |
| ReorderModel.OutputsTile | crates/throcc-client-core/src/media/reorder.rs:29-66 | For units that do not overlap, pushed and polled in any order, also past MAX_WAITING: emitted units and abandoned gaps together cover each number from the first unit's start up to `next` exactly once; between calls a gap is timed exactly when units wait, all starting beyond it |
| ReorderModel.EmittedAscend | crates/throcc-client-core/src/media/reorder.rs:48-66 | Of two emitted units, the earlier one ends before the later one starts |
| ReorderModel.StepIsTiled | crates/throcc-client-core/src/media/reorder.rs:29-40 | Each push and poll continues the cover where the last one ended |
| Reordering.Reorder.Push | crates/throcc-client-core/src/media/reorder.rs:29-40 | Emits, keeps or discards a unit as the specification does |
| Reordering.Reorder.Poll | crates/throcc-client-core/src/media/reorder.rs:48-66 | The loop emits what is due, and gives up gaps that are |
| Reordering.Reorder.Deadline | crates/throcc-client-core/src/media/reorder.rs:43-45 | Polling gives out nothing exactly until then; with no deadline, never |
| ReorderModel.RestsUntil | crates/throcc-client-core/src/media/reorder.rs:48-66 | Between calls, polling before the deadline does nothing at all, and polling from then on gives something out |
| ReorderModel.RunsRest | crates/throcc-client-core/src/media/reorder.rs:29-66 | Over any run, also of units that overlap, a gap is timed between calls exactly when units wait, and all of them start beyond it |
| ReorderModel.PushLosesNothing | crates/throcc-client-core/src/media/reorder.rs:29-40 | A unit is late exactly if it ends before `next`; any other is given out or waits, and so does each that waited, unless one with its number comes or 256 wait and it is the first |
| ReorderModel.RunsLoseNothing | crates/throcc-client-core/src/media/reorder.rs:29-66 | Along any run a waiting unit waits until it is given out, unless it has to make way so |
| ReorderModel.GapsAreWaitedFor | crates/throcc-client-core/src/media/reorder.rs:48-66 | A gap is given up only after it was timed for 50 ms, one by each poll, and timed anew after a unit was given out |
| VerifiedModel.PuttingOffIsInvisible | crates/throcc-client-core/src/verified.rs:142-165 | After any changes, is_verified, verified_at, changed_at and list answer as a store that writes every presented key at once |
| VerifiedModel.RunsKeepRecords | crates/throcc-client-core/src/verified.rs:70-95 | Over any run each pair is seen under at most one verified key, and changed at most once, only where a verified key was seen, and never to a verified key |
| VerifiedModel.RecordsHold | crates/throcc-client-core/src/verified.rs:142-165 | The same holds of the records the store itself keeps, whose changes may lag behind, and of what it will write |
| VerifiedModel.LaterIsAtOnce | crates/throcc-client-core/src/verified.rs:235-258 | Each operation: what is kept plus what is put off is what writing at once has |
| VerifiedWarnings.WarningsLast | crates/throcc-client-core/src/verified.rs:130-211 | Whatever was loaded and whatever happens: a pair is warned of a key exactly if that was shown there, unverified, in place of a verified key, or loaded as such, and since then nothing ended the warning or put another in its place |
| VerifiedWarnings.WarnedExactly | crates/throcc-client-core/src/verified.rs:142-211 | What each operation does to the warning of each pair |
| VerifiedWarnings.NotedExactly | crates/throcc-client-core/src/verified.rs:70-86 | Under which verified key each operation leaves a pair watched, a full key and a dismissal under a verified one included |
| VerifiedWarnings.NamedExactly | crates/throcc-client-core/src/verified.rs:168-191 | A key is verified from when the user verifies it, under the last name, until they take it off |
| VerifiedWarnings.ListsExactly | crates/throcc-client-core/src/verified.rs:214-231 | The list has each verified key, its name, and just the servers it is noted on |
| VerifiedStore.VerifiedKeys.Present | crates/throcc-client-core/src/verified.rs:142-165 | A key shown where a change is noted already is put off; any other is noted now |
| VerifiedStore.VerifiedKeys.VerifyKey | crates/throcc-client-core/src/verified.rs:168-182 | Verifying ends the warnings that are about this key or pair |
| VerifiedStore.VerifiedKeys.UnverifyKey | crates/throcc-client-core/src/verified.rs:185-191 | Unverifying ends the warnings at pairs no verified key was seen at any more |
| VerifiedStore.VerifiedKeys.DismissChange | crates/throcc-client-core/src/verified.rs:195-211 | Dismissing keeps watching under a verified key shown now |
| VerifiedStore.VerifiedKeys.Flush | crates/throcc-client-core/src/verified.rs:235-258 | Writes each put-off key into the change it is about |
| VerifiedStore.VerifiedKeys.IsVerifiedKey | crates/throcc-client-core/src/verified.rs:116-118 | Whether a key is verified |
| VerifiedStore.VerifiedKeys.VerifiedKeyAt | crates/throcc-client-core/src/verified.rs:121-128 | The loop finds the only verified key seen at a pair |
| VerifiedStore.VerifiedKeys.ChangedKeyAt | crates/throcc-client-core/src/verified.rs:133-137 | What was put off comes before what was written |
| VerifiedStore.VerifiedKeys.SeeKey | crates/throcc-client-core/src/verified.rs:70-77 | Notes a pair under one verified key, and under no other |
| VerifiedStore.VerifiedKeys.ForgetSeenBut | crates/throcc-client-core/src/verified.rs:80-86 | The loop takes a pair from every key but one |
| Calendar.UtcIsTheDate | crates/throcc-server/src/main.rs:86-108 | For every unix time the date is the one counted day by day from 1970-01-01 through the Gregorian calendar, and hour and minute are the rest of the day |
| Calendar.CivilIsCounted | crates/throcc-server/src/main.rs:86-108 | The closed form equals the day-by-day count for every day, with subtractions of naturals only |
| Calendar.CivilFollows | crates/throcc-server/src/main.rs:86-108 | Consecutive days have consecutive valid dates, across months, leap years, centuries and eras |
| Calendar.YearHolds | crates/throcc-server/src/main.rs:92-94 | The divisions that discount leap days land on the year a day is in, for every day of the era |
| Calendar.MonthHolds | crates/throcc-server/src/main.rs:95-96 | The fifths of 153 days land on the month a day is in |
| BucketModel.SweepingIsInvisible | crates/throcc-server/src/limits.rs:71-107 | At any times that do not fall, buckets swept away when full answer every call as if each were kept for ever |
| BucketModel.GrantsAreBounded | crates/throcc-server/src/limits.rs:26-68 | Over any interval a key is granted at most its level, so at most capacity, plus rate times elapsed |
| BucketLaw.FirstCallFindsItFull | crates/throcc-server/src/limits.rs:88-107 | Whatever was asked for other keys, the first call for a key is granted exactly up to the capacity |
| BucketLaw.NextCallFindsTheRest | crates/throcc-server/src/limits.rs:31-68 | Every later one finds what the last call for its key left and rate times the time since, up to the capacity; it is granted exactly if that is enough, and takes from that |
| BucketLaw.WhatFlowsInIsGranted | crates/throcc-server/src/limits.rs:31-68 | What costs no more than has flowed in since the last call for its key, and than a full bucket, is always granted |
| Limits.Buckets.Take | crates/throcc-server/src/limits.rs:88-90 | Sweeps when due, refills, and takes or refuses |
| Limits.Buckets.Holds | crates/throcc-server/src/limits.rs:93-95 | The same without taking |
| PolicerModel.BothOrNeither | crates/throcc-server/src/sfu.rs:113-139 | A packet is admitted exactly when both buckets hold enough, and takes from both or from neither |
| PolicerModel.PolicingIsInvisible | crates/throcc-server/src/sfu.rs:143-159 | A policer that forgets full allowances admits just what one that keeps all of them would |
| PolicerLaw.FirstPacketFindsThemFull | crates/throcc-server/src/sfu.rs:113-159 | The first packet of a track finds both of its buckets full |
| PolicerLaw.NextPacketFindsTheRest | crates/throcc-server/src/sfu.rs:113-159 | Every later one finds what the last one left in both and what has flowed in since; it is admitted exactly if both are enough, and pays in both or neither |
| PolicerLaw.WhatFlowsInIsAdmitted | crates/throcc-server/src/sfu.rs:113-159 | A packet is admitted if a token and its bytes have flowed in since the last one of its track |
| Policing.AudioPolicer.Admit | crates/throcc-server/src/sfu.rs:143-159 | Sweeps when due and admits as specified |
| GateModel.RunsKeepGate | crates/throcc-server/src/limits.rs:110-200 | However trying, waiting and leaving interleave: counts per source, per network and in total are those of the live passes, within all caps, with no zero entry; and a waiter sleeps while it could be admitted only if some leave has not yet notified |
| GateModel.SleepersWouldBeRefused | crates/throcc-server/src/limits.rs:160-169 | Once every leave has notified, whoever sleeps would still be refused |
| GateModel.NextKeeps | crates/throcc-server/src/limits.rs:141-178 | Each single step keeps this |
| GateModel.AdmittedExactly | crates/throcc-server/src/limits.rs:141-157 | In any run whoever tries is admitted exactly while fewer places are held than the caps, in all, by that source, and by sources of its /24 or /48 |
| GateModel.WaiterAdmittedExactly | crates/throcc-server/src/limits.rs:160-169 | So is someone who waits; and who is refused sleeps only if no place was freed since they listened |
| GateModel.NetworksAre | crates/throcc-server/src/limits.rs:216-222 | Two sources have one network exactly if they share an IPv4 /24 or an IPv6 /48 |
| Gates.Gate.TryEnter | crates/throcc-server/src/limits.rs:141-157 | Admits exactly when no cap is reached |
| Gates.Gate.Leave | crates/throcc-server/src/limits.rs:171-178 | Frees one place of the source and of its network, without leaving a zero |
| Gates.DecrementCount | crates/throcc-server/src/limits.rs:181-188 | Counts down, and removes an entry that comes to zero |
| InviteModel.InvitesAreBounded | crates/throcc-server/src/auth.rs:105-186 | However the runs of an invite overlap, server restarts included: at most INVITE_TRIES claim it, at most one enrolls, the counter counts exactly the runs in flight, and while none is it is gone or has tries left |
| InviteModel.RunsKeepInvites | crates/throcc-server/src/auth.rs:230-256 | The invariant behind it, over any run |
| InviteModel.NextKeeps | crates/throcc-server/src/auth.rs:105-186 | Each claim, enrolment, end of a run, expiry and restart keeps it |
| InviteModel.ClaimedExactly | crates/throcc-server/src/auth.rs:105-186 | In any run a code is claimed exactly while its invite is there, was claimed fewer than three times and is before the time it was minted until; a claim starts one run and uses up one try |
| InviteModel.EnrolledExactly | crates/throcc-server/src/auth.rs:116-150 | A run enrolls exactly while the invite it claimed is still there, even if that has expired since, and takes it away: the clock is read once, before the claim |
| InviteModel.InvitesGoExactly | crates/throcc-server/src/auth.rs:230-256 | An invite goes exactly when it is revoked, enrolled with, or out of tries once its last run ends or the server starts |
| Enrollments.InviteRuns.Start | crates/throcc-server/src/auth.rs:282-284 | One more run of an invite |
| Enrollments.InviteRuns.Finish | crates/throcc-server/src/auth.rs:287-297 | One fewer, and whether it was the last |
| Enrollments.Enrolling.ClaimTry | crates/throcc-server/src/auth.rs:165-186 | Claims exactly an invite that is there, unexpired and with tries left, and uses one up |
| Enrollments.Enrolling.Enroll | crates/throcc-server/src/database.rs:258-314 | Consumes the invite, unless it is gone or expired |
| Enrollments.Enrolling.EndRun | crates/throcc-server/src/auth.rs:230-256 | The last run of an invite without tries left burns it |
| Enrollments.Enrolling.DeleteSpent | crates/throcc-server/src/database.rs:498-502 | Deletes exactly the invites without tries left |

## Left out

- QUIC, TLS, tokio, SQLite, files and their permissions, the GUI, the CLI, devices and codecs:
  plumbing over foreign libraries. The database is maps, a file an atomic read-modify-write.
- Real cryptography: keys, secrets and wraps are abstract, as said above; randomness is a serial
  number that no two secrets share.
- `KeyManager`: key notices and the log.
- `KeyManager` publishes its wraps as a map from users; the order inside one request is dropped.
- `Net`: one room, a fixed clock, no key renewals, no HPKE refusals, no request that times out
  unanswered, and a sender key is delivered only while the receiver's early keys are not full. A lost
  connection and the server's noticing are one step, and a client enters its room again by a join of
  its own. Leaves forced without a new epoch are no moves of it.
- `Net`: deleting the room is a `Kick` of each member, told if the deletion succeeds. If it fails,
  nobody tells the members, and their clients stay in a room that they are out of; that is a `Kick`
  not told. Afterwards a deleted room is not modelled.
- NetRuns.NoKeyIsLost: assumes that early keys never overflow, as above; a full map drops keys.
- NetDrain.EveryDeliveryArrives: leaves open that a client's early keys fill up. While few epochs
  have passed they do not (`NetLate.FewKeysDontClog`).
- `Hub`: events other than `Audiences` are not in `HubModel` (their order is in `NetModel`); profiles,
  pictures, passwords, permissions, rates, keyframe requests and error texts are refusals at most.
- `Hub`: a session's control queue never overflows, so a slow client that is cut off is a
  `Disconnect` at any point.
- `Hub`: removing users is an `Evict` of each; accounts, roles and the tree of invitations are not
  modelled.
- `Queues`: the inbox that packets are handed over by (`offer`, `record`) and the statistics
  reports; what the counters come to over a run in which units are resent.
- `AudioQueues`: among equally long queues any may be the victim, as the hash map's order decides.
- `EpochFloors`: `forget`, which removes a server's floors.
- `VerifiedKeys`: other processes writing the same file, and writes that fail.
- `Buckets`: levels are reals, so the rounding of `f64` is not modelled; a `TokenBucket` is a value
  inside its map.
- `limits.rs`: the limiters of arrivals and of failed guesses, and the parsing of addresses; a
  network is a function of the source.
- Invites: the code's text and secret, the guessing limits, and the accounts that enrolling makes.
  An expired invite may be deleted at any moment. A code is not minted again.
- `utc`: the padding of its text with zeros.
- The reconnecting command queue, the media engine, fragments and jitter.
- Round trips of headers, framing, fingerprints and codes, `permissions.rs` and name checks: true
  and much easier than the rest.
