# iMuse MIDI part allocator and volume mixer, in Dafny

A model of the core of The Force Engine's iMuse re-implementation
(`TFE_Jedi/IMuse/imuse.cpp`): the nested pause counter and the sound-player
lock, the two group-volume tables, the propagation of group volume to every
sound player and every part, the pool of sixteen physical MIDI channels, and
`ImMidiSetupParts`, the allocator that hands free channels to waiting parts.

The source's pointer graph becomes an arena. The linked list of sound
players is a sequence; each player owns sixteen parts (`SoundChannel`); a
part is addressed by its player's index and its slot (`PartRef`); the
static table of MIDI channels is a sequence of sixteen records whose
`player`/`channel` back links are optional indices. A channel's two
per-instrument note masks, 32-bit words with bit `k` marking channel `k`
(`s_channelMask[k]` is `1 << k`), are kept as the set of those bit
positions. Every operation is a pure function from state to state; what the
source would send to the MIDI transport is appended to an event log.

Modules, one per concern:

- `ImuseState` (`imuse_state.dfy`): constants, the arena records, and
  well-formedness (every index link points into its table).
- `ImusePause` (`imuse_pause.dfy`): `ImPause`, `ImResume`, their MIDI and
  digital-sound primitives, and the lock counter.
- `GroupVolume` (`group_volume.dfy`): the configured and resolved tables,
  `ImGetGroupVolume` and the table update of `ImSetGroupVol`.
- `ChannelPool` (`channel_pool.dfy`): `ImGetFreeMidiChannel`,
  `ImAssignMidiChannel`, `ImMidiChannelSetVolume`, `ImResetSoundChannel`,
  `ImFreeMidiChannel`.
- `Allocator` (`allocator.dfy`): `ImMidiSetupParts`.
- `Propagation` (`propagation.dfy`): `ImHandleChannelVolumeChange`,
  `ImHandleChannelGroupVolume` and the whole of `ImSetGroupVol`.

`ImMidiSetupParts` restarts its scan from the head of the list after every
binding and stops only when a pass finds no candidate. When a pass finds a
candidate but the pool is empty, the binding is a no-op and, if the pass
changed nothing else, the next pass repeats it exactly, so the source never
returns. The model does not loop there: it returns `Spins` with the state
the source is stuck in, and proves (`SetupPartsSpins`) that this is exactly
such a state. In every other case it proves that the loop ends, by the
measure "idle parts plus free pool channels", which every pass that
changes anything strictly decreases. No fuel bound is needed.

Behaviour of the code that the model keeps as written:

- Setting a non-master group resolves it as `((cfg[master] + 1) * vol) >> 7`
  while setting the master resolves group `i` as `((cfg[i] + 1) * vol) >> 7`:
  the `+ 1` sits on different operands, so the resolved table depends on the
  order of the calls (`GroupVolume.SetOrderMatters`), and a non-master set
  keeps the tables coherent only where the two formulas agree
  (`GroupVolume.GroupSetCoherentIff`).
- A part is released when its player's level, its trim or its volume is
  zero, not when its own computed level is zero; a part at level 0 can keep
  its channel (`Propagation.ZeroLevelIsNotSilence`).
- Before any `ImSetGroupVol` call the resolved table holds 127 in every
  entry, the master's included, while the configured table holds 0.
- The shared-part reconciliation always compares with part 0 of the shared
  player, whatever slot is being scanned.
- Where no channel is free the source leaves preemption as a to-do; the
  model invents no eviction and reports the endless loop instead.

## Model

| member | source | states |
|---|---|---|
| ImusePause.SoundPlayerLock | TheForceEngine/TFE_Jedi/IMuse/imuse.cpp:425-428 | the lock count goes up by one and nothing else changes |
| ImusePause.SoundPlayerUnlock | TheForceEngine/TFE_Jedi/IMuse/imuse.cpp:430-436 | the lock count goes down by one, except at zero, where the state is unchanged; nothing else changes |
| ImusePause.UnlockUndoesLock | TheForceEngine/TFE_Jedi/IMuse/imuse.cpp:425-436 | an unlock right after a lock gives back the original state |
| ImusePause.PauseMidi | TheForceEngine/TFE_Jedi/IMuse/imuse.cpp:397-401 | only the MIDI pause flag changes, to 1 |
| ImusePause.ResumeMidi | TheForceEngine/TFE_Jedi/IMuse/imuse.cpp:411-415 | only the MIDI pause flag changes, to 0 |
| ImusePause.PauseDigitalSound | TheForceEngine/TFE_Jedi/IMuse/imuse.cpp:403-409 | only the digital pause flag changes, to 1; the lock taken around the write ends where it began |
| ImusePause.ResumeDigitalSound | TheForceEngine/TFE_Jedi/IMuse/imuse.cpp:417-423 | only the digital pause flag changes, to 0; the lock ends where it began |
| ImusePause.Pause | TheForceEngine/TFE_Jedi/IMuse/imuse.cpp:267-277 | the nesting count always goes up by one and is the value returned; both flags are set only when the count was 0 and are left alone otherwise; the lock is untouched |
| ImusePause.Resume | TheForceEngine/TFE_Jedi/IMuse/imuse.cpp:279-292 | at count 0 nothing changes; otherwise the count goes down by one; the flags are cleared only when the count was 1; the new count is returned |
| ImusePause.PausePreservesConsistent | TheForceEngine/TFE_Jedi/IMuse/imuse.cpp:267-277 | a pause keeps "output is suspended exactly while the count is positive" |
| ImusePause.ResumePreservesConsistent | TheForceEngine/TFE_Jedi/IMuse/imuse.cpp:279-292 | a resume keeps the same invariant |
| ImusePause.ResumeUndoesPause | TheForceEngine/TFE_Jedi/IMuse/imuse.cpp:267-292 | from a consistent state, a resume right after a pause gives back the original state |
| ImusePause.PauseTimesConsistent | TheForceEngine/TFE_Jedi/IMuse/imuse.cpp:267-277 | n pauses keep the invariant and raise the count by exactly n |
| ImusePause.NestedPauseResume | TheForceEngine/TFE_Jedi/IMuse/imuse.cpp:267-292 | pauses nest: n pauses followed by n resumes give back the original state |
| ImusePause.TwoPausesOneResume | TheForceEngine/TFE_Jedi/IMuse/imuse.cpp:267-292 | from the initial state, two pauses and one resume leave MIDI paused with count 1; a second resume gives back the initial state |
| ImusePause.ExtraResumesAreHarmless | TheForceEngine/TFE_Jedi/IMuse/imuse.cpp:279-292 | resumes with nothing paused never take the count below zero and change nothing |
| GroupVolume.GetGroupVolume | TheForceEngine/TFE_Jedi/IMuse/imuse.cpp:457-464 | an argument error exactly for a group past the table; otherwise the group's resolved volume |
| GroupVolume.SetGroupTables | TheForceEngine/TFE_Jedi/IMuse/imuse.cpp:306-321 | the group's configured volume becomes the new one and no other configured entry changes; for the master, its resolved entry becomes 0 and every other group's resolved entry is that group's configured volume scaled by the new volume; for another group, only its resolved entry changes, to the master's configured volume scaled by the new volume |
| GroupVolume.AttenuateBounds | TheForceEngine/TFE_Jedi/IMuse/imuse.cpp:312-321 | scaling by a level in [0,127] never amplifies and never goes negative |
| GroupVolume.MasterSetIsCoherent | TheForceEngine/TFE_Jedi/IMuse/imuse.cpp:308-316 | whatever the tables held, setting the master leaves every resolved entry consistent with the configured table |
| GroupVolume.GroupSetCoherentIff | TheForceEngine/TFE_Jedi/IMuse/imuse.cpp:317-321 | from coherent tables, setting another group keeps them coherent if and only if the master's and the group's two scaling formulas agree |
| GroupVolume.SetOrderMatters | TheForceEngine/TFE_Jedi/IMuse/imuse.cpp:306-321 | master 64 then group 1 at 63 resolves group 1 to 31; the opposite order resolves it to 32 |
| GroupVolume.SetGroupTablesInRange | TheForceEngine/TFE_Jedi/IMuse/imuse.cpp:306-321 | with all entries and the new volume in [0,127], both tables stay in [0,127] |
| GroupVolume.SetGroupTablesIdempotent | TheForceEngine/TFE_Jedi/IMuse/imuse.cpp:306-321 | setting the same group to the same volume twice is the same as setting it once |
| ChannelPool.FreeFrom | TheForceEngine/TFE_Jedi/IMuse/imuse.cpp:588-595 | the first channel from the given index below 15 that serves no player and is no shared part, with every channel passed over taken; none when all are taken |
| ChannelPool.GetFreeMidiChannel | TheForceEngine/TFE_Jedi/IMuse/imuse.cpp:586-596 | none exactly when the pool (channels 0 to 14) has no free channel; otherwise the lowest free one, never channel 15 |
| ChannelPool.MidiChannelSetVolume | TheForceEngine/TFE_Jedi/IMuse/imuse.cpp:630-638 | with no channel or an equal volume nothing changes and nothing is sent; otherwise the channel and its shared channel get the volume, one volume message is sent, and no other field of any channel changes; the idle parts and the pool stay the same |
| ChannelPool.SetVolumeIdempotent | TheForceEngine/TFE_Jedi/IMuse/imuse.cpp:630-638 | setting the same volume a second time changes nothing and sends nothing |
| ChannelPool.Link | TheForceEngine/TFE_Jedi/IMuse/imuse.cpp:605-607 | the part points at the channel, the channel points back at the player and part; the part leaves the idle set and, with a player, the channel leaves the pool |
| ChannelPool.AssignMidiChannel | TheForceEngine/TFE_Jedi/IMuse/imuse.cpp:598-618 | a no-op when the part or the channel is missing; otherwise the two-way link is made, the channel takes the part's level as its volume, one volume message is sent exactly when that volume differs from the channel's, and in that case the channel's shared channel takes the same volume while otherwise it keeps its own; no other part changes, the shared channel changes in nothing but its volume, and every other channel is unchanged |
| ChannelPool.NoteOffs | TheForceEngine/TFE_Jedi/IMuse/imuse.cpp:658-671 | one note-off per instrument that has the channel's bit in either mask, in instrument order, and for no other instrument |
| ChannelPool.ClearInstrument | TheForceEngine/TFE_Jedi/IMuse/imuse.cpp:661-670 | the bit leaves the first mask; the second keeps it only when both held it; no other bit moves |
| ChannelPool.FreedChannel | TheForceEngine/TFE_Jedi/IMuse/imuse.cpp:656-671 | sustain 0, every instrument's masks cleared of the channel's bit as above, every other field unchanged |
| ChannelPool.FreeMidiChannel | TheForceEngine/TFE_Jedi/IMuse/imuse.cpp:652-673 | only the freed channel changes: sustain 0, masks cleared, the note-offs of the sounding instruments sent |
| ChannelPool.ResetSoundChannel | TheForceEngine/TFE_Jedi/IMuse/imuse.cpp:640-650 | an idle part leaves the state unchanged; otherwise the channel is freed (sustain 0, its bit cleared from the masks, a note-off sent for every instrument sounding on it, its volume, id and shared channel kept), both directions of the link are cleared, the part becomes idle, no other part or channel changes, and the channel returns to the pool unless it is a shared part or lies past the pool |
| Allocator.SelectBestIsFirstMax | TheForceEngine/TFE_Jedi/IMuse/imuse.cpp:548-555 | the candidate comparison picks the first candidate of highest priority, and none exactly when there are no candidates |
| Allocator.SelectLowestIsLastMin | TheForceEngine/TFE_Jedi/IMuse/imuse.cpp:537-546 | the holder comparison keeps the last holder of lowest priority |
| Allocator.AssignGrows | TheForceEngine/TFE_Jedi/IMuse/imuse.cpp:598-618 | linking a part that is not silent only adds a link: nothing the allocator must keep is disturbed |
| Allocator.ShareStep | TheForceEngine/TFE_Jedi/IMuse/imuse.cpp:504-527 | when the part holds a channel and part 0 of the shared player is idle and eligible, that part 0 is linked to the channel on behalf of the shared player; when the part is idle and eligible and part 0 of the shared player holds a channel, the part is linked to that channel's shared channel; otherwise nothing changes; either way the step only links parts that were idle |
| Allocator.Step | TheForceEngine/TFE_Jedi/IMuse/imuse.cpp:504-556 | a part becomes a candidate, with its priority, only if it was idle and eligible; a part that is not a candidate and is eligible afterwards holds a channel; the tracked candidate and holder stay the selections over the parts seen |
| Allocator.Scan | TheForceEngine/TFE_Jedi/IMuse/imuse.cpp:502-557 | the rest of a pass only links parts and keeps the tracked candidate and holder equal to the selections over the parts seen |
| Allocator.ScanSlot | TheForceEngine/TFE_Jedi/IMuse/imuse.cpp:502-557 | the same for a pass resumed at an existing slot |
| Allocator.NextSlot | TheForceEngine/TFE_Jedi/IMuse/imuse.cpp:502-558 | the slot after the current one in list order, with no slot in between |
| Allocator.ScanExtends | TheForceEngine/TFE_Jedi/IMuse/imuse.cpp:548-555 | a scan keeps the candidates it started with, in place, and only appends |
| Allocator.ScanOrder | TheForceEngine/TFE_Jedi/IMuse/imuse.cpp:500-558 | candidates are collected in list order |
| Allocator.ScanNew | TheForceEngine/TFE_Jedi/IMuse/imuse.cpp:548-555 | every candidate a scan adds was idle and eligible when the scan began, at or after its starting slot, and carries its priority of then |
| Allocator.ScanNoneServed | TheForceEngine/TFE_Jedi/IMuse/imuse.cpp:528-556 | a scan that adds no candidate leaves every eligible part it walked over holding a channel |
| Allocator.ScanAllCandidates | TheForceEngine/TFE_Jedi/IMuse/imuse.cpp:500-558 | a whole pass collects in list order only parts idle and eligible at its start; collecting none means every eligible part holds a channel |
| Allocator.RunPass | TheForceEngine/TFE_Jedi/IMuse/imuse.cpp:500-582 | a pass, binding included, only links parts, and its scan either changes nothing or links an idle part |
| Allocator.PassCandidates | TheForceEngine/TFE_Jedi/IMuse/imuse.cpp:500-582 | the candidates are parts idle and eligible at the start of the pass, in list order, with their priorities of then; the chosen part is the first of highest priority among the collected candidates; with none chosen, nothing is bound and every eligible part holds a channel |
| Allocator.ScanCollects | TheForceEngine/TFE_Jedi/IMuse/imuse.cpp:502-557 | every part at or after the starting slot that is idle and eligible when the scan ends was collected as a candidate |
| Allocator.CollectStep | TheForceEngine/TFE_Jedi/IMuse/imuse.cpp:528-556 | one slot's step keeps that property: the part at the slot, if still idle and eligible at the end, was collected there |
| Allocator.BestOutranks | TheForceEngine/TFE_Jedi/IMuse/imuse.cpp:548-555 | a collected part is outranked by, or ties with, the chosen candidate |
| Allocator.ScanAllOutranks | TheForceEngine/TFE_Jedi/IMuse/imuse.cpp:500-558 | every part idle and eligible when a whole-list scan ends was collected, and the chosen candidate's priority is at least its priority |
| Allocator.PassOutranksWaiting | TheForceEngine/TFE_Jedi/IMuse/imuse.cpp:500-582 | the part a pass chooses outranks, or ties with, every part still idle and eligible when the pass's scan ends |
| Allocator.EligibleIsAudible | TheForceEngine/TFE_Jedi/IMuse/imuse.cpp:548 | a part is eligible for the allocator exactly when it is active and the volume code would not release it |
| Allocator.PassBinding | TheForceEngine/TFE_Jedi/IMuse/imuse.cpp:561-575 | binding happens only after the whole list: the chosen part takes the lowest free channel, which leaves the pool; with no free channel the binding changes nothing |
| Allocator.Bind | TheForceEngine/TFE_Jedi/IMuse/imuse.cpp:563-575 | with a free channel the chosen part is linked to it, the channel points back at the part and the part's own player, and the pool loses exactly that channel; without one nothing changes |
| Allocator.PassMeasure | TheForceEngine/TFE_Jedi/IMuse/imuse.cpp:561-582 | a pass that chooses a part and either binds it or changes anything strictly lowers idle parts plus free pool channels, so the restart loop ends |
| Allocator.SetupParts | TheForceEngine/TFE_Jedi/IMuse/imuse.cpp:491-584 | the allocator keeps every index link inside its table |
| Allocator.SetupLoop | TheForceEngine/TFE_Jedi/IMuse/imuse.cpp:500-583 | the same for the loop from the head of the list |
| Allocator.SetupPartsGrows | TheForceEngine/TFE_Jedi/IMuse/imuse.cpp:491-584 | the allocator only links idle, non-silent parts to channels and never takes a channel away or returns one to the pool; when it returns, every eligible part holds a channel |
| Allocator.SetupPartsSpins | TheForceEngine/TFE_Jedi/IMuse/imuse.cpp:561-582 | the allocator gives up only on a state where an eligible part waits, no channel is free, and a pass comes back to the same state, so the source loops forever |
| Allocator.SetupPartsSpinsAt | TheForceEngine/TFE_Jedi/IMuse/imuse.cpp:561-582 | running the allocator again on the state it gave up on gives up at once, on the same state |
| Allocator.SpinsAtIsStuck | TheForceEngine/TFE_Jedi/IMuse/imuse.cpp:561-582 | a state the allocator gives up on at once is one the source loops on forever |
| Allocator.StuckWitness | TheForceEngine/TFE_Jedi/IMuse/imuse.cpp:561-582 | a pass with a candidate, no free channel and no change is a state the source never leaves |
| Propagation.PartLevelBounds | TheForceEngine/TFE_Jedi/IMuse/imuse.cpp:474-476 | with part volume and trim in [0,127], a part's level lies between 0 and its player's level |
| Propagation.SilentLevelIsZero | TheForceEngine/TFE_Jedi/IMuse/imuse.cpp:474-480 | in the MIDI range a part whose player level, trim or volume is zero has level 0, so a part with a nonzero level is never silent |
| Propagation.PlayerLevelBounds | TheForceEngine/TFE_Jedi/IMuse/imuse.cpp:443-445 | with the player's volume and its group's resolved volume in [0,127], the player's level lies between 0 and the resolved volume |
| Propagation.ZeroLevelIsNotSilence | TheForceEngine/TFE_Jedi/IMuse/imuse.cpp:474-487 | a part with volume 1 and trim 1 under a player at level 1 gets level 0 and still keeps its channel: the release test does not look at the part's level |
| Propagation.VolumeStep | TheForceEngine/TFE_Jedi/IMuse/imuse.cpp:474-487 | the volume step keeps every link in its table and leaves alone every input of the mixer |
| Propagation.VolumeStepHere | TheForceEngine/TFE_Jedi/IMuse/imuse.cpp:474-487 | the part's level follows its volume, trim and player level; a silent part loses its channel, which is freed and unlinked; a kept channel gets the level as its volume; the allocator runs next exactly unless the part is silent and idle |
| Propagation.VolumeStepOther | TheForceEngine/TFE_Jedi/IMuse/imuse.cpp:474-487 | the volume step touches no other part |
| Propagation.HandleChannelVolumeChange | TheForceEngine/TFE_Jedi/IMuse/imuse.cpp:466-489 | a volume change keeps the state ready for propagation, the number of players and the tables |
| Propagation.HandleInputs | TheForceEngine/TFE_Jedi/IMuse/imuse.cpp:466-489 | a volume change, allocator included, keeps every input of the mixer |
| Propagation.HandleSpins | TheForceEngine/TFE_Jedi/IMuse/imuse.cpp:466-489 | a volume change that does not return stops on a state the allocator gives up on at once |
| Propagation.HandleHere | TheForceEngine/TFE_Jedi/IMuse/imuse.cpp:466-489 | after the change, the part's level follows its inputs and, if it is silent, it holds no channel |
| Propagation.HandlePart | TheForceEngine/TFE_Jedi/IMuse/imuse.cpp:466-489 | a change on one part keeps every other part's level and silence property |
| Propagation.HandleHeader | TheForceEngine/TFE_Jedi/IMuse/imuse.cpp:466-489 | a change on one part leaves every player header alone |
| Propagation.HandleCover | TheForceEngine/TFE_Jedi/IMuse/imuse.cpp:466-489 | after a change that returns, every eligible part outside the ones still to visit holds a channel, or no allocator has run and every part visited is silent |
| Propagation.SetPlayerLevel | TheForceEngine/TFE_Jedi/IMuse/imuse.cpp:443-445 | setting a player's level keeps the state ready for propagation, the number of players and the tables |
| Propagation.PlayerLevelSet | TheForceEngine/TFE_Jedi/IMuse/imuse.cpp:443-445 | only the player's level changes, and it then follows the player's volume and group |
| Propagation.HandleChannelGroupVolume | TheForceEngine/TFE_Jedi/IMuse/imuse.cpp:438-455 | the propagation keeps the number of players (its guarantees are the three lemmas below) |
| Propagation.GroupVolumeKeepsInputs | TheForceEngine/TFE_Jedi/IMuse/imuse.cpp:438-455 | a propagation changes only levels and channel links: the tables and every setting stay |
| Propagation.GroupVolumeMixes | TheForceEngine/TFE_Jedi/IMuse/imuse.cpp:438-455 | a propagation that returns leaves every player's and part's level following its inputs, every silent part without a channel and every eligible part with one |
| Propagation.GroupVolumeSpins | TheForceEngine/TFE_Jedi/IMuse/imuse.cpp:438-455 | a propagation that does not return stops on a state the source's allocator loops on forever |
| Propagation.SetGroupVol | TheForceEngine/TFE_Jedi/IMuse/imuse.cpp:294-326 | an argument error exactly for a group past the table or a volume above 127 |
| Propagation.SetGroupVolQuery | TheForceEngine/TFE_Jedi/IMuse/imuse.cpp:296-305 | a rejected call and a query (volume -1) change nothing; a query answers the configured volume |
| Propagation.SetGroupVolMixes | TheForceEngine/TFE_Jedi/IMuse/imuse.cpp:306-325 | a valid set answers the previous configured volume, installs the updated tables and, when the propagation returns, leaves every level following the new tables and every eligible part with a channel |
| Propagation.SetThenQuery | TheForceEngine/TFE_Jedi/IMuse/imuse.cpp:294-326 | a query right after a valid set answers the volume just set |

## Left out

- The API functions that are stubs returning the not-implemented code (`ImTerminate`, `ImStartSound` and the rest): they have no behaviour to model.
- `_ImNoteOff` and `ImSendMidiMsg_`, which are stubs: the model records the note-off and volume messages they would send in an event log and does not encode MIDI.
- The error log and `assert(0)` for a part with zero output channels: a nonzero count is a precondition of propagation (`Propagation.VolumeReady`).
- Propagation.HandleChannelGroupVolume: a player's group must lie in the table; for a group past it the source would use `ImGetGroupVolume`'s error code as a volume, and that code's value is defined in `imuse.h`, which is not part of this model.
- Propagation.SetGroupVol: a negative group is excluded by the type, since the source would index before the tables; volumes below -1 are stored as given, as in the source.
- Propagation.SetGroupVol: the commented-out call after the propagation is not modelled.
- The `IM_TODO` preemption branch: when no channel is free nothing is evicted; the endless loop that follows is reported as `Spins`.
- Allocator.SetupParts, Allocator.SetupLoop: their own contracts state only well-formedness; what the loop guarantees is stated by `SetupPartsGrows`, `SetupPartsSpins` and `SetupPartsSpinsAt`.
- Propagation.HandleChannelGroupVolume, Propagation.PropagatePlayers, Propagation.EnterPlayer, Propagation.PropagateParts, Propagation.VisitPart, Propagation.AfterPart: their own contracts state only the player count; the loops' guarantees are the `Players*` to `After*` lemma families, collected in `GroupVolumeKeepsInputs`, `GroupVolumeMixes` and `GroupVolumeSpins`.
- The dead variables `r`, `prevPlayer` and `prevPlayer2` of the allocator, and the fields no modelled function reads or writes (pan, pitch, program, note request and the like).
- The unused records `PlayerData`, `InstrumentSound` and `ImSoundFader`.
- The 32-bit width of the source's integers: the products overflow only for inputs far outside the MIDI range, so no wrap-around is modelled.
- Threading: the lock is a counter and nothing runs concurrently.
- The sound-player list: the head pointer `s_soundPlayerList` starts as null and nothing in the code modelled assigns it (`ImInitialize` is a stub), so as written `ImHandleChannelGroupVolume` and `ImMidiSetupParts` would dereference null; the model assumes the head is set up elsewhere and points at a list, which `Mixer.players` holds.
- Mask aliasing: the source holds each channel's two instrument masks through `s32*` pointers whose targets are set up outside the code modelled; the model assumes every channel owns its own two tables, so freeing one channel never changes another channel's masks.
- GroupVolume.Reply: the source returns an error code and a stored volume in the same `s32`, so a volume below -1 stored by `ImSetGroupVol` could read back as `imArgErr`; the model keeps the two apart.
- ImuseState.WellFormed: every channel's `sharedMidiChannel` is a valid channel; the source dereferences it without a check in `ImMidiChannelSetVolume`, so a null link there is outside the behaviour it defines.
- The binding at the end of a pass does not re-check that the chosen part is still idle; the model, like the source, links it as recorded.
