# Mania note judgment and replay core, in Dafny

This project is a model of the per-note logic of a Sonolus rhythm-game engine (the
"mania" engine). Three source files are modelled, each as one Dafny module:

- `mania/play/note.py` (module `Play`, file `play_note.dfy`): the live note.
  - Spawn time, and the two auto-despawn rules: the input window has closed, or the
    predecessor despawned without a touch.
  - The gate on the predecessor: a note with a live predecessor ignores input.
  - The tap, release and hold input handlers. Each ends in `complete` (a judgment
    from the window, with the hit effects) or `fail` (a miss).
- `mania/watch/note.py` (module `Watch`, file `watch_note.dfy`): the watch-mode note.
  - It replays a recorded judgment, accuracy and finish time.
  - Outside a replay it shows a perfect play.
  - It walks at most 20 predecessors back along the hold chain to decide where a
    connector starts. The sim line and the effects on termination are gated.
- `mania/common/note.py` (module `Common`, file `common.dfy`): the shared helpers.
  - Which bucket, sprite and particle each variant uses, with a tap default.
  - On-screen culling of bodies and connectors.
  - Sound and particle gating by the options.
  - The handle of the looping hold particle (id 0 means none).

How things are represented:

- Drawing, particles and sounds are foreign calls. They are `Common.Event` values, and
  every operation returns the sequence of events it emits. This lets contracts say when
  a sprite is drawn or a sound plays.
- Each note is a class. Preprocessing fills its derived data. Its per-frame state lives
  in fields that the handler methods change.
- Every handler method is proved equal to a pure decision function (`Play.TapReaction`,
  `Play.ReleaseReaction`, `Play.HoldReaction`). The lemmas about those functions state
  what the handlers promise.
- Play-mode methods get the predecessor entity from the caller (`prev`).
- Watch-mode notes sit in an arena `map<nat, Note>` keyed by entity index, and the
  connector walk follows `prevRef` through it. Index 0 stands for "no reference".
- Times are `real` and compared exactly.
- Things decided outside the core are parameters: the judgment window's tiers
  (`judge`), the tempo track (`beatToTime`), the lane layout (`laneToPos`), the
  playback state (`replay`), the options, the input offset, and the id the particle
  system hands back for a spawned particle.

Behaviour of the code that the model keeps as written:

- The tap handler checks the current frame time against the input window. It does not
  check the touch's start time.
- A note that despawns because its window closed, or because its predecessor was
  missed, gets no result written (`result` stays `None`). It is not assigned a miss.
- The shared variant enumeration lists only `SINGLE`, `HOLD_START` and `HOLD_END`, but
  play and watch also use `HOLD_TICK`, `HOLD_ANCHOR`, `FLICK`, `DIRECTIONAL_FLICK` and
  `SWING`. `Common.Variant` has all eight, and the shared tables send every unlisted
  variant to the tap default.
- The watch note calls the body-sprite and particle tables with a direction argument
  that the shared definitions do not take. The model uses the shared one-argument
  tables.
- Play mode interpolates the connector head without clamping; watch mode clamps the
  progress at 0. The model keeps both as written.

## Model

| member | source | states |
|---|---|---|
| Common.NoteWindow | mania/common/note.py:31-32 | every variant is judged with the same window |
| Common.NoteBucket | mania/common/note.py:35-44 | hold start and hold end get their own buckets; every other variant gets the tap bucket |
| Common.NoteBodySprite | mania/common/note.py:47-56 | hold start and hold end get their own sprites; every other variant gets the tap sprite |
| Common.NoteHeadSprite | mania/common/note.py:59-60 | the head is always the hold-start sprite |
| Common.NoteConnectorSprite | mania/common/note.py:63-64 | the connector sprite is the same for every variant |
| Common.NoteParticle | mania/common/note.py:67-76 | hold start and hold end share the hold-note particle; every other variant gets the tap particle |
| Common.NoteHoldParticle | mania/common/note.py:79-80 | the hold particle is the same for every variant |
| Common.DrawNoteBody | mania/common/note.py:83-91 | a body is drawn (once) exactly when min_safe_y <= y <= lane_length |
| Common.DrawNoteConnector | mania/common/note.py:94-111 | a connector is suppressed exactly when both ends are below min_safe_y or both are above lane_length |
| Common.ConnectorVisibleSpan | mania/common/note.py:101-103 | a drawn connector has an end at or above min_safe_y and an end at or below lane_length |
| Common.SfxFor | mania/common/note.py:140-148 | perfect, great and good have their own sounds; a miss has none |
| Common.PlayHitSfx | mania/common/note.py:137-148 | the live hit sound plays exactly when sfx is on, auto sfx is off and the judgment is not a miss |
| Common.ScheduleHitSfx | mania/common/note.py:157-168 | a sound is scheduled at the given time exactly when sfx is on and the judgment is not a miss |
| Common.ScheduleAutoHitSfx | mania/common/note.py:151-154 | nothing is scheduled unless auto sfx is on; if it is, this is the ordinary schedule |
| Common.HitSfxExclusive | mania/common/note.py:137-154 | the live sound and the auto sound are never both emitted for one hit |
| Common.PlayHitParticle | mania/common/note.py:171-184 | the note particle (scale 0.6, 0.5 s) when note effects are on, then the lane particle (0.2 s) when lane effects are on |
| Common.PlayHitEffects | mania/common/note.py:114-120 | the gated hit sound, then the hit particles; only sounds and particle spawns, and a miss is never heard |
| Common.PlayWatchHitEffects | mania/common/note.py:123-127 | watch-mode hit effects are particles only |
| Common.ScheduleWatchHitEffects | mania/common/note.py:130-134 | watch mode schedules only the hit sound, at the given time |
| Common.HoldUpdatedId | mania/common/note.py:190-200 | the handle is unchanged when note effects are off or a particle already exists; otherwise it becomes the new particle's id |
| Common.HoldUpdateEvents | mania/common/note.py:190-200 | nothing when note effects are off; a looping particle is spawned when the id is 0, otherwise the existing one is moved |
| Common.HoldHandle.Update | mania/common/note.py:190-200 | the handle id and the emitted events follow HoldUpdatedId and HoldUpdateEvents |
| Common.HoldDestroyEvents | mania/common/note.py:202-205 | destroying emits a destroy exactly when the id is non-zero |
| Common.HoldDestroyIdempotent | mania/common/note.py:202-205 | destroying twice has the effects of destroying once |
| Common.HoldHandle.Destroy | mania/common/note.py:202-205 | the id ends at 0, and a particle is destroyed only if the id was non-zero |
| Common.Interval.Shift | mania/play/note.py:77 | a shifted interval contains t exactly when the original contains t minus the shift |
| Play.Preprocess | mania/play/note.py:74-87 | the target time comes from the tempo track; the input target adds the input offset; the input window is the good window around the input target; has_prev holds exactly when the predecessor index is > 0 |
| Play.PreprocessEvents | mania/play/note.py:89 | preprocessing schedules a perfect sound at the target time exactly when auto sfx and sfx are on |
| Play.PreprocessMonotonic | mania/play/note.py:75-77 | with a monotonic tempo track, a later beat gets a later input window |
| Play.Outcome | mania/play/note.py:249-253 | accuracy is actual minus target time, and the bucket value is the accuracy times 1000 |
| Play.Apply | mania/play/note.py:249-266 | complete records the window's judgment and fail records a miss; both despawn; setting started changes only started; the touch id is untouched |
| Play.HitEvents | mania/play/note.py:254-258 | hit effects fire on complete only, never on fail |
| Play.FindTouch | mania/play/note.py:189-191 | the result is the first touch with the given id, or none when no touch has that id |
| Play.FirstWithIdUnique | mania/play/note.py:189-191 | the first touch with a given id is the one the search finds |
| Play.FirstTap | mania/play/note.py:179 | the result is the first touch that began this frame, is in the hitbox and is unclaimed, or none when there is none |
| Play.TapReaction | mania/play/note.py:176-183 | nothing happens outside the input window or without a tap; otherwise exactly the first tap is claimed and marked used, and the note completes at that tap's start time |
| Play.TapClaimedOnce | mania/play/note.py:179-180 | a second note offered the same frame after a claim cannot claim the same tap |
| Play.TapScenario | mania/play/note.py:176-183 | a tap at 4.02 s on a 4.0 s note claims the touch and completes with accuracy 0.02 |
| Play.ReleaseDecision | mania/play/note.py:185-202 | nothing while the predecessor has no touch; when the touch is gone the note completes or fails at time minus offset, depending on whether the window has opened |
| Play.ReleaseByTouch | mania/play/note.py:189-198 | nothing while the inherited touch lasts; when it ends, complete at the touch's time exactly if the window has opened and the touch is in the hitbox, otherwise fail |
| Play.ReleaseReaction | mania/play/note.py:185-188 | the release handler never takes the touch id |
| Play.HoldTouchDecision | mania/play/note.py:212-242 | started is set only while input start <= time < input target time |
| Play.HoldDecision | mania/play/note.py:204-247 | nothing without an inherited touch; started is set only within the window; when the touch is gone, complete or fail at time minus offset |
| Play.HoldByTouch | mania/play/note.py:212-242 | the five branches in their fixed order: in the hitbox and ended; in the hitbox at the input target; in the hitbox after input start (sets started); out of the hitbox after started (complete at time minus offset); ended outside (fail); otherwise wait |
| Play.HoldSustainedIsExact | mania/play/note.py:219-223 | a started hold still in the hitbox at the input target completes at the target time: accuracy 0 |
| Play.HoldFailsIff | mania/play/note.py:212-247 | a hold fails exactly when its touch ends in the hitbox before the window opens, or ends outside before being started, or is gone before the window opens |
| Play.HoldReaction | mania/play/note.py:204-208 | the hold handler copies the predecessor's non-zero touch id and marks nothing used |
| Play.ReactionResolvesOnce | mania/play/note.py:249-266 | a handler call applies one decision; if it resolves, the note is despawned with accuracy actual minus target; otherwise the result and despawn flag stay |
| Play.TouchRegistry.MarkUsed | mania/play/note.py:180 | the claimed touch is added to the used set |
| Play.Note.PrevStartTime | mania/play/note.py:284-288 | 1e8 without a predecessor, otherwise the predecessor's start time |
| Play.Note.SpawnTime | mania/play/note.py:91-92 | the minimum of the own start time and the predecessor's; a chain head spawns at its own start time |
| Play.Note.ShouldSpawn | mania/play/note.py:97-98 | a note spawns once either its own start time or its predecessor's has come |
| Play.Note.MissedTiming | mania/play/note.py:112-113 | a missed note is outside its input window; before then, every time from the window's start is inside it |
| Play.Note.PrevMissed | mania/play/note.py:115-119 | the predecessor counts as missed exactly when it exists, has despawned and never claimed a touch; a chain head, a live predecessor or one holding a touch never does |
| Play.Note.UpdateParallel | mania/play/note.py:103-119 | a despawned note changes nothing; a note whose window has closed or whose predecessor despawned without a touch despawns without a result or drawing; otherwise it draws its body and connector |
| Play.Note.ConnectorEvents | mania/play/note.py:128-160 | nothing without a predecessor; a connector to the predecessor while it lives; after it despawns, a connector and a head at the judgment line until the target time, then nothing |
| Play.Note.ConnectorHoldId | mania/play/note.py:157-160 | the hold particle is updated only in the interpolated-head branch |
| Play.Note.DrawConnector | mania/play/note.py:128-160 | the events and the hold handle follow ConnectorEvents and ConnectorHoldId |
| Play.Note.TouchReaction | mania/play/note.py:162-174 | nothing while a predecessor exists and has not despawned; only single and hold-start notes can claim a tap; other variants do nothing |
| Play.Note.Touch | mania/play/note.py:162-174 | the gate, then tap, release or hold input by variant and the auto-release option; the new state, the used set and the events follow TouchReaction |
| Play.Note.HandleTapInput | mania/play/note.py:176-183 | the loop over touches ends in the state, used set and events of TapReaction |
| Play.Note.HandleReleaseInput | mania/play/note.py:185-202 | the loop over touches ends in the state and events of ReleaseReaction |
| Play.Note.HandleHoldInput | mania/play/note.py:204-247 | the loop over touches ends in the state and events of HoldReaction; started becomes true only inside the window |
| Play.Note.HoldOnTouch | mania/play/note.py:212-243 | the branches for the found touch end in the state and events of HoldTouchDecision |
| Play.Note.Complete | mania/play/note.py:249-259 | records the window's judgment, accuracy and bucket value, plays the hit effects, and despawns |
| Play.Note.Fail | mania/play/note.py:261-266 | records a miss with accuracy and bucket value, with no effects, and despawns |
| Play.Note.Terminate | mania/play/note.py:268-270 | destroys the hold particle and records the finish time |
| Watch.FirstUnfinished | mania/watch/note.py:148-157 | a found note has not finished by now |
| Watch.FirstUnfinishedIsFirst | mania/watch/note.py:148-157 | a found note is an ancestor fewer than 20 hops back, starting at the predecessor, and every ancestor before it finished |
| Watch.NoneMeansAllFinished | mania/watch/note.py:148-159 | when nothing is found, every inspected ancestor had finished |
| Watch.FirstUnfinishedFinds | mania/watch/note.py:148-157 | an unfinished ancestor within the bound, with every nearer one finished, is what the walk finds |
| Watch.AllFinishedMeansNone | mania/watch/note.py:150-159 | a walk over finished ancestors finds nothing |
| Watch.LongFinishedChainFallsBack | mania/watch/note.py:150-159 | with 20 finished ancestors, a live note further back is not found |
| Watch.Note.Preprocess | mania/watch/note.py:84-115 | mirror negates lane and direction; derived fields come from the shared tables; bucket value is accuracy times 1000 in a replay and 0 otherwise; hold anchors schedule no sound |
| Watch.Note.Mirror | mania/watch/note.py:85-87 | the mirror option negates both lane and direction |
| Watch.Note.Derive | mania/watch/note.py:89-102 | position, target time, window, bucket, sprites, particles, has_prev, has_sim and note times |
| Watch.Note.DeriveTimes | mania/watch/note.py:89-102 | has_prev and has_sim hold exactly when their indices are > 0 |
| Watch.Note.DeriveLooks | mania/watch/note.py:91-98 | window, bucket, sprites and particles come from the shared tables |
| Watch.Note.RecordResult | mania/watch/note.py:104-115 | bucket value from the recorded accuracy in a replay, 0 otherwise; the scheduled sound follows ScheduledEffects |
| Watch.Note.ScheduledEffects | mania/watch/note.py:106-115 | hold anchors schedule no hit sound; a replay schedules the recorded judgment at the finish time; otherwise a perfect at the target time |
| Watch.Note.DespawnTime | mania/watch/note.py:120-124 | the finish time in a replay, the target time otherwise |
| Watch.Note.PrevStartTime | mania/watch/note.py:245-249 | 1e8 without a predecessor, otherwise its start time |
| Watch.Note.SimStartTime | mania/watch/note.py:255-259 | 1e8 without a sim note, otherwise its start time |
| Watch.Note.SpawnTime | mania/watch/note.py:117-118 | the minimum of the own, predecessor and sim start times |
| Watch.Note.FindConnectorRef | mania/watch/note.py:148-159 | the bounded loop returns the first unfinished ancestor, or "finished" with the immediate predecessor |
| Watch.Note.PlanConnector | mania/watch/note.py:145-195 | with an unfinished ancestor, a connector to it; all finished before the target time: clamped progress >= 0; all finished after it: a head unless the note is a hold end |
| Watch.Note.ConnectorToLiveAncestor | mania/watch/note.py:158-168 | a live ancestor within 20 hops, with every nearer one finished, becomes the connector target |
| Watch.Note.ConnectorFallsBackOnLongChain | mania/watch/note.py:158-189 | with 20 finished ancestors the connector is never drawn to an ancestor; before the target time it is drawn from the immediate predecessor |
| Watch.Note.ConnectorEvents | mania/watch/note.py:161-195 | a connector to the ancestor's pos and y; or a connector and a head at y = 0 with the hold particle; or the own head at y = 0; or nothing |
| Watch.Note.DrawConnector | mania/watch/note.py:145-195 | the events follow PlanConnector and ConnectorEvents; the hold particle is updated only in the interpolated-head branch |
| Watch.Note.SimLineEvents | mania/watch/note.py:216-227 | the sim line is drawn exactly when there is a sim note and time < its despawn time |
| Watch.Note.BodyEvents | mania/watch/note.py:137-143 | hold anchors have no body; other notes draw it with culling |
| Watch.Note.UpdateParallel | mania/watch/note.py:131-135 | body, then connector, then sim line; the hold handle changes only in the interpolated-head connector branch, as HoldUpdatedId says |
| Watch.Note.TerminatePlaysParticle | mania/watch/note.py:231 | the particle plays exactly when the note is not a hold anchor and not a replayed miss |
| Watch.Note.Terminate | mania/watch/note.py:229-235 | destroys the hold particle, then plays the particle iff TerminatePlaysParticle |

## Left out

- `convexity/level.py` is not part of this model: it is chart data, file globbing and
  chart conversion, with no logic of the core.
- `mania/play/lane.py` is not part of this model: it only draws the lane and plays
  idle-lane feedback.
- The touch registry module is not part of this model. `taps_in_hitbox` is modelled as
  the touches that began this frame, are in the hitbox and are not in the used set, in
  host order. `mark_touch_used` adds the id to that set. Clearing the set at the start of
  each frame is left out.
- Timescale groups are not part of this model. `get_note_times` enters as the `noteTimes`
  parameter; per-frame `scaled_time` and `note_y` are not modelled.
- `update_sequential` is left out (play lines 100-101, watch lines 126-129). The `y`
  field is taken as already computed for the frame. This includes the watch update of
  the sim note's `y`.
- Watch `draw_arrow` (lines 197-214) is left out: the arrow sprite and arrow drawing
  helpers it calls are not part of this model.
- Hitbox geometry is left out. Each `Play.Touch` carries `inHitbox`, the result of the
  note's hit test for that touch.
- Lane positions are one `real`. `lerp` is `a + (b - a) * p`.
- Common.Unlerp: the source divides by zero when the predecessor's target time equals the
  note's own; the model returns 0 there.
- Layouts, z-ordering, connector alpha, and particle and sound internals are recorded as
  event values only.
- The judgment tiers (`judge`) and the tempo track (`beatToTime`) are uninterpreted
  parameters. `beatToTime` is assumed monotonic only in Play.PreprocessMonotonic.
- `is_despawned` is engine state (field `isDespawned`), set by the engine after a note
  asks to despawn. No method of the model sets it.
- Play.Note.Touch requires a hold tick or hold end to get a predecessor entity. The source
  reads `prev_note_ref.get()` there without checking `has_prev`, so the caller passes
  whatever entity the reference resolves to.
- `spawn_order` equals `spawn_time` and is not modelled separately.
- `UnscoredNote` differs only in its `is_scored` flag, which the core does not read.
- Floating-point rounding: times are exact reals, and 1e8 is the exact real 100000000.
