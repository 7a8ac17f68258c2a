/** Helpers shared by the play and watch notes (mania/common/note.py): which bucket,
    sprite and particle a variant uses, the on-screen culling of bodies and
    connectors, the option-gated hit sounds and particles, and the handle of the
    looping hold particle. Drawing, sounds and particles are foreign calls; here
    they are values of `Event` appended to an output trace. */
module Common {

  datatype Option<T> = None | Some(value: T)

  /** Note variants, as used across the play and watch modes. */
  /** Start time standing in for an absent predecessor or sim note (1e8). */
  const NoRefStartTime: real := 100000000.0

  datatype Variant =
    | Single | HoldStart | HoldEnd | HoldTick | HoldAnchor
    | Flick | DirectionalFlick | Swing

  datatype Judgment = Perfect | Great | Good | Miss

  /** A closed time interval. */
  datatype Interval = Interval(start: real, end: real) {
    predicate Contains(t: real) {
      start <= t <= end
    }

    function Shift(d: real): (r: Interval)
      ensures forall t :: r.Contains(t) <==> Contains(t - d)
    {
      Interval(start + d, end + d)
    }
  }

  /** The library's tiered judgment window; only `good` is read by the core. */
  datatype JudgmentWindow = JudgmentWindow(perfect: Interval, great: Interval, good: Interval)

  /** Tier thresholds are library code: `judge(window, actual, target)` is a parameter. */
  type Judge = (JudgmentWindow, real, real) -> Judgment

  datatype Bucket = TapBucket | HoldStartBucket | HoldEndBucket
  datatype Sprite = TapSprite | HoldStartSprite | HoldEndSprite | ConnectorSprite
  datatype Particle = TapParticle | HoldNoteParticle | HoldParticle | LaneParticle
  datatype Sfx = PerfectSfx | GreatSfx | GoodSfx

  datatype Options = Options(
    sfxEnabled: bool,
    autoSfx: bool,
    noteEffectEnabled: bool,
    laneEffectEnabled: bool,
    autoReleaseHolds: bool,
    mirror: bool)

  /** The two layout bounds the culling checks read. */
  datatype Layout = Layout(minSafeY: real, laneLength: real)

  /** A lane position, reduced to one coordinate. */
  type Pos = real

  function Lerp(a: Pos, b: Pos, p: real): Pos {
    a + (b - a) * p
  }

  function Unlerp(a: real, b: real, x: real): (p: real)
    ensures a != b ==> Lerp(a, b, p) == x
  {
    if a == b then 0.0 else (x - a) / (b - a)
  }

  datatype ParticleLayout = NoteParticleLayout(pos: Pos, scale: real) | LaneLayout(pos: Pos)

  datatype Event =
    | Draw(sprite: Sprite, pos: Pos, y: real)
    | DrawConnector(sprite: Sprite, pos: Pos, y: real, prevPos: Pos, prevY: real)
    | DrawSimLine(pos: Pos, y: real, simPos: Pos, simY: real)
    | PlaySfx(sfx: Sfx)
    | ScheduleSfx(sfx: Sfx, at: real)
    | SpawnParticle(particle: Particle, layout: ParticleLayout, duration: real, loop: bool)
    | MoveParticle(handle: int, layout: ParticleLayout)
    | DestroyParticle(handle: int)

  // ---------------------------------------------------------------------------
  // Variant tables: a tap default, overridden for the listed variants.

  /** Every variant is judged with the same window. */
  function NoteWindow(variant: Variant, window: JudgmentWindow): (w: JudgmentWindow)
    ensures w == window
  {
    window
  }

  function NoteBucket(variant: Variant): (b: Bucket)
    ensures b == HoldStartBucket <==> variant == HoldStart
    ensures b == HoldEndBucket <==> variant == HoldEnd
    ensures b == TapBucket <==> variant !in {HoldStart, HoldEnd}
  {
    match variant
    case Single => TapBucket
    case HoldStart => HoldStartBucket
    case HoldEnd => HoldEndBucket
    case _ => TapBucket
  }

  function NoteBodySprite(variant: Variant): (s: Sprite)
    ensures s == HoldStartSprite <==> variant == HoldStart
    ensures s == HoldEndSprite <==> variant == HoldEnd
    ensures s == TapSprite <==> variant !in {HoldStart, HoldEnd}
  {
    match variant
    case Single => TapSprite
    case HoldStart => HoldStartSprite
    case HoldEnd => HoldEndSprite
    case _ => TapSprite
  }

  /** The head of a hold is always drawn with the hold-start sprite. */
  function NoteHeadSprite(variant: Variant): (s: Sprite)
    ensures s == HoldStartSprite
  {
    HoldStartSprite
  }

  function NoteConnectorSprite(variant: Variant): (s: Sprite)
    ensures s == ConnectorSprite
  {
    ConnectorSprite
  }

  /** Hold starts and hold ends share the hold-note particle. */
  function NoteParticle(variant: Variant): (p: Particle)
    ensures p == HoldNoteParticle <==> variant in {HoldStart, HoldEnd}
    ensures p == TapParticle <==> variant !in {HoldStart, HoldEnd}
  {
    match variant
    case Single => TapParticle
    case HoldStart => HoldNoteParticle
    case HoldEnd => HoldNoteParticle
    case _ => TapParticle
  }

  function NoteHoldParticle(variant: Variant): (p: Particle)
    ensures p == HoldParticle
  {
    HoldParticle
  }

  // ---------------------------------------------------------------------------
  // Culling

  /** A body is drawn exactly when its y lies in [min_safe_y, lane_length]. */
  function DrawNoteBody(layout: Layout, sprite: Sprite, pos: Pos, y: real): (ev: seq<Event>)
    ensures ev != [] <==> layout.minSafeY <= y <= layout.laneLength
    ensures forall e :: e in ev ==> e == Draw(sprite, pos, y)
    ensures |ev| <= 1
  {
    if !(layout.minSafeY <= y <= layout.laneLength) then [] else [Draw(sprite, pos, y)]
  }

  /** A connector is suppressed exactly when both ends are below min_safe_y or both
      are above lane_length. */
  function DrawNoteConnector(layout: Layout, sprite: Sprite, pos: Pos, y: real, prevPos: Pos, prevY: real): (ev: seq<Event>)
    ensures ev == [] <==>
      (prevY < layout.minSafeY && y < layout.minSafeY) || (prevY > layout.laneLength && y > layout.laneLength)
    ensures forall e :: e in ev ==> e == DrawConnector(sprite, pos, y, prevPos, prevY)
    ensures |ev| <= 1
  {
    if prevY < layout.minSafeY && y < layout.minSafeY then []
    else if prevY > layout.laneLength && y > layout.laneLength then []
    else [DrawConnector(sprite, pos, y, prevPos, prevY)]
  }

  /** Corollary of the culling condition of DrawNoteConnector: a drawn connector always has
      one end in the visible band or spans across it. */
  lemma ConnectorVisibleSpan(layout: Layout, sprite: Sprite, pos: Pos, y: real, prevPos: Pos, prevY: real)
    requires layout.minSafeY <= layout.laneLength
    requires DrawNoteConnector(layout, sprite, pos, y, prevPos, prevY) != []
    ensures (layout.minSafeY <= y || layout.minSafeY <= prevY) && (y <= layout.laneLength || prevY <= layout.laneLength)
  {
  }

  // ---------------------------------------------------------------------------
  // Sounds and particles

  /** The sound of a judgment: none for a miss. */
  function SfxFor(j: Judgment): (s: Option<Sfx>)
    ensures s.None? <==> j == Miss
    ensures j == Perfect ==> s == Some(PerfectSfx)
    ensures j == Great ==> s == Some(GreatSfx)
    ensures j == Good ==> s == Some(GoodSfx)
  {
    match j
    case Perfect => Some(PerfectSfx)
    case Great => Some(GreatSfx)
    case Good => Some(GoodSfx)
    case _ => None
  }

  /** Live hit sound: silent when sfx is off, when auto sfx plays it instead, or on a miss. */
  function PlayHitSfx(opts: Options, j: Judgment): (ev: seq<Event>)
    ensures ev != [] <==> opts.sfxEnabled && !opts.autoSfx && j != Miss
    ensures ev != [] ==> ev == [PlaySfx(SfxFor(j).value)]
  {
    if !opts.sfxEnabled || opts.autoSfx then []
    else match SfxFor(j)
      case Some(s) => [PlaySfx(s)]
      case None => []
  }

  /** Scheduled hit sound: silent when sfx is off or on a miss. */
  function ScheduleHitSfx(opts: Options, j: Judgment, at: real): (ev: seq<Event>)
    ensures ev != [] <==> opts.sfxEnabled && j != Miss
    ensures ev != [] ==> ev == [ScheduleSfx(SfxFor(j).value, at)]
  {
    if !opts.sfxEnabled then []
    else match SfxFor(j)
      case Some(s) => [ScheduleSfx(s, at)]
      case None => []
  }

  /** Auto sfx schedules the sound at the target time, and only when enabled. */
  function ScheduleAutoHitSfx(opts: Options, j: Judgment, at: real): (ev: seq<Event>)
    ensures !opts.autoSfx ==> ev == []
    ensures opts.autoSfx ==> ev == ScheduleHitSfx(opts, j, at)
  {
    if !opts.autoSfx then [] else ScheduleHitSfx(opts, j, at)
  }

  /** Live play and scheduled auto sound never both sound the same hit. */
  lemma HitSfxExclusive(opts: Options, j: Judgment, at: real)
    ensures PlayHitSfx(opts, j) == [] || ScheduleAutoHitSfx(opts, j, at) == []
  {
  }

  /** The note particle (when note effects are on) then the lane particle (when lane effects are on). */
  function PlayHitParticle(opts: Options, particle: Particle, pos: Pos): (ev: seq<Event>)
    ensures |ev| == (if opts.noteEffectEnabled then 1 else 0) + (if opts.laneEffectEnabled then 1 else 0)
    ensures opts.noteEffectEnabled ==> ev[0] == SpawnParticle(particle, NoteParticleLayout(pos, 0.6), 0.5, false)
    ensures opts.laneEffectEnabled ==> ev[|ev| - 1] == SpawnParticle(LaneParticle, LaneLayout(pos), 0.2, false)
  {
    (if opts.noteEffectEnabled then [SpawnParticle(particle, NoteParticleLayout(pos, 0.6), 0.5, false)] else [])
    + (if opts.laneEffectEnabled then [SpawnParticle(LaneParticle, LaneLayout(pos), 0.2, false)] else [])
  }

  /** Live hit effects: the gated sound followed by the particles. */
  function PlayHitEffects(opts: Options, particle: Particle, pos: Pos, j: Judgment): (ev: seq<Event>)
    ensures ev == PlayHitSfx(opts, j) + PlayHitParticle(opts, particle, pos)
    ensures forall e :: e in ev ==> e.PlaySfx? || e.SpawnParticle?
    ensures j == Miss ==> forall e :: e in ev ==> e.SpawnParticle?
  {
    PlayHitSfx(opts, j) + PlayHitParticle(opts, particle, pos)
  }

  /** Watch-mode hit effects are particles only; the sound was scheduled at preprocess. */
  function PlayWatchHitEffects(opts: Options, particle: Particle, pos: Pos): (ev: seq<Event>)
    ensures forall e :: e in ev ==> e.SpawnParticle?
    ensures ev == PlayHitParticle(opts, particle, pos)
  {
    PlayHitParticle(opts, particle, pos)
  }

  function ScheduleWatchHitEffects(opts: Options, at: real, j: Judgment): (ev: seq<Event>)
    ensures forall e :: e in ev ==> e.ScheduleSfx? && e.at == at
    ensures ev == ScheduleHitSfx(opts, j, at)
  {
    ScheduleHitSfx(opts, j, at)
  }

  // ---------------------------------------------------------------------------
  // Hold particle handle; handle id 0 means no particle.

  /** The handle id after an update that, if it spawns, receives `spawned` from the particle system. */
  function HoldUpdatedId(id: int, enabled: bool, spawned: int): (r: int)
    ensures !enabled ==> r == id
    ensures enabled && id != 0 ==> r == id
    ensures enabled && id == 0 ==> r == spawned
  {
    if !enabled then id else if id == 0 then spawned else id
  }

  /** An update spawns a looping particle when there is none and otherwise moves it. */
  function HoldUpdateEvents(id: int, enabled: bool, particle: Particle, pos: Pos): (ev: seq<Event>)
    ensures ev == [] <==> !enabled
    ensures enabled && id == 0 ==> ev == [SpawnParticle(particle, NoteParticleLayout(pos, 0.4), 1.0, true)]
    ensures enabled && id != 0 ==> ev == [MoveParticle(id, NoteParticleLayout(pos, 0.4))]
  {
    if !enabled then []
    else if id == 0 then [SpawnParticle(particle, NoteParticleLayout(pos, 0.4), 1.0, true)]
    else [MoveParticle(id, NoteParticleLayout(pos, 0.4))]
  }

  /** Destroying emits a destroy only for a live handle. */
  function HoldDestroyEvents(id: int): (ev: seq<Event>)
    ensures ev == [] <==> id == 0
    ensures id != 0 ==> ev == [DestroyParticle(id)]
  {
    if id != 0 then [DestroyParticle(id)] else []
  }

  /** Destroying twice has the effects of destroying once. */
  lemma HoldDestroyIdempotent(id: int)
    ensures HoldDestroyEvents(id) + HoldDestroyEvents(0) == HoldDestroyEvents(id)
  {
  }

  class HoldHandle {
    var id: int

    constructor ()
      ensures id == 0
    {
      id := 0;
    }

    method Update(opts: Options, particle: Particle, pos: Pos, spawned: int) returns (ev: seq<Event>)
      modifies this
      ensures id == HoldUpdatedId(old(id), opts.noteEffectEnabled, spawned)
      ensures ev == HoldUpdateEvents(old(id), opts.noteEffectEnabled, particle, pos)
    {
      if !opts.noteEffectEnabled {
        return [];
      }
      if id == 0 {
        ev := [SpawnParticle(particle, NoteParticleLayout(pos, 0.4), 1.0, true)];
        id := spawned;
      } else {
        ev := [MoveParticle(id, NoteParticleLayout(pos, 0.4))];
      }
    }

    method Destroy() returns (ev: seq<Event>)
      modifies this
      ensures id == 0
      ensures ev == HoldDestroyEvents(old(id))
    {
      ev := [];
      if id != 0 {
        ev := [DestroyParticle(id)];
        id := 0;
      }
    }
  }
}
