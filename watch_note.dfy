/** The note of watch mode (mania/watch/note.py): it replays a recorded judgment (or,
    outside a replay, shows a perfect play) and redraws the same visual state,
    including the backward walk along the hold chain that picks where a connector
    starts. Notes live in an arena keyed by entity index; index 0 means no reference. */
module Watch {
  import opened Common

  /** The connector walk inspects at most this many ancestors. */
  const ConnectorHops: nat := 20

  /** How a connector is drawn this frame. */
  datatype ConnectorPlan =
    | NoConnector
      /** to a still unfinished ancestor, at its position and y */
    | ToAncestor(ancestor: nat)
      /** every inspected ancestor finished before the target time: from a head at the
          judgment line, interpolated between the predecessor and this note */
    | Approach(progress: real)
      /** every inspected ancestor finished, at or after the target time: only a head */
    | OwnHead

  function Max(a: real, b: real): (m: real)
    ensures m >= a && m >= b && (m == a || m == b)
  {
    if a >= b then a else b
  }

  /** Every predecessor reference of the arena resolves inside it. */
  predicate Closed(arena: map<nat, Note>)
    reads arena.Values
  {
    forall k :: k in arena ==> arena[k].hasPrev ==> arena[k].prevRef in arena
  }

  /** The `k`-th ancestor of `r` along predecessor links (0 is `r` itself), if the chain is that long. */
  function AncestorAt(arena: map<nat, Note>, r: nat, k: nat): (a: Option<nat>)
    requires r in arena && Closed(arena)
    reads arena.Values
    ensures a.Some? ==> a.value in arena
    decreases k
  {
    if k == 0 then Some(r)
    else if !arena[r].hasPrev then None
    else AncestorAt(arena, arena[r].prevRef, k - 1)
  }

  /** The `k`-th ancestor of `r` exists and has finished by `now`. */
  predicate FinishedAt(arena: map<nat, Note>, r: nat, k: nat, now: real, replay: bool)
    requires r in arena && Closed(arena)
    reads arena.Values
  {
    var a := AncestorAt(arena, r, k);
    a.Some? && now >= arena[a.value].DespawnTime(replay)
  }

  /** The walk: the first of `r` and its ancestors, at most `hops` of them, that has not
      finished by `now`; None when all inspected ones finished or the chain ended. */
  function FirstUnfinished(arena: map<nat, Note>, r: nat, hops: nat, now: real, replay: bool): (a: Option<nat>)
    requires r in arena && Closed(arena)
    reads arena.Values
    ensures a.Some? ==> a.value in arena && now < arena[a.value].DespawnTime(replay)
    decreases hops
  {
    if hops == 0 then None
    else if now < arena[r].DespawnTime(replay) then Some(r)
    else if !arena[r].hasPrev then None
    else FirstUnfinished(arena, arena[r].prevRef, hops - 1, now, replay)
  }

  /** What the walk finds is an ancestor within the bound, all of whose descendants on the
      way were finished. */
  lemma {:induction false} FirstUnfinishedIsFirst(arena: map<nat, Note>, r: nat, hops: nat, now: real, replay: bool)
    requires r in arena && Closed(arena)
    requires FirstUnfinished(arena, r, hops, now, replay).Some?
    ensures exists k :: (0 <= k < hops && AncestorAt(arena, r, k) == FirstUnfinished(arena, r, hops, now, replay)
                         && forall j :: 0 <= j < k ==> FinishedAt(arena, r, j, now, replay))
    decreases hops
  {
    if now < arena[r].DespawnTime(replay) {
      assert AncestorAt(arena, r, 0) == Some(r);
    } else {
      var p := arena[r].prevRef;
      FirstUnfinishedIsFirst(arena, p, hops - 1, now, replay);
      var k' :| 0 <= k' < hops - 1 && AncestorAt(arena, p, k') == FirstUnfinished(arena, p, hops - 1, now, replay)
        && (forall j :: 0 <= j < k' ==> FinishedAt(arena, p, j, now, replay));
      assert AncestorAt(arena, r, k' + 1) == AncestorAt(arena, p, k');
      forall j | 0 <= j < k' + 1
        ensures FinishedAt(arena, r, j, now, replay)
      {
        if j > 0 {
          assert AncestorAt(arena, r, j) == AncestorAt(arena, p, j - 1);
          assert FinishedAt(arena, p, j - 1, now, replay);
        }
      }
    }
  }

  /** When the walk finds nothing, every ancestor it could inspect had finished. */
  lemma {:induction false} NoneMeansAllFinished(arena: map<nat, Note>, r: nat, hops: nat, now: real, replay: bool)
    requires r in arena && Closed(arena)
    requires FirstUnfinished(arena, r, hops, now, replay).None?
    ensures forall j :: 0 <= j < hops && AncestorAt(arena, r, j).Some? ==> FinishedAt(arena, r, j, now, replay)
    decreases hops
  {
    if hops > 0 && arena[r].hasPrev {
      var p := arena[r].prevRef;
      NoneMeansAllFinished(arena, p, hops - 1, now, replay);
      forall j | 0 < j < hops && AncestorAt(arena, r, j).Some?
        ensures FinishedAt(arena, r, j, now, replay)
      {
        assert AncestorAt(arena, r, j) == AncestorAt(arena, p, j - 1);
      }
    }
  }

  /** Conversely, an unfinished ancestor within the bound whose every descendant on the
      way finished is what the walk finds. */
  lemma {:induction false} FirstUnfinishedFinds(arena: map<nat, Note>, r: nat, hops: nat, k: nat, now: real, replay: bool)
    requires r in arena && Closed(arena)
    requires k < hops && AncestorAt(arena, r, k).Some? && !FinishedAt(arena, r, k, now, replay)
    requires forall j :: 0 <= j < k ==> FinishedAt(arena, r, j, now, replay)
    ensures FirstUnfinished(arena, r, hops, now, replay) == AncestorAt(arena, r, k)
    decreases k
  {
    if k > 0 {
      assert FinishedAt(arena, r, 0, now, replay);
      var p := arena[r].prevRef;
      forall j | 0 <= j < k - 1
        ensures FinishedAt(arena, p, j, now, replay)
      {
        assert FinishedAt(arena, r, j + 1, now, replay);
        assert AncestorAt(arena, r, j + 1) == AncestorAt(arena, p, j);
      }
      FirstUnfinishedFinds(arena, p, hops - 1, k - 1, now, replay);
    }
  }

  /** A walk over ancestors that have all finished finds nothing. */
  lemma {:induction false} AllFinishedMeansNone(arena: map<nat, Note>, r: nat, hops: nat, now: real, replay: bool)
    requires r in arena && Closed(arena)
    requires forall j :: 0 <= j < hops ==> FinishedAt(arena, r, j, now, replay)
    ensures FirstUnfinished(arena, r, hops, now, replay).None?
    decreases hops
  {
    if hops > 0 {
      assert FinishedAt(arena, r, 0, now, replay);
      if arena[r].hasPrev {
        var p := arena[r].prevRef;
        forall j | 0 <= j < hops - 1
          ensures FinishedAt(arena, p, j, now, replay)
        {
          assert FinishedAt(arena, r, j + 1, now, replay);
          assert AncestorAt(arena, r, j + 1) == AncestorAt(arena, p, j);
        }
        AllFinishedMeansNone(arena, p, hops - 1, now, replay);
      }
    }
  }

  /** The bound: when the first twenty notes of the chain have all finished, a live note
      further back is not found and the walk falls back. */
  lemma LongFinishedChainFallsBack(arena: map<nat, Note>, r: nat, now: real, replay: bool)
    requires r in arena && Closed(arena)
    requires forall j :: 0 <= j < ConnectorHops ==> FinishedAt(arena, r, j, now, replay)
    ensures FirstUnfinished(arena, r, ConnectorHops, now, replay).None?
  {
    AllFinishedMeansNone(arena, r, ConnectorHops, now, replay);
  }

  class Note {
    const variant: Variant
    const beat: real
    const prevRef: nat
    const simRef: nat
    /** The recorded judgment, accuracy and finish time of a replay. */
    const judgment: Judgment
    const accuracy: real
    const finishTime: real
    const holdHandle: HoldHandle

    var lane: real
    var direction: int
    var pos: Pos
    var targetTime: real
    var window: JudgmentWindow
    var bucket: Bucket
    var bodySprite: Sprite
    var headSprite: Sprite
    var connectorSprite: Sprite
    var particle: Particle
    var holdParticle: Particle
    var hasPrev: bool
    var hasSim: bool
    var startTime: real
    var targetScaledTime: real
    var y: real
    var resultTargetTime: real
    var resultBucket: Bucket
    var resultBucketValue: real

    constructor (variant: Variant, beat: real, lane: real, direction: int, prevRef: nat, simRef: nat,
                 judgment: Judgment, accuracy: real, finishTime: real)
      ensures this.variant == variant && this.beat == beat && this.lane == lane && this.direction == direction
      ensures this.prevRef == prevRef && this.simRef == simRef
      ensures this.judgment == judgment && this.accuracy == accuracy && this.finishTime == finishTime
      ensures fresh(holdHandle) && holdHandle.id == 0
    {
      this.variant, this.beat, this.lane, this.direction := variant, beat, lane, direction;
      this.prevRef, this.simRef := prevRef, simRef;
      this.judgment, this.accuracy, this.finishTime := judgment, accuracy, finishTime;
      holdHandle := new HoldHandle();
      var none := Interval(0.0, 0.0);
      pos, targetTime, window, bucket := 0.0, 0.0, JudgmentWindow(none, none, none), TapBucket;
      bodySprite, headSprite, connectorSprite := TapSprite, TapSprite, TapSprite;
      particle, holdParticle := TapParticle, TapParticle;
      hasPrev, hasSim, startTime, targetScaledTime, y := false, false, 0.0, 0.0, 0.0;
      resultTargetTime, resultBucket, resultBucketValue := 0.0, TapBucket, 0.0;
    }

    /** Preprocessing: mirroring, the derived fields, the result fields and the scheduled
        hit sound. The lane layout is `laneToPos`, the tempo track `beatToTime`, and
        `noteTimes` what the timescale group computes for the target time. */
    method Preprocess(opts: Options, replay: bool, laneToPos: real -> Pos, beatToTime: real -> real,
                      noteWindow: JudgmentWindow, noteTimes: (real, real)) returns (ev: seq<Event>)
      modifies this
      ensures lane == (if opts.mirror then -old(lane) else old(lane))
      ensures direction == (if opts.mirror then -old(direction) else old(direction))
      ensures pos == laneToPos(lane) && targetTime == beatToTime(beat)
      ensures window == noteWindow && bucket == NoteBucket(variant)
      ensures bodySprite == NoteBodySprite(variant) && headSprite == NoteHeadSprite(variant)
      ensures connectorSprite == NoteConnectorSprite(variant)
      ensures particle == NoteParticle(variant) && holdParticle == NoteHoldParticle(variant)
      ensures hasPrev <==> prevRef > 0
      ensures hasSim <==> simRef > 0
      ensures (startTime, targetScaledTime) == noteTimes
      ensures resultTargetTime == targetTime && resultBucket == bucket
      ensures resultBucketValue == (if replay then accuracy * 1000.0 else 0.0)
      ensures y == old(y)
      ensures ev == ScheduledEffects(opts, replay)
    {
      Mirror(opts);
      Derive(laneToPos, beatToTime, noteWindow, noteTimes);
      ev := RecordResult(opts, replay);
    }

    /** The mirror option negates the lane and the direction. */
    method Mirror(opts: Options)
      modifies this`lane, this`direction
      ensures lane == (if opts.mirror then -old(lane) else old(lane))
      ensures direction == (if opts.mirror then -old(direction) else old(direction))
    {
      if opts.mirror {
        lane := -lane;
        direction := -direction;
      }
    }

    method Derive(laneToPos: real -> Pos, beatToTime: real -> real, noteWindow: JudgmentWindow, noteTimes: (real, real))
      modifies this`pos, this`targetTime, this`window, this`bucket, this`bodySprite, this`headSprite,
        this`connectorSprite, this`particle, this`holdParticle, this`hasPrev, this`hasSim,
        this`startTime, this`targetScaledTime
      ensures pos == laneToPos(lane) && targetTime == beatToTime(beat)
      ensures window == noteWindow && bucket == NoteBucket(variant)
      ensures bodySprite == NoteBodySprite(variant) && headSprite == NoteHeadSprite(variant)
      ensures connectorSprite == NoteConnectorSprite(variant)
      ensures particle == NoteParticle(variant) && holdParticle == NoteHoldParticle(variant)
      ensures hasPrev <==> prevRef > 0
      ensures hasSim <==> simRef > 0
      ensures (startTime, targetScaledTime) == noteTimes
    {
      DeriveTimes(laneToPos, beatToTime, noteTimes);
      DeriveLooks(noteWindow);
    }

    method DeriveTimes(laneToPos: real -> Pos, beatToTime: real -> real, noteTimes: (real, real))
      modifies this`pos, this`targetTime, this`hasPrev, this`hasSim, this`startTime, this`targetScaledTime
      ensures pos == laneToPos(lane) && targetTime == beatToTime(beat)
      ensures hasPrev <==> prevRef > 0
      ensures hasSim <==> simRef > 0
      ensures (startTime, targetScaledTime) == noteTimes
    {
      pos := laneToPos(lane);
      targetTime := beatToTime(beat);
      hasPrev := prevRef > 0;
      hasSim := simRef > 0;
      startTime, targetScaledTime := noteTimes.0, noteTimes.1;
    }

    method DeriveLooks(noteWindow: JudgmentWindow)
      modifies this`window, this`bucket, this`bodySprite, this`headSprite,
        this`connectorSprite, this`particle, this`holdParticle
      ensures window == noteWindow && bucket == NoteBucket(variant)
      ensures bodySprite == NoteBodySprite(variant) && headSprite == NoteHeadSprite(variant)
      ensures connectorSprite == NoteConnectorSprite(variant)
      ensures particle == NoteParticle(variant) && holdParticle == NoteHoldParticle(variant)
    {
      window := NoteWindow(variant, noteWindow);
      bucket := NoteBucket(variant);
      bodySprite := NoteBodySprite(variant);
      headSprite := NoteHeadSprite(variant);
      connectorSprite := NoteConnectorSprite(variant);
      particle := NoteParticle(variant);
      holdParticle := NoteHoldParticle(variant);
    }

    /** The result: bucket value from the recorded accuracy in a replay, 0 otherwise; and
        the hit sound scheduled for every note other than a hold anchor. */
    method RecordResult(opts: Options, replay: bool) returns (ev: seq<Event>)
      modifies this`resultTargetTime, this`resultBucket, this`resultBucketValue
      ensures resultTargetTime == targetTime && resultBucket == bucket
      ensures resultBucketValue == (if replay then accuracy * 1000.0 else 0.0)
      ensures ev == ScheduledEffects(opts, replay)
    {
      resultTargetTime := targetTime;
      ev := [];
      if replay {
        resultBucket := bucket;
        resultBucketValue := accuracy * 1000.0;
        if variant != HoldAnchor {
          ev := ScheduleWatchHitEffects(opts, finishTime, judgment);
        }
      } else {
        resultBucket := bucket;
        resultBucketValue := 0.0;
        if variant != HoldAnchor {
          ev := ScheduleWatchHitEffects(opts, targetTime, Perfect);
        }
      }
    }

    /** The hit sound scheduled at preprocess: the recorded judgment at the finish time in a
        replay, a perfect at the target time otherwise, and never for a hold anchor. */
    function ScheduledEffects(opts: Options, replay: bool): (ev: seq<Event>)
      reads this
      ensures variant == HoldAnchor ==> ev == []
      ensures variant != HoldAnchor && replay ==> ev == ScheduleHitSfx(opts, judgment, finishTime)
      ensures variant != HoldAnchor && !replay ==> ev == ScheduleHitSfx(opts, Perfect, targetTime)
    {
      if variant == HoldAnchor then []
      else if replay then ScheduleWatchHitEffects(opts, finishTime, judgment)
      else ScheduleWatchHitEffects(opts, targetTime, Perfect)
    }

    /** A replay ends a note at its recorded finish time; otherwise at its target time. */
    function DespawnTime(replay: bool): (t: real)
      reads this
      ensures replay ==> t == finishTime
      ensures !replay ==> t == targetTime
    {
      if replay then finishTime else targetTime
    }

    function PrevStartTime(arena: map<nat, Note>): (t: real)
      requires hasPrev ==> prevRef in arena
      reads this, arena.Values
      ensures !hasPrev ==> t == NoRefStartTime
      ensures hasPrev ==> t == arena[prevRef].startTime
    {
      if !hasPrev then NoRefStartTime else arena[prevRef].startTime
    }

    function SimStartTime(arena: map<nat, Note>): (t: real)
      requires hasSim ==> simRef in arena
      reads this, arena.Values
      ensures !hasSim ==> t == NoRefStartTime
      ensures hasSim ==> t == arena[simRef].startTime
    {
      if !hasSim then NoRefStartTime else arena[simRef].startTime
    }

    /** The earliest of the own, predecessor and sim start times. */
    function SpawnTime(arena: map<nat, Note>): (t: real)
      requires hasPrev ==> prevRef in arena
      requires hasSim ==> simRef in arena
      reads this, arena.Values
      ensures t <= startTime && t <= PrevStartTime(arena) && t <= SimStartTime(arena)
      ensures t == startTime || t == PrevStartTime(arena) || t == SimStartTime(arena)
      ensures !hasPrev && !hasSim && startTime <= NoRefStartTime ==> t == startTime
    {
      var a := startTime;
      var b := PrevStartTime(arena);
      var c := SimStartTime(arena);
      if a <= b && a <= c then a else if b <= c then b else c
    }

    /** The connector walk of draw_connector: a bounded loop back along predecessor links. */
    method FindConnectorRef(arena: map<nat, Note>, now: real, replay: bool) returns (finished: bool, ref: nat)
      requires hasPrev && prevRef in arena && Closed(arena)
      ensures var a := FirstUnfinished(arena, prevRef, ConnectorHops, now, replay);
        finished == a.None? && ref == (if a.None? then prevRef else a.value)
    {
      finished := true;
      ref := prevRef;
      for i := 0 to ConnectorHops
        invariant ref in arena && finished
        invariant FirstUnfinished(arena, prevRef, ConnectorHops, now, replay)
               == FirstUnfinished(arena, ref, ConnectorHops - i, now, replay)
      {
        finished := finished && now >= arena[ref].DespawnTime(replay);
        if !finished {
          break;
        }
        if !arena[ref].hasPrev {
          break;
        }
        ref := arena[ref].prevRef;
      }
      if finished {
        ref := prevRef;
      }
    }

    /** Which connector branch draw_connector takes. */
    function PlanConnector(arena: map<nat, Note>, now: real, replay: bool): (p: ConnectorPlan)
      requires Closed(arena) && (hasPrev ==> prevRef in arena)
      reads this, arena.Values
      ensures !hasPrev ==> p == NoConnector
      ensures p.ToAncestor? ==> hasPrev && p.ancestor in arena && now < arena[p.ancestor].DespawnTime(replay)
      ensures p.ToAncestor? ==> FirstUnfinished(arena, prevRef, ConnectorHops, now, replay) == Some(p.ancestor)
      ensures p.Approach? ==> hasPrev && p.progress >= 0.0 && now < targetTime
      ensures p.OwnHead? ==> variant != HoldEnd && now >= targetTime
      ensures hasPrev && FirstUnfinished(arena, prevRef, ConnectorHops, now, replay).None? ==>
        !p.ToAncestor? && (now < targetTime <==> p.Approach?) && (now >= targetTime && variant != HoldEnd <==> p.OwnHead?)
    {
      if !hasPrev then NoConnector
      else match FirstUnfinished(arena, prevRef, ConnectorHops, now, replay)
        case Some(a) => ToAncestor(a)
        case None =>
          if now < targetTime then Approach(Max(0.0, Unlerp(arena[prevRef].targetTime, targetTime, now)))
          else if variant != HoldEnd then OwnHead
          else NoConnector
    }

    /** A connector is drawn to a live ancestor exactly when one lies within twenty hops. */
    lemma ConnectorToLiveAncestor(arena: map<nat, Note>, now: real, replay: bool, k: nat)
      requires Closed(arena) && hasPrev && prevRef in arena
      requires k < ConnectorHops && AncestorAt(arena, prevRef, k).Some? && !FinishedAt(arena, prevRef, k, now, replay)
      requires forall j :: 0 <= j < k ==> FinishedAt(arena, prevRef, j, now, replay)
      ensures PlanConnector(arena, now, replay) == ToAncestor(AncestorAt(arena, prevRef, k).value)
    {
      FirstUnfinishedFinds(arena, prevRef, ConnectorHops, k, now, replay);
    }

    /** Past the bound: with the first twenty notes of the chain finished, the connector
        never goes to an ancestor further back; it is drawn from the predecessor. */
    lemma ConnectorFallsBackOnLongChain(arena: map<nat, Note>, now: real, replay: bool)
      requires Closed(arena) && hasPrev && prevRef in arena
      requires forall j :: 0 <= j < ConnectorHops ==> FinishedAt(arena, prevRef, j, now, replay)
      ensures !PlanConnector(arena, now, replay).ToAncestor?
      ensures now < targetTime ==>
        PlanConnector(arena, now, replay) == Approach(Max(0.0, Unlerp(arena[prevRef].targetTime, targetTime, now)))
    {
      LongFinishedChainFallsBack(arena, prevRef, now, replay);
    }

    /** The events of a connector plan; the hold particle follows the interpolated head. */
    function ConnectorEvents(plan: ConnectorPlan, arena: map<nat, Note>, layout: Layout, opts: Options, handleId: int): (ev: seq<Event>)
      requires plan.ToAncestor? ==> plan.ancestor in arena
      requires plan.Approach? ==> prevRef in arena
      reads this, arena.Values
      ensures plan == NoConnector ==> ev == []
      ensures plan.OwnHead? ==> ev == DrawNoteBody(layout, headSprite, pos, 0.0)
      ensures plan.ToAncestor? ==>
        ev == DrawNoteConnector(layout, connectorSprite, pos, y, arena[plan.ancestor].pos, arena[plan.ancestor].y)
      ensures plan.Approach? ==>
        var head := Lerp(arena[prevRef].pos, pos, plan.progress);
        ev == DrawNoteConnector(layout, connectorSprite, pos, y, head, 0.0)
          + DrawNoteBody(layout, headSprite, head, 0.0)
          + HoldUpdateEvents(handleId, opts.noteEffectEnabled, holdParticle, head)
    {
      match plan
      case NoConnector => []
      case ToAncestor(a) => DrawNoteConnector(layout, connectorSprite, pos, y, arena[a].pos, arena[a].y)
      case Approach(progress) =>
        var prevPos := Lerp(arena[prevRef].pos, pos, progress);
        DrawNoteConnector(layout, connectorSprite, pos, y, prevPos, 0.0)
        + DrawNoteBody(layout, headSprite, prevPos, 0.0)
        + HoldUpdateEvents(handleId, opts.noteEffectEnabled, holdParticle, prevPos)
      case OwnHead => DrawNoteBody(layout, headSprite, pos, 0.0)
    }

    method DrawConnector(arena: map<nat, Note>, now: real, replay: bool, layout: Layout, opts: Options, spawned: int)
      returns (ev: seq<Event>)
      requires Closed(arena) && (hasPrev ==> prevRef in arena)
      modifies holdHandle
      ensures var plan := old(PlanConnector(arena, now, replay));
        && ev == old(ConnectorEvents(plan, arena, layout, opts, holdHandle.id))
        && holdHandle.id == (if plan.Approach? then HoldUpdatedId(old(holdHandle.id), opts.noteEffectEnabled, spawned)
                             else old(holdHandle.id))
    {
      if !hasPrev {
        return [];
      }
      var finished, ref := FindConnectorRef(arena, now, replay);
      var prev := arena[ref];
      if !finished {
        ev := DrawNoteConnector(layout, connectorSprite, pos, y, prev.pos, prev.y);
      } else if now < targetTime {
        var progress := Max(0.0, Unlerp(prev.targetTime, targetTime, now));
        var prevPos := Lerp(prev.pos, pos, progress);
        ev := DrawNoteConnector(layout, connectorSprite, pos, y, prevPos, 0.0);
        ev := ev + DrawNoteBody(layout, headSprite, prevPos, 0.0);
        var handle := holdHandle.Update(opts, holdParticle, prevPos, spawned);
        ev := ev + handle;
      } else if variant != HoldEnd {
        ev := DrawNoteBody(layout, headSprite, pos, 0.0);
      } else {
        ev := [];
      }
    }

    /** The sim line is drawn while the sim note has not reached its despawn time. */
    function SimLineEvents(arena: map<nat, Note>, now: real, replay: bool): (ev: seq<Event>)
      requires hasSim ==> simRef in arena
      reads this, arena.Values
      ensures ev != [] <==> hasSim && now < arena[simRef].DespawnTime(replay)
      ensures ev != [] ==> ev == [DrawSimLine(pos, y, arena[simRef].pos, arena[simRef].y)]
    {
      if !hasSim then []
      else if now >= arena[simRef].DespawnTime(replay) then []
      else [DrawSimLine(pos, y, arena[simRef].pos, arena[simRef].y)]
    }

    /** Hold anchors have no body. */
    function BodyEvents(layout: Layout): (ev: seq<Event>)
      reads this
      ensures variant == HoldAnchor ==> ev == []
      ensures variant != HoldAnchor ==> ev == DrawNoteBody(layout, bodySprite, pos, y)
    {
      if variant != HoldAnchor then DrawNoteBody(layout, bodySprite, pos, y) else []
    }

    method UpdateParallel(arena: map<nat, Note>, now: real, replay: bool, layout: Layout, opts: Options, spawned: int)
      returns (ev: seq<Event>)
      requires Closed(arena) && (hasPrev ==> prevRef in arena) && (hasSim ==> simRef in arena)
      modifies holdHandle
      ensures ev == old(BodyEvents(layout)
                        + ConnectorEvents(PlanConnector(arena, now, replay), arena, layout, opts, holdHandle.id)
                        + SimLineEvents(arena, now, replay))
      ensures holdHandle.id == (if old(PlanConnector(arena, now, replay)).Approach?
                                then HoldUpdatedId(old(holdHandle.id), opts.noteEffectEnabled, spawned)
                                else old(holdHandle.id))
    {
      var body := BodyEvents(layout);
      var connector := DrawConnector(arena, now, replay, layout, opts, spawned);
      var sim := SimLineEvents(arena, now, replay);
      ev := body + connector + sim;
    }

    /** On termination the hit particle plays unless this is a hold anchor or a replayed miss. */
    predicate TerminatePlaysParticle(replay: bool)
      ensures TerminatePlaysParticle(replay) <==> variant != HoldAnchor && !(replay && judgment == Miss)
    {
      (!replay || judgment != Miss) && variant != HoldAnchor
    }

    method Terminate(opts: Options, replay: bool) returns (ev: seq<Event>)
      modifies holdHandle
      ensures holdHandle.id == 0
      ensures ev == HoldDestroyEvents(old(holdHandle.id))
        + (if TerminatePlaysParticle(replay) then PlayWatchHitEffects(opts, particle, pos) else [])
    {
      ev := holdHandle.Destroy();
      if TerminatePlaysParticle(replay) {
        ev := ev + PlayWatchHitEffects(opts, particle, pos);
      }
    }
  }
}
