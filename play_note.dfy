/** The live note of play mode (mania/play/note.py): spawn and auto-miss rules, the
    gate on the predecessor, and the tap, release and hold input handlers, each of
    which ends by completing (a timed judgment) or failing (a miss) the note. */
module Play {
  import opened Common

  /** One touch of the current frame as this note sees it: `inHitbox` is the hit test
      of the touch's position against the note's lane hitbox. */
  datatype Touch = Touch(id: int, inHitbox: bool, started: bool, ended: bool, startTime: real, time: real)

  /** What preprocessing derives once per note. */
  datatype NoteData = NoteData(
    variant: Variant,
    lanePos: Pos,
    prevRef: nat,
    targetTime: real,
    inputTargetTime: real,
    inputTime: Interval,
    window: JudgmentWindow,
    bucket: Bucket,
    bodySprite: Sprite,
    headSprite: Sprite,
    connectorSprite: Sprite,
    particle: Particle,
    holdParticle: Particle,
    hasPrev: bool,
    startTime: real,
    targetScaledTime: real)

  /** Preprocessing. The tempo track is `beatToTime`; `noteTimes` is what the timescale
      group computes for the target time: (start time, target scaled time). */
  function Preprocess(
    variant: Variant, beat: real, lanePos: Pos, prevRef: nat,
    beatToTime: real -> real, inputOffset: real, window: JudgmentWindow,
    noteTimes: (real, real)): (d: NoteData)
    ensures d.variant == variant && d.lanePos == lanePos && d.prevRef == prevRef
    ensures d.targetTime == beatToTime(beat)
    ensures d.inputTargetTime == d.targetTime + inputOffset
    ensures forall t :: d.inputTime.Contains(t) <==> window.good.Contains(t - d.inputTargetTime)
    ensures d.window == window
    ensures d.bucket == NoteBucket(variant) && d.particle == NoteParticle(variant)
    ensures d.bodySprite == NoteBodySprite(variant)
    ensures d.hasPrev <==> prevRef > 0
    ensures (d.startTime, d.targetScaledTime) == noteTimes
  {
    var targetTime := beatToTime(beat);
    var inputTargetTime := targetTime + inputOffset;
    NoteData(
      variant, lanePos, prevRef, targetTime, inputTargetTime,
      NoteWindow(variant, window).good.Shift(inputTargetTime),
      NoteWindow(variant, window), NoteBucket(variant),
      NoteBodySprite(variant), NoteHeadSprite(variant), NoteConnectorSprite(variant),
      NoteParticle(variant), NoteHoldParticle(variant),
      prevRef > 0, noteTimes.0, noteTimes.1)
  }

  /** Preprocessing schedules the auto sound, a perfect at the target time. */
  function PreprocessEvents(opts: Options, d: NoteData): (ev: seq<Event>)
    ensures ev != [] <==> opts.autoSfx && opts.sfxEnabled
    ensures ev != [] ==> ev == [ScheduleSfx(PerfectSfx, d.targetTime)]
  {
    ScheduleAutoHitSfx(opts, Perfect, d.targetTime)
  }

  /** A later tempo beat preprocesses to a later target time when the tempo track is monotonic. */
  lemma PreprocessMonotonic(
    variant: Variant, b1: real, b2: real, lanePos: Pos, prevRef: nat,
    beatToTime: real -> real, inputOffset: real, window: JudgmentWindow, noteTimes: (real, real))
    requires forall x, y :: x <= y ==> beatToTime(x) <= beatToTime(y)
    requires b1 <= b2
    ensures Preprocess(variant, b1, lanePos, prevRef, beatToTime, inputOffset, window, noteTimes).inputTime.start
         <= Preprocess(variant, b2, lanePos, prevRef, beatToTime, inputOffset, window, noteTimes).inputTime.start
  {
    assert beatToTime(b1) <= beatToTime(b2);
  }

  // ---------------------------------------------------------------------------
  // Results and decisions

  datatype NoteResult = NoteResult(judgment: Judgment, accuracy: real, bucket: Bucket, bucketValue: real)

  /** Record of a resolution at `actual` with judgment `j`. */
  function Outcome(d: NoteData, actual: real, j: Judgment): (r: NoteResult)
    ensures r.judgment == j && r.bucket == d.bucket
    ensures r.accuracy + d.targetTime == actual
    ensures r.bucketValue == r.accuracy * 1000.0
  {
    NoteResult(j, actual - d.targetTime, d.bucket, (actual - d.targetTime) * 1000.0)
  }

  /** What one input handler call decides. */
  datatype Decision = NoChange | SetStarted | Complete(at: real) | Fail(at: real) {
    predicate Resolves() {
      Complete? || Fail?
    }
  }

  /** A handler call's decision plus the touch id it claims (if any) and whether
      the claim is also marked used in the touch registry. */
  datatype Reaction = Reaction(claim: Option<int>, markUsed: bool, decision: Decision)

  /** The per-note state the handlers read and write. */
  datatype Runtime = Runtime(started: bool, touchId: int, despawn: bool, result: Option<NoteResult>)

  /** Applying a decision: `complete` judges, `fail` records a miss; both despawn. */
  function Apply(d: NoteData, rt: Runtime, dec: Decision, judge: Judge): (r: Runtime)
    ensures r.touchId == rt.touchId
    ensures r.started <==> rt.started || dec == SetStarted
    ensures r.despawn <==> rt.despawn || dec.Resolves()
    ensures !dec.Resolves() ==> r.result == rt.result
    ensures dec.Complete? ==> r.result == Some(Outcome(d, dec.at, judge(d.window, dec.at, d.targetTime)))
    ensures dec.Fail? ==> r.result == Some(Outcome(d, dec.at, Miss))
  {
    match dec
    case NoChange => rt
    case SetStarted => rt.(started := true)
    case Complete(t) => rt.(despawn := true, result := Some(Outcome(d, t, judge(d.window, t, d.targetTime))))
    case Fail(t) => rt.(despawn := true, result := Some(Outcome(d, t, Miss)))
  }

  /** The state after a reaction: the claim (if any) becomes the note's touch id first. */
  function After(d: NoteData, rt: Runtime, r: Reaction, judge: Judge): Runtime {
    var claimed := if r.claim.Some? then rt.(touchId := r.claim.value) else rt;
    Apply(d, claimed, r.decision, judge)
  }

  function UsedAfter(used: set<int>, r: Reaction): set<int> {
    if r.markUsed && r.claim.Some? then used + {r.claim.value} else used
  }

  /** Hit effects fire on `complete` only. */
  function HitEvents(d: NoteData, dec: Decision, opts: Options, judge: Judge): (ev: seq<Event>)
    ensures !dec.Complete? ==> ev == []
    ensures dec.Complete? ==> ev == PlayHitEffects(opts, d.particle, d.lanePos, judge(d.window, dec.at, d.targetTime))
  {
    if dec.Complete? then PlayHitEffects(opts, d.particle, d.lanePos, judge(d.window, dec.at, d.targetTime)) else []
  }

  // ---------------------------------------------------------------------------
  // Finding touches

  /** Index `k` holds the first touch of the frame with id `id`. */
  predicate FirstWithId(ts: seq<Touch>, id: int, k: int) {
    0 <= k < |ts| && ts[k].id == id && forall j :: 0 <= j < k ==> ts[j].id != id
  }

  predicate Absent(ts: seq<Touch>, id: int) {
    forall j :: 0 <= j < |ts| ==> ts[j].id != id
  }

  function FindTouch(ts: seq<Touch>, id: int): (r: Option<nat>)
    ensures r.Some? ==> FirstWithId(ts, id, r.value)
    ensures r.None? <==> Absent(ts, id)
  {
    if |ts| == 0 then None
    else if ts[0].id == id then Some(0)
    else match FindTouch(ts[1..], id)
      case None => None
      case Some(k) => Some(k + 1)
  }

  /** The first touch with a given id is unique. */
  lemma FirstWithIdUnique(ts: seq<Touch>, id: int, k: int)
    requires FirstWithId(ts, id, k)
    ensures FindTouch(ts, id) == Some(k)
  {
    assert !Absent(ts, id);
  }

  /** A tap the registry offers this note: begun this frame, in the hitbox and not yet claimed. */
  predicate IsTap(t: Touch, used: set<int>) {
    t.started && t.inHitbox && t.id !in used
  }

  function FirstTap(ts: seq<Touch>, used: set<int>): (r: Option<nat>)
    ensures r.Some? ==> r.value < |ts| && IsTap(ts[r.value], used)
    ensures r.Some? ==> forall j :: 0 <= j < r.value ==> !IsTap(ts[j], used)
    ensures r.None? <==> forall j :: 0 <= j < |ts| ==> !IsTap(ts[j], used)
  {
    if |ts| == 0 then None
    else if IsTap(ts[0], used) then Some(0)
    else match FirstTap(ts[1..], used)
      case None => None
      case Some(k) => Some(k + 1)
  }

  // ---------------------------------------------------------------------------
  // The three input handlers, as decisions

  /** Tap: inside the input window, the first offered tap is claimed and marked used,
      and the note completes at the tap's start time. */
  function TapReaction(d: NoteData, now: real, ts: seq<Touch>, used: set<int>): (r: Reaction)
    ensures !d.inputTime.Contains(now) ==> r == Reaction(None, false, NoChange)
    ensures (forall j :: 0 <= j < |ts| ==> !IsTap(ts[j], used)) ==> r == Reaction(None, false, NoChange)
    ensures d.inputTime.Contains(now) ==>
      (forall k :: 0 <= k < |ts| && IsTap(ts[k], used) && (forall j :: 0 <= j < k ==> !IsTap(ts[j], used))
        ==> r == Reaction(Some(ts[k].id), true, Complete(ts[k].startTime)))
  {
    if !d.inputTime.Contains(now) then Reaction(None, false, NoChange)
    else match FirstTap(ts, used)
      case None => Reaction(None, false, NoChange)
      case Some(k) => Reaction(Some(ts[k].id), true, Complete(ts[k].startTime))
  }

  /** Two notes offered the same frame in turn never claim the same tap: the
      second sees the first's claim in the registry. */
  lemma TapClaimedOnce(d1: NoteData, d2: NoteData, now: real, ts: seq<Touch>, used: set<int>)
    requires TapReaction(d1, now, ts, used).claim.Some?
    ensures TapReaction(d2, now, ts, UsedAfter(used, TapReaction(d1, now, ts, used))).claim
         != TapReaction(d1, now, ts, used).claim
  {
    var r1 := TapReaction(d1, now, ts, used);
    var used2 := UsedAfter(used, r1);
    var r2 := TapReaction(d2, now, ts, used2);
    if r2.claim.Some? {
      var k := FirstTap(ts, used2).value;
      assert IsTap(ts[k], used2);
    }
  }

  /** A tap note at 4.0 s touched at 4.02 s inside its window and hitbox, with no
      predecessor, claims the touch and completes with accuracy 0.02. */
  lemma TapScenario(d: NoteData, now: real, judge: Judge)
    requires d.targetTime == 4.0 && d.inputTime.Contains(now)
    ensures var ts := [Touch(1, true, true, false, 4.02, now)];
      var r := TapReaction(d, now, ts, {});
      var a := After(d, Runtime(false, 0, false, None), r, judge);
      && r.claim == Some(1) && UsedAfter({}, r) == {1}
      && a.touchId == 1 && a.despawn && a.result.Some?
      && a.result.value.accuracy == 0.02 && a.result.value.judgment == judge(d.window, 4.02, 4.0)
  {
    var ts := [Touch(1, true, true, false, 4.02, now)];
    assert FirstTap(ts, {}) == Some(0);
  }

  /** Release (a hold end without auto release): waits for the predecessor's touch to end. */
  function ReleaseDecision(d: NoteData, now: real, ts: seq<Touch>, tid: int, inputOffset: real): (dec: Decision)
    ensures dec != SetStarted
    ensures tid == 0 ==> dec == NoChange
    ensures tid != 0 && Absent(ts, tid) ==>
      dec == (if now >= d.inputTime.start then Complete(now - inputOffset) else Fail(now - inputOffset))
  {
    if tid == 0 then NoChange
    else match FindTouch(ts, tid)
      case Some(k) =>
        if !ts[k].ended then NoChange
        else if now >= d.inputTime.start && ts[k].inHitbox then Complete(ts[k].time)
        else Fail(ts[k].time)
      case None =>
        if now >= d.inputTime.start then Complete(now - inputOffset) else Fail(now - inputOffset)
  }

  /** The inherited touch decides a release: nothing while it lasts; when it ends the
      note completes at the touch's time exactly if the window has opened and the touch
      is in the hitbox, and fails otherwise. */
  lemma ReleaseByTouch(d: NoteData, now: real, ts: seq<Touch>, tid: int, inputOffset: real, k: int)
    requires tid != 0 && FirstWithId(ts, tid, k)
    ensures !ts[k].ended ==> ReleaseDecision(d, now, ts, tid, inputOffset) == NoChange
    ensures ts[k].ended ==>
      (ReleaseDecision(d, now, ts, tid, inputOffset) ==
       if now >= d.inputTime.start && ts[k].inHitbox then Complete(ts[k].time) else Fail(ts[k].time))
  {
    FirstWithIdUnique(ts, tid, k);
  }

  /** Hold (a hold tick, or a hold end with auto release), for the inherited touch `t`
      once it is found: the five branches in their fixed priority order. */
  function HoldTouchDecision(d: NoteData, now: real, started: bool, t: Touch, inputOffset: real): (dec: Decision)
    ensures dec == SetStarted ==> d.inputTime.start <= now < d.inputTargetTime
  {
    if t.inHitbox then
      if t.ended then
        (if now >= d.inputTime.start then Complete(t.time) else Fail(t.time))
      else if now >= d.inputTargetTime then
        (if started then Complete(d.targetTime) else Complete(now - inputOffset))
      else if now >= d.inputTime.start then SetStarted
      else NoChange
    else if started then Complete(now - inputOffset)
    else if t.ended then Fail(t.time)
    else NoChange
  }

  /** Hold: nothing without an inherited touch; the touch's branches when it is present;
      when it is gone, complete or fail at the current input time. */
  function HoldDecision(d: NoteData, now: real, started: bool, ts: seq<Touch>, tid: int, inputOffset: real): (dec: Decision)
    ensures tid == 0 ==> dec == NoChange
    ensures dec == SetStarted ==> d.inputTime.start <= now < d.inputTargetTime
    ensures tid != 0 && Absent(ts, tid) ==>
      dec == (if now >= d.inputTime.start then Complete(now - inputOffset) else Fail(now - inputOffset))
  {
    if tid == 0 then NoChange
    else match FindTouch(ts, tid)
      case Some(k) => HoldTouchDecision(d, now, started, ts[k], inputOffset)
      case None =>
        if now >= d.inputTime.start then Complete(now - inputOffset) else Fail(now - inputOffset)
  }

  /** The hold branches of the inherited touch, in priority order. */
  lemma HoldByTouch(d: NoteData, now: real, started: bool, ts: seq<Touch>, tid: int, inputOffset: real, k: int)
    requires tid != 0 && FirstWithId(ts, tid, k)
    ensures var dec := HoldDecision(d, now, started, ts, tid, inputOffset);
      && (ts[k].inHitbox && ts[k].ended ==>
            dec == if now >= d.inputTime.start then Complete(ts[k].time) else Fail(ts[k].time))
      && (ts[k].inHitbox && !ts[k].ended && now >= d.inputTargetTime ==>
            dec == if started then Complete(d.targetTime) else Complete(now - inputOffset))
      && (ts[k].inHitbox && !ts[k].ended && d.inputTime.start <= now < d.inputTargetTime ==> dec == SetStarted)
      && (ts[k].inHitbox && !ts[k].ended && now < d.inputTime.start && now < d.inputTargetTime ==> dec == NoChange)
      && (!ts[k].inHitbox && started ==> dec == Complete(now - inputOffset))
      && (!ts[k].inHitbox && !started && ts[k].ended ==> dec == Fail(ts[k].time))
      && (!ts[k].inHitbox && !started && !ts[k].ended ==> dec == NoChange)
  {
    FirstWithIdUnique(ts, tid, k);
  }

  /** A hold that is still in the hitbox at the input target time, having been marked
      started, completes exactly at the target time: accuracy 0. */
  lemma HoldSustainedIsExact(d: NoteData, rt: Runtime, now: real, ts: seq<Touch>, tid: int, inputOffset: real, k: int, judge: Judge)
    requires tid != 0 && FirstWithId(ts, tid, k)
    requires rt.started && ts[k].inHitbox && !ts[k].ended && now >= d.inputTargetTime
    ensures var r := Apply(d, rt, HoldDecision(d, now, rt.started, ts, tid, inputOffset), judge);
      r.despawn && r.result.Some? && r.result.value.accuracy == 0.0 && r.result.value.bucketValue == 0.0
  {
    HoldByTouch(d, now, rt.started, ts, tid, inputOffset, k);
  }

  /** A hold fails exactly when its touch ends before the window opens (in the hitbox),
      ends outside the hitbox before it was ever started, or is gone before the window opens. */
  lemma HoldFailsIff(d: NoteData, now: real, started: bool, ts: seq<Touch>, tid: int, inputOffset: real)
    requires tid != 0
    ensures HoldDecision(d, now, started, ts, tid, inputOffset).Fail? <==>
      if Absent(ts, tid) then now < d.inputTime.start
      else var t := ts[FindTouch(ts, tid).value];
        t.ended && ((t.inHitbox && now < d.inputTime.start) || (!t.inHitbox && !started))
  {
  }

  function HoldReaction(d: NoteData, now: real, started: bool, ts: seq<Touch>, prevTouchId: int, inputOffset: real): (r: Reaction)
    ensures !r.markUsed
    ensures r.claim == (if prevTouchId == 0 then None else Some(prevTouchId))
    ensures r.decision == HoldDecision(d, now, started, ts, prevTouchId, inputOffset)
  {
    if prevTouchId == 0 then Reaction(None, false, NoChange)
    else Reaction(Some(prevTouchId), false, HoldDecision(d, now, started, ts, prevTouchId, inputOffset))
  }

  /** A release never takes over the predecessor's touch id. */
  function ReleaseReaction(d: NoteData, now: real, ts: seq<Touch>, prevTouchId: int, inputOffset: real): (r: Reaction)
    ensures r.claim.None? && !r.markUsed
    ensures r.decision == ReleaseDecision(d, now, ts, prevTouchId, inputOffset)
  {
    Reaction(None, false, ReleaseDecision(d, now, ts, prevTouchId, inputOffset))
  }

  /** Every handler call resolves (completes or fails) at most once and, if it does, leaves
      the note despawned with its result written. */
  lemma ReactionResolvesOnce(d: NoteData, rt: Runtime, r: Reaction, judge: Judge)
    ensures var a := After(d, rt, r, judge);
      (r.decision.Resolves() ==> a.despawn && a.result.Some? && a.result.value.accuracy == r.decision.at - d.targetTime)
      && (!r.decision.Resolves() ==> a.result == rt.result && a.despawn == rt.despawn)
  {
  }

  // ---------------------------------------------------------------------------
  // Touch claims

  class TouchRegistry {
    var used: set<int>

    constructor ()
      ensures used == {}
    {
      used := {};
    }

    method MarkUsed(t: Touch)
      modifies this
      ensures used == old(used) + {t.id}
    {
      used := used + {t.id};
    }
  }

  // ---------------------------------------------------------------------------
  // The note

  class Note {
    const data: NoteData
    const holdHandle: HoldHandle
    var started: bool
    var touchId: int
    var despawn: bool
    /** Set by the engine once a note that asked to despawn has been removed. */
    var isDespawned: bool
    var result: Option<NoteResult>
    var y: real
    var finishTime: real

    constructor (data: NoteData)
      ensures this.data == data && fresh(holdHandle) && holdHandle.id == 0
      ensures !started && touchId == 0 && !despawn && !isDespawned && result.None?
    {
      this.data := data;
      holdHandle := new HoldHandle();
      started, touchId, despawn, isDespawned, result := false, 0, false, false, None;
      y, finishTime := 0.0, 0.0;
    }

    function State(): Runtime
      reads this
    {
      Runtime(started, touchId, despawn, result)
    }

    function PrevStartTime(prev: Note?): (t: real)
      requires data.hasPrev ==> prev != null
      ensures !data.hasPrev ==> t == NoRefStartTime
      ensures data.hasPrev ==> t == prev.data.startTime
    {
      if !data.hasPrev then NoRefStartTime else prev.data.startTime
    }

    /** A note spawns at the earlier of its own and its predecessor's start times. */
    function SpawnTime(prev: Note?): (t: real)
      requires data.hasPrev ==> prev != null
      ensures t <= data.startTime && t <= PrevStartTime(prev)
      ensures t == data.startTime || t == PrevStartTime(prev)
      ensures !data.hasPrev && data.startTime <= NoRefStartTime ==> t == data.startTime
    {
      if data.startTime <= PrevStartTime(prev) then data.startTime else PrevStartTime(prev)
    }

    /** A note spawns once either its own or its predecessor's start time has come. */
    predicate ShouldSpawn(prev: Note?, now: real)
      requires data.hasPrev ==> prev != null
      ensures ShouldSpawn(prev, now) <==> now >= data.startTime || now >= PrevStartTime(prev)
    {
      now >= SpawnTime(prev)
    }

    /** The input window has closed: the note can no longer be hit, and until then any
        time from the window's start is inside it. */
    predicate MissedTiming(now: real)
      ensures MissedTiming(now) ==> !data.inputTime.Contains(now)
      ensures !MissedTiming(now) && now >= data.inputTime.start ==> data.inputTime.Contains(now)
    {
      now > data.inputTime.end
    }

    /** The predecessor despawned without ever claiming a touch. */
    predicate PrevMissed(prev: Note?)
      requires data.hasPrev ==> prev != null
      reads prev
      ensures !data.hasPrev ==> !PrevMissed(prev)
      ensures data.hasPrev && !prev.isDespawned ==> !PrevMissed(prev)
      ensures data.hasPrev && prev.touchId != 0 ==> !PrevMissed(prev)
      ensures data.hasPrev && prev.isDespawned && prev.touchId == 0 ==> PrevMissed(prev)
    {
      data.hasPrev && prev.isDespawned && prev.touchId == 0
    }

    method UpdateParallel(prev: Note?, now: real, layout: Layout, opts: Options, spawned: int) returns (ev: seq<Event>)
      requires data.hasPrev ==> prev != null
      modifies this`despawn, holdHandle
      ensures old(despawn) ==> despawn && ev == [] && holdHandle.id == old(holdHandle.id)
      ensures !old(despawn) && (MissedTiming(now) || old(PrevMissed(prev))) ==>
        despawn && ev == [] && holdHandle.id == old(holdHandle.id)
      ensures !old(despawn) && !MissedTiming(now) && !old(PrevMissed(prev)) ==> !despawn
      ensures !old(despawn) && !MissedTiming(now) && !old(PrevMissed(prev)) ==>
        ev == DrawNoteBody(layout, data.bodySprite, data.lanePos, y) + old(ConnectorEvents(prev, now, layout, opts, holdHandle.id))
      ensures !old(despawn) && !MissedTiming(now) && !old(PrevMissed(prev)) ==>
        holdHandle.id == old(ConnectorHoldId(prev, now, opts, spawned, holdHandle.id))
    {
      if despawn {
        return [];
      }
      if MissedTiming(now) || PrevMissed(prev) {
        despawn := true;
        return [];
      }
      var body := DrawNoteBody(layout, data.bodySprite, data.lanePos, y);
      var connector := DrawConnector(prev, now, layout, opts, spawned);
      ev := body + connector;
    }

    /** Connector of live play: to the predecessor while it lives; after it despawned and
        before the target time, from an interpolated head at the judgment line. */
    function ConnectorEvents(prev: Note?, now: real, layout: Layout, opts: Options, handleId: int): (ev: seq<Event>)
      requires data.hasPrev ==> prev != null
      reads this, prev
      ensures !data.hasPrev ==> ev == []
      ensures data.hasPrev && prev.isDespawned && now >= data.targetTime ==> ev == []
      ensures data.hasPrev && !prev.isDespawned ==>
        ev == DrawNoteConnector(layout, data.connectorSprite, data.lanePos, y, prev.data.lanePos, prev.y)
      ensures data.hasPrev && prev.isDespawned && now < data.targetTime ==>
        var head := Lerp(prev.data.lanePos, data.lanePos, Unlerp(prev.data.targetTime, data.targetTime, now));
        ev == DrawNoteConnector(layout, data.connectorSprite, data.lanePos, y, head, 0.0)
          + DrawNoteBody(layout, data.headSprite, head, 0.0)
          + HoldUpdateEvents(handleId, opts.noteEffectEnabled, data.holdParticle, head)
    {
      if !data.hasPrev then []
      else if !prev.isDespawned then
        DrawNoteConnector(layout, data.connectorSprite, data.lanePos, y, prev.data.lanePos, prev.y)
      else if now < data.targetTime then
        var progress := Unlerp(prev.data.targetTime, data.targetTime, now);
        var prevPos := Lerp(prev.data.lanePos, data.lanePos, progress);
        DrawNoteConnector(layout, data.connectorSprite, data.lanePos, y, prevPos, 0.0)
        + DrawNoteBody(layout, data.headSprite, prevPos, 0.0)
        + HoldUpdateEvents(handleId, opts.noteEffectEnabled, data.holdParticle, prevPos)
      else []
    }

    function ConnectorHoldId(prev: Note?, now: real, opts: Options, spawned: int, handleId: int): (id: int)
      requires data.hasPrev ==> prev != null
      reads prev
      ensures !(data.hasPrev && prev.isDespawned && now < data.targetTime) ==> id == handleId
    {
      if data.hasPrev && prev.isDespawned && now < data.targetTime
      then HoldUpdatedId(handleId, opts.noteEffectEnabled, spawned)
      else handleId
    }

    method DrawConnector(prev: Note?, now: real, layout: Layout, opts: Options, spawned: int) returns (ev: seq<Event>)
      requires data.hasPrev ==> prev != null
      modifies holdHandle
      ensures ev == old(ConnectorEvents(prev, now, layout, opts, holdHandle.id))
      ensures holdHandle.id == old(ConnectorHoldId(prev, now, opts, spawned, holdHandle.id))
    {
      if !data.hasPrev {
        return [];
      }
      if !prev.isDespawned {
        ev := DrawNoteConnector(layout, data.connectorSprite, data.lanePos, y, prev.data.lanePos, prev.y);
      } else if now < data.targetTime {
        var progress := Unlerp(prev.data.targetTime, data.targetTime, now);
        var prevPos := Lerp(prev.data.lanePos, data.lanePos, progress);
        ev := DrawNoteConnector(layout, data.connectorSprite, data.lanePos, y, prevPos, 0.0);
        ev := ev + DrawNoteBody(layout, data.headSprite, prevPos, 0.0);
        var handle := holdHandle.Update(opts, data.holdParticle, prevPos, spawned);
        ev := ev + handle;
      } else {
        ev := [];
      }
    }

    /** The predecessor gate and the dispatch on the variant. */
    function TouchReaction(prev: Note?, now: real, ts: seq<Touch>, used: set<int>, opts: Options, inputOffset: real): (r: Reaction)
      requires data.hasPrev ==> prev != null
      requires data.variant in {HoldEnd, HoldTick} ==> prev != null
      reads this, prev
      ensures data.hasPrev && !prev.isDespawned ==> r == Reaction(None, false, NoChange)
      ensures data.variant !in {Single, HoldStart, HoldEnd, HoldTick} ==> r == Reaction(None, false, NoChange)
      ensures r.markUsed ==> data.variant in {Single, HoldStart}
    {
      if data.hasPrev && !prev.isDespawned then Reaction(None, false, NoChange)
      else match data.variant
        case Single => TapReaction(data, now, ts, used)
        case HoldStart => TapReaction(data, now, ts, used)
        case HoldEnd =>
          if opts.autoReleaseHolds then HoldReaction(data, now, started, ts, prev.touchId, inputOffset)
          else ReleaseReaction(data, now, ts, prev.touchId, inputOffset)
        case HoldTick => HoldReaction(data, now, started, ts, prev.touchId, inputOffset)
        case _ => Reaction(None, false, NoChange)
    }

    method Touch(prev: Note?, reg: TouchRegistry, now: real, ts: seq<Touch>, opts: Options, inputOffset: real, judge: Judge)
      returns (ev: seq<Event>)
      requires data.hasPrev ==> prev != null
      requires data.variant in {HoldEnd, HoldTick} ==> prev != null
      modifies this`started, this`touchId, this`despawn, this`result, reg
      ensures var r := old(TouchReaction(prev, now, ts, reg.used, opts, inputOffset));
        && State() == After(data, old(State()), r, judge)
        && reg.used == UsedAfter(old(reg.used), r)
        && ev == HitEvents(data, r.decision, opts, judge)
    {
      if data.hasPrev && !prev.isDespawned {
        return [];
      }
      match data.variant {
        case Single => ev := HandleTapInput(reg, now, ts, opts, judge);
        case HoldStart => ev := HandleTapInput(reg, now, ts, opts, judge);
        case HoldEnd =>
          if opts.autoReleaseHolds {
            ev := HandleHoldInput(prev, now, ts, opts, inputOffset, judge);
          } else {
            ev := HandleReleaseInput(prev, now, ts, opts, inputOffset, judge);
          }
        case HoldTick => ev := HandleHoldInput(prev, now, ts, opts, inputOffset, judge);
        case _ => ev := [];
      }
    }

    method HandleTapInput(reg: TouchRegistry, now: real, ts: seq<Touch>, opts: Options, judge: Judge) returns (ev: seq<Event>)
      modifies this`touchId, this`despawn, this`result, reg
      ensures var r := TapReaction(data, now, ts, old(reg.used));
        && State() == After(data, old(State()), r, judge)
        && reg.used == UsedAfter(old(reg.used), r)
        && ev == HitEvents(data, r.decision, opts, judge)
    {
      if !data.inputTime.Contains(now) {
        return [];
      }
      var k := 0;
      while k < |ts|
        invariant 0 <= k <= |ts|
        invariant forall j :: 0 <= j < k ==> !IsTap(ts[j], reg.used)
        invariant reg.used == old(reg.used) && State() == old(State())
      {
        var t := ts[k];
        if IsTap(t, reg.used) {
          assert FirstTap(ts, old(reg.used)) == Some(k);
          reg.MarkUsed(t);
          touchId := t.id;
          ev := Complete(t.startTime, opts, judge);
          return;
        }
        k := k + 1;
      }
      ev := [];
    }

    method HandleReleaseInput(prev: Note, now: real, ts: seq<Touch>, opts: Options, inputOffset: real, judge: Judge)
      returns (ev: seq<Event>)
      modifies this`despawn, this`result
      ensures var r := old(ReleaseReaction(data, now, ts, prev.touchId, inputOffset));
        && State() == After(data, old(State()), r, judge)
        && ev == HitEvents(data, r.decision, opts, judge)
    {
      var tid := prev.touchId;
      if tid == 0 {
        return [];
      }
      var k := 0;
      while k < |ts|
        invariant 0 <= k <= |ts|
        invariant forall j :: 0 <= j < k ==> ts[j].id != tid
        invariant State() == old(State())
      {
        var t := ts[k];
        if t.id == tid {
          FirstWithIdUnique(ts, tid, k);
          if !t.ended {
            return [];
          }
          if now >= data.inputTime.start && t.inHitbox {
            ev := Complete(t.time, opts, judge);
          } else {
            ev := [];
            Fail(t.time);
          }
          return;
        }
        k := k + 1;
      }
      if now >= data.inputTime.start {
        ev := Complete(now - inputOffset, opts, judge);
      } else {
        ev := [];
        Fail(now - inputOffset);
      }
    }

    method HandleHoldInput(prev: Note, now: real, ts: seq<Touch>, opts: Options, inputOffset: real, judge: Judge)
      returns (ev: seq<Event>)
      modifies this`started, this`touchId, this`despawn, this`result
      ensures var r := old(HoldReaction(data, now, started, ts, prev.touchId, inputOffset));
        && State() == After(data, old(State()), r, judge)
        && ev == HitEvents(data, r.decision, opts, judge)
      ensures started ==> old(started) || data.inputTime.start <= now < data.inputTargetTime
    {
      var tid := prev.touchId;
      if tid == 0 {
        return [];
      }
      touchId := tid;
      var k := 0;
      while k < |ts|
        invariant 0 <= k <= |ts|
        invariant forall j :: 0 <= j < k ==> ts[j].id != tid
        invariant State() == old(State()).(touchId := tid)
      {
        if ts[k].id == tid {
          FirstWithIdUnique(ts, tid, k);
          ev := HoldOnTouch(now, ts[k], opts, inputOffset, judge);
          return;
        }
        k := k + 1;
      }
      if now >= data.inputTime.start {
        ev := Complete(now - inputOffset, opts, judge);
      } else {
        ev := [];
        Fail(now - inputOffset);
      }
    }

    /** The body of the hold handler's loop once the inherited touch is found. */
    method HoldOnTouch(now: real, t: Touch, opts: Options, inputOffset: real, judge: Judge) returns (ev: seq<Event>)
      modifies this`started, this`despawn, this`result
      ensures var dec := old(HoldTouchDecision(data, now, started, t, inputOffset));
        && State() == Apply(data, old(State()), dec, judge)
        && ev == HitEvents(data, dec, opts, judge)
    {
      ev := [];
      if t.inHitbox {
        if t.ended {
          if now >= data.inputTime.start {
            ev := Complete(t.time, opts, judge);
          } else {
            Fail(t.time);
          }
        } else if now >= data.inputTargetTime {
          if started {
            ev := Complete(data.targetTime, opts, judge);
          } else {
            ev := Complete(now - inputOffset, opts, judge);
          }
        } else if now >= data.inputTime.start {
          started := true;
        }
      } else if started {
        ev := Complete(now - inputOffset, opts, judge);
      } else if t.ended {
        Fail(t.time);
      }
    }

    /** Judges the note at `actual`, records the result, plays the hit effects and despawns. */
    method Complete(actual: real, opts: Options, judge: Judge) returns (ev: seq<Event>)
      modifies this`despawn, this`result
      ensures result == Some(Outcome(data, actual, judge(data.window, actual, data.targetTime)))
      ensures despawn
      ensures ev == PlayHitEffects(opts, data.particle, data.lanePos, judge(data.window, actual, data.targetTime))
    {
      var j := judge(data.window, actual, data.targetTime);
      result := Some(Outcome(data, actual, j));
      ev := PlayHitEffects(opts, data.particle, data.lanePos, j);
      despawn := true;
    }

    /** Records a miss at `actual` and despawns, with no effects. */
    method Fail(actual: real)
      modifies this`despawn, this`result
      ensures result == Some(Outcome(data, actual, Miss))
      ensures despawn
    {
      result := Some(Outcome(data, actual, Miss));
      despawn := true;
    }

    method Terminate(now: real) returns (ev: seq<Event>)
      modifies holdHandle, this`finishTime
      ensures holdHandle.id == 0 && finishTime == now
      ensures ev == HoldDestroyEvents(old(holdHandle.id))
    {
      ev := holdHandle.Destroy();
      finishTime := now;
    }
  }
}
