/**
 * The character controller (updateCharacter) and the character object it
 * updates every frame: the action trigger, movement through the collision
 * check, and the idle/run choice, all under the busy flag.
 */
module Controller {
  import opened Wrappers
  import opened Geometry
  import opened Input
  import opened Animation
  import opened Collision

  const CharacterSpeed: real := 150.0
  /** Squared length above which the applied displacement counts as moving. */
  const MovingThreshold: real := 0.0001
  const InitialPosition: Vec3 := Vec3(-1300.0, 0.05, 1400.0)

  /** Everything a frame reads and writes of the character. */
  datatype CharState = CharState(hasModel: bool, anim: Anim, position: Vec3, moveDirection: Vec3)

  /**
   * One frame's inputs: the held-key table, the elapsed time, and `steer`,
   * the normalised camera-relative direction the held move keys compose to
   * (built by the engine from the camera's facing; zero when opposite keys
   * cancel).
   */
  datatype Frame = Frame(keys: map<string, bool>, steer: Vec3, delta: real)

  /** What can happen to the character: a frame's update, or the mixer reporting an action finished. */
  datatype Event = Tick(frame: Frame) | Finished(name: string)

  /** Each move has a letter key and an arrow-key alias. */
  predicate MoveForward(keys: map<string, bool>) { IsKeyPressed(keys, "w") || IsKeyPressed(keys, "arrowup") }
  predicate MoveBack(keys: map<string, bool>) { IsKeyPressed(keys, "s") || IsKeyPressed(keys, "arrowdown") }
  predicate MoveLeft(keys: map<string, bool>) { IsKeyPressed(keys, "a") || IsKeyPressed(keys, "arrowleft") }
  predicate MoveRight(keys: map<string, bool>) { IsKeyPressed(keys, "d") || IsKeyPressed(keys, "arrowright") }

  /** Some move key is held (isTryingToMove). */
  predicate MoveKeyHeld(keys: map<string, bool>) {
    MoveForward(keys) || MoveBack(keys) || MoveLeft(keys) || MoveRight(keys)
  }

  /** The frame's move direction: the steering direction only when free and a move key is held. */
  function MoveDirection(free: bool, trying: bool, steer: Vec3): Vec3 {
    if free && trying then steer else Zero
  }

  /** The displacement actually applied: the collision-checked one when free, none when busy. */
  function AppliedMovement(free: bool, direction: Vec3, position: Vec3, delta: real, walls: seq<Box>): Vec3 {
    if free then Allowed(true, position, Scale(direction, CharacterSpeed * delta), walls) else Zero
  }

  /** run when a move key is held and the character really moved; idle otherwise. */
  function TargetAnimation(trying: bool, movement: Vec3): string {
    if trying && LengthSq(movement) > MovingThreshold then Run else Idle
  }

  /** The trigger: space while free starts the kick and marks the character busy. */
  function StartAction(a: Anim, keys: map<string, bool>): (r: Anim)
    ensures r.hasMixer == a.hasMixer && r.actions == a.actions
    ensures !a.canPlayAction || !IsKeyPressed(keys, " ") ==> r == a
    ensures a.canPlayAction && IsKeyPressed(keys, " ") ==> !r.canPlayAction
  {
    if a.canPlayAction && IsKeyPressed(keys, " ") then Switch(a, Kick).(canPlayAction := false) else a
  }

  /** The idle/run switch, made only when free. */
  function Settle(a: Anim, trying: bool, movement: Vec3): (r: Anim)
    ensures r == a.(current := r.current)
    ensures !a.canPlayAction ==> r == a
    ensures r.current == a.current || r.current == Some(Idle) || r.current == Some(Run)
  {
    if a.canPlayAction then Switch(a, TargetAnimation(trying, movement)) else a
  }

  /** updateCharacter on one frame. */
  function Step(s: CharState, f: Frame, walls: seq<Box>): (r: CharState)
    ensures r.hasModel == s.hasModel
    ensures r.anim.hasMixer == s.anim.hasMixer && r.anim.actions == s.anim.actions
    ensures !s.hasModel || !s.anim.hasMixer ==> r == s
  {
    if !s.hasModel || !s.anim.hasMixer then s
    else
      var a1 := StartAction(s.anim, f.keys);
      var trying := MoveKeyHeld(f.keys);
      var direction := MoveDirection(a1.canPlayAction, trying, f.steer);
      var movement := AppliedMovement(a1.canPlayAction, direction, s.position, f.delta, walls);
      CharState(s.hasModel, Settle(a1, trying, movement), Add(s.position, movement), direction)
  }

  function Apply(s: CharState, e: Event, walls: seq<Box>): CharState {
    match e
    case Tick(f) => Step(s, f, walls)
    case Finished(name) => s.(anim := Finish(s.anim, name))
  }

  /** The character after a sequence of events, in order. */
  function Replay(s: CharState, events: seq<Event>, walls: seq<Box>): CharState
    decreases |events|
  {
    if events == [] then s else Replay(Apply(s, events[0], walls), events[1..], walls)
  }

  /** The character object; hasModel, hasMixer and the loaded actions are fixed at setup. */
  class Character {
    const hasModel: bool
    const hasMixer: bool
    const actions: set<string>
    var currentActionName: Option<string>
    var canPlayAction: bool
    var position: Vec3
    var moveDirection: Vec3

    function AnimState(): Anim
      reads this`currentActionName, this`canPlayAction
    {
      Anim(hasMixer, actions, currentActionName, canPlayAction)
    }

    function State(): CharState
      reads this
    {
      CharState(hasModel, AnimState(), position, moveDirection)
    }

    /**
     * The character after loading: `modelLoaded` says whether the base model
     * arrived, `loaded` which clips did.
     */
    constructor (modelLoaded: bool, loaded: set<string>)
      requires loaded <= ClipNames
      ensures State() == CharState(modelLoaded, Setup(modelLoaded, loaded), InitialPosition, Zero)
      ensures Valid(AnimState()) && canPlayAction
    {
      hasModel := modelLoaded;
      hasMixer := modelLoaded && Idle in loaded;
      actions := if modelLoaded && Idle in loaded then loaded else {};
      currentActionName := if modelLoaded && Idle in loaded then Some(Idle) else None;
      canPlayAction := true;
      position := InitialPosition;
      moveDirection := Zero;
    }

    method SwitchAnimation(name: string)
      modifies this`currentActionName
      ensures AnimState() == Switch(old(AnimState()), name)
    {
      if !hasMixer || name !in actions || currentActionName == Some(name) {
        return;
      }
      currentActionName := Some(name);
    }

    method OnAnimationFinished(finished: string)
      modifies this`canPlayAction
      ensures AnimState() == Finish(old(AnimState()), finished)
    {
      if finished in actions && finished != Idle && finished != Run {
        canPlayAction := true;
      }
    }

    /** The action trigger: space while free starts the kick and marks the character busy. */
    method TriggerAction(keys: map<string, bool>)
      modifies this`currentActionName, this`canPlayAction
      ensures AnimState() == StartAction(old(AnimState()), keys)
    {
      if canPlayAction && IsKeyPressed(keys, " ") {
        SwitchAnimation(Kick);
        canPlayAction := false;
      }
    }

    method UpdateCharacter(input: InputManager, steer: Vec3, delta: real, walls: seq<Box>)
      modifies this
      ensures State() == Step(old(State()), Frame(input.keys, steer, delta), walls)
    {
      if !hasModel || !hasMixer {
        return;
      }
      TriggerAction(input.keys);
      var moveF := MoveForward(input.keys);
      var moveB := MoveBack(input.keys);
      var moveL := MoveLeft(input.keys);
      var moveR := MoveRight(input.keys);
      var trying := moveF || moveB || moveL || moveR;
      var finalMovement := Move(trying, steer, delta, walls);
      SettleAnimation(trying, finalMovement);
    }

    /**
     * The movement part of a frame: the move direction is the steering
     * direction only when free and trying; the collision-checked displacement
     * is applied when free, none when busy.
     */
    method Move(trying: bool, steer: Vec3, delta: real, walls: seq<Box>) returns (finalMovement: Vec3)
      requires hasModel
      modifies this`moveDirection, this`position
      ensures moveDirection == MoveDirection(canPlayAction, trying, steer)
      ensures finalMovement == AppliedMovement(canPlayAction, moveDirection, old(position), delta, walls)
      ensures position == Add(old(position), finalMovement)
    {
      moveDirection := Zero;
      if canPlayAction && trying {
        moveDirection := steer;
      }
      var desired := Scale(moveDirection, CharacterSpeed * delta);
      finalMovement := Zero;
      if canPlayAction {
        finalMovement := CheckCollisions(hasModel, position, desired, walls);
      }
      position := Add(position, finalMovement);
    }

    /** The idle/run switch at the end of a frame, made only when free. */
    method SettleAnimation(trying: bool, finalMovement: Vec3)
      modifies this`currentActionName
      ensures AnimState() == Settle(old(AnimState()), trying, finalMovement)
    {
      var moving := LengthSq(finalMovement) > MovingThreshold;
      var target := if trying && moving then Run else Idle;
      if canPlayAction {
        SwitchAnimation(target);
      }
    }
  }

  /** Every event keeps the selector's invariant. */
  lemma ApplyPreservesValid(s: CharState, e: Event, walls: seq<Box>)
    requires Valid(s.anim)
    ensures Valid(Apply(s, e, walls).anim)
  {
    match e
    case Finished(name) => FinishPreservesValid(s.anim, name);
    case Tick(f) =>
      if s.hasModel && s.anim.hasMixer {
        if s.anim.canPlayAction {
          FreeSwitchPreservesValid(s.anim, Kick);
        }
        var a1 := StartAction(s.anim, f.keys);
        if a1.canPlayAction {
          var trying := MoveKeyHeld(f.keys);
          var movement := AppliedMovement(true, MoveDirection(true, trying, f.steer), s.position, f.delta, walls);
          FreeSwitchPreservesValid(a1, TargetAnimation(trying, movement));
        }
      }
  }

  lemma {:induction false} ReplayPreservesValid(s: CharState, events: seq<Event>, walls: seq<Box>)
    requires Valid(s.anim)
    ensures Valid(Replay(s, events, walls).anim)
    decreases |events|
  {
    if events != [] {
      ApplyPreservesValid(s, events[0], walls);
      ReplayPreservesValid(Apply(s, events[0], walls), events[1..], walls);
    }
  }

  /**
   * While busy a frame moves nothing and switches nothing: the position,
   * the current action and the flag stay, and space does not re-trigger.
   */
  lemma BusyFrameChangesNothing(s: CharState, f: Frame, walls: seq<Box>)
    requires s.hasModel && s.anim.hasMixer && !s.anim.canPlayAction
    ensures Step(s, f, walls) == s.(moveDirection := Zero)
  {
  }

  /**
   * Space while free starts the kick (when its clip loaded) and marks the
   * character busy; that same frame applies no movement.
   */
  lemma SpaceStartsKick(s: CharState, f: Frame, walls: seq<Box>)
    requires s.hasModel && s.anim.hasMixer && s.anim.canPlayAction
    requires IsKeyPressed(f.keys, " ")
    ensures !Step(s, f, walls).anim.canPlayAction
    ensures Step(s, f, walls).position == s.position
    ensures Step(s, f, walls).anim.current == if Kick in s.anim.actions then Some(Kick) else s.anim.current
  {
  }

  /**
   * On a free frame without space, run becomes current exactly when a move
   * key is held and the applied displacement is longer than the threshold;
   * otherwise idle does.
   */
  lemma FreeFrameChoosesRunOrIdle(s: CharState, f: Frame, walls: seq<Box>)
    requires Valid(s.anim) && s.hasModel && s.anim.hasMixer && s.anim.canPlayAction
    requires !IsKeyPressed(f.keys, " ") && Run in s.anim.actions
    ensures var movement := AppliedMovement(true, MoveDirection(true, MoveKeyHeld(f.keys), f.steer), s.position, f.delta, walls);
            var r := Step(s, f, walls);
            r.anim.canPlayAction &&
            r.position == Add(s.position, movement) &&
            (r.anim.current == Some(Run) <==> MoveKeyHeld(f.keys) && LengthSq(movement) > MovingThreshold) &&
            (r.anim.current == Some(Idle) <==> !(MoveKeyHeld(f.keys) && LengthSq(movement) > MovingThreshold))
  {
  }

  /**
   * Pushing into a wall: a move key is held, but every horizontal part of the
   * desired displacement is either zero or blocked by a wall, so the
   * character stays put and idles.
   */
  lemma PushingIntoWallIdles(s: CharState, f: Frame, walls: seq<Box>)
    requires Valid(s.anim) && s.hasModel && s.anim.hasMixer && s.anim.canPlayAction
    requires !IsKeyPressed(f.keys, " ") && MoveKeyHeld(f.keys) && f.steer.y == 0.0
    requires var desired := Scale(f.steer, CharacterSpeed * f.delta);
             (desired.x == 0.0 || HitsWall(ShiftedX(s.position, desired.x), walls)) &&
             (desired.z == 0.0 || HitsWall(ShiftedZ(s.position, desired.z), walls))
    ensures Step(s, f, walls).position == s.position
    ensures Step(s, f, walls).anim.current == Some(Idle)
  {
    var desired := Scale(f.steer, CharacterSpeed * f.delta);
    BlockedAxisIsZeroed(s.position, desired, walls);
    var movement := Allowed(true, s.position, desired, walls);
    assert movement == Zero;
    assert Add(s.position, Zero) == s.position;
  }

  /** With no move key held, a free frame leaves the position alone and idles. */
  lemma NoMoveKeyIdles(s: CharState, f: Frame, walls: seq<Box>)
    requires Valid(s.anim) && s.hasModel && s.anim.hasMixer && s.anim.canPlayAction
    requires !IsKeyPressed(f.keys, " ") && !MoveKeyHeld(f.keys)
    ensures Step(s, f, walls).position == s.position
    ensures Step(s, f, walls).anim.current == Some(Idle)
  {
    assert Scale(Zero, CharacterSpeed * f.delta) == Zero;
    assert Add(s.position, Zero) == s.position;
  }

  /** With no walls, a free frame with a move key held advances by steer * speed * delta. */
  lemma OpenFloorAdvances(s: CharState, f: Frame)
    requires s.hasModel && s.anim.hasMixer && s.anim.canPlayAction
    requires !IsKeyPressed(f.keys, " ") && MoveKeyHeld(f.keys)
    ensures Step(s, f, []).position == Add(s.position, Scale(f.steer, CharacterSpeed * f.delta))
    ensures Step(s, f, []).moveDirection == f.steer
  {
  }

  /** A finished event frees the character only when it names a loaded one-shot action. */
  predicate Frees(a: Anim, e: Event) {
    e.Finished? && e.name in a.actions && !IsLooping(e.name)
  }

  /**
   * Once busy, the character stays where it is, with the same current
   * action and still busy, through any frames and any finished events until
   * a loaded one-shot action is reported finished.
   */
  lemma {:induction false} BusyUntilOneShotFinishes(s: CharState, events: seq<Event>, walls: seq<Box>)
    requires s.hasModel && s.anim.hasMixer && !s.anim.canPlayAction
    requires forall i :: 0 <= i < |events| ==> !Frees(s.anim, events[i])
    ensures Replay(s, events, walls).anim == s.anim
    ensures Replay(s, events, walls).position == s.position
    decreases |events|
  {
    if events != [] {
      var next := Apply(s, events[0], walls);
      assert !Frees(s.anim, events[0]);
      assert next.anim == s.anim && next.position == s.position && next.hasModel;
      assert forall i :: 0 <= i < |events[1..]| ==> !Frees(next.anim, events[1..][i]) by {
        forall i | 0 <= i < |events[1..]| ensures !Frees(next.anim, events[1..][i]) {
          assert events[1..][i] == events[i + 1];
        }
      }
      BusyUntilOneShotFinishes(next, events[1..], walls);
    }
  }

  /**
   * When the kick clip did not load, pressing space leaves the character
   * busy for good: after that frame no sequence of frames and finished
   * events moves it again or changes its action.
   */
  lemma {:induction false} MissingKickLocksCharacter(s: CharState, f: Frame, events: seq<Event>, walls: seq<Box>)
    requires Valid(s.anim) && s.hasModel && s.anim.hasMixer && s.anim.canPlayAction
    requires Kick !in s.anim.actions && IsKeyPressed(f.keys, " ")
    ensures var locked := Step(s, f, walls);
            !locked.anim.canPlayAction &&
            locked.position == s.position &&
            Replay(locked, events, walls).anim == locked.anim &&
            Replay(locked, events, walls).position == s.position
  {
    var locked := Step(s, f, walls);
    assert locked.anim == s.anim.(canPlayAction := false);
    forall i | 0 <= i < |events| ensures !Frees(locked.anim, events[i]) {
      if events[i].Finished? && events[i].name in locked.anim.actions {
        assert events[i].name in ClipNames;
      }
    }
    BusyUntilOneShotFinishes(locked, events, walls);
  }

  /**
   * Space pressed while the kick is still the current action (it finished
   * but nothing has switched away yet) does not switch, yet marks the
   * character busy.
   */
  lemma KickAgainWhileKickCurrent(s: CharState, f: Frame, walls: seq<Box>)
    requires s.hasModel && s.anim.hasMixer && s.anim.canPlayAction && s.anim.current == Some(Kick)
    requires IsKeyPressed(f.keys, " ")
    ensures Step(s, f, walls).anim == s.anim.(canPlayAction := false)
  {
  }

  /**
   * End to end: a kick makes the kick current and marks the character busy,
   * and the kick's finished event then frees it without touching the current
   * action.
   */
  lemma KickThenFinishFreesAgain(s: CharState, f: Frame, walls: seq<Box>)
    requires Valid(s.anim) && s.hasModel && s.anim.hasMixer && s.anim.canPlayAction
    requires Kick in s.anim.actions && IsKeyPressed(f.keys, " ")
    ensures var kicked := Step(s, f, walls);
            kicked.anim.current == Some(Kick) && !kicked.anim.canPlayAction &&
            Apply(kicked, Finished(Kick), walls).anim == kicked.anim.(canPlayAction := true)
  {
  }
}
