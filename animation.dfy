/**
 * The animation selector: which named action is current, and the busy flag
 * (canPlayAction, true when the character is free) that a one-shot action
 * holds until the mixer reports it finished. Fades are not modelled, only
 * the choice of the current action.
 */
module Animation {
  import opened Wrappers

  const Idle: string := "idle"
  const Run: string := "run"
  const Kick: string := "kick"

  /** The clip names the loader asks for; only these can become actions. */
  const ClipNames: set<string> := {Idle, Run, Kick}

  /** idle and run repeat; every other action plays once and holds its last pose. */
  predicate IsLooping(name: string) {
    name == Idle || name == Run
  }

  /**
   * hasMixer: an animation mixer exists; actions: the names with a loaded
   * clip; current: currentActionName (None for null); canPlayAction: free.
   */
  datatype Anim = Anim(hasMixer: bool, actions: set<string>, current: Option<string>, canPlayAction: bool)

  /**
   * What holds of the selector from setup on: only the three clip names are
   * actions; with a mixer, idle is loaded and the current action is a loaded
   * one; without one, nothing is loaded and nothing can be busy; and while
   * busy, the kick is current unless it never loaded.
   */
  predicate Valid(a: Anim) {
    a.actions <= ClipNames &&
    (a.hasMixer ==> Idle in a.actions && a.current.Some? && a.current.value in a.actions) &&
    (!a.hasMixer ==> a.actions == {} && a.current == None && a.canPlayAction) &&
    (!a.canPlayAction ==> a.current == Some(Kick) || Kick !in a.actions)
  }

  /**
   * The state right after setup, given whether the character model arrived
   * and which clips loaded: a mixer only with the model and the idle clip,
   * and then idle is current.
   */
  function Setup(hasModel: bool, loaded: set<string>): (a: Anim)
    requires loaded <= ClipNames
    ensures Valid(a)
    ensures a.canPlayAction
    ensures a.hasMixer <==> hasModel && Idle in loaded
    ensures a.hasMixer ==> a.actions == loaded && a.current == Some(Idle)
  {
    if hasModel && Idle in loaded then Anim(true, loaded, Some(Idle), true)
    else Anim(false, {}, None, true)
  }

  /** switchAnimation: ignored without a mixer, for an unloaded name, or for the current name. */
  function Switch(a: Anim, name: string): (r: Anim)
    ensures r == a.(current := r.current)
    ensures r.current == a.current || r.current == Some(name)
  {
    if !a.hasMixer || name !in a.actions || a.current == Some(name) then a
    else a.(current := Some(name))
  }

  /**
   * onAnimationFinished for the action whose name is `finished`: the lookup
   * finds it only among the loaded actions, and only a one-shot action frees
   * the character.
   */
  function Finish(a: Anim, finished: string): (r: Anim)
    ensures r == a.(canPlayAction := r.canPlayAction)
    ensures a.canPlayAction ==> r.canPlayAction
  {
    if finished in a.actions && finished != Idle && finished != Run then a.(canPlayAction := true)
    else a
  }

  /** Switching changes the current name only, and to `name` exactly when it is a loaded action and a mixer exists. */
  lemma SwitchSelects(a: Anim, name: string)
    ensures Switch(a, name) == a.(current := Switch(a, name).current)
    ensures a.hasMixer && name in a.actions ==> Switch(a, name).current == Some(name)
    ensures !(a.hasMixer && name in a.actions) ==> Switch(a, name) == a
  {
  }

  /** Requesting the current name changes nothing, so a second identical request is a no-op. */
  lemma SwitchIdempotent(a: Anim, name: string)
    ensures a.current == Some(name) ==> Switch(a, name) == a
    ensures Switch(Switch(a, name), name) == Switch(a, name)
  {
  }

  /**
   * Switching while free keeps the selector valid, and so does starting the
   * kick and marking the character busy in the same step.
   */
  lemma FreeSwitchPreservesValid(a: Anim, name: string)
    requires Valid(a) && a.canPlayAction
    ensures Valid(Switch(a, name))
    ensures a.hasMixer ==> Valid(Switch(a, Kick).(canPlayAction := false))
  {
  }

  /**
   * A finished event frees the character exactly when the action is a
   * loaded one-shot; in every other case it changes nothing. Nothing but
   * the flag ever changes.
   */
  lemma FinishFreesOnlyForOneShot(a: Anim, finished: string)
    ensures Finish(a, finished) == a.(canPlayAction := Finish(a, finished).canPlayAction)
    ensures Finish(a, finished).canPlayAction <==>
      a.canPlayAction || (finished in a.actions && !IsLooping(finished))
    ensures IsLooping(finished) || finished !in a.actions ==> Finish(a, finished) == a
  {
  }

  lemma FinishPreservesValid(a: Anim, finished: string)
    requires Valid(a)
    ensures Valid(Finish(a, finished))
  {
  }

  /**
   * Without the kick clip, no finished event can free the character: every
   * loaded action then repeats.
   */
  lemma NoOneShotWithoutKick(a: Anim, finished: string)
    requires Valid(a) && Kick !in a.actions
    ensures Finish(a, finished) == a
  {
    if finished in a.actions {
      assert finished in ClipNames;
    }
  }
}
