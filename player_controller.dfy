/** The player ball (Assets/Scripts/PlayerController.cs): pickup counting with
    the win check, the grounded flag that gates jumping, the enemy-contact lose
    path, the mouse-look angle accumulator and the count label.

    Every handler of the class is specified by a pure transition function
    over `PlayerState`, the value of all the fields the handlers touch; the
    lemmas at the end are about runs of those transitions. */
module PlayerControl {
  import opened Text

  const PickUpTag := "PickUp"
  const GroundTag := "Ground"
  const EnemyTag := "Enemy"
  const PlayerTag := "Player"

  /** Pickups needed for the win branch of `SetCountText`. */
  const WinThreshold: nat := 16
  /** Bounds of the camera pitch clamp in `Update`, in degrees. */
  const PitchMin: real := -45.0
  const PitchMax: real := 60.0

  /** Inspector defaults of the controller. */
  const DefaultJumpForce: real := 12.0
  const DefaultMouseSensitivity: real := 2.0

  const CountPrefix := "Count: "
  const LoseText := "You Lose!"

  datatype Option<T> = None | Some(value: T)

  /** A UI object carrying a text label: whether it is active, and its text. */
  datatype UiText = UiText(active: bool, text: string)

  /** `Mathf.Clamp`. */
  function Clamp(v: real, lo: real, hi: real): (r: real)
    requires lo <= hi
    ensures lo <= r <= hi
    ensures lo <= v <= hi ==> r == v
    ensures v < lo ==> r == lo
    ensures hi < v ==> r == hi
  {
    if v < lo then lo else if hi < v then hi else v
  }

  /** The text of the count label: the prefix, then the count in decimal. */
  function CountLabel(count: nat): (text: string)
    ensures |text| > |CountPrefix| && text[..|CountPrefix|] == CountPrefix
    ensures IsDecimal(text[|CountPrefix|..])
    ensures DecimalValue(text[|CountPrefix|..]) == count
    ensures text[|CountPrefix|] == '0' ==> |text| == |CountPrefix| + 1
  {
    DecimalRoundTrip(count);
    var text := CountPrefix + DecimalString(count);
    assert text[|CountPrefix|..] == DecimalString(count);
    text
  }

  /** The fields of a `PlayerController` that its handlers read or write.
      `countText` is None when no label is assigned, `winTextObject` None when
      no win object is assigned; `impulses` lists the upward impulses handed to
      the rigid body; `destroyed` records `Destroy(gameObject)`;
      `enemiesInScene` is the number of live objects tagged "Enemy" that the
      scene search can find; `deathRequests` counts calls of `Death()`. */
  datatype PlayerState = PlayerState(
    speed: real,
    jumpForce: real,
    mouseSensitivity: real,
    useMouseLook: bool,
    countText: Option<string>,
    winTextObject: Option<UiText>,
    count: nat,
    isGrounded: bool,
    wasGrounded: bool,
    cameraRotationX: real,
    cameraRotationY: real,
    lookX: real,
    lookY: real,
    impulses: seq<real>,
    destroyed: bool,
    enemiesInScene: nat,
    deathRequests: nat)

  predicate PitchInRange(s: PlayerState) {
    PitchMin <= s.cameraRotationX <= PitchMax
  }

  /** The count label, when there is one, shows the current count. */
  predicate LabelShowsCount(s: PlayerState) {
    s.countText.Some? ==> s.countText.value == CountLabel(s.count)
  }

  function WinShown(s: PlayerState): bool {
    s.winTextObject.Some? && s.winTextObject.value.active
  }

  function SetActive(w: Option<UiText>, active: bool): (r: Option<UiText>)
    ensures r.Some? == w.Some?
    ensures r.Some? ==> r.value == w.value.(active := active)
  {
    if w.Some? then Some(w.value.(active := active)) else None
  }

  /** `SetCountText`: refresh the label, and from the threshold on show the
      win object and destroy one enemy if the scene still has one. */
  function AfterSetCountText(s: PlayerState): (r: PlayerState)
    ensures r.countText.Some? == s.countText.Some?
    ensures LabelShowsCount(r)
    ensures s.count >= WinThreshold && s.winTextObject.Some? ==> WinShown(r)
    ensures s.count < WinThreshold ==> r.winTextObject == s.winTextObject
    ensures r.winTextObject.Some? == s.winTextObject.Some?
    ensures r.winTextObject.Some? ==> r.winTextObject.value.text == s.winTextObject.value.text
    ensures r.enemiesInScene ==
      if s.count >= WinThreshold && s.enemiesInScene > 0 then s.enemiesInScene - 1 else s.enemiesInScene
    ensures r.(countText := s.countText, winTextObject := s.winTextObject, enemiesInScene := s.enemiesInScene) == s
  {
    var labelled := s.(countText := if s.countText.Some? then Some(CountLabel(s.count)) else None);
    if s.count >= WinThreshold then
      labelled.(winTextObject := SetActive(s.winTextObject, true),
                enemiesInScene := if s.enemiesInScene > 0 then s.enemiesInScene - 1 else 0)
    else
      labelled
  }

  /** `Start` (its game-state part): count 0, label refreshed, win object hidden. */
  function AfterStart(s: PlayerState): (r: PlayerState)
    ensures r.count == 0
    ensures r.countText.Some? == s.countText.Some?
    ensures r.countText.Some? ==> r.countText.value == "Count: 0"
    ensures !WinShown(r) && r.winTextObject == SetActive(s.winTextObject, false)
    ensures r.enemiesInScene == s.enemiesInScene
    ensures r.(count := s.count, countText := s.countText, winTextObject := s.winTextObject) == s
  {
    var t := AfterSetCountText(s.(count := 0));
    assert DecimalString(0) == "0";
    t.(winTextObject := SetActive(t.winTextObject, false))
  }

  /** `OnTriggerEnter`: a "PickUp" raises the count by exactly one and runs
      the label and win check; any other tag changes nothing. */
  function AfterTrigger(s: PlayerState, tag: string): (r: PlayerState)
    ensures tag == PickUpTag ==> r == AfterSetCountText(s.(count := s.count + 1))
    ensures tag == PickUpTag ==> r.count == s.count + 1 && LabelShowsCount(r)
    ensures tag == PickUpTag && s.count + 1 >= WinThreshold && s.winTextObject.Some? ==> WinShown(r)
    ensures tag != PickUpTag ==> r == s
  {
    if tag == PickUpTag then AfterSetCountText(s.(count := s.count + 1)) else s
  }

  /** `OnCollisionEnter`: "Ground" sets the grounded flag; "Enemy" destroys the
      player and shows the win object with the lose text; the count is never
      touched. */
  function AfterCollisionEnter(s: PlayerState, tag: string): (r: PlayerState)
    ensures r.count == s.count
    ensures r.isGrounded == (tag == GroundTag || s.isGrounded)
    ensures tag == EnemyTag ==> r.destroyed
    ensures tag == EnemyTag ==> r.winTextObject == (if s.winTextObject.Some? then Some(UiText(true, LoseText)) else None)
    ensures tag != EnemyTag ==> r == s.(isGrounded := r.isGrounded)
    ensures r.(isGrounded := s.isGrounded, destroyed := s.destroyed, winTextObject := s.winTextObject) == s
  {
    var g := if tag == GroundTag then s.(isGrounded := true) else s;
    if tag == EnemyTag then
      g.(destroyed := true,
         winTextObject := if s.winTextObject.Some? then Some(UiText(true, LoseText)) else None)
    else
      g
  }

  /** `OnCollisionExit`: leaving "Ground" clears the grounded flag; nothing else changes. */
  function AfterCollisionExit(s: PlayerState, tag: string): (r: PlayerState)
    ensures r.isGrounded == (tag != GroundTag && s.isGrounded)
    ensures r == s.(isGrounded := r.isGrounded)
  {
    if tag == GroundTag then s.(isGrounded := false) else s
  }

  /** `OnJump`: only when grounded, one upward impulse of `jumpForce` and the
      flag cleared; otherwise nothing changes. */
  function AfterJump(s: PlayerState): (r: PlayerState)
    ensures s.isGrounded ==> r.impulses == s.impulses + [s.jumpForce] && !r.isGrounded
    ensures !s.isGrounded ==> r == s
    ensures r == s.(impulses := r.impulses, isGrounded := r.isGrounded)
  {
    if s.isGrounded then s.(impulses := s.impulses + [s.jumpForce], isGrounded := false) else s
  }

  /** `OnLook`: remember the look vector for the next `Update`. */
  function AfterLook(s: PlayerState, x: real, y: real): (r: PlayerState)
    ensures r.lookX == x && r.lookY == y
    ensures r == s.(lookX := r.lookX, lookY := r.lookY)
  {
    s.(lookX := x, lookY := y)
  }

  /** The angle part of `Update`: with mouse look on, yaw grows by
      `look.x * sensitivity` and pitch moves by `-look.y * sensitivity`, clamped
      to [-45, 60]; with it off, neither angle moves. */
  function AfterUpdate(s: PlayerState): (r: PlayerState)
    ensures r.wasGrounded == s.isGrounded
    ensures s.useMouseLook ==> r.cameraRotationY == s.cameraRotationY + s.lookX * s.mouseSensitivity
    ensures s.useMouseLook ==> r.cameraRotationX == Clamp(s.cameraRotationX - s.lookY * s.mouseSensitivity, PitchMin, PitchMax)
    ensures s.useMouseLook ==> PitchInRange(r)
    ensures !s.useMouseLook ==> r.cameraRotationX == s.cameraRotationX && r.cameraRotationY == s.cameraRotationY
    ensures r == s.(wasGrounded := r.wasGrounded, cameraRotationX := r.cameraRotationX, cameraRotationY := r.cameraRotationY)
  {
    var t := s.(wasGrounded := s.isGrounded);
    if s.useMouseLook then
      var pitch := s.cameraRotationX - s.lookY * s.mouseSensitivity;
      t.(cameraRotationY := s.cameraRotationY + s.lookX * s.mouseSensitivity,
         cameraRotationX := Clamp(pitch, PitchMin, PitchMax))
    else
      t
  }

  /** The callbacks the engine and the input system deliver to the player. */
  datatype Event =
    | Trigger(tag: string)
    | ContactBegin(tag: string)
    | ContactEnd(tag: string)
    | JumpPressed
    | LookInput(x: real, y: real)
    | Frame

  function Step(s: PlayerState, e: Event): PlayerState {
    match e
    case Trigger(tag) => AfterTrigger(s, tag)
    case ContactBegin(tag) => AfterCollisionEnter(s, tag)
    case ContactEnd(tag) => AfterCollisionExit(s, tag)
    case JumpPressed => AfterJump(s)
    case LookInput(x, y) => AfterLook(s, x, y)
    case Frame => AfterUpdate(s)
  }

  function Run(s: PlayerState, es: seq<Event>): PlayerState
    decreases |es|
  {
    if es == [] then s else Run(Step(s, es[0]), es[1..])
  }

  function CountPickups(es: seq<Event>): nat
    decreases |es|
  {
    if es == [] then 0 else (if es[0] == Trigger(PickUpTag) then 1 else 0) + CountPickups(es[1..])
  }

  function CountJumps(es: seq<Event>): nat
    decreases |es|
  {
    if es == [] then 0 else (if es[0] == JumpPressed then 1 else 0) + CountJumps(es[1..])
  }

  /** `n` pickup triggers in a row. */
  function Pickups(n: nat): (es: seq<Event>)
    ensures |es| == n
    ensures forall i :: 0 <= i < n ==> es[i] == Trigger(PickUpTag)
  {
    seq(n, _ => Trigger(PickUpTag))
  }

  /** How many of `n` pickups made from count `c` run the win branch. */
  function WinFirings(c: nat, n: nat): nat {
    if c + n < WinThreshold then 0
    else if c + 1 >= WinThreshold then n
    else c + n - (WinThreshold - 1)
  }

  /** The count moves only through "PickUp" triggers, by one each: no other
      trigger, no contact (the enemy contact included), jump or frame changes it. */
  lemma {:induction false} CountIsPickups(s: PlayerState, es: seq<Event>)
    ensures Run(s, es).count == s.count + CountPickups(es)
    decreases |es|
  {
    if es != [] {
      CountIsPickups(Step(s, es[0]), es[1..]);
    }
  }

  /** From any starting state, `n` pickups give count `c + n`, show the win
      object once the threshold is reached (and hide nothing), leave it as it
      was below the threshold, and destroy one enemy per win-branch run while
      enemies remain. */
  lemma {:induction false} PickupRun(s: PlayerState, n: nat)
    ensures Run(s, Pickups(n)).count == s.count + n
    ensures n > 0 && s.count + n >= WinThreshold && s.winTextObject.Some? ==> WinShown(Run(s, Pickups(n)))
    ensures s.count + n < WinThreshold ==> Run(s, Pickups(n)).winTextObject == s.winTextObject
    ensures Run(s, Pickups(n)).enemiesInScene ==
      if s.enemiesInScene >= WinFirings(s.count, n) then s.enemiesInScene - WinFirings(s.count, n) else 0
    decreases n
  {
    if n > 0 {
      var es := Pickups(n);
      var t := Step(s, es[0]);
      assert es[1..] == Pickups(n - 1);
      assert Run(s, es) == Run(t, Pickups(n - 1));
      assert t == AfterTrigger(s, PickUpTag);
      PickupRun(t, n - 1);
    }
  }

  /** The game as started: 16 pickups and no fewer show the win object. */
  lemma WinExactlyFromSixteen(s: PlayerState, n: nat)
    requires s.winTextObject.Some?
    ensures WinShown(Run(AfterStart(s), Pickups(n))) <==> n >= WinThreshold
  {
    PickupRun(AfterStart(s), n);
  }

  /** Below the threshold, with no enemy contact, no run shows the win object
      of a started game. */
  lemma {:induction false} NoWinBelowThreshold(s: PlayerState, es: seq<Event>)
    requires !WinShown(s)
    requires forall i :: 0 <= i < |es| ==> es[i] != ContactBegin(EnemyTag)
    requires s.count + CountPickups(es) < WinThreshold
    ensures !WinShown(Run(s, es))
    decreases |es|
  {
    if es != [] {
      NoWinBelowThreshold(Step(s, es[0]), es[1..]);
    }
  }

  /** The pitch never leaves [-45, 60] once inside it. */
  lemma {:induction false} PitchStaysInRange(s: PlayerState, es: seq<Event>)
    requires PitchInRange(s)
    ensures PitchInRange(Run(s, es))
    decreases |es|
  {
    if es != [] {
      PitchStaysInRange(Step(s, es[0]), es[1..]);
    }
  }

  /** With mouse look off, no run moves either camera angle. */
  lemma {:induction false} CameraFrozenWithoutMouseLook(s: PlayerState, es: seq<Event>)
    requires !s.useMouseLook
    ensures Run(s, es).cameraRotationX == s.cameraRotationX
    ensures Run(s, es).cameraRotationY == s.cameraRotationY
    decreases |es|
  {
    if es != [] {
      CameraFrozenWithoutMouseLook(Step(s, es[0]), es[1..]);
    }
  }

  /** The grounded flag is raised only by a "Ground" contact: never by a
      frame, a jump, a trigger or another tag. */
  lemma {:induction false} GroundedOnlyByGroundContact(s: PlayerState, es: seq<Event>)
    requires !s.isGrounded
    requires forall i :: 0 <= i < |es| ==> es[i] != ContactBegin(GroundTag)
    ensures !Run(s, es).isGrounded
    decreases |es|
  {
    if es != [] {
      GroundedOnlyByGroundContact(Step(s, es[0]), es[1..]);
    }
  }

  /** One callback adds an impulse only on a jump press, and then exactly `jumpForce`. */
  lemma StepImpulses(s: PlayerState, e: Event)
    ensures Step(s, e).jumpForce == s.jumpForce
    ensures Step(s, e).impulses == s.impulses
         || (e == JumpPressed && Step(s, e).impulses == s.impulses + [s.jumpForce])
  {
  }

  /** Every impulse requested is an upward impulse of `jumpForce`, and no
      more of them are requested than jumps were pressed. */
  lemma {:induction false} ImpulsesAreJumps(s: PlayerState, es: seq<Event>)
    ensures |s.impulses| <= |Run(s, es).impulses| <= |s.impulses| + CountJumps(es)
    ensures Run(s, es).impulses[..|s.impulses|] == s.impulses
    ensures forall i :: |s.impulses| <= i < |Run(s, es).impulses| ==> Run(s, es).impulses[i] == s.jumpForce
    decreases |es|
  {
    if es != [] {
      var t := Step(s, es[0]);
      var r := Run(t, es[1..]);
      assert r == Run(s, es);
      StepImpulses(s, es[0]);
      ImpulsesAreJumps(t, es[1..]);
      assert r.impulses[..|t.impulses|] == t.impulses;
      assert t.impulses[..|s.impulses|] == s.impulses;
      assert r.impulses[..|s.impulses|] == s.impulses;
    }
  }

  /** Once consistent, the count label keeps showing the current count. */
  lemma {:induction false} LabelTracksCount(s: PlayerState, es: seq<Event>)
    requires LabelShowsCount(s)
    ensures LabelShowsCount(Run(s, es))
    decreases |es|
  {
    if es != [] {
      LabelTracksCount(Step(s, es[0]), es[1..]);
    }
  }

  /** No handler checks for an earlier enemy contact: a pickup delivered after
      it (before the engine removes the destroyed player) still counts. */
  lemma PickupAfterEnemyContactCounts(s: PlayerState)
    ensures Run(s, [ContactBegin(EnemyTag), Trigger(PickUpTag)]).count == s.count + 1
    ensures Run(s, [ContactBegin(EnemyTag), Trigger(PickUpTag)]).destroyed
  {
    var es := [ContactBegin(EnemyTag), Trigger(PickUpTag)];
    var t := AfterCollisionEnter(s, EnemyTag);
    assert es[1..] == [Trigger(PickUpTag)];
    assert Run(s, es) == Run(t, [Trigger(PickUpTag)]);
    assert Run(t, [Trigger(PickUpTag)]) == Run(AfterTrigger(t, PickUpTag), []);
  }

  /** A scene object another object touches: its tag, whether it is active,
      and the `PlayerController` component on it, if any. */
  class GameObject {
    const tag: string
    var active: bool
    const controller: PlayerController?

    constructor (tag: string, controller: PlayerController?)
      ensures this.tag == tag && this.controller == controller && active
    {
      this.tag := tag;
      this.controller := controller;
      active := true;
    }
  }

  class PlayerController {
    var speed: real
    var jumpForce: real
    var mouseSensitivity: real
    var useMouseLook: bool
    var countText: Option<string>
    var winTextObject: Option<UiText>
    var count: nat
    var isGrounded: bool
    var wasGrounded: bool
    var cameraRotationX: real
    var cameraRotationY: real
    var lookX: real
    var lookY: real
    var impulses: seq<real>
    var destroyed: bool
    var enemiesInScene: nat
    var deathRequests: nat

    function State(): PlayerState
      reads this
    {
      PlayerState(speed, jumpForce, mouseSensitivity, useMouseLook, countText, winTextObject,
                  count, isGrounded, wasGrounded, cameraRotationX, cameraRotationY, lookX, lookY,
                  impulses, destroyed, enemiesInScene, deathRequests)
    }

    ghost predicate Valid()
      reads this`cameraRotationX
    {
      PitchMin <= cameraRotationX <= PitchMax
    }

    /** The component as the scene sets it up, before `Start`: the inspector
        values with their defaults, the assigned UI objects and the enemies. */
    constructor (speed: real, jumpForce: real, mouseSensitivity: real, useMouseLook: bool,
                 countText: Option<string>, winTextObject: Option<UiText>, enemiesInScene: nat)
      ensures Valid()
      ensures State() == PlayerState(speed, jumpForce, mouseSensitivity, useMouseLook, countText, winTextObject,
                                     0, false, false, 0.0, 0.0, 0.0, 0.0, [], false, enemiesInScene, 0)
    {
      this.speed := speed;
      this.jumpForce := jumpForce;
      this.mouseSensitivity := mouseSensitivity;
      this.useMouseLook := useMouseLook;
      this.countText := countText;
      this.winTextObject := winTextObject;
      count := 0;
      isGrounded := false;
      wasGrounded := false;
      cameraRotationX := 0.0;
      cameraRotationY := 0.0;
      lookX := 0.0;
      lookY := 0.0;
      impulses := [];
      destroyed := false;
      this.enemiesInScene := enemiesInScene;
      deathRequests := 0;
    }

    method Start()
      requires Valid()
      modifies this
      ensures Valid()
      ensures State() == AfterStart(old(State()))
    {
      count := 0;
      SetCountText();
      if winTextObject.Some? {
        winTextObject := Some(winTextObject.value.(active := false));
      }
    }

    method Update()
      requires Valid()
      modifies this
      ensures Valid()
      ensures State() == AfterUpdate(old(State()))
    {
      wasGrounded := isGrounded;
      if useMouseLook {
        cameraRotationY := cameraRotationY + lookX * mouseSensitivity;
        cameraRotationX := cameraRotationX - lookY * mouseSensitivity;
        cameraRotationX := Clamp(cameraRotationX, PitchMin, PitchMax);
      }
    }

    method OnLook(x: real, y: real)
      modifies this
      ensures State() == AfterLook(old(State()), x, y)
    {
      lookX := x;
      lookY := y;
    }

    method OnJump()
      modifies this
      ensures State() == AfterJump(old(State()))
    {
      if isGrounded {
        impulses := impulses + [jumpForce];
        isGrounded := false;
      }
    }

    method SetCountText()
      modifies this
      ensures State() == AfterSetCountText(old(State()))
    {
      if countText.Some? {
        countText := Some(CountPrefix + DecimalString(count));
      }
      if count >= WinThreshold {
        if winTextObject.Some? {
          winTextObject := Some(winTextObject.value.(active := true));
        }
        if enemiesInScene > 0 {
          enemiesInScene := enemiesInScene - 1;
        }
      }
    }

    method OnTriggerEnter(other: GameObject)
      modifies this, other
      ensures State() == AfterTrigger(old(State()), other.tag)
      ensures other.active == (other.tag != PickUpTag && old(other.active))
    {
      if other.tag == PickUpTag {
        other.active := false;
        count := count + 1;
        SetCountText();
      }
    }

    method OnCollisionEnter(collision: GameObject)
      modifies this
      ensures State() == AfterCollisionEnter(old(State()), collision.tag)
    {
      if collision.tag == GroundTag {
        isGrounded := true;
      }
      if collision.tag == EnemyTag {
        destroyed := true;
        if winTextObject.Some? {
          winTextObject := Some(UiText(true, winTextObject.value.text));
          winTextObject := Some(winTextObject.value.(text := LoseText));
        }
      }
    }

    method OnCollisionExit(collision: GameObject)
      modifies this
      ensures State() == AfterCollisionExit(old(State()), collision.tag)
    {
      if collision.tag == GroundTag {
        isGrounded := false;
      }
    }

    /** `Death()` is called by the hazard but has no definition in the
        controller; the model only records that it was requested. */
    method Death()
      modifies this`deathRequests
      ensures deathRequests == old(deathRequests) + 1
    {
      deathRequests := deathRequests + 1;
    }
  }
}
