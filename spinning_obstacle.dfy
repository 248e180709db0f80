/** The spinning hazard (Assets/Shared/SpinningObstacle.cs). At start the
    hazard picks its dangerous children and attaches a `DangerousPart` to
    each; every frame it advances a flash timer that toggles all parts
    between two colours; and any part touched by the player asks the
    hazard to kill the player, whatever colour it shows. */
module Hazard {
  import opened Text
  import opened PlayerControl

  datatype Color = Color(r: real, g: real, b: real, a: real)

  /** Inspector defaults of the hazard. */
  const White := Color(1.0, 1.0, 1.0, 1.0)
  const Red := Color(1.0, 0.0, 0.0, 1.0)
  const DefaultFlashSpeed: real := 0.3
  const DefaultPartTag := "Capsule"

  /** The name fragment searched for (after lower-casing) when `useName` is set. */
  const CapsuleName := "capsule"

  class Material {
    var color: Color

    constructor (color: Color)
      ensures this.color == color
    {
      this.color := color;
    }
  }

  /** A transform found under the hazard: its name, its tag, whether it has a
      renderer, and that renderer's material (null when it has none). */
  datatype Child = Child(name: string, tag: string, hasRenderer: bool, material: Material?)

  /** The selection test of `Start`: by lower-cased name, or by tag. */
  predicate IsCapsule(c: Child, useName: bool, dangerousPartTag: string) {
    if useName then Contains(ToLower(c.name), CapsuleName) else c.tag == dangerousPartTag
  }

  /** A selected child becomes a part only with a renderer and a material. */
  predicate Eligible(c: Child, useName: bool, dangerousPartTag: string) {
    IsCapsule(c, useName, dangerousPartTag) && c.hasRenderer && c.material != null
  }

  /** The children that become parts, in traversal order. */
  function SelectParts(children: seq<Child>, useName: bool, dangerousPartTag: string): (parts: seq<Child>)
    ensures |parts| <= |children|
    ensures forall c :: c in parts ==> c in children && Eligible(c, useName, dangerousPartTag)
    ensures forall c :: c in children && Eligible(c, useName, dangerousPartTag) ==> c in parts
    decreases |children|
  {
    if children == [] then []
    else
      var last := children[|children| - 1];
      SelectParts(children[..|children| - 1], useName, dangerousPartTag)
        + (if Eligible(last, useName, dangerousPartTag) then [last] else [])
  }

  /** Selection works child by child: the parts of a traversal are the parts
      of its first half followed by those of its second, so the parts keep
      the traversal order. */
  lemma {:induction false} SelectPartsSplits(a: seq<Child>, b: seq<Child>, useName: bool, dangerousPartTag: string)
    ensures SelectParts(a + b, useName, dangerousPartTag)
         == SelectParts(a, useName, dangerousPartTag) + SelectParts(b, useName, dangerousPartTag)
    decreases |b|
  {
    if b == [] {
      assert a + b == a;
    } else {
      var b' := b[..|b| - 1];
      assert (a + b)[..|a + b| - 1] == a + b';
      assert (a + b)[|a + b| - 1] == b[|b| - 1];
      SelectPartsSplits(a, b', useName, dangerousPartTag);
    }
  }

  /** Under name selection, a child whose name already holds "capsule" in
      lower case is always a candidate; so is "Capsule" and "CAPSULE". */
  lemma LowerCaseNameSelected(c: Child, dangerousPartTag: string)
    requires Contains(c.name, CapsuleName)
    ensures IsCapsule(c, true, dangerousPartTag)
  {
    ContainsSurvivesLower(c.name, CapsuleName);
  }

  lemma MixedCaseNamesSelected(tag: string)
    ensures IsCapsule(Child("Capsule (1)", tag, true, null), true, tag)
    ensures IsCapsule(Child("CAPSULE", tag, true, null), true, tag)
    ensures !IsCapsule(Child("Cylinder", "Capsule", true, null), true, tag)
  {
    assert OccursAt(ToLower("Capsule (1)"), CapsuleName, 0);
    assert OccursAt(ToLower("CAPSULE"), CapsuleName, 0);
    var l := ToLower("Cylinder");
    assert |l| == 8 && l[1] == 'y';
    forall i | 0 <= i <= |l| - |CapsuleName|
      ensures !OccursAt(l, CapsuleName, i)
    {
      assert l[i..i + 7][0] == l[i];
      assert l[i..i + 7][1] == l[i + 1];
    }
  }

  /** The flash state after one frame, and whether the colour toggled. */
  datatype Flash = Flash(timer: real, isRed: bool, toggled: bool)

  /** The flash part of `Update`: add the frame time; at or past `flashSpeed`,
      toggle once and restart the timer from zero. */
  function FlashStep(timer: real, isRed: bool, dt: real, flashSpeed: real): (f: Flash)
    ensures f.toggled <==> timer + dt >= flashSpeed
    ensures f.isRed == (isRed != f.toggled)
    ensures f.timer == (if f.toggled then 0.0 else timer + dt)
    ensures flashSpeed > 0.0 ==> f.timer < flashSpeed
    ensures timer >= 0.0 && dt >= 0.0 ==> f.timer >= 0.0
  {
    var t := timer + dt;
    if t >= flashSpeed then Flash(0.0, !isRed, true) else Flash(t, isRed, false)
  }

  /** The flash state after a run of frames, with the number of toggles. */
  datatype FlashRun = FlashRun(timer: real, isRed: bool, toggles: nat)

  function RunFlash(timer: real, isRed: bool, dts: seq<real>, flashSpeed: real): FlashRun
    decreases |dts|
  {
    if dts == [] then FlashRun(timer, isRed, 0)
    else
      var f := FlashStep(timer, isRed, dts[0], flashSpeed);
      var r := RunFlash(f.timer, f.isRed, dts[1..], flashSpeed);
      r.(toggles := r.toggles + (if f.toggled then 1 else 0))
  }

  function Sum(dts: seq<real>): real
    decreases |dts|
  {
    if dts == [] then 0.0 else dts[0] + Sum(dts[1..])
  }

  /** `n` copies of `x` added up. */
  function Times(n: nat, x: real): real
    decreases n
  {
    if n == 0 then 0.0 else x + Times(n - 1, x)
  }

  function Odd(n: nat): bool {
    n % 2 == 1
  }

  /** Starting inside [0, flashSpeed) with non-negative frame times, the timer
      never reaches `flashSpeed`. */
  lemma {:induction false} TimerStaysBelowFlashSpeed(timer: real, isRed: bool, dts: seq<real>, flashSpeed: real)
    requires 0.0 <= timer < flashSpeed
    requires forall i :: 0 <= i < |dts| ==> dts[i] >= 0.0
    ensures 0.0 <= RunFlash(timer, isRed, dts, flashSpeed).timer < flashSpeed
    decreases |dts|
  {
    if dts != [] {
      var f := FlashStep(timer, isRed, dts[0], flashSpeed);
      TimerStaysBelowFlashSpeed(f.timer, f.isRed, dts[1..], flashSpeed);
    }
  }

  /** The colour ends up toggled exactly when the number of toggles is odd. */
  lemma {:induction false} ColourFollowsToggles(timer: real, isRed: bool, dts: seq<real>, flashSpeed: real)
    ensures RunFlash(timer, isRed, dts, flashSpeed).isRed == (isRed != Odd(RunFlash(timer, isRed, dts, flashSpeed).toggles))
    decreases |dts|
  {
    if dts != [] {
      var f := FlashStep(timer, isRed, dts[0], flashSpeed);
      ColourFollowsToggles(f.timer, f.isRed, dts[1..], flashSpeed);
    }
  }

  /** Each toggle uses up at least `flashSpeed` of accumulated time: the
      toggles times `flashSpeed` never exceed the time that has passed, less
      what the timer still holds. */
  lemma {:induction false} TogglesUseUpTime(timer: real, isRed: bool, dts: seq<real>, flashSpeed: real)
    ensures var r := RunFlash(timer, isRed, dts, flashSpeed);
            Times(r.toggles, flashSpeed) <= timer + Sum(dts) - r.timer
    decreases |dts|
  {
    if dts != [] {
      var f := FlashStep(timer, isRed, dts[0], flashSpeed);
      TogglesUseUpTime(f.timer, f.isRed, dts[1..], flashSpeed);
    }
  }

  /** With `flashSpeed` at or below zero every frame toggles. */
  lemma {:induction false} NonPositiveFlashSpeedTogglesEveryFrame(timer: real, isRed: bool, dts: seq<real>, flashSpeed: real)
    requires flashSpeed <= 0.0 && timer >= 0.0
    requires forall i :: 0 <= i < |dts| ==> dts[i] >= 0.0
    ensures RunFlash(timer, isRed, dts, flashSpeed).toggles == |dts|
    decreases |dts|
  {
    if dts != [] {
      var f := FlashStep(timer, isRed, dts[0], flashSpeed);
      NonPositiveFlashSpeedTogglesEveryFrame(f.timer, f.isRed, dts[1..], flashSpeed);
    }
  }

  class SpinningHazard {
    const flashSpeed: real
    const normalColor: Color
    const dangerColor: Color
    const dangerousPartTag: string
    const useName: bool
    var dangerousParts: array<DangerousPart?>
    var flashTimer: real
    var isRed: bool

    /** The hazard as the scene sets it up, before `Start`. */
    constructor (flashSpeed: real, normalColor: Color, dangerColor: Color, dangerousPartTag: string, useName: bool)
      ensures this.flashSpeed == flashSpeed && this.normalColor == normalColor && this.dangerColor == dangerColor
      ensures this.dangerousPartTag == dangerousPartTag && this.useName == useName
      ensures dangerousParts.Length == 0 && flashTimer == 0.0 && !isRed
    {
      this.flashSpeed := flashSpeed;
      this.normalColor := normalColor;
      this.dangerColor := dangerColor;
      this.dangerousPartTag := dangerousPartTag;
      this.useName := useName;
      dangerousParts := new DangerousPart?[0];
      flashTimer := 0.0;
      isRed := false;
    }

    /** The materials of the parts present, the only objects `Update` may paint. */
    ghost function PartMaterials(): set<Material>
      reads this, dangerousParts
      reads set i | 0 <= i < dangerousParts.Length && dangerousParts[i] != null :: dangerousParts[i]
    {
      set i | 0 <= i < dangerousParts.Length && dangerousParts[i] != null && dangerousParts[i].partMaterial != null
        :: dangerousParts[i].partMaterial
    }

    /** `Start`: walk the children in order and give each eligible one a new
        part holding its material; the parts array holds exactly those, in order. */
    method Start(children: seq<Child>)
      modifies this
      ensures fresh(dangerousParts)
      ensures flashTimer == old(flashTimer) && isRed == old(isRed)
      ensures var selected := SelectParts(children, useName, dangerousPartTag);
              dangerousParts.Length == |selected|
              && forall k :: 0 <= k < |selected| ==>
                   dangerousParts[k] != null && fresh(dangerousParts[k])
                   && dangerousParts[k].parentHazard == this
                   && dangerousParts[k].partMaterial == selected[k].material
                   && dangerousParts[k].originalColor == normalColor
    {
      var partsList: seq<DangerousPart> := [];
      for i := 0 to |children|
        invariant flashTimer == old(flashTimer) && isRed == old(isRed)
        invariant var selected := SelectParts(children[..i], useName, dangerousPartTag);
                  |partsList| == |selected|
                  && forall k :: 0 <= k < |selected| ==>
                       fresh(partsList[k]) && partsList[k].parentHazard == this
                       && partsList[k].partMaterial == selected[k].material
                       && partsList[k].originalColor == normalColor
      {
        assert children[..i + 1][..i] == children[..i];
        var child := children[i];
        var isCapsule := false;
        if useName {
          isCapsule := Contains(ToLower(child.name), CapsuleName);
        } else {
          isCapsule := child.tag == dangerousPartTag;
        }
        if isCapsule {
          if child.hasRenderer && child.material != null {
            var part := new DangerousPart(this, child.material, normalColor);
            partsList := partsList + [part];
          }
        }
      }
      assert children[..|children|] == children;
      dangerousParts := new DangerousPart?[|partsList|](k requires 0 <= k < |partsList| => partsList[k]);
    }

    /** The flash part of `Update`: the timer and colour move as `FlashStep`
        says; on a toggle every part present gets the same new colour, and
        otherwise no material changes. */
    method Update(dt: real)
      modifies `flashTimer, `isRed, PartMaterials()
      ensures var f := FlashStep(old(flashTimer), old(isRed), dt, flashSpeed);
              flashTimer == f.timer && isRed == f.isRed
      ensures FlashStep(old(flashTimer), old(isRed), dt, flashSpeed).toggled ==>
                forall i :: 0 <= i < dangerousParts.Length && dangerousParts[i] != null && dangerousParts[i].partMaterial != null
                  ==> dangerousParts[i].partMaterial.color == (if isRed then dangerColor else normalColor)
      ensures !FlashStep(old(flashTimer), old(isRed), dt, flashSpeed).toggled ==> unchanged(PartMaterials())
    {
      flashTimer := flashTimer + dt;
      if flashTimer >= flashSpeed {
        isRed := !isRed;
        var targetColor := if isRed then dangerColor else normalColor;
        var parts := dangerousParts;
        for i := 0 to parts.Length
          invariant dangerousParts == parts
          invariant isRed == !old(isRed) && flashTimer == old(flashTimer) + dt
          invariant forall j :: 0 <= j < i && parts[j] != null && parts[j].partMaterial != null
                      ==> parts[j].partMaterial.color == targetColor
        {
          var part := parts[i];
          if part != null {
            part.SetColor(targetColor);
          }
        }
        flashTimer := 0.0;
      }
    }

    /** Ask the player to die when it has a `PlayerController`; otherwise only
        an error is logged. */
    method KillPlayer(player: GameObject)
      modifies if player.controller != null then {player.controller} else {}
      ensures player.controller != null ==>
                player.controller.State() == old(player.controller.State()).(deathRequests := old(player.controller.deathRequests) + 1)
    {
      var playerController := player.controller;
      if playerController != null {
        playerController.Death();
      }
    }
  }

  class DangerousPart {
    const parentHazard: SpinningHazard
    var partMaterial: Material?
    var originalColor: Color

    /** `AddComponent` followed by `Initialize`. */
    constructor (parent: SpinningHazard, material: Material?, original: Color)
      ensures parentHazard == parent && partMaterial == material && originalColor == original
    {
      parentHazard := parent;
      partMaterial := material;
      originalColor := original;
    }

    /** Paint the material; without one, do nothing. */
    method SetColor(color: Color)
      modifies partMaterial
      ensures partMaterial != null ==> partMaterial.color == color
    {
      if partMaterial != null {
        partMaterial.color := color;
      }
    }

    /** Any contact with the player asks the hazard to kill it; the flash
        colour plays no part, and other tags do nothing. */
    method OnCollisionEnter(collision: GameObject)
      modifies if collision.controller != null then {collision.controller} else {}
      ensures collision.controller != null ==>
                collision.controller.State()
                == old(collision.controller.State()).(deathRequests := old(collision.controller.deathRequests)
                                                        + (if collision.tag == PlayerTag then 1 else 0))
    {
      if collision.tag == PlayerTag {
        parentHazard.KillPlayer(collision);
      }
    }

    method OnTriggerEnter(other: GameObject)
      modifies if other.controller != null then {other.controller} else {}
      ensures other.controller != null ==>
                other.controller.State()
                == old(other.controller.State()).(deathRequests := old(other.controller.deathRequests)
                                                    + (if other.tag == PlayerTag then 1 else 0))
    {
      if other.tag == PlayerTag {
        parentHazard.KillPlayer(other);
      }
    }
  }
}
