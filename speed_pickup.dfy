/** Speed pickups (Assets/Shared/SpeedPickup.cs). A pickup touched by the
    player boosts the player's shared `speed` cell, additively or
    multiplicatively, permanently or for a while. A timed boost is a
    coroutine: it snapshots the speed, boosts it, waits, and then writes the
    snapshot back. Here the wait is an explicit pending-revert entry held by
    the pickup, and `ResumeRevert` is the step that runs when the wait ends. */
module SpeedBoost {
  import opened PlayerControl

  /** The inspector settings of one pickup. */
  datatype BoostSettings = BoostSettings(
    speedIncrease: real,
    isMultiplier: bool,
    multiplier: real,
    isPermanent: bool,
    boostDuration: real)

  const DefaultSettings := BoostSettings(5.0, false, 1.5, false, 10.0)

  /** The boost rule: multiply when `isMultiplier`, otherwise add. */
  function Boosted(speed: real, b: BoostSettings): real {
    if b.isMultiplier then speed * b.multiplier else speed + b.speedIncrease
  }

  /** What one collection leaves behind: the boosted speed and, for a timed
      boost, the snapshot its revert will write back. */
  datatype Application = Application(speed: real, revert: Option<real>)

  /** `ApplySpeedBoost` with the first half of the coroutines: exactly one rule
      applies at once; a permanent boost schedules nothing, a timed one
      schedules a revert to the speed as it was just before the boost. */
  function Apply(speed: real, b: BoostSettings): (a: Application)
    ensures b.isMultiplier ==> a.speed == speed * b.multiplier
    ensures !b.isMultiplier ==> a.speed == speed + b.speedIncrease
    ensures a.revert.None? <==> b.isPermanent
    ensures a.revert.Some? ==> a.revert.value == speed
  {
    Application(Boosted(speed, b), if b.isPermanent then None else Some(speed))
  }

  /** A pending revert: the player whose speed it will overwrite, and the
      snapshot it will write. */
  datatype PendingRevert = PendingRevert(player: PlayerController, originalSpeed: real)

  class SpeedPickup {
    const settings: BoostSettings
    var destroyed: bool
    /** The reverts this pickup's coroutines still have to run, oldest first. */
    var pending: seq<PendingRevert>

    constructor (settings: BoostSettings)
      ensures this.settings == settings && !destroyed && pending == []
    {
      this.settings := settings;
      destroyed := false;
      pending := [];
    }

    /** Only a "Player" carrying a `PlayerController` is boosted; the pickup is
        then destroyed. Any other tag, or a player without the component,
        changes nothing (the latter only logs an error). */
    method OnTriggerEnter(other: GameObject)
      modifies this, if other.controller != null then {other.controller} else {}
      ensures other.tag != PlayerTag || other.controller == null ==>
                destroyed == old(destroyed) && pending == old(pending)
      ensures other.tag != PlayerTag && other.controller != null ==>
                other.controller.State() == old(other.controller.State())
      ensures other.tag == PlayerTag && other.controller != null ==>
                var a := Apply(old(other.controller.speed), settings);
                destroyed
                && other.controller.State() == old(other.controller.State()).(speed := a.speed)
                && pending == old(pending) + (if a.revert.Some? then [PendingRevert(other.controller, a.revert.value)] else [])
    {
      if other.tag == PlayerTag {
        var player := other.controller;
        if player == null {
          player := other.controller;
        }
        if player != null {
          ApplySpeedBoost(player);
          destroyed := true;
        }
      }
    }

    method ApplySpeedBoost(player: PlayerController)
      modifies this`pending, player`speed
      ensures player.speed == Apply(old(player.speed), settings).speed
      ensures var a := Apply(old(player.speed), settings);
              pending == old(pending) + (if a.revert.Some? then [PendingRevert(player, a.revert.value)] else [])
    {
      if settings.isMultiplier {
        if settings.isPermanent {
          player.speed := player.speed * settings.multiplier;
        } else {
          TemporaryMultiplierBoost(player);
        }
      } else {
        if settings.isPermanent {
          player.speed := player.speed + settings.speedIncrease;
        } else {
          TemporaryAdditiveBoost(player);
        }
      }
    }

    /** The additive coroutine up to its wait: snapshot, add, schedule the revert. */
    method TemporaryAdditiveBoost(player: PlayerController)
      modifies this`pending, player`speed
      ensures player.speed == old(player.speed) + settings.speedIncrease
      ensures pending == old(pending) + [PendingRevert(player, old(player.speed))]
    {
      var originalSpeed := player.speed;
      player.speed := player.speed + settings.speedIncrease;
      pending := pending + [PendingRevert(player, originalSpeed)];
    }

    /** The multiplicative coroutine up to its wait: snapshot, multiply, schedule the revert. */
    method TemporaryMultiplierBoost(player: PlayerController)
      modifies this`pending, player`speed
      ensures player.speed == old(player.speed) * settings.multiplier
      ensures pending == old(pending) + [PendingRevert(player, old(player.speed))]
    {
      var originalSpeed := player.speed;
      player.speed := player.speed * settings.multiplier;
      pending := pending + [PendingRevert(player, originalSpeed)];
    }

    /** The rest of the oldest coroutine, when its wait ends: the player's
        speed is overwritten with the snapshot, whatever it is by then. */
    method ResumeRevert()
      modifies this`pending, if pending != [] then {pending[0].player} else {}
      ensures old(pending) == [] ==> pending == []
      ensures old(pending) != [] ==>
                pending == old(pending)[1..]
                && old(pending)[0].player.State()
                   == old(pending[0].player.State()).(speed := old(pending)[0].originalSpeed)
    {
      if pending != [] {
        var entry := pending[0];
        pending := pending[1..];
        entry.player.speed := entry.originalSpeed;
      }
    }
  }

  /** Two timed additive pickups of the same increase are taken back to back
      from speed `s0`, and their reverts run in the order the boosts were
      applied. The first revert drops the second boost while it is still
      pending, and the second revert brings back the first boost after it
      has ended. */
  method OverlappingAdditiveBoosts(s0: real, increase: real)
    returns (boosted: real, afterFirstRevert: real, final: real)
    ensures boosted == s0 + increase + increase
    ensures afterFirstRevert == s0
    ensures final == s0 + increase
  {
    var player := new PlayerController(s0, DefaultJumpForce, DefaultMouseSensitivity, true, None, None, 0);
    var body := new GameObject(PlayerTag, player);
    var settings := DefaultSettings.(speedIncrease := increase);
    var first := new SpeedPickup(settings);
    var second := new SpeedPickup(settings);
    first.OnTriggerEnter(body);
    second.OnTriggerEnter(body);
    boosted := player.speed;
    first.ResumeRevert();
    afterFirstRevert := player.speed;
    second.ResumeRevert();
    final := player.speed;
  }

  /** The speed after the boosts `bs` are applied one after another. */
  function ApplyAll(speed: real, bs: seq<BoostSettings>): real
    decreases |bs|
  {
    if bs == [] then speed else ApplyAll(Boosted(speed, bs[0]), bs[1..])
  }

  predicate AllTimed(bs: seq<BoostSettings>) {
    forall i :: 0 <= i < |bs| ==> !bs[i].isPermanent
  }

  predicate AllPermanent(bs: seq<BoostSettings>) {
    forall i :: 0 <= i < |bs| ==> bs[i].isPermanent
  }

  /** The snapshots the boosts of `bs` leave to be written back, in the order
      the boosts are applied: a timed boost leaves the speed just before it,
      a permanent boost leaves nothing. */
  function Snapshots(speed: real, bs: seq<BoostSettings>): (snaps: seq<real>)
    ensures |snaps| <= |bs|
    ensures AllTimed(bs) ==> |snaps| == |bs|
    ensures AllPermanent(bs) ==> snaps == []
    decreases |bs|
  {
    if bs == [] then []
    else
      var a := Apply(speed, bs[0]);
      (if a.revert.Some? then [a.revert.value] else []) + Snapshots(a.speed, bs[1..])
  }

  /** Running reverts with the snapshots `snaps`, in that order: each one
      overwrites the speed, so only the last one resumed is left. */
  function ResumeAll(speed: real, snaps: seq<real>): (r: real)
    ensures snaps == [] ==> r == speed
    ensures snaps != [] ==> r == snaps[|snaps| - 1]
    decreases |snaps|
  {
    if snaps == [] then speed else ResumeAll(snaps[0], snaps[1..])
  }

  function Reverse(s: seq<real>): (r: seq<real>)
    ensures |r| == |s|
    ensures forall i :: 0 <= i < |s| ==> r[i] == s[|s| - 1 - i]
    decreases |s|
  {
    if s == [] then [] else Reverse(s[1..]) + [s[0]]
  }

  /** Applying `a` and then `b` is applying `a + b`. */
  lemma {:induction false} ApplyAllSplit(speed: real, a: seq<BoostSettings>, b: seq<BoostSettings>)
    ensures ApplyAll(speed, a + b) == ApplyAll(ApplyAll(speed, a), b)
    decreases |a|
  {
    if a != [] {
      assert (a + b)[1..] == a[1..] + b;
      ApplyAllSplit(Boosted(speed, a[0]), a[1..], b);
    } else {
      assert a + b == b;
    }
  }

  /** The snapshots of `a + b` are those of `a`, then those `b` takes from the
      speed `a` leaves. */
  lemma {:induction false} SnapshotsSplit(speed: real, a: seq<BoostSettings>, b: seq<BoostSettings>)
    ensures Snapshots(speed, a + b) == Snapshots(speed, a) + Snapshots(ApplyAll(speed, a), b)
    decreases |a|
  {
    if a != [] {
      assert (a + b)[1..] == a[1..] + b;
      SnapshotsSplit(Boosted(speed, a[0]), a[1..], b);
    } else {
      assert a + b == b;
    }
  }

  /** The last snapshot is taken by the last timed boost `t`, from the speed
      with every boost before it applied, whatever permanent boosts follow. */
  lemma LastSnapshot(s0: real, pre: seq<BoostSettings>, t: BoostSettings, post: seq<BoostSettings>)
    requires !t.isPermanent && AllPermanent(post)
    ensures var snaps := Snapshots(s0, pre + [t] + post);
            snaps != [] && snaps[|snaps| - 1] == ApplyAll(s0, pre)
  {
    assert pre + [t] + post == pre + ([t] + post);
    SnapshotsSplit(s0, pre, [t] + post);
    assert ([t] + post)[1..] == post;
  }

  /** The first snapshot is taken by the first timed boost `t`, from the speed
      with the permanent boosts before it applied. */
  lemma FirstSnapshot(s0: real, pre: seq<BoostSettings>, t: BoostSettings, post: seq<BoostSettings>)
    requires AllPermanent(pre) && !t.isPermanent
    ensures var snaps := Snapshots(s0, pre + [t] + post);
            snaps != [] && snaps[0] == ApplyAll(s0, pre)
  {
    assert pre + [t] + post == pre + ([t] + post);
    SnapshotsSplit(s0, pre, [t] + post);
    assert ([t] + post)[1..] == post;
  }

  /** Reverts run newest first leave the speed as it was before the first
      timed boost `t`: with timed boosts only, the baseline `s0`; a permanent
      boost taken after `t` is undone as well. */
  lemma ReverseOrderRestoresBaseline(s0: real, pre: seq<BoostSettings>, t: BoostSettings, post: seq<BoostSettings>)
    requires AllPermanent(pre) && !t.isPermanent
    ensures var bs := pre + [t] + post;
            ResumeAll(ApplyAll(s0, bs), Reverse(Snapshots(s0, bs))) == ApplyAll(s0, pre)
  {
    FirstSnapshot(s0, pre, t, post);
  }

  /** Reverts run oldest first leave the speed as it was before the last
      timed boost `t`: every timed boost before it stays applied although it
      has ended, and the permanent boosts taken after it are lost. */
  lemma ApplicationOrderKeepsAllButLast(s0: real, pre: seq<BoostSettings>, t: BoostSettings, post: seq<BoostSettings>)
    requires !t.isPermanent && AllPermanent(post)
    ensures var bs := pre + [t] + post;
            ResumeAll(ApplyAll(s0, bs), Snapshots(s0, bs)) == ApplyAll(s0, pre)
  {
    LastSnapshot(s0, pre, t, post);
  }

  function TotalIncrease(bs: seq<BoostSettings>): real
    decreases |bs|
  {
    if bs == [] then 0.0 else bs[0].speedIncrease + TotalIncrease(bs[1..])
  }

  /** Additive boosts stack: together they add the sum of their increases. */
  lemma {:induction false} AdditiveBoostsAdd(s0: real, bs: seq<BoostSettings>)
    requires forall i :: 0 <= i < |bs| ==> !bs[i].isMultiplier
    ensures ApplyAll(s0, bs) == s0 + TotalIncrease(bs)
    decreases |bs|
  {
    if bs != [] {
      AdditiveBoostsAdd(Boosted(s0, bs[0]), bs[1..]);
    }
  }

  /** Two additive boosts `a` then `b` from `s0`, with every revert run
      oldest first: the speed they end at for each mix of timed and
      permanent boosts. */
  lemma TwoAdditiveBoosts(s0: real, a: BoostSettings, b: BoostSettings)
    requires !a.isMultiplier && !b.isMultiplier
    ensures var r := ResumeAll(ApplyAll(s0, [a, b]), Snapshots(s0, [a, b]));
            && (!a.isPermanent && !b.isPermanent ==> r == s0 + a.speedIncrease)
            && (!a.isPermanent && b.isPermanent ==> r == s0)
            && (a.isPermanent && !b.isPermanent ==> r == s0 + a.speedIncrease)
            && (a.isPermanent && b.isPermanent ==> r == s0 + a.speedIncrease + b.speedIncrease)
  {
    assert [a, b][1..] == [b];
    assert [b][1..] == [];
    assert ApplyAll(s0, [a, b]) == ApplyAll(Boosted(Boosted(s0, a), b), []);
  }

  /** The player `body` (carrying `player`) touches one fresh pickup per
      entry of `bs`, in order. The speed ends boosted by all of them, each
      pickup is destroyed, and each timed pickup holds one revert to the
      speed just before its boost. */
  method TakeAll(player: PlayerController, body: GameObject, bs: seq<BoostSettings>)
    returns (pickups: seq<SpeedPickup>)
    requires body.tag == PlayerTag && body.controller == player
    modifies player
    ensures |pickups| == |bs|
    ensures forall j :: 0 <= j < |pickups| ==> fresh(pickups[j])
    ensures forall j, k :: 0 <= j < k < |pickups| ==> pickups[j] != pickups[k]
    ensures player.State() == old(player.State()).(speed := ApplyAll(old(player.speed), bs))
    ensures forall j :: 0 <= j < |pickups| ==>
              pickups[j].settings == bs[j] && pickups[j].destroyed
              && pickups[j].pending == PendingOf(player, old(player.speed), bs, j)
  {
    ghost var s0 := player.speed;
    pickups := [];
    var i := 0;
    while i < |bs|
      invariant 0 <= i <= |bs| && |pickups| == i
      invariant forall j :: 0 <= j < i ==> fresh(pickups[j])
      invariant forall j, k :: 0 <= j < k < i ==> pickups[j] != pickups[k]
      invariant player.State() == old(player.State()).(speed := ApplyAll(s0, bs[..i]))
      invariant forall j :: 0 <= j < i ==>
                  pickups[j].settings == bs[j] && pickups[j].destroyed
                  && pickups[j].pending == PendingOf(player, s0, bs, j)
    {
      var p := new SpeedPickup(bs[i]);
      p.OnTriggerEnter(body);
      ApplyAllSplit(s0, bs[..i], [bs[i]]);
      assert bs[..i + 1] == bs[..i] + [bs[i]];
      pickups := pickups + [p];
      i := i + 1;
    }
    assert bs[..i] == bs;
  }

  /** What the `j`-th pickup of `TakeAll` holds: for a timed boost, a revert
      to the speed with the boosts before it applied. */
  function PendingOf(player: PlayerController, s0: real, bs: seq<BoostSettings>, j: nat): seq<PendingRevert>
    requires j < |bs|
  {
    if bs[j].isPermanent then [] else [PendingRevert(player, ApplyAll(s0, bs[..j]))]
  }

  /** The pickups of `TakeAll` resume their reverts in the order they were
      taken. The speed ends as `ResumeAll` of the snapshots says. */
  method ResumeEach(player: PlayerController, pickups: seq<SpeedPickup>, ghost s0: real, ghost bs: seq<BoostSettings>)
    requires |pickups| == |bs|
    requires forall j, k :: 0 <= j < k < |pickups| ==> pickups[j] != pickups[k]
    requires forall j :: 0 <= j < |pickups| ==> pickups[j].pending == PendingOf(player, s0, bs, j)
    modifies player, set j | 0 <= j < |pickups| :: pickups[j]
    ensures player.State() == old(player.State()).(speed := ResumeAll(old(player.speed), Snapshots(s0, bs)))
  {
    var i := 0;
    while i < |pickups|
      invariant 0 <= i <= |pickups|
      invariant player.State() == old(player.State()).(speed := ResumeAll(old(player.speed), Snapshots(s0, bs[..i])))
      invariant forall j :: i <= j < |pickups| ==> pickups[j].pending == PendingOf(player, s0, bs, j)
    {
      pickups[i].ResumeRevert();
      SnapshotsSplit(s0, bs[..i], [bs[i]]);
      assert bs[..i + 1] == bs[..i] + [bs[i]];
      ResumeAllSplit(old(player.speed), Snapshots(s0, bs[..i]), Snapshots(ApplyAll(s0, bs[..i]), [bs[i]]));
      i := i + 1;
    }
    assert bs[..i] == bs;
  }

  /** Resuming `a` and then `b` is resuming `a + b`. */
  lemma {:induction false} ResumeAllSplit(speed: real, a: seq<real>, b: seq<real>)
    ensures ResumeAll(speed, a + b) == ResumeAll(ResumeAll(speed, a), b)
    decreases |a|
  {
    if a != [] {
      assert (a + b)[1..] == a[1..] + b;
      ResumeAllSplit(a[0], a[1..], b);
    } else {
      assert a + b == b;
    }
  }

  /** A player at speed `s0` takes one pickup per entry of `bs`, and then
      every revert runs in the order the pickups were taken. The class code
      gives the speeds that `ApplyAll` and `ResumeAll` over `Snapshots`
      describe, so the lemmas above hold of it. */
  method CollectThenRevert(s0: real, bs: seq<BoostSettings>) returns (boosted: real, final: real)
    ensures boosted == ApplyAll(s0, bs)
    ensures final == ResumeAll(ApplyAll(s0, bs), Snapshots(s0, bs))
  {
    var player := new PlayerController(s0, DefaultJumpForce, DefaultMouseSensitivity, true, None, None, 0);
    var body := new GameObject(PlayerTag, player);
    var pickups := TakeAll(player, body, bs);
    boosted := player.speed;
    ResumeEach(player, pickups, s0, bs);
    final := player.speed;
  }
}
