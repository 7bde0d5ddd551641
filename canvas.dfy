/** The game as the browser runs it: a `Player` object whose `update` changes
    its fields in place, and a `World` object owning the module-level state
    (player, platform and background arrays, scroll offset, keyboard state)
    with `init`, one `animate` tick and the two key handlers as methods.
    Each method is proved to compute the step of `WorldModel` it implements. */
module Canvas {
  import opened PlayerModel
  import opened WorldModel

  class Player {
    const speed: int := PlayerSpeed
    const height: real := PlayerHeight
    var position: Vec2
    var velocity: Vec2
    var frames: nat
    var sprite: Sprite
    var currentCropWidth: int
    var width: real

    function State(): PlayerState
      reads this
    {
      PlayerState(position, velocity, frames, sprite, currentCropWidth, width)
    }

    constructor ()
      ensures State() == NewPlayer()
    {
      position := Vec2(100.0, 100.0);
      velocity := Vec2(0.0, 0.0);
      width := StandWidth;
      frames := 0;
      sprite := StandRight;
      currentCropWidth := StandCropWidth;
    }

    /** One physics and animation step; returns the crop x-offset of the
        sprite frame the embedded draw call shows. */
    method Update(canvasHeight: real) returns (cropX: int)
      modifies this
      ensures State() == PlayerModel.Update(old(State()), canvasHeight)
      ensures cropX == CropOffset(State())
    {
      frames := frames + 1;
      if sprite.IsStand() && frames > 59 {
        frames := 0;
      } else if sprite.IsRun() && frames > 29 {
        frames := 0;
      }
      cropX := currentCropWidth * frames;
      position := position.(y := position.y + velocity.y);
      position := position.(x := position.x + velocity.x);
      if position.y + height + velocity.y <= canvasHeight {
        velocity := velocity.(y := velocity.y + Gravity);
      }
    }
  }

  class World {
    const assets: Assets
    var player: Player
    var platforms: array<Platform>
    var genericObjects: array<GenericObject>
    var scrollOffset: int
    var keys: Keys
    var currentKey: CurrentKey

    function State(): WorldState
      reads this, player, platforms, genericObjects
    {
      WorldState(player.State(), platforms[..], genericObjects[..], scrollOffset, keys, currentKey)
    }

    /** Module initialisation (no keys held, `currentKey` undefined) followed
        by the first call of `init`. */
    constructor (assets: Assets)
      ensures this.assets == assets
      ensures State() == InitialWorld(assets)
    {
      this.assets := assets;
      player := new Player();
      platforms := new Platform[0];
      genericObjects := new GenericObject[0];
      scrollOffset := 0;
      keys := Keys(false, false);
      currentKey := Unset;
      new;
      Init();
    }

    /** Rebuilds the player and the level and resets the scroll. */
    method Init()
      modifies this
      ensures State() == WorldModel.Init(old(keys), old(currentKey), assets)
      ensures fresh(player) && fresh(platforms) && fresh(genericObjects)
    {
      player := new Player();
      var w, ws := assets.platformWidth, assets.platformSmallTallWidth;
      platforms := new Platform[] [
        Platform(Vec2(w * 4.0 + 300.0 - 2.0 + w - ws, 270.0), ws),
        Platform(Vec2(-1.0, 470.0), w),
        Platform(Vec2(w - 3.0, 470.0), w),
        Platform(Vec2(w * 2.0 + 100.0, 470.0), w),
        Platform(Vec2(w * 3.0 + 300.0, 470.0), w),
        Platform(Vec2(w * 4.0 + 300.0 - 2.0, 470.0), w),
        Platform(Vec2(w * 5.0 + 700.0 - 2.0, 470.0), w)];
      genericObjects := new GenericObject[] [
        GenericObject(Vec2(-1.0, -1.0), assets.backgroundWidth),
        GenericObject(Vec2(-1.0, -1.0), assets.hillsWidth)];
      scrollOffset := 0;
    }

    /** Adds `dx` to the x position of every platform, in place. */
    method MovePlatforms(dx: real)
      modifies platforms
      ensures platforms[..] == ShiftPlatforms(old(platforms[..]), dx)
    {
      var i := 0;
      while i < platforms.Length
        invariant 0 <= i <= platforms.Length
        invariant forall k :: 0 <= k < i ==> platforms[k] == ShiftPlatforms(old(platforms[..]), dx)[k]
        invariant forall k :: i <= k < platforms.Length ==> platforms[k] == old(platforms[k])
      {
        platforms[i] := platforms[i].(position := platforms[i].position.(x := platforms[i].position.x + dx));
        i := i + 1;
      }
    }

    /** Adds `dx` to the x position of every background layer, in place. */
    method MoveGenericObjects(dx: real)
      modifies genericObjects
      ensures genericObjects[..] == ShiftObjects(old(genericObjects[..]), dx)
    {
      var i := 0;
      while i < genericObjects.Length
        invariant 0 <= i <= genericObjects.Length
        invariant forall k :: 0 <= k < i ==> genericObjects[k] == ShiftObjects(old(genericObjects[..]), dx)[k]
        invariant forall k :: i <= k < genericObjects.Length ==> genericObjects[k] == old(genericObjects[k])
      {
        genericObjects[i] :=
          genericObjects[i].(position := genericObjects[i].position.(x := genericObjects[i].position.x + dx));
        i := i + 1;
      }
    }

    /** Horizontal input resolution: walk, or stop and scroll the world. */
    method ResolveHorizontalInput()
      modifies this, player, platforms, genericObjects
      ensures player == old(player) && platforms == old(platforms) && genericObjects == old(genericObjects)
      ensures State() == ResolveHorizontal(old(State()))
    {
      if keys.right && player.position.x < 400.0 {
        player.velocity := player.velocity.(x := player.speed as real);
      } else if (keys.left && player.position.x > 100.0) || (keys.left && scrollOffset == 0 && player.position.x < 0.0) {
        player.velocity := player.velocity.(x := -(player.speed as real));
      } else {
        player.velocity := player.velocity.(x := 0.0);
        if keys.right {
          scrollOffset := scrollOffset + player.speed;
          MovePlatforms(-(player.speed as real));
          MoveGenericObjects(-(player.speed as real * ParallaxFactor));
        } else if keys.left && scrollOffset > 0 {
          scrollOffset := scrollOffset - player.speed;
          MovePlatforms(player.speed as real);
          MoveGenericObjects(player.speed as real * ParallaxFactor);
        }
      }
    }

    /** The collision loop over the platforms, in list order. */
    method ResolveCollisions()
      modifies player
      ensures player.State() == Collide(old(player.State()), platforms[..])
    {
      var i := 0;
      while i < platforms.Length
        invariant 0 <= i <= platforms.Length
        invariant player.State() == Collide(old(player.State()), platforms[..i])
      {
        var q := platforms[i];
        if && player.position.y + player.height <= q.position.y
           && player.position.y + player.height + player.velocity.y >= q.position.y
           && player.position.x + player.width >= q.position.x
           && player.position.x <= q.position.x + q.width
        {
          player.velocity := player.velocity.(y := 0.0);
        }
        assert platforms[..i + 1][..i] == platforms[..i];
        i := i + 1;
      }
      assert platforms[..platforms.Length] == platforms[..];
    }

    /** Sprite-state resolution. */
    method ResolveSpriteState()
      modifies player
      ensures player.State() == ResolveSprite(old(player.State()), keys, currentKey)
    {
      if currentKey == Right && player.sprite != RunRight {
        player.frames := 1;
        player.sprite := RunRight;
        player.currentCropWidth := RunCropWidth;
        player.width := RunWidth;
      } else if currentKey == Left && player.sprite != RunLeft {
        player.frames := 1;
        player.sprite := RunLeft;
        player.currentCropWidth := RunCropWidth;
        player.width := RunWidth;
      }
      if !keys.right && currentKey == Right && player.sprite == RunRight {
        player.sprite := StandRight;
        player.currentCropWidth := StandCropWidth;
        player.width := StandWidth;
      } else if !keys.left && currentKey == Left && player.sprite == RunLeft {
        player.sprite := StandLeft;
        player.currentCropWidth := StandCropWidth;
        player.width := StandWidth;
      }
    }

    /** One scheduled tick of the game loop, drawing left out; returns
        whether "You win!" is logged. */
    method Animate() returns (win: bool)
      modifies this, player, platforms, genericObjects
      ensures TickResult(State(), win) == WorldModel.Animate(old(State()), assets)
    {
      ghost var s0 := State();
      var cropX := player.Update(assets.canvasHeight);
      ghost var s1 := State();
      assert s1 == s0.(player := PlayerModel.Update(s0.player, assets.canvasHeight));
      ResolveHorizontalInput();
      ghost var s2 := State();
      ResolveCollisions();
      ghost var s3 := State();
      assert s3 == s2.(player := Collide(s2.player, s2.platforms));
      ResolveSpriteState();
      assert State() == BeforeLoseCheck(s0, assets);
      win := scrollOffset as real > assets.platformWidth * 5.0 + 300.0 - 2.0;
      if player.position.y > assets.canvasHeight {
        Init();
      }
    }

    /** The keydown handler: A and D hold a direction and make it current,
        W jumps. */
    method KeyDown(keyCode: int)
      modifies this, player
      ensures player == old(player) && platforms == old(platforms) && genericObjects == old(genericObjects)
      ensures State() == WorldModel.KeyDown(old(State()), keyCode)
    {
      if keyCode == KeyA {
        keys := keys.(left := true);
        currentKey := Left;
      } else if keyCode == KeyD {
        keys := keys.(right := true);
        currentKey := Right;
      } else if keyCode == KeyW {
        player.velocity := player.velocity.(y := player.velocity.y - JumpImpulse);
      }
    }

    /** The keyup handler: A and D release their direction. */
    method KeyUp(keyCode: int)
      modifies this
      ensures player == old(player) && platforms == old(platforms) && genericObjects == old(genericObjects)
      ensures State() == WorldModel.KeyUp(old(State()), keyCode)
    {
      if keyCode == KeyA {
        keys := keys.(left := false);
      } else if keyCode == KeyD {
        keys := keys.(right := false);
      }
    }
  }
}
