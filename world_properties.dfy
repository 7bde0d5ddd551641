/** What the game loop guarantees: the rules of each tick step, the key
    handlers' effects, and the invariants every reachable state keeps. */
module WorldProperties {
  import opened PlayerModel
  import opened WorldModel

  // ---------------------------------------------------------------------------
  // Scrolling the level

  lemma ShiftPlatformsCompose(ps: seq<Platform>, d1: real, d2: real)
    ensures ShiftPlatforms(ShiftPlatforms(ps, d1), d2) == ShiftPlatforms(ps, d1 + d2)
  {
    var l, r := ShiftPlatforms(ShiftPlatforms(ps, d1), d2), ShiftPlatforms(ps, d1 + d2);
    assert |l| == |r|;
    forall i | 0 <= i < |l| ensures l[i] == r[i] { }
  }

  lemma ShiftObjectsCompose(gs: seq<GenericObject>, d1: real, d2: real)
    ensures ShiftObjects(ShiftObjects(gs, d1), d2) == ShiftObjects(gs, d1 + d2)
  {
    var l, r := ShiftObjects(ShiftObjects(gs, d1), d2), ShiftObjects(gs, d1 + d2);
    assert |l| == |r|;
    forall i | 0 <= i < |l| ensures l[i] == r[i] { }
  }

  /** Horizontal resolution takes exactly one of its branches: walk right, walk
      left, or stop and (maybe) scroll the world; only the horizontal velocity,
      the scroll offset and the world's x positions can change. */
  lemma HorizontalResolution(s: WorldState)
    ensures var t := ResolveHorizontal(s);
      var x, k, off := s.player.position.x, s.keys, s.scrollOffset;
      var walkRight := k.right && x < 400.0;
      var walkLeft := !walkRight && k.left && (x > 100.0 || (off == 0 && x < 0.0));
      && t.player == WithVelocityX(s.player, t.player.velocity.x)
      && t.keys == s.keys && t.currentKey == s.currentKey
      && (walkRight ==> t.player.velocity.x == 10.0)
      && (walkLeft ==> t.player.velocity.x == -10.0)
      && (walkRight || walkLeft ==>
            t.scrollOffset == off && t.platforms == s.platforms && t.genericObjects == s.genericObjects)
      && (!walkRight && !walkLeft ==> t.player.velocity.x == 0.0)
      && (!walkRight && !walkLeft && k.right ==>
            && t.scrollOffset == off + 10
            && t.platforms == ShiftPlatforms(s.platforms, -10.0)
            && t.genericObjects == ShiftObjects(s.genericObjects, -6.6))
      && (!walkRight && !walkLeft && !k.right && k.left && off > 0 ==>
            && t.scrollOffset == off - 10
            && t.platforms == ShiftPlatforms(s.platforms, 10.0)
            && t.genericObjects == ShiftObjects(s.genericObjects, 6.6))
      && (!walkRight && !walkLeft && !k.right && !(k.left && off > 0) ==>
            t == s.(player := WithVelocityX(s.player, 0.0)))
  {
  }

  /** The scroll offset stays a non-negative multiple of the player's speed;
      at 0 it cannot move left. */
  lemma HorizontalKeepsScroll(s: WorldState)
    requires s.scrollOffset >= 0 && s.scrollOffset % 10 == 0
    ensures var off := ResolveHorizontal(s).scrollOffset;
      && off >= 0 && off % 10 == 0
      && (off == s.scrollOffset || off == s.scrollOffset + 10 || off == s.scrollOffset - 10)
      && (s.scrollOffset == 0 ==> off != s.scrollOffset - 10)
  {
  }

  // ---------------------------------------------------------------------------
  // Landing on platforms

  /** The collision loop zeroes the vertical velocity exactly when some
      platform passes the landing test against the player as the loop found it,
      and changes nothing else. */
  lemma {:induction false} CollideIff(p: PlayerState, ps: seq<Platform>)
    ensures Collide(p, ps) == if exists j :: 0 <= j < |ps| && LandsOn(p, ps[j]) then Landed(p) else p
    decreases |ps|
  {
    if ps != [] {
      var init, last := ps[..|ps| - 1], ps[|ps| - 1];
      CollideIff(p, init);
      var hitBefore := exists j :: 0 <= j < |init| && LandsOn(p, init[j]);
      if hitBefore {
        var j :| 0 <= j < |init| && LandsOn(p, init[j]);
        assert ps[j] == init[j];
      } else {
        forall j | 0 <= j < |init| ensures !LandsOn(p, ps[j]) {
          assert ps[j] == init[j];
        }
      }
    }
  }

  /** The landing test with every platform in its place: the player rests on a
      platform whose top it reaches this tick while overlapping it horizontally. */
  lemma LandingOnPlatform(p: PlayerState, ps: seq<Platform>, j: int)
    requires 0 <= j < |ps|
    requires p.position.y + PlayerHeight <= ps[j].position.y <= p.position.y + PlayerHeight + p.velocity.y
    requires ps[j].position.x <= p.position.x + p.width && p.position.x <= ps[j].position.x + ps[j].width
    ensures Collide(p, ps).velocity.y == 0.0
    ensures Collide(p, ps).position == p.position
  {
    CollideIff(p, ps);
    assert LandsOn(p, ps[j]);
  }

  // ---------------------------------------------------------------------------
  // Sprite state

  /** Sprite resolution keeps the cached metadata in step with the tag and the
      frame counter in range; entering a run sprite restarts the animation at
      frame 1 and every other case keeps the counter; the result follows `currentKey` and whether that key is held. */
  lemma SpriteResolution(p: PlayerState, keys: Keys, currentKey: CurrentKey)
    ensures var r := ResolveSprite(p, keys, currentKey);
      && r.position == p.position && r.velocity == p.velocity
      && (MetadataMatches(p) ==> MetadataMatches(r))
      && (FramesInRange(p) ==> FramesInRange(r))
      && r.frames == (if (currentKey == Right && p.sprite != RunRight) || (currentKey == Left && p.sprite != RunLeft)
                      then 1 else p.frames)
      && (currentKey == Right ==> r.sprite == if keys.right then RunRight else StandRight)
      && (currentKey == Left ==> r.sprite == if keys.left then RunLeft else StandLeft)
      && (currentKey == Unset ==> r == p)
  {
  }

  /** Reverting from a run sprite to the stand sprite facing the same way,
      once the current direction's key is released, only swaps the sprite
      metadata and does not touch the frame counter. */
  lemma RevertKeepsFrames(p: PlayerState, keys: Keys, currentKey: CurrentKey)
    requires || (p.sprite == RunRight && currentKey == Right && !keys.right)
             || (p.sprite == RunLeft && currentKey == Left && !keys.left)
    ensures p.sprite == RunRight ==> ResolveSprite(p, keys, currentKey) == EnterStand(p, StandRight)
    ensures p.sprite == RunLeft ==> ResolveSprite(p, keys, currentKey) == EnterStand(p, StandLeft)
    ensures ResolveSprite(p, keys, currentKey).frames == p.frames
  {
  }

  // ---------------------------------------------------------------------------
  // One tick

  /** The player fell below the canvas during this tick. */
  predicate Fell(s: WorldState, a: Assets) {
    BeforeLoseCheck(s, a).player.position.y > a.canvasHeight
  }

  /** Falling off the canvas resets the session to exactly what `init` builds,
      keeping the keyboard state; otherwise the lose check changes nothing. */
  lemma FallResets(s: WorldState, a: Assets)
    ensures Fell(s, a) ==> Animate(s, a).next == Init(s.keys, s.currentKey, a)
    ensures !Fell(s, a) ==> Animate(s, a).next == BeforeLoseCheck(s, a)
  {
  }

  /** The win signal is raised exactly when the scroll offset after this
      tick's scrolling passes five platform widths plus 298, and the next state
      is the same whether it is raised or not. */
  lemma WinSignal(s: WorldState, a: Assets)
    ensures var r := Animate(s, a);
      && (r.win <==> BeforeLoseCheck(s, a).scrollOffset as real > a.platformWidth * 5.0 + 298.0)
      && (!Fell(s, a) ==> (r.win <==> r.next.scrollOffset as real > WinThreshold(a)))
  {
  }

  /** After a tick, a held `currentKey` direction shows its run sprite and a
      released one its stand sprite; a reset always shows standing right. */
  lemma TickSpriteFollowsKeys(s: WorldState, a: Assets)
    ensures var r := Animate(s, a).next.player;
      && (Fell(s, a) ==> r.sprite == StandRight && r.frames == 0)
      && (s.currentKey == Right ==> r.sprite == if s.keys.right && !Fell(s, a) then RunRight else StandRight)
      && (s.currentKey == Left && !Fell(s, a) ==> r.sprite == if s.keys.left then RunLeft else StandLeft)
  {
    FallResets(s, a);
    var s1 := s.(player := Update(s.player, a.canvasHeight));
    HorizontalResolution(s1);
    var s2 := ResolveHorizontal(s1);
    var s3 := s2.(player := Collide(s2.player, s2.platforms));
    SpriteResolution(s3.player, s3.keys, s3.currentKey);
  }

  /** Once a direction key has been pressed and released, every tick flips a
      standing player's sprite to running and back, so its frame counter ends
      the tick at 1 every time: the stand animation is stuck on one frame
      (the next draw crops 2 x 177). */
  lemma StandAnimationFrozen(s: WorldState, a: Assets)
    requires (s.currentKey == Right && !s.keys.right) || (s.currentKey == Left && !s.keys.left)
    requires s.player.sprite.IsStand()
    requires !Fell(s, a)
    ensures var r := Animate(s, a).next.player;
      && r.sprite.IsStand() && r.frames == 1
      && CropOffset(Update(r, a.canvasHeight)) == StandCropWidth * 2
  {
    FallResets(s, a);
    var s1 := s.(player := Update(s.player, a.canvasHeight));
    HorizontalResolution(s1);
    var s2 := ResolveHorizontal(s1);
    var s3 := s2.(player := Collide(s2.player, s2.platforms));
    CollideIff(s2.player, s2.platforms);
    SpriteResolution(s3.player, s3.keys, s3.currentKey);
  }

  // ---------------------------------------------------------------------------
  // init and the key handlers

  /** `init` builds the fixed level: the player at (100, 100) at rest standing
      right, seven platforms (the elevated one first) and two background
      layers at (-1, -1), the scroll at 0; keys and `currentKey` are kept. */
  lemma InitLayout(keys: Keys, currentKey: CurrentKey, a: Assets)
    ensures var s := Init(keys, currentKey, a); var w, ws := a.platformWidth, a.platformSmallTallWidth;
      && s.player.position == Vec2(100.0, 100.0) && s.player.velocity == Vec2(0.0, 0.0)
      && s.player.sprite == StandRight && s.player.frames == 0 && MetadataMatches(s.player)
      && s.scrollOffset == 0 && s.keys == keys && s.currentKey == currentKey
      && |s.platforms| == 7 && |s.genericObjects| == 2
      && s.platforms[0] == Platform(Vec2(4.0 * w + 298.0 + w - ws, 270.0), ws)
      && (forall i :: 1 <= i < 7 ==> s.platforms[i].position.y == 470.0 && s.platforms[i].width == w)
      && s.platforms[1].position.x == -1.0 && s.platforms[2].position.x == w - 3.0
      && s.platforms[3].position.x == 2.0 * w + 100.0 && s.platforms[4].position.x == 3.0 * w + 300.0
      && s.platforms[5].position.x == 4.0 * w + 298.0 && s.platforms[6].position.x == 5.0 * w + 698.0
      && (forall i :: 0 <= i < 2 ==> s.genericObjects[i].position == Vec2(-1.0, -1.0))
  {
  }

  /** Each key event changes only its own flag, `currentKey` or the vertical
      velocity; codes other than 65, 68 and 87 change nothing. */
  lemma KeyDownEffects(s: WorldState, code: int)
    ensures var t := KeyDown(s, code);
      && t.platforms == s.platforms && t.genericObjects == s.genericObjects
      && t.scrollOffset == s.scrollOffset
      && t.player == s.player.(velocity := t.player.velocity)
      && t.player.velocity.x == s.player.velocity.x
      && t.player.velocity.y == (if code == 87 then s.player.velocity.y - 25.0 else s.player.velocity.y)
      && t.keys.left == (code == 65 || s.keys.left)
      && t.keys.right == (code == 68 || s.keys.right)
      && t.currentKey == (if code == 65 then Left else if code == 68 then Right else s.currentKey)
      && (code != 65 && code != 68 && code != 87 ==> t == s)
  {
  }

  lemma KeyUpEffects(s: WorldState, code: int)
    ensures var t := KeyUp(s, code);
      && t.player == s.player && t.platforms == s.platforms && t.genericObjects == s.genericObjects
      && t.scrollOffset == s.scrollOffset && t.currentKey == s.currentKey
      && t.keys.left == (s.keys.left && code != 65)
      && t.keys.right == (s.keys.right && code != 68)
      && (code != 65 && code != 68 ==> t == s)
  {
  }

  // ---------------------------------------------------------------------------
  // Invariants of every reachable state

  predicate ScrollInvariant(off: int) {
    off >= 0 && off % 10 == 0
  }

  /** The player walks only inside the band: x stays in (90, 410), and a
      walking velocity is only ever set on the side of the band it leads into. */
  predicate InBand(p: PlayerState) {
    && 90.0 < p.position.x < 410.0
    && (|| p.velocity.x == 0.0
        || (p.velocity.x == 10.0 && p.position.x < 400.0)
        || (p.velocity.x == -10.0 && p.position.x > 100.0))
  }

  predicate PlayerInvariant(p: PlayerState) {
    MetadataMatches(p) && FramesInRange(p) && InBand(p)
  }

  /** Every platform and background layer sits where `init` put it, moved by
      the scroll offset (the background by the parallax share of it). */
  predicate LevelInvariant(s: WorldState, a: Assets) {
    && s.platforms == ShiftPlatforms(Layout(a), -(s.scrollOffset as real))
    && s.genericObjects == ShiftObjects(Backdrop(a), -(ParallaxFactor * s.scrollOffset as real))
  }

  predicate Consistent(s: WorldState, a: Assets) {
    ScrollInvariant(s.scrollOffset) && PlayerInvariant(s.player) && LevelInvariant(s, a)
  }

  lemma InitConsistent(keys: Keys, currentKey: CurrentKey, a: Assets)
    ensures Consistent(Init(keys, currentKey, a), a)
  {
    var s := Init(keys, currentKey, a);
    assert s.platforms == ShiftPlatforms(Layout(a), 0.0) by {
      forall i | 0 <= i < 7 ensures s.platforms[i] == ShiftPlatforms(Layout(a), 0.0)[i] { }
    }
    assert s.genericObjects == ShiftObjects(Backdrop(a), 0.0) by {
      forall i | 0 <= i < 2 ensures s.genericObjects[i] == ShiftObjects(Backdrop(a), 0.0)[i] { }
    }
  }

  lemma HorizontalConsistent(s: WorldState, a: Assets)
    requires ScrollInvariant(s.scrollOffset) && LevelInvariant(s, a)
    requires MetadataMatches(s.player) && FramesInRange(s.player)
    requires 90.0 < s.player.position.x < 410.0
    ensures var t := ResolveHorizontal(s);
      ScrollInvariant(t.scrollOffset) && LevelInvariant(t, a) && PlayerInvariant(t.player)
  {
    var off := s.scrollOffset as real;
    HorizontalResolution(s);
    ShiftPlatformsCompose(Layout(a), -off, -10.0);
    ShiftPlatformsCompose(Layout(a), -off, 10.0);
    ShiftObjectsCompose(Backdrop(a), -(ParallaxFactor * off), -6.6);
    ShiftObjectsCompose(Backdrop(a), -(ParallaxFactor * off), 6.6);
  }

  /** A tick keeps every invariant: the scroll offset, the player's band, its
      sprite metadata and frame range, and the level's placement. */
  lemma AnimateConsistent(s: WorldState, a: Assets)
    requires Consistent(s, a)
    ensures Consistent(Animate(s, a).next, a)
  {
    var s1 := s.(player := Update(s.player, a.canvasHeight));
    UpdatePhysics(s.player, a.canvasHeight);
    HorizontalConsistent(s1, a);
    var s2 := ResolveHorizontal(s1);
    var s3 := s2.(player := Collide(s2.player, s2.platforms));
    CollideIff(s2.player, s2.platforms);
    assert PlayerInvariant(s3.player);
    SpriteResolution(s3.player, s3.keys, s3.currentKey);
    FallResets(s, a);
    InitConsistent(s.keys, s.currentKey, a);
  }

  lemma StepConsistent(s: WorldState, e: Event, a: Assets)
    requires Consistent(s, a)
    ensures Consistent(Step(s, e, a), a)
  {
    match e
    case Tick => AnimateConsistent(s, a);
    case KeyPress(code) => KeyDownEffects(s, code);
    case KeyRelease(code) => KeyUpEffects(s, code);
  }

  /** Any sequence of ticks and key events keeps the invariants. */
  lemma {:induction false} RunConsistent(s: WorldState, events: seq<Event>, a: Assets)
    requires Consistent(s, a)
    ensures Consistent(Run(s, events, a), a)
    decreases |events|
  {
    if events != [] {
      StepConsistent(s, events[0], a);
      RunConsistent(Step(s, events[0], a), events[1..], a);
    }
  }

  /** Delivering two event sequences one after the other is delivering their
      concatenation. */
  lemma {:induction false} RunAppend(s: WorldState, first: seq<Event>, second: seq<Event>, a: Assets)
    ensures Run(s, first + second, a) == Run(Run(s, first, a), second, a)
    decreases |first|
  {
    if first == [] {
      assert first + second == second;
    } else {
      assert (first + second)[0] == first[0];
      assert (first + second)[1..] == first[1..] + second;
      RunAppend(Step(s, first[0], a), first[1..], second, a);
    }
  }

  /** From the start of the game, whatever the player does: the scroll offset
      is a non-negative multiple of 10, the player stays in the band
      90 < x < 410 (so the walk-left case for x < 0 never fires), its sprite
      metadata and frame counter agree with its sprite, and the level sits at
      its `init` layout moved by the scroll offset. */
  lemma ReachableStates(events: seq<Event>, a: Assets)
    ensures Consistent(Run(InitialWorld(a), events, a), a)
    ensures var s := Run(InitialWorld(a), events, a);
      && s.scrollOffset >= 0 && s.scrollOffset % 10 == 0
      && 90.0 < s.player.position.x < 410.0
      && MetadataMatches(s.player) && FramesInRange(s.player)
      && s.platforms == ShiftPlatforms(Layout(a), -(s.scrollOffset as real))
      && s.genericObjects == ShiftObjects(Backdrop(a), -(ParallaxFactor * s.scrollOffset as real))
  {
    InitConsistent(Keys(false, false), Unset, a);
    RunConsistent(InitialWorld(a), events, a);
    var s := Run(InitialWorld(a), events, a);
    assert ScrollInvariant(s.scrollOffset) && PlayerInvariant(s.player) && LevelInvariant(s, a);
  }

  /** In a consistent state the next update leaves x above 90, so the
      `scrollOffset == 0 && x < 0` walk-left condition is never met. */
  lemma WalkLeftOfOriginUnreachable(s: WorldState, a: Assets)
    requires Consistent(s, a)
    ensures !(Update(s.player, a.canvasHeight).position.x < 0.0)
  {
  }

  /** In a consistent state the win signal is raised exactly when the last
      ground platform's left edge has scrolled left of x = 400, the right end
      of the walking band. */
  lemma WinAtLastPlatform(s: WorldState, a: Assets)
    requires Consistent(s, a)
    ensures |s.platforms| == 7
    ensures s.scrollOffset as real > WinThreshold(a) <==> s.platforms[6].position.x < 400.0
  {
    assert s.platforms[6] == ShiftPlatforms(Layout(a), -(s.scrollOffset as real))[6];
  }
}
