/** The whole game session as a value: the level built by `init`, the
    non-drawing steps of one `animate` tick, and the keyboard handlers. */
module WorldModel {
  import opened PlayerModel

  /** A platform: its position and the width of its image. */
  datatype Platform = Platform(position: Vec2, width: real)

  /** A background layer: its position and the width of its image. */
  datatype GenericObject = GenericObject(position: Vec2, width: real)

  /** `keys.left.pressed` and `keys.right.pressed`. */
  datatype Keys = Keys(left: bool, right: bool)

  /** `currentKey`: the direction of the last movement key pressed; it is
      undefined until the first one. */
  datatype CurrentKey = Unset | Left | Right

  /** What the host supplies: the canvas height and the natural widths of the
      images the level is laid out with. */
  datatype Assets = Assets(
    canvasHeight: real,
    platformWidth: real,
    platformSmallTallWidth: real,
    backgroundWidth: real,
    hillsWidth: real)

  datatype WorldState = WorldState(
    player: PlayerState,
    platforms: seq<Platform>,
    genericObjects: seq<GenericObject>,
    scrollOffset: int,
    keys: Keys,
    currentKey: CurrentKey)

  /** Background layers move by this fraction of the platforms' scroll. */
  const ParallaxFactor: real := 0.66
  /** `W` subtracts this from the vertical velocity. */
  const JumpImpulse: real := 25.0

  const KeyA: int := 65
  const KeyD: int := 68
  const KeyW: int := 87

  /** The hand-placed platforms: the elevated small-tall one first, then six
      ground platforms at y = 470. */
  function Layout(a: Assets): (ps: seq<Platform>)
    ensures |ps| == 7 && ps[0].position.y == 270.0 && ps[0].width == a.platformSmallTallWidth
    ensures forall i :: 1 <= i < |ps| ==> ps[i].position.y == 470.0 && ps[i].width == a.platformWidth
  {
    var w := a.platformWidth;
    [ Platform(Vec2(w * 4.0 + 300.0 - 2.0 + w - a.platformSmallTallWidth, 270.0), a.platformSmallTallWidth),
      Platform(Vec2(-1.0, 470.0), w),
      Platform(Vec2(w - 3.0, 470.0), w),
      Platform(Vec2(w * 2.0 + 100.0, 470.0), w),
      Platform(Vec2(w * 3.0 + 300.0, 470.0), w),
      Platform(Vec2(w * 4.0 + 300.0 - 2.0, 470.0), w),
      Platform(Vec2(w * 5.0 + 700.0 - 2.0, 470.0), w) ]
  }

  /** The far background and the hills, both anchored at (-1, -1). */
  function Backdrop(a: Assets): (gs: seq<GenericObject>)
    ensures |gs| == 2 && forall i :: 0 <= i < |gs| ==> gs[i].position == Vec2(-1.0, -1.0)
  {
    [ GenericObject(Vec2(-1.0, -1.0), a.backgroundWidth),
      GenericObject(Vec2(-1.0, -1.0), a.hillsWidth) ]
  }

  /** `init`: a new player, the level rebuilt, the scroll reset; the keyboard
      state survives. */
  function Init(keys: Keys, currentKey: CurrentKey, a: Assets): (s: WorldState)
    ensures s.scrollOffset == 0 && s.keys == keys && s.currentKey == currentKey
    ensures s.player == NewPlayer() && |s.platforms| == 7 && |s.genericObjects| == 2
  {
    WorldState(NewPlayer(), Layout(a), Backdrop(a), 0, keys, currentKey)
  }

  /** The state when the first tick runs: module initialisation followed by
      `init`, with no key held and no current direction yet. */
  function InitialWorld(a: Assets): (s: WorldState)
    ensures !s.keys.left && !s.keys.right && s.currentKey == Unset
    ensures s.scrollOffset == 0 && s.player == NewPlayer()
  {
    Init(Keys(false, false), Unset, a)
  }

  function ShiftPlatforms(ps: seq<Platform>, dx: real): seq<Platform> {
    seq(|ps|, i requires 0 <= i < |ps| => ps[i].(position := ps[i].position.(x := ps[i].position.x + dx)))
  }

  function ShiftObjects(gs: seq<GenericObject>, dx: real): seq<GenericObject> {
    seq(|gs|, i requires 0 <= i < |gs| => gs[i].(position := gs[i].position.(x := gs[i].position.x + dx)))
  }

  /** The five outcomes of horizontal input resolution. */
  datatype Move = WalkRight | WalkLeft | ScrollRight | ScrollLeft | Still

  /** Which branch of horizontal resolution a tick takes. */
  function HorizontalMove(x: real, keys: Keys, scrollOffset: int): Move {
    if keys.right && x < 400.0 then WalkRight
    else if (keys.left && x > 100.0) || (keys.left && scrollOffset == 0 && x < 0.0) then WalkLeft
    else if keys.right then ScrollRight
    else if keys.left && scrollOffset > 0 then ScrollLeft
    else Still
  }

  function WithVelocityX(p: PlayerState, vx: real): PlayerState {
    p.(velocity := p.velocity.(x := vx))
  }

  /** Horizontal resolution: walk inside the band, otherwise stop and scroll
      the world by the player's speed (the background by the parallax share). */
  function ResolveHorizontal(s: WorldState): (t: WorldState)
    ensures t.keys == s.keys && t.currentKey == s.currentKey
    ensures t.player == WithVelocityX(s.player, t.player.velocity.x)
    ensures t.player.velocity.x in {-10.0, 0.0, 10.0}
    ensures |t.platforms| == |s.platforms| && |t.genericObjects| == |s.genericObjects|
    ensures t.scrollOffset - s.scrollOffset in {-10, 0, 10}
    ensures t.scrollOffset < s.scrollOffset ==> s.scrollOffset > 0 && s.keys.left && !s.keys.right
    ensures t.scrollOffset > s.scrollOffset ==> s.keys.right
  {
    var speed := PlayerSpeed as real;
    match HorizontalMove(s.player.position.x, s.keys, s.scrollOffset)
    case WalkRight => s.(player := WithVelocityX(s.player, speed))
    case WalkLeft => s.(player := WithVelocityX(s.player, -speed))
    case ScrollRight =>
      s.(player := WithVelocityX(s.player, 0.0),
         scrollOffset := s.scrollOffset + PlayerSpeed,
         platforms := ShiftPlatforms(s.platforms, -speed),
         genericObjects := ShiftObjects(s.genericObjects, -(speed * ParallaxFactor)))
    case ScrollLeft =>
      s.(player := WithVelocityX(s.player, 0.0),
         scrollOffset := s.scrollOffset - PlayerSpeed,
         platforms := ShiftPlatforms(s.platforms, speed),
         genericObjects := ShiftObjects(s.genericObjects, speed * ParallaxFactor))
    case Still => s.(player := WithVelocityX(s.player, 0.0))
  }

  /** The landing test of one platform against the player as it is now: the
      bottom edge is at or above the platform's top and this tick's vertical
      velocity would carry it to or past that top, with the two overlapping
      horizontally. Only a player at rest or falling can land. */
  predicate LandsOn(p: PlayerState, q: Platform)
    ensures LandsOn(p, q) ==> p.velocity.y >= 0.0
  {
    && p.position.y + PlayerHeight <= q.position.y
    && p.position.y + PlayerHeight + p.velocity.y >= q.position.y
    && p.position.x + p.width >= q.position.x
    && p.position.x <= q.position.x + q.width
  }

  /** The player with its fall stopped. */
  function Landed(p: PlayerState): PlayerState {
    p.(velocity := p.velocity.(y := 0.0))
  }

  function LandStep(p: PlayerState, q: Platform): PlayerState {
    if LandsOn(p, q) then Landed(p) else p
  }

  /** The collision loop: each platform, in list order, is tested against
      the player as the earlier platforms left it. */
  function Collide(p: PlayerState, ps: seq<Platform>): (r: PlayerState)
    ensures r == p || r == Landed(p)
    decreases |ps|
  {
    if ps == [] then p else LandStep(Collide(p, ps[..|ps| - 1]), ps[|ps| - 1])
  }

  /** Switching to a run variant restarts the animation at frame 1. */
  function EnterRun(p: PlayerState, sprite: Sprite): PlayerState {
    p.(frames := 1, sprite := sprite, cropWidth := RunCropWidth, width := RunWidth)
  }

  /** Switching back to a stand variant keeps the frame counter. */
  function EnterStand(p: PlayerState, sprite: Sprite): PlayerState {
    p.(sprite := sprite, cropWidth := StandCropWidth, width := StandWidth)
  }

  /** Sprite-state resolution: first follow `currentKey` into a run sprite,
      then fall back to standing if that key is no longer held. */
  function ResolveSprite(p: PlayerState, keys: Keys, currentKey: CurrentKey): (r: PlayerState)
    ensures r.position == p.position && r.velocity == p.velocity
    ensures MetadataMatches(p) ==> MetadataMatches(r)
    ensures FramesInRange(p) ==> FramesInRange(r)
  {
    var p1 :=
      if currentKey == Right && p.sprite != RunRight then EnterRun(p, RunRight)
      else if currentKey == Left && p.sprite != RunLeft then EnterRun(p, RunLeft)
      else p;
    if !keys.right && currentKey == Right && p1.sprite == RunRight then EnterStand(p1, StandRight)
    else if !keys.left && currentKey == Left && p1.sprite == RunLeft then EnterStand(p1, StandLeft)
    else p1
  }

  function WinThreshold(a: Assets): real {
    a.platformWidth * 5.0 + 300.0 - 2.0
  }

  /** The result of one tick: the next state and whether "You win!" is logged. */
  datatype TickResult = TickResult(next: WorldState, win: bool)

  /** The state reached by the steps of a tick before the lose check: the
      keyboard state and the number of platforms and layers are kept, the
      frame counter ends in range, and matching sprite metadata stays matching. */
  function BeforeLoseCheck(s: WorldState, a: Assets): (t: WorldState)
    ensures t.keys == s.keys && t.currentKey == s.currentKey
    ensures |t.platforms| == |s.platforms| && |t.genericObjects| == |s.genericObjects|
    ensures FramesInRange(t.player)
    ensures MetadataMatches(s.player) ==> MetadataMatches(t.player)
  {
    var s1 := s.(player := Update(s.player, a.canvasHeight));
    var s2 := ResolveHorizontal(s1);
    var s3 := s2.(player := Collide(s2.player, s2.platforms));
    s3.(player := ResolveSprite(s3.player, s3.keys, s3.currentKey))
  }

  /** One call of `animate`, drawing left out. */
  function Animate(s: WorldState, a: Assets): (r: TickResult)
    ensures r.next.keys == s.keys && r.next.currentKey == s.currentKey
  {
    var s4 := BeforeLoseCheck(s, a);
    var win := s4.scrollOffset as real > WinThreshold(a);
    if s4.player.position.y > a.canvasHeight
    then TickResult(Init(s4.keys, s4.currentKey, a), win)
    else TickResult(s4, win)
  }

  /** The keydown handler. */
  function KeyDown(s: WorldState, keyCode: int): (t: WorldState)
    ensures t.platforms == s.platforms && t.genericObjects == s.genericObjects
    ensures t.scrollOffset == s.scrollOffset
    ensures s.keys.left ==> t.keys.left
    ensures s.keys.right ==> t.keys.right
  {
    if keyCode == KeyA then s.(keys := s.keys.(left := true), currentKey := Left)
    else if keyCode == KeyD then s.(keys := s.keys.(right := true), currentKey := Right)
    else if keyCode == KeyW then
      s.(player := s.player.(velocity := s.player.velocity.(y := s.player.velocity.y - JumpImpulse)))
    else s
  }

  /** The keyup handler. */
  function KeyUp(s: WorldState, keyCode: int): (t: WorldState)
    ensures t.currentKey == s.currentKey && t.player == s.player
    ensures t.keys.left ==> s.keys.left
    ensures t.keys.right ==> s.keys.right
  {
    if keyCode == KeyA then s.(keys := s.keys.(left := false))
    else if keyCode == KeyD then s.(keys := s.keys.(right := false))
    else s
  }

  /** What the host delivers between ticks: a repaint or a key event. */
  datatype Event = Tick | KeyPress(code: int) | KeyRelease(code: int)

  /** Delivers one event. Only a tick scrolls the level; a key release
      touches neither the player nor the current direction. */
  function Step(s: WorldState, e: Event, a: Assets): (t: WorldState)
    ensures !e.Tick? ==>
      t.scrollOffset == s.scrollOffset && t.platforms == s.platforms && t.genericObjects == s.genericObjects
    ensures e.KeyRelease? ==> t.player == s.player && t.currentKey == s.currentKey
  {
    match e
    case Tick => Animate(s, a).next
    case KeyPress(code) => KeyDown(s, code)
    case KeyRelease(code) => KeyUp(s, code)
  }

  /** The state after delivering a sequence of events in order. Key events
      alone, however many, never move the level. */
  function Run(s: WorldState, events: seq<Event>, a: Assets): (t: WorldState)
    ensures (forall i | 0 <= i < |events| :: !events[i].Tick?) ==>
      t.scrollOffset == s.scrollOffset && t.platforms == s.platforms && t.genericObjects == s.genericObjects
    decreases |events|
  {
    if events == [] then s else Run(Step(s, events[0], a), events[1..], a)
  }
}
