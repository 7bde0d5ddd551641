/** The player of the side-scroller as a value: its physics step (`Player.update`)
    and the crop rectangle its draw call cuts out of the sprite sheet. */
module PlayerModel {

  /** A position or a velocity, in canvas units. */
  datatype Vec2 = Vec2(x: real, y: real)

  /** The sprite sheet the player currently shows; the source compares image
      objects by identity, the model keeps this tag instead. */
  datatype Sprite = StandRight | StandLeft | RunRight | RunLeft {
    predicate IsStand() { StandRight? || StandLeft? }
    predicate IsRun() { RunRight? || RunLeft? }
  }

  /** Added to the vertical velocity once per tick while the player is airborne. */
  const Gravity: real := 1.5
  /** Horizontal walking speed, also the distance the world scrolls per tick. */
  const PlayerSpeed: int := 10
  /** The player's fixed on-screen height. */
  const PlayerHeight: real := 150.0

  /** Geometry of the two sprite variants: one frame's width within the sheet,
      and the width the player is drawn at. */
  const StandCropWidth: int := 177
  const StandWidth: real := 66.0
  const RunCropWidth: int := 341
  const RunWidth: real := 127.875

  /** Everything about the player that changes: `currentCropWidth` is cached
      from the active sprite variant, as is `width`. */
  datatype PlayerState = PlayerState(
    position: Vec2,
    velocity: Vec2,
    frames: nat,
    sprite: Sprite,
    cropWidth: int,
    width: real)

  /** The last animation frame index of a sprite variant before it wraps. */
  function LastFrame(sprite: Sprite): nat {
    if sprite.IsStand() then 59 else 29
  }

  function CropWidthOf(sprite: Sprite): int {
    if sprite.IsStand() then StandCropWidth else RunCropWidth
  }

  function WidthOf(sprite: Sprite): real {
    if sprite.IsStand() then StandWidth else RunWidth
  }

  /** The cached crop width and render width are those of the sprite tag. */
  predicate MetadataMatches(p: PlayerState) {
    p.cropWidth == CropWidthOf(p.sprite) && p.width == WidthOf(p.sprite)
  }

  predicate FramesInRange(p: PlayerState) {
    p.frames <= LastFrame(p.sprite)
  }

  /** A freshly constructed player: standing right at (100, 100), at rest. */
  function NewPlayer(): (p: PlayerState)
    ensures MetadataMatches(p) && FramesInRange(p)
    ensures p.sprite == StandRight && p.frames == 0
  {
    PlayerState(Vec2(100.0, 100.0), Vec2(0.0, 0.0), 0, StandRight, StandCropWidth, StandWidth)
  }

  /** The frame counter step of `update`: increment, then wrap to 0 once it
      passes the variant's last frame. */
  function NextFrames(frames: nat, sprite: Sprite): (r: nat)
    ensures r <= LastFrame(sprite)
    ensures r == 0 || r == frames + 1
    ensures frames <= LastFrame(sprite) ==> (r == 0 <==> frames == LastFrame(sprite))
  {
    var f := frames + 1;
    if sprite.IsStand() && f > 59 then 0
    else if sprite.IsRun() && f > 29 then 0
    else f
  }

  /** `Player.update` without its drawing: advance the frame counter, move by
      the velocity, and apply gravity unless the moved bottom edge plus the
      velocity would pass the bottom of the canvas. The frame counter always
      ends within its variant's range, whatever it was before, and the sprite
      and its metadata are kept. */
  function Update(p: PlayerState, canvasHeight: real): (r: PlayerState)
    ensures FramesInRange(r)
    ensures r.sprite == p.sprite && (MetadataMatches(p) ==> MetadataMatches(r))
  {
    var position := Vec2(p.position.x + p.velocity.x, p.position.y + p.velocity.y);
    var vy := if position.y + PlayerHeight + p.velocity.y <= canvasHeight
              then p.velocity.y + Gravity else p.velocity.y;
    p.(frames := NextFrames(p.frames, p.sprite), position := position, velocity := p.velocity.(y := vy))
  }

  /** The horizontal source offset of the crop rectangle `draw` cuts from the
      sheet: frame 0 is at the sheet's left edge, and a player whose metadata
      matches its sprite with the counter in range gets a frame that starts on
      the sheet, at a whole number of frame widths. */
  function CropOffset(p: PlayerState): (x: int)
    ensures p.frames == 0 ==> x == 0
    ensures MetadataMatches(p) && FramesInRange(p) ==>
      0 <= x <= CropWidthOf(p.sprite) * LastFrame(p.sprite) && x % CropWidthOf(p.sprite) == 0
  {
    p.cropWidth * p.frames
  }

  /** `update` steps the frame counter by `NextFrames`, moves the player by
      exactly its velocity and touches only the vertical velocity, which gains gravity exactly when the moved bottom edge
      plus the velocity stays within the canvas. */
  lemma UpdatePhysics(p: PlayerState, canvasHeight: real)
    ensures var q := Update(p, canvasHeight);
      && q.frames == NextFrames(p.frames, p.sprite)
      && q.position.x == p.position.x + p.velocity.x
      && q.position.y == p.position.y + p.velocity.y
      && q.velocity.x == p.velocity.x
      && (q.velocity.y == p.velocity.y + Gravity <==> q.position.y + PlayerHeight + p.velocity.y <= canvasHeight)
      && (q.velocity.y == p.velocity.y <==> q.position.y + PlayerHeight + p.velocity.y > canvasHeight)
      && q.sprite == p.sprite && q.cropWidth == p.cropWidth && q.width == p.width
  {
  }

  /** The crop rectangle the draw call inside `update` uses stays on the sheet:
      at most 59 stand frames of 177 pixels or 29 run frames of 341 pixels. */
  lemma DrawCropWithinSheet(p: PlayerState, canvasHeight: real)
    requires MetadataMatches(p)
    ensures var q := Update(p, canvasHeight);
      && 0 <= CropOffset(q)
      && (p.sprite.IsStand() ==> CropOffset(q) <= StandCropWidth * 59)
      && (p.sprite.IsRun() ==> CropOffset(q) <= RunCropWidth * 29)
  {
    var q := Update(p, canvasHeight);
    assert q.frames <= LastFrame(p.sprite);
  }
}
