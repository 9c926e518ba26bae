/**
 * The names of the scene's node layers (`NodeName` in GameScene.swift) and the
 * collision category bit each layer occupies in the physics engine's 32-bit masks.
 */
module NodeNames {
  import opened Optional

  datatype NodeName = FrameGround | FrameFloor | Player | BackGround | Ground | Floor | IsGround

  /** The string raw value of each case, which is also the node's `name` in the scene graph. */
  function RawValue(n: NodeName): string {
    match n
    case FrameGround => "frame_ground"
    case FrameFloor => "frame_floor"
    case Player => "player"
    case BackGround => "backGround"
    case Ground => "ground"
    case Floor => "floor"
    case IsGround => "isGround"
  }

  /** The four layers that take part in collision filtering. */
  predicate HasCategory(n: NodeName) {
    n.FrameGround? || n.FrameFloor? || n.Player? || n.IsGround?
  }

  /**
   * `category()`: a single bit for each filtering layer, no bit for the others.
   * A value `r` with `r & (r - 1) == 0` has at most one bit set.
   */
  function Category(n: NodeName): (r: bv32)
    ensures r != 0 <==> HasCategory(n)
    ensures r & (r - 1) == 0
  {
    match n
    case FrameGround => 0x0000_0001 << 0
    case FrameFloor => 0x0000_0001 << 1
    case Player => 0x0000_0001 << 2
    case IsGround => 0x0000_0001 << 3
    case _ => 0x0000_0000
  }

  /** The categories are 1, 2, 4 and 8 in the order the enum declares the layers. */
  lemma CategoryValues()
    ensures Category(FrameGround) == 1 && Category(FrameFloor) == 2
    ensures Category(Player) == 4 && Category(IsGround) == 8
    ensures Category(BackGround) == 0 && Category(Ground) == 0 && Category(Floor) == 0
  {
  }

  /** Two different filtering layers never share a bit. */
  lemma CategoriesDisjoint(a: NodeName, b: NodeName)
    requires a != b
    ensures Category(a) & Category(b) == 0
  {
  }

  /** Distinct cases have distinct names, so comparing names identifies the layer. */
  lemma RawValueInjective(a: NodeName, b: NodeName)
    requires RawValue(a) == RawValue(b)
    ensures a == b
  {
  }

  /** What a probe beneath the player must find for the player to count as standing: "ground" or "floor". */
  predicate IsSurface(name: Option<string>) {
    name == Some(RawValue(Ground)) || name == Some(RawValue(Floor))
  }
}
