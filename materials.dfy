/**
 * The `Material` enum of the command-line tool: which game counter a
 * subcommand edits, the offset of its u32 slot from the game's image base,
 * and the name `Display` prints. src/cli.rs and src/cli/cli.rs declare the
 * same enum, the same offsets and the same names; this one model serves both.
 */
module Materials {
  import opened Ints
  import opened Results
  import opened Memory

  /** The eight variants, spelled `b`, `h`, `e`, `st`, `bt`, `ct`, `gw1`, `gw2` on the command line. */
  datatype Material =
    | Blessing
    | Honor
    | Essence
    | SwordTokens
    | BowTokens
    | CharmTokens
    | Gw1Token
    | Gw2Token

  const ESSENCE_OFFSET: u64 := 0x1cd8b34
  const HONOR_OFFSET: u64 := 0x1cd8b38
  const BLESSING_OFFSET: u64 := 0x1cd8b3c
  const SWORD_TOKEN_OFFSET: u64 := 0x1cd8b40
  const BOW_TOKEN_OFFSET: u64 := 0x1cd8b44
  const CHARM_TOKEN_OFFSET: u64 := 0x1cd8b48
  const GW1_TOKEN_OFFSET: u64 := 0x1cd8b4c
  const GW2_TOKEN_OFFSET: u64 := 0x1cd8b50

  /** The width in bytes of a material counter. */
  const SLOT_SIZE: nat := 4

  /**
   * `Material::offset`. Every offset is one of the 4-byte slots from
   * `ESSENCE_OFFSET` to `GW2_TOKEN_OFFSET`.
   */
  function Offset(m: Material): (o: u64)
    ensures ESSENCE_OFFSET <= o <= GW2_TOKEN_OFFSET
    ensures (o - ESSENCE_OFFSET) % SLOT_SIZE == 0
  {
    match m
    case Blessing => BLESSING_OFFSET
    case Honor => HONOR_OFFSET
    case Essence => ESSENCE_OFFSET
    case SwordTokens => SWORD_TOKEN_OFFSET
    case BowTokens => BOW_TOKEN_OFFSET
    case CharmTokens => CHARM_TOKEN_OFFSET
    case Gw1Token => GW1_TOKEN_OFFSET
    case Gw2Token => GW2_TOKEN_OFFSET
  }

  /** The material whose slot is at offset o, if any: the inverse of `Offset`. */
  function MaterialAt(o: u64): (r: Option<Material>)
    ensures r.Some? ==> Offset(r.value) == o
  {
    if o == BLESSING_OFFSET then Some(Blessing)
    else if o == HONOR_OFFSET then Some(Honor)
    else if o == ESSENCE_OFFSET then Some(Essence)
    else if o == SWORD_TOKEN_OFFSET then Some(SwordTokens)
    else if o == BOW_TOKEN_OFFSET then Some(BowTokens)
    else if o == CHARM_TOKEN_OFFSET then Some(CharmTokens)
    else if o == GW1_TOKEN_OFFSET then Some(Gw1Token)
    else if o == GW2_TOKEN_OFFSET then Some(Gw2Token)
    else None
  }

  /** `Offset` is injective: `MaterialAt` recovers the material from its offset. */
  lemma MaterialAtOffset(m: Material)
    ensures MaterialAt(Offset(m)) == Some(m)
  {
  }

  lemma OffsetInjective(m1: Material, m2: Material)
    ensures Offset(m1) == Offset(m2) <==> m1 == m2
  {
    MaterialAtOffset(m1);
    MaterialAtOffset(m2);
  }

  /** The 4-byte slots of two different materials do not overlap. */
  lemma SlotsDisjoint(m1: Material, m2: Material)
    requires m1 != m2
    ensures Offset(m1) + SLOT_SIZE <= Offset(m2) || Offset(m2) + SLOT_SIZE <= Offset(m1)
  {
    OffsetInjective(m1, m2);
  }

  /** `Display for Material`. */
  function Name(m: Material): (s: string)
    ensures |s| > 0
  {
    match m
    case Blessing => "Blessing"
    case Honor => "Honor"
    case Essence => "Essence"
    case SwordTokens => "Sword Tokens"
    case BowTokens => "Bow Tokens"
    case CharmTokens => "Charm Tokens"
    case Gw1Token => "GW1 Token"
    case Gw2Token => "GW2 Token"
  }

  /** The material `Display` prints as s, if any: the inverse of `Name`. */
  function MaterialNamed(s: string): (r: Option<Material>)
    ensures r.Some? ==> Name(r.value) == s
  {
    if s == "Blessing" then Some(Blessing)
    else if s == "Honor" then Some(Honor)
    else if s == "Essence" then Some(Essence)
    else if s == "Sword Tokens" then Some(SwordTokens)
    else if s == "Bow Tokens" then Some(BowTokens)
    else if s == "Charm Tokens" then Some(CharmTokens)
    else if s == "GW1 Token" then Some(Gw1Token)
    else if s == "GW2 Token" then Some(Gw2Token)
    else None
  }

  /** Every displayed name is recovered by `MaterialNamed`, so no two materials print alike. */
  lemma MaterialNamedName(m: Material)
    ensures MaterialNamed(Name(m)) == Some(m)
  {
  }

  lemma NameInjective(m1: Material, m2: Material)
    ensures Name(m1) == Name(m2) <==> m1 == m2
  {
    MaterialNamedName(m1);
    MaterialNamedName(m2);
  }

  /**
   * A store of at most one slot's bytes at one material's counter leaves every
   * other material's counter as it was: the read-modify-write commands touch
   * only the slot they name.
   */
  lemma StoreLeavesOtherMaterials(m: AddressSpace, base: int, target: Material, other: Material, data: seq<u8>)
    requires target != other && |data| <= SLOT_SIZE
    ensures LoadU32(Store(m, base + Offset(target), data), base + Offset(other)) == LoadU32(m, base + Offset(other))
  {
    SlotsDisjoint(target, other);
    if Mapped(m, base + Offset(other), 4) {
      LoadDisjointStore(m, base + Offset(target), data, base + Offset(other), 4);
    }
  }
}
