/** Weapons and the catalogue the game starts (and restarts) with. */
module Arsenal {

  /** A catalogue entry; `cost` is the one field the game changes, once, to 0. */
  datatype Weapon = Weapon(
    id: string,
    name: string,
    damage: nat,
    cost: nat,
    icon: string,
    color: string,
    particleCount: nat,
    description: string,
    rarity: string,
    fireRate: string)

  /** True when the weapon has been bought or was free from the start. */
  predicate Free(w: Weapon) { w.cost == 0 }

  /** The eight weapons, in display order; punch is first and selected at start. */
  const Catalogue: seq<Weapon> := [
    Weapon("punch", "\U{1F44A} Punch", 5, 0, "\U{1F44A}", "#ff6b6b", 5, "Basic melee attack", "Common", "Fast"),
    Weapon("bat", "\U{1F3CF} Bat", 10, 0, "\U{1F3CF}", "#4ecdc4", 8, "Swing with force", "Common", "Fast"),
    Weapon("hammer", "\U{1F528} Hammer", 15, 0, "\U{1F528}", "#ffe66d", 12, "Heavy crushing blow", "Uncommon", "Medium"),
    Weapon("knife", "\U{1F52A} Knife", 20, 0, "\U{1F52A}", "#ff6b9d", 15, "Sharp and deadly", "Uncommon", "Fast"),
    Weapon("gun", "\U{1F52B} Gun", 30, 0, "\U{1F52B}", "#c44569", 20, "Rapid fire weapon", "Rare", "Very Fast"),
    Weapon("bomb", "\U{1F4A3} Bomb", 50, 0, "\U{1F4A3}", "#f38181", 30, "Explosive damage", "Rare", "Medium"),
    Weapon("lightning", "\U{26A1} Lightning", 75, 0, "\U{26A1}", "#ffeb3b", 40, "Electrifying power", "Epic", "Fast"),
    Weapon("rocket", "\U{1F680} Rocket", 100, 0, "\U{1F680}", "#ff5722", 50, "Ultimate destruction", "Legendary", "Medium")
  ]

  /** The shipped catalogue: eight weapons, punch first, every one already free. */
  lemma CatalogueShape()
    ensures |Catalogue| == 8
    ensures Catalogue[0].id == "punch" && Catalogue[0].damage == 5
    ensures forall w <- Catalogue :: Free(w)
  {}
}
