/**
 * The entities the item-creation handler builds: an `Item`, its
 * `EnchantmentItem` associations, and the `Enchantment` they point to.
 * Their fields are updated in place by setters, so they are classes;
 * `Attributes` and `Association` are their values as seen by a specification.
 */
module Entities {
  import opened Wrappers

  /** A reference entity, managed elsewhere and only read by the handler. */
  class Enchantment {
    const id: int

    constructor (id: int)
      ensures this.id == id
    {
      this.id := id;
    }
  }

  /** The scalar attributes of an item. */
  datatype Attributes = Attributes(
    name: string,
    itemType: string,
    gameId: string,
    description: string,
    image: Option<string>,
    extra: string)

  /** What one association records: which enchantment, at which level. */
  datatype Association = Association(enchantment: Enchantment, level: int)

  /** An item as a value: its attributes and its associations, in order. */
  datatype ItemRecord = ItemRecord(attributes: Attributes, associations: seq<Association>)

  /** The association view of a sequence of `EnchantmentItem`s. */
  function Associations(eis: seq<EnchantmentItem>): seq<Association>
  {
    seq(|eis|, i requires 0 <= i < |eis| => Association(eis[i].enchantment, eis[i].level))
  }

  /** An enchantment attached to an item at a level, with a link back to its item. */
  class EnchantmentItem {
    const enchantment: Enchantment
    const level: int
    var item: Item?

    constructor (enchantment: Enchantment, level: int)
      ensures this.enchantment == enchantment && this.level == level
      ensures item == null
    {
      this.enchantment := enchantment;
      this.level := level;
      item := null;
    }

    method SetItem(item: Item)
      modifies this
      ensures this.item == item
    {
      this.item := item;
    }
  }

  class Item {
    var name: string
    var itemType: string
    var gameId: string
    var description: string
    var image: Option<string>
    var extra: string
    var enchantmentItems: seq<EnchantmentItem>

    /** The attributes the setters below change. */
    function Attrs(): Attributes
      reads this
    {
      Attributes(name, itemType, gameId, description, image, extra)
    }

    /** The item as a value, once built. */
    function Record(): ItemRecord
      reads this
    {
      ItemRecord(Attrs(), Associations(enchantmentItems))
    }

    /** A new item has a name, a type and a game id, and nothing attached. */
    constructor (name: string, itemType: string, gameId: string)
      ensures Attrs() == Attributes(name, itemType, gameId, "", None, "")
      ensures enchantmentItems == []
    {
      this.name := name;
      this.itemType := itemType;
      this.gameId := gameId;
      description := "";
      image := None;
      extra := "";
      enchantmentItems := [];
    }

    method SetDescription(description: string)
      modifies this
      ensures Attrs() == old(Attrs()).(description := description)
      ensures enchantmentItems == old(enchantmentItems)
    {
      this.description := description;
    }

    method SetType(itemType: string)
      modifies this
      ensures Attrs() == old(Attrs()).(itemType := itemType)
      ensures enchantmentItems == old(enchantmentItems)
    {
      this.itemType := itemType;
    }

    method SetImage(image: Option<string>)
      modifies this
      ensures Attrs() == old(Attrs()).(image := image)
      ensures enchantmentItems == old(enchantmentItems)
    {
      this.image := image;
    }

    method SetExtra(extra: string)
      modifies this
      ensures Attrs() == old(Attrs()).(extra := extra)
      ensures enchantmentItems == old(enchantmentItems)
    {
      this.extra := extra;
    }

    /** Appends one association to the item's collection. */
    method AddEnchantmentItem(ei: EnchantmentItem)
      modifies this
      ensures Attrs() == old(Attrs())
      ensures enchantmentItems == old(enchantmentItems) + [ei]
    {
      enchantmentItems := enchantmentItems + [ei];
    }
  }
}
