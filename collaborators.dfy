/**
 * The handler's collaborators, reduced to the state they keep: the enchantment
 * repository is a map from id to enchantment, the item repository an
 * append-only log of created items, and image storage a set of file names.
 */
module Collaborators {
  import opened Wrappers
  import opened Entities

  /** An uploaded file: where its bytes are, and the extension the client claimed. */
  datatype UploadedFile = UploadedFile(path: string, clientExtension: string)

  class EnchantmentRepository {
    const byId: map<int, Enchantment>

    constructor (byId: map<int, Enchantment>)
      ensures this.byId == byId
    {
      this.byId := byId;
    }

    /** `find`: the enchantment with this id, or `None` when there is none. */
    function Find(id: int): (r: Option<Enchantment>)
      ensures r.Some? <==> id in byId
      ensures r.Some? ==> r.value == byId[id]
    {
      if id in byId then Some(byId[id]) else None
    }
  }

  class ItemRepository {
    /** Every item handed to `create`, in call order. */
    var created: seq<Item>

    constructor ()
      ensures created == []
    {
      created := [];
    }

    method Create(item: Item)
      modifies this
      ensures created == old(created) + [item]
    {
      created := created + [item];
    }
  }

  class ImageStorage {
    /** The names of the files in the image directory. */
    var files: set<string>

    constructor (files: set<string>)
      ensures this.files == files
    {
      this.files := files;
    }

    /** Moves `file` into the image directory under `filename`, replacing any file of that name. */
    method Move(file: UploadedFile, filename: string)
      modifies this
      ensures files == old(files) + {filename}
    {
      files := files + {filename};
    }
  }
}
