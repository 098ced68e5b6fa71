/**
 * `AddHandler`: creates an item from a request, resolving its image first and
 * attaching the requested enchantments to regular items, then hands the item
 * to the item repository once.
 */
module ItemsAdd {
  import opened Wrappers
  import opened Entities
  import opened Collaborators
  import opened ItemsAddSpec

  class AddHandler {
    const repository: ItemRepository
    const enchantmentRepository: EnchantmentRepository
    const imageHasher: Hasher
    /** The image directory (`Image::absolutePath()`). */
    const storage: ImageStorage

    constructor (repository: ItemRepository, enchantmentRepository: EnchantmentRepository,
                 imageHasher: Hasher, storage: ImageStorage)
      ensures this.repository == repository && this.enchantmentRepository == enchantmentRepository
      ensures this.imageHasher == imageHasher && this.storage == storage
    {
      this.repository := repository;
      this.enchantmentRepository := enchantmentRepository;
      this.imageHasher := imageHasher;
      this.storage := storage;
    }

    /**
     * `handle`: the outcome is that of `Assemble`; the image is resolved (and
     * an upload stored) whatever happens afterwards; the repository receives
     * the built item exactly once on success and nothing on failure.
     */
    method Handle(dto: AddDto) returns (r: Outcome<Error>)
      modifies repository, storage
      ensures storage.files == old(storage.files) + StoredBy(dto.imageType, ImagePayload(dto), imageHasher)
      ensures var built := Assemble(dto, imageHasher, enchantmentRepository.byId);
              built.Err? ==> r == Fail(built.error) && repository.created == old(repository.created)
      ensures var built := Assemble(dto, imageHasher, enchantmentRepository.byId);
              var n := |old(repository.created)|;
              built.Ok? ==>
                r == Pass &&
                |repository.created| == n + 1 &&
                repository.created[..n] == old(repository.created) &&
                fresh(repository.created[n]) &&
                repository.created[n].Record() == built.value &&
                forall j :: 0 <= j < |repository.created[n].enchantmentItems| ==>
                  fresh(repository.created[n].enchantmentItems[j]) &&
                  repository.created[n].enchantmentItems[j].item == repository.created[n]
    {
      var image := ImageName(dto.imageType, ImagePayload(dto));
      if image.Err? {
        return Fail(image.error);
      }

      var item := new Item(dto.name, dto.itemType, dto.gameId);
      item.SetDescription(dto.description);
      item.SetType(dto.itemType);
      item.SetImage(image.value);
      item.SetExtra(dto.extra);
      ghost var attrs := item.Attrs();

      if dto.itemType == ITEM_TYPE {
        var requests := dto.enchantments;
        var i := 0;
        assert requests[..i] == [] && Associations(item.enchantmentItems) == [];
        while i < |requests|
          invariant 0 <= i <= |requests|
          invariant item.Attrs() == attrs
          invariant Attach(requests[..i], enchantmentRepository.byId) == Ok(Associations(item.enchantmentItems))
          invariant forall j :: 0 <= j < |item.enchantmentItems| ==>
                      fresh(item.enchantmentItems[j]) && item.enchantmentItems[j].item == item
          modifies item
        {
          var each := requests[i];
          var enchantment := enchantmentRepository.Find(each.id);
          if enchantment.None? {
            AttachSucceedsIffAllFound(requests[..i], enchantmentRepository.byId);
            assert forall j :: 0 <= j < i ==> requests[..i][j] == requests[j];
            AttachReportsFirstMissing(requests, enchantmentRepository.byId, i);
            return Fail(DoesNotExist(each.id));
          }

          var ei := new EnchantmentItem(enchantment.value, each.level);
          ei.SetItem(item);
          ghost var before := item.enchantmentItems;
          item.AddEnchantmentItem(ei);
          assert Associations(before + [ei]) == Associations(before) + [Association(ei.enchantment, ei.level)];

          assert requests[..i + 1][..i] == requests[..i];
          i := i + 1;
        }
        assert requests[..i] == requests;
      }

      repository.Create(item);
      return Pass;
    }

    /** `imageName`: the resolved image name or the error thrown, storing an upload. */
    method ImageName(mode: string, fileOrName: Payload) returns (r: Result<Option<string>, Error>)
      modifies storage
      ensures r == ResolveImage(mode, fileOrName, imageHasher)
      ensures storage.files == old(storage.files) + StoredBy(mode, fileOrName, imageHasher)
    {
      if mode == IMAGE_DEFAULT {
        return Ok(None);
      }
      if mode == IMAGE_BROWSE {
        if fileOrName.Str? {
          return Ok(Some(fileOrName.s));
        }
        return Err(TypeError(fileOrName));
      }
      if mode == IMAGE_UPLOAD {
        if fileOrName.File? {
          var name := MoveAndGetName(fileOrName.file);
          return Ok(Some(name));
        }
        return Err(InvalidArgumentType("$fileOrName", UPLOADED_FILE_CLASS, fileOrName));
      }
      return Err(UnexpectedValue("Unexpected value (" + mode + ") of argument $type"));
    }

    /** `moveAndGetName`: stores the file under its content-addressed name and returns that name. */
    method MoveAndGetName(file: UploadedFile) returns (filename: string)
      modifies storage
      ensures filename == StoredName(file, imageHasher)
      ensures storage.files == old(storage.files) + {filename}
    {
      var hash := imageHasher(file.path);
      filename := hash + "." + file.clientExtension;
      storage.Move(file, filename);
    }
  }

  /**
   * Two successive uploads of files whose paths hash alike under the same
   * extension resolve to the same name, and the second leaves storage as the
   * first left it.
   */
  method RepeatedUploadStoresOnce(handler: AddHandler, f: UploadedFile, g: UploadedFile)
    returns (first: Result<Option<string>, Error>, second: Result<Option<string>, Error>)
    requires handler.imageHasher(f.path) == handler.imageHasher(g.path)
    requires f.clientExtension == g.clientExtension
    modifies handler.storage
    ensures first == second == Ok(Some(StoredName(f, handler.imageHasher)))
    ensures handler.storage.files == old(handler.storage.files) + {StoredName(f, handler.imageHasher)}
  {
    first := handler.ImageName(IMAGE_UPLOAD, File(f));
    ghost var once := handler.storage.files;
    second := handler.ImageName(IMAGE_UPLOAD, File(g));
    assert handler.storage.files == once;
  }
}
