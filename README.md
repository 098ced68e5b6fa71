# Item creation handler (L-shop admin), modelled in Dafny

This project models `AddHandler`, the handler behind the admin panel's "add item" action.
It has two parts:

- **Image resolution** (`imageName`, `moveAndGetName`). The request names an image mode: `default`, `browse` or `upload`.
  It also carries a payload. The payload is the uploaded file when there is one, and the image name string otherwise.
  `default` gives no image. `browse` gives the string unchanged. `upload` stores the file under the name
  `hash + "." + clientExtension` and returns that name. The hash is what the injected hasher returns for the file's
  path; in the model the hasher is a function of the path.
  An upload without a file throws InvalidArgumentType. Any other mode throws UnexpectedValue.
- **Entity assembly** (`handle`). The handler resolves the image first. Then it builds the `Item` and sets its
  description, type, image and extra attributes. Only for items of type `Type::ITEM`, it walks the requested
  (enchantment id, level) pairs in order. It looks each id up and throws DoesNotExist with the id on a miss.
  Otherwise it creates an `EnchantmentItem`, links it back to the item and appends it. Finally it passes the item
  to the item repository's `create`, once.

Layout, one module per file:

- `wrappers.dfy` (`Wrappers`): `Option`, `Result` and `Outcome`. A thrown exception is an `Err`/`Fail` value.
- `entities.dfy` (`Entities`): the `Item`, `EnchantmentItem` and `Enchantment` classes, with the setters the handler
  calls. It also has their value views: `Attributes`, `Association`, `ItemRecord`.
- `collaborators.dfy` (`Collaborators`): each collaborator reduced to its state.
  The enchantment repository is a map from id to enchantment. The item repository keeps a log of created items.
  Image storage is a set of file names. An uploaded file is its path and its client extension.
- `items_add_spec.dfy` (`ItemsAddSpec`): pure functions giving what the handler computes, and the lemmas about them.
  `ResolveImage` and `StoredBy` give the image name and the stored files. `Attach` gives the associations.
  `Assemble` gives the item passed to `create`.
- `items_add.dfy` (`ItemsAdd`): the `AddHandler` class. Its `Handle`, `ImageName` and `MoveAndGetName` methods
  change storage and the repository, and are proved against those functions.

The collaborators are parameters or fields:

- The hasher (`Hasher::make`) is a function value `string -> string` from path to digest. It is deterministic by
  construction. Only `StoredNameDeterminesHashAndExtension` assumes more: it requires the two digests it compares
  to have the same length. Without that, `StoredName` is not injective: a hash `"x.y"` with extension `"z"` and a
  hash `"x"` with extension `"y.z"` both give `"x.y.z"`.
- The image directory (`Image::absolutePath()`, a static call in the source) is an `ImageStorage` object held by
  the handler.

Edge cases of the code that the model keeps:

- A file payload in `browse` mode fails the `?string` return type of `imageName` under `strict_types=1`. The model
  has this as `Error.TypeError`.
- `browse` returns a string payload verbatim. The code checks neither that it is non-empty nor that it is already
  stored, and neither does the model.
- When an enchantment is missing, the partly built item keeps the associations attached so far. That item is never
  persisted, so `Handle` guarantees only that nothing reaches the repository.
- An upload stored before a missing enchantment aborts creation stays in storage (an orphaned file).
  `Handle`'s first postcondition states this: storage grows by `StoredBy(...)` whatever the outcome.

## Model

| member | source | states |
|---|---|---|
| `ItemsAdd.AddHandler.constructor` | app/Handlers/Admin/Items/Add/AddHandler.php:42-47 | the handler holds the two repositories and the hasher it is given (and the image storage) |
| `ItemsAdd.AddHandler.Handle` | app/Handlers/Admin/Items/Add/AddHandler.php:49-73 | the outcome is `Assemble`'s. Storage grows by exactly the resolved upload, even when creation later fails. On failure the repository log is unchanged. On success exactly one item is appended: fresh, equal to the assembled record, with fresh associations that each link back to it |
| `ItemsAdd.AddHandler.ImageName` | app/Handlers/Admin/Items/Add/AddHandler.php:81-100 | the result is `ResolveImage(mode, payload)`, and storage grows by exactly `StoredBy(mode, payload)` |
| `ItemsAdd.AddHandler.MoveAndGetName` | app/Handlers/Admin/Items/Add/AddHandler.php:102-109 | returns the content-addressed name `hash(path).ext`, and that name is added to storage |
| `Collaborators.ImageStorage.Move` | app/Handlers/Admin/Items/Add/AddHandler.php:106 | moving a file under a name adds that name to the image directory, overwriting any file of that name |
| `Collaborators.ItemRepository.Create` | app/Handlers/Admin/Items/Add/AddHandler.php:72 | `create` appends the item to the log of created items |
| `Entities.Item.constructor` | app/Handlers/Admin/Items/Add/AddHandler.php:53 | a new item has the given name, type and game id, and no associations |
| `Entities.Item.SetDescription` | app/Handlers/Admin/Items/Add/AddHandler.php:54 | changes the description only |
| `Entities.Item.SetType` | app/Handlers/Admin/Items/Add/AddHandler.php:55 | changes the type only |
| `Entities.Item.SetImage` | app/Handlers/Admin/Items/Add/AddHandler.php:56 | changes the image only |
| `Entities.Item.SetExtra` | app/Handlers/Admin/Items/Add/AddHandler.php:57 | changes the extra payload only |
| `Entities.EnchantmentItem.constructor` | app/Handlers/Admin/Items/Add/AddHandler.php:66 | the association holds the given enchantment and level, and no item yet |
| `Entities.EnchantmentItem.SetItem` | app/Handlers/Admin/Items/Add/AddHandler.php:67 | sets the back-reference to the owning item |
| `Entities.Item.AddEnchantmentItem` | app/Handlers/Admin/Items/Add/AddHandler.php:68 | appends the association at the end of the collection; the attributes stay as they were |
| `Collaborators.EnchantmentRepository.Find` | app/Handlers/Admin/Items/Add/AddHandler.php:61 | `find` returns an enchantment exactly when the id is in the repository, and then the one stored under that id |
| `ItemsAddSpec.ImagePayload` | app/Handlers/Admin/Items/Add/AddHandler.php:51 | the payload is the uploaded file when the request has one, and the image name string otherwise |
| `ItemsAddSpec.StoredName` | app/Handlers/Admin/Items/Add/AddHandler.php:104-105 | the name is the hash of the file's path, then a dot, then the client extension, each part at its position |
| `ItemsAddSpec.ResolveImage` | app/Handlers/Admin/Items/Add/AddHandler.php:81-100 | resolution succeeds exactly for `default`, `browse` with a string and `upload` with a file. It gives no image exactly for `default`, otherwise the string or the stored name. It throws UnexpectedValue exactly for an unknown mode, and never DoesNotExist |
| `ItemsAddSpec.StoredBy` | app/Handlers/Admin/Items/Add/AddHandler.php:91-93 | something is stored exactly for `upload` with a file, and what is stored is that file's stored name |
| `ItemsAddSpec.Attach` | app/Handlers/Admin/Items/Add/AddHandler.php:60-69 | on success there is one association per request; a failure is DoesNotExist for an id absent from the repository |
| `ItemsAddSpec.Requested` | app/Handlers/Admin/Items/Add/AddHandler.php:59-60 | a `Type::ITEM` item acts on all its requested enchantments, any other type on none |
| `ItemsAddSpec.Assemble` | app/Handlers/Admin/Items/Add/AddHandler.php:49-73 | a built item has the request's attributes and the resolved image, and no associations unless it is a `Type::ITEM` item. A failure is the image error, or DoesNotExist once the image has resolved |
| `ItemsAddSpec.DefaultMeansNoImage` | app/Handlers/Admin/Items/Add/AddHandler.php:83-85 | mode `default` resolves to no image whatever the payload, and stores nothing |
| `ItemsAddSpec.BrowseReturnsNameUnchanged` | app/Handlers/Admin/Items/Add/AddHandler.php:87-89 | mode `browse` returns a string payload unchanged and stores nothing. A file payload fails the `?string` return type (line 81) |
| `ItemsAddSpec.UploadStoresHashedName` | app/Handlers/Admin/Items/Add/AddHandler.php:91-93 | mode `upload` with a file resolves to exactly `hasher(path) + "." + clientExtension`, and that name is what is stored |
| `ItemsAddSpec.UploadRejectsName` | app/Handlers/Admin/Items/Add/AddHandler.php:91-96 | mode `upload` with a string payload throws InvalidArgumentType(`$fileOrName`, UploadedFile, payload) and stores nothing |
| `ItemsAddSpec.UnknownModeRejected` | app/Handlers/Admin/Items/Add/AddHandler.php:99 | any mode other than the three tags throws UnexpectedValue naming the mode, and stores nothing |
| `ItemsAddSpec.StoredIsResolvedUpload` | app/Handlers/Admin/Items/Add/AddHandler.php:83-97 | resolution writes to storage if and only if it is a successful upload; it then writes exactly the returned name, and a failed resolution writes nothing |
| `ItemsAddSpec.UploadIsIdempotent` | app/Handlers/Admin/Items/Add/AddHandler.php:102-108 | two uploads whose paths hash alike under the same extension get the same name, and the second leaves storage as the first left it |
| `ItemsAdd.RepeatedUploadStoresOnce` | app/Handlers/Admin/Items/Add/AddHandler.php:91-93 | two successive `ImageName` upload calls for files whose paths hash alike under the same extension both return the same name, and storage ends up as the first call left it |
| `ItemsAddSpec.StoredNameDeterminesHashAndExtension` | app/Handlers/Admin/Items/Add/AddHandler.php:104-105 | with a fixed-width hash, equal stored names imply equal hashes and equal extensions, so uploads with different hashes or different extensions never get the same name |
| `ItemsAddSpec.AttachSucceedsIffAllFound` | app/Handlers/Admin/Items/Add/AddHandler.php:60-69 | the enchantment loop completes if and only if every requested id is in the repository |
| `ItemsAddSpec.AttachKeepsOrder` | app/Handlers/Admin/Items/Add/AddHandler.php:60-69 | on success there is one association per request, in request order, holding the looked-up enchantment and the requested level |
| `ItemsAddSpec.AttachReportsFirstMissing` | app/Handlers/Admin/Items/Add/AddHandler.php:60-64 | when request k is the first with a missing id, the loop throws DoesNotExist carrying that id |
| `ItemsAddSpec.AttachFailsOnlyOnMissing` | app/Handlers/Admin/Items/Add/AddHandler.php:60-64 | every failure of the loop is DoesNotExist for the id of the first request whose enchantment is missing |
| `ItemsAddSpec.OtherTypesIgnoreEnchantments` | app/Handlers/Admin/Items/Add/AddHandler.php:59-70 | for a type other than `Type::ITEM` the result does not depend on the requested list, it fails only on the image, and the item has no associations |
| `ItemsAddSpec.ImageErrorComesFirst` | app/Handlers/Admin/Items/Add/AddHandler.php:51-64 | an image error is the error thrown, even when requested enchantments are missing as well |
| `ItemsAddSpec.MissingEnchantmentAborts` | app/Handlers/Admin/Items/Add/AddHandler.php:51-64 | for a regular item whose image resolves, the first missing enchantment aborts creation with DoesNotExist carrying its id |
| `ItemsAddSpec.AssembledItemFollowsRequest` | app/Handlers/Admin/Items/Add/AddHandler.php:51-69 | a built item has the request's name, type, game id, description and extra, and the resolved image. Its associations follow the acted-on requests one for one, in order |
| `ItemsAddSpec.AssembleSucceedsIffAllFound` | app/Handlers/Admin/Items/Add/AddHandler.php:59-70 | a regular item whose image resolves is created if and only if every requested enchantment exists |

## Left out

- app/Models/User/UserInterface.php: an interface of getters with no behaviour, and unconnected to item creation.
- The hashing algorithm behind `Hasher::make` is a foreign call. It is a function value here. That its digest is
  safe in a file name, and collision resistant, is not modelled: the code does not check either.
- I/O failures while hashing or moving the file are not modelled, and neither is removing the upload's temporary
  file. A storage move only adds a name.
- Persistence inside `ItemRepository::create` and `EnchantmentRepository::find` is hidden library code. It is an
  append-only log and a map lookup here, so failures of `create` are not modelled.
- The `Add` request object is a value here. Its population and validation are out of scope, and its image name is
  taken to be a string, never null.
- The `Item` and `EnchantmentItem` entity files are not part of this model. Their setters are modelled as
  assignments. A new item's description and extra start as empty strings, which the handler always overwrites.
  The string value of `Type::ITEM` is taken as `"item"`; only the equality test matters.
- Exception message formatting inside `InvalidArgumentTypeException` is not modelled. The error carries the three
  constructor arguments. UnexpectedValue carries the message the handler builds.
- The HTTP and controller layer and the Illuminate framework types are out of scope.
