/** `ProductImageService`: checking an upload, naming the stored file, and listing a
    product's images. Writing the file and inserting the image row are left out. */
module ProductImageService {
  import opened Common
  import opened Entities
  import opened Dtos
  import ProductService

  /** The limit on an upload: 5 MB. */
  const MaxFileSize: nat := 5 * 1024 * 1024

  /** What the service reads from the multipart upload. */
  datatype Upload = Upload(contentType: string, size: nat, originalFilename: Option<string>)

  /** Where the upload goes: the stored file name and its path under the upload directory. */
  datatype ImageTarget = ImageTarget(fileName: string, filePath: string)

  const WrongType := IllegalArgument("Only JPEG or PNG images are allowed")

  /** The size failure reports the size in whole megabytes, rounded down. */
  function TooLarge(size: nat): Failure
  {
    IllegalArgument("File size exceeds maximum allowed size of 5MB. Current size: " + NatToString(size / (1024 * 1024)) + "MB")
  }

  predicate AcceptedType(contentType: string)
  {
    contentType == "image/jpeg" || contentType == "image/png"
  }

  /** The validation at the head of `saveImage`: the type first, then the size. */
  function Validate(file: Upload): (r: Outcome)
    ensures r.Pass? <==> AcceptedType(file.contentType) && file.size <= MaxFileSize
    ensures !AcceptedType(file.contentType) ==> r == Fail(WrongType)
    ensures AcceptedType(file.contentType) && file.size > MaxFileSize ==> r == Fail(TooLarge(file.size))
  {
    if !AcceptedType(file.contentType) then Fail(WrongType)
    else if file.size > MaxFileSize then Fail(TooLarge(file.size))
    else Pass
  }

  /** `saveImage` up to the disk write: validation, then the product lookup, then the
      file name (a fresh unique id, "_", the original file name) and its path. */
  function PrepareImage(products: map<nat, Product>, productId: nat, file: Upload, uuid: string, uploadDir: string, separator: string)
    : (r: Result<ImageTarget>)
    ensures Validate(file).Fail? ==> r == Err(Validate(file).failure)
    ensures Validate(file).Pass? && productId !in products ==> r == Err(ProductService.GetProduct(products, productId).failure)
    ensures r.Ok? <==> Validate(file).Pass? && productId in products
    ensures r.Ok? ==>
      r.value.fileName == uuid + "_" + JavaString(file.originalFilename) &&
      r.value.filePath == uploadDir + separator + r.value.fileName
  {
    match Validate(file)
    case Fail(f) => Err(f)
    case Pass =>
      match ProductService.GetProduct(products, productId)
      case Err(f) => Err(f)
      case Ok(_) =>
        var fileName := uuid + "_" + JavaString(file.originalFilename);
        Ok(ImageTarget(fileName, uploadDir + separator + fileName))
  }

  /** The limit is inclusive: exactly 5 MB passes, one byte more fails and is reported as 5 MB. */
  lemma SizeLimitInclusive(contentType: string, name: Option<string>)
    requires AcceptedType(contentType)
    ensures Validate(Upload(contentType, MaxFileSize, name)) == Pass
    ensures Validate(Upload(contentType, MaxFileSize + 1, name)) == Fail(TooLarge(MaxFileSize + 1))
    ensures TooLarge(MaxFileSize + 1) ==
      IllegalArgument("File size exceeds maximum allowed size of 5MB. Current size: 5MB")
  {
    assert (MaxFileSize + 1) / (1024 * 1024) == 5;
    assert NatToString(5) == "5";
  }

  /** The stored name ends with the original file name and the path ends with the stored
      name, so distinct unique ids of the same length give distinct paths. */
  lemma TargetNamesTheUpload(products: map<nat, Product>, productId: nat, file: Upload, uuid: string, uploadDir: string, separator: string)
    requires PrepareImage(products, productId, file, uuid, uploadDir, separator).Ok?
    ensures var t := PrepareImage(products, productId, file, uuid, uploadDir, separator).value;
      t.fileName[..|uuid|] == uuid && t.fileName[|uuid| + 1..] == JavaString(file.originalFilename) &&
      t.filePath[|uploadDir| + |separator|..] == t.fileName
  {
  }

  /** `getAllProductImages`: the images of exactly that product, keyed by id; the product
      itself is not looked up, so an unknown product simply has none. */
  function GetAllProductImages(images: map<nat, ProductImage>, productId: nat): (r: map<nat, ProductImageResponse>)
    ensures forall id :: id in r <==> id in images && images[id].productId == productId
    ensures forall id :: id in r ==>
      r[id] == ProductImageResponse(id, images[id].imageName, images[id].imgType, productId)
  {
    map id | id in images && images[id].productId == productId ::
      ProductImageResponse(id, images[id].imageName, images[id].imgType, images[id].productId)
  }
}
