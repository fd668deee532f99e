/** `CategoryService`: the category tree. The whole class is transactional, so every
    operation either fails with the database unchanged or takes full effect. There is
    no guard against a category becoming its own parent or ancestor. */
module CategoryService {
  import opened Common
  import opened Entities
  import opened Dtos
  import opened Store
  import CategoryMapper

  /** `existsByName`. */
  predicate NameTaken(categories: map<nat, Category>, name: string)
  {
    exists id :: id in categories && categories[id].name == name
  }

  /** `existsByNameAndIdNot`. */
  predicate NameTakenByOther(categories: map<nat, Category>, name: string, id: nat)
  {
    exists k :: k in categories && k != id && categories[k].name == name
  }

  function NameConflict(name: string): Failure
  {
    Business("category with the name " + name + " Already exists", CONFLICT)
  }

  function NoParent(parentId: nat): Failure
  {
    Business("No Parent Category found with the id " + NatToString(parentId), NOT_FOUND)
  }

  function NotFound(id: nat): Failure
  {
    Business("No  Category found with the id " + NatToString(id), NOT_FOUND)
  }

  /** The parent lookup both create and update perform: none when no parent id is given. */
  function FindParent(categories: map<nat, Category>, parentId: Option<nat>): (r: Result<Option<nat>>)
    ensures r.Ok? <==> parentId.None? || parentId.value in categories
    ensures r.Ok? ==> r.value == parentId
    ensures r.Err? ==> r.failure == NoParent(parentId.value)
  {
    match parentId
    case None => Ok(None)
    case Some(pid) => if pid in categories then Ok(Some(pid)) else Err(NoParent(pid))
  }

  /** `createCategory`: the name is checked before the parent is looked up. */
  method CreateCategory(db: Db, request: CategoryRequest) returns (r: Result<CategoryResponse>)
    requires db.Valid()
    modifies db
    ensures db.Valid()
    ensures r.Err? ==> db.Snapshot() == old(db.Snapshot())
    ensures NameTaken(old(db.categories), request.name) ==> r == Err(NameConflict(request.name))
    ensures !NameTaken(old(db.categories), request.name) && request.parentCategoryId.Some? &&
            request.parentCategoryId.value !in old(db.categories) ==>
      r == Err(NoParent(request.parentCategoryId.value))
    ensures r.Ok? <==>
      !NameTaken(old(db.categories), request.name) &&
      (request.parentCategoryId.None? || request.parentCategoryId.value in old(db.categories))
    ensures r.Ok? ==>
      r.value == CategoryResponse(old(db.nextId), request.name, request.description, request.parentCategoryId) &&
      db.Snapshot() == old(db.Snapshot()).(
        categories := old(db.categories)[old(db.nextId) := Category(request.name, request.description, request.parentCategoryId)],
        nextId := old(db.nextId) + 1)
  {
    if NameTaken(db.categories, request.name) {
      return Err(NameConflict(request.name));
    }
    var parent := FindParent(db.categories, request.parentCategoryId);
    if parent.Err? {
      return Err(parent.failure);
    }
    var category := CategoryMapper.ToEntity(request, parent.value);
    var id := db.nextId;
    db.categories := db.categories[id := category];
    db.nextId := db.nextId + 1;
    r := Ok(CategoryMapper.ToResponseDto(id, category));
  }

  /** `getCategory`, which the link service calls. */
  function GetCategory(categories: map<nat, Category>, id: nat): (r: Result<Category>)
    ensures r.Ok? <==> id in categories
    ensures r.Ok? ==> r.value == categories[id]
    ensures r.Err? ==> r.failure == NotFound(id)
  {
    if id in categories then Ok(categories[id]) else Err(NotFound(id))
  }

  /** `findById`. */
  function FindById(categories: map<nat, Category>, id: nat): (r: Result<CategoryResponse>)
    ensures r.Ok? <==> id in categories
    ensures r.Ok? ==>
      r.value == CategoryResponse(id, categories[id].name, categories[id].description, categories[id].parent)
    ensures r.Err? ==> r.failure == NotFound(id)
  {
    match GetCategory(categories, id)
    case Ok(c) => Ok(CategoryMapper.ToResponseDto(id, c))
    case Err(f) => Err(f)
  }

  /** The failure of an unknown category on update: its message names the requested
      parent id, not the category's own id, and reads "null" when no parent is given. */
  function UpdateNotFound(request: CategoryRequest): Failure
  {
    Business("No Category found with the id " + JavaId(request.parentCategoryId), NOT_FOUND)
  }

  /** `updateCategory`: the category is looked up, then the name is checked against the
      other categories, then the parent is looked up; the stored category is
      overwritten in place. */
  method UpdateCategory(db: Db, id: nat, request: CategoryRequest) returns (r: Result<CategoryResponse>)
    requires db.Valid()
    modifies db
    ensures db.Valid()
    ensures r.Err? ==> db.Snapshot() == old(db.Snapshot())
    ensures id !in old(db.categories) ==> r == Err(UpdateNotFound(request))
    ensures id in old(db.categories) && NameTakenByOther(old(db.categories), request.name, id) ==>
      r == Err(NameConflict(request.name))
    ensures id in old(db.categories) && !NameTakenByOther(old(db.categories), request.name, id) &&
            request.parentCategoryId.Some? && request.parentCategoryId.value !in old(db.categories) ==>
      r == Err(NoParent(request.parentCategoryId.value))
    ensures r.Ok? <==>
      id in old(db.categories) && !NameTakenByOther(old(db.categories), request.name, id) &&
      (request.parentCategoryId.None? || request.parentCategoryId.value in old(db.categories))
    ensures r.Ok? ==>
      r.value == CategoryResponse(id, request.name, request.description, request.parentCategoryId) &&
      db.Snapshot() == old(db.Snapshot()).(
        categories := old(db.categories)[id := Category(request.name, request.description, request.parentCategoryId)])
    // No cycle guard: a category may be made its own parent.
    ensures id in old(db.categories) && !NameTakenByOther(old(db.categories), request.name, id) &&
            request.parentCategoryId == Some(id) ==>
      r.Ok? && db.categories[id].parent == Some(id)
  {
    if id !in db.categories {
      return Err(UpdateNotFound(request));
    }
    var existing := db.categories[id];
    if NameTakenByOther(db.categories, request.name, id) {
      return Err(NameConflict(request.name));
    }
    var parent := FindParent(db.categories, request.parentCategoryId);
    if parent.Err? {
      return Err(parent.failure);
    }
    var updated := CategoryMapper.UpdateEntity(existing, request, parent.value);
    db.categories := db.categories[id := updated];
    r := Ok(CategoryMapper.ToResponseDto(id, updated));
  }

  /** A row still pointing at the category: a product link or another category that
      has it as parent. The database's foreign keys refuse the delete while one exists. */
  predicate Referenced(s: State, id: nat)
  {
    (exists k :: k in s.productCategories && s.productCategories[k].categoryId == id) ||
    (exists k :: k in s.categories && k != id && s.categories[k].parent == Some(id))
  }

  /** `deleteCategory`: removes exactly that category. */
  method DeleteCategory(db: Db, id: nat) returns (r: Outcome)
    requires db.Valid()
    modifies db
    ensures db.Valid()
    ensures id !in old(db.categories) ==>
      r == Fail(Business("No category found with the id " + NatToString(id), NOT_FOUND)) &&
      db.Snapshot() == old(db.Snapshot())
    ensures id in old(db.categories) && Referenced(old(db.Snapshot()), id) ==>
      r == Fail(IntegrityViolation) && db.Snapshot() == old(db.Snapshot())
    ensures id in old(db.categories) && !Referenced(old(db.Snapshot()), id) ==>
      r == Pass && db.Snapshot() == old(db.Snapshot()).(categories := old(db.categories) - {id})
  {
    if id !in db.categories {
      return Fail(Business("No category found with the id " + NatToString(id), NOT_FOUND));
    }
    if Referenced(db.Snapshot(), id) {
      return Fail(IntegrityViolation);
    }
    db.categories := db.categories - {id};
    r := Pass;
  }

  /** A name that create refuses is one update also refuses for every other category,
      and the name a category already has never blocks its own update. */
  lemma NameChecksAgree(categories: map<nat, Category>, name: string, id: nat)
    ensures NameTakenByOther(categories, name, id) ==> NameTaken(categories, name)
    ensures id in categories && categories[id].name == name && UniqueCategoryNames(categories) ==>
      !NameTakenByOther(categories, name, id)
  {
  }
}
