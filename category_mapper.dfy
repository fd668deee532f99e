/** Conversions between categories and their request/response records. */
module CategoryMapper {
  import opened Common
  import opened Entities
  import opened Dtos

  /** `toEntity(dto, parent)`: `parent` is the id of the parent category, absent for null. */
  function ToEntity(dto: CategoryRequest, parent: Option<nat>): Category
  {
    Category(dto.name, dto.description, parent)
  }

  function ToResponseDto(id: nat, category: Category): CategoryResponse
  {
    CategoryResponse(id, category.name, category.description, category.parent)
  }

  /** `updateEntity` sets name, description and parent (possibly to null) of the managed category. */
  function UpdateEntity(existing: Category, dto: CategoryRequest, parent: Option<nat>): Category
  {
    existing.(name := dto.name, description := dto.description, parent := parent)
  }

  /** The record's parent id is null exactly for a root category, and is the parent's id otherwise. */
  lemma ResponseParentId(id: nat, category: Category)
    ensures ToResponseDto(id, category).parentCategoryId.None? <==> category.parent.None?
    ensures category.parent.Some? ==> ToResponseDto(id, category).parentCategoryId == Some(category.parent.value)
  {
  }

  /** A category built from a request carries the request's name and description and the given parent. */
  lemma NewEntityResponse(id: nat, dto: CategoryRequest, parent: Option<nat>)
    ensures ToResponseDto(id, ToEntity(dto, parent)) == CategoryResponse(id, dto.name, dto.description, parent)
  {
  }

  /** `updateEntity` overwrites every field, the parent included. */
  lemma UpdateEntityOverwritesAll(existing: Category, dto: CategoryRequest, parent: Option<nat>)
    ensures UpdateEntity(existing, dto, parent) == ToEntity(dto, parent)
  {
  }
}
