/** The user's expense categories: added, renamed or recoloured, and deleted by id. */
module Categories {
  import opened Wrappers
  import opened Lists

  datatype UserCategory = UserCategory(id: string, name: string, color: string, isDefault: bool)

  /** The colour of a category added without one. */
  const DefaultColor := "#22c55e"

  function CategoryId(c: UserCategory): string { c.id }

  /** `Partial<Pick<UserCategory, "name" | "color">>`: `None` is a field the update does not carry. */
  datatype CategoryPatch = CategoryPatch(name: Option<string>, color: Option<string>)

  /** `{ ...c, ...data }` */
  function PatchCategory(data: CategoryPatch): UserCategory -> UserCategory {
    (c: UserCategory) => c.(name := data.name.GetOr(c.name), color := data.color.GetOr(c.color))
  }

  /** `color || "#22c55e"`: a missing or empty colour is the default one. */
  function ColorOrDefault(color: Option<string>): (r: string)
    ensures r != []
  {
    if color.Some? && color.value != [] then color.value else DefaultColor
  }

  /**
   * `updateCategory` keeps the length, every id and every `isDefault`,
   * leaves the other categories alone, gives the matching ones the
   * carried name and colour, and is idempotent.
   */
  lemma UpdateCategorySpec(cs: seq<UserCategory>, id: string, data: CategoryPatch)
    ensures var r := UpdateId(cs, CategoryId, id, PatchCategory(data));
      |r| == |cs|
      && (forall k | 0 <= k < |cs| :: r[k].id == cs[k].id && r[k].isDefault == cs[k].isDefault)
      && (forall k | 0 <= k < |cs| :: cs[k].id != id ==> r[k] == cs[k])
      && (forall k | 0 <= k < |cs| :: cs[k].id == id ==>
            r[k].name == data.name.GetOr(cs[k].name) && r[k].color == data.color.GetOr(cs[k].color))
      && UpdateId(r, CategoryId, id, PatchCategory(data)) == r
  {
    UpdateIdSpec(cs, CategoryId, id, PatchCategory(data));
  }

  /** `deleteCategory` keeps exactly the categories of another id, and nothing changes without a match. */
  lemma DeleteCategorySpec(cs: seq<UserCategory>, id: string)
    ensures forall c :: c in WithoutId(cs, CategoryId, id) <==> c in cs && c.id != id
    ensures (forall k | 0 <= k < |cs| :: cs[k].id != id) ==> WithoutId(cs, CategoryId, id) == cs
  {
    WithoutIdSpec(cs, CategoryId, id);
  }

  class CategoryStore {
    var categories: seq<UserCategory>

    /** The store over the categories it was loaded with. */
    constructor (loaded: seq<UserCategory>)
      ensures categories == loaded
    {
      categories := loaded;
    }

    /** `addCategory(name, color)`: one user category more, at the end. */
    method AddCategory(name: string, color: Option<string>, id: string)
      modifies this
      ensures categories == old(categories) + [UserCategory(id, name, ColorOrDefault(color), false)]
    {
      categories := categories + [UserCategory(id, name, ColorOrDefault(color), false)];
    }

    /** `deleteCategory(id)` */
    method DeleteCategory(id: string)
      modifies this
      ensures categories == WithoutId(old(categories), CategoryId, id)
    {
      categories := WithoutId(categories, CategoryId, id);
    }

    /** `updateCategory(id, data)` */
    method UpdateCategory(id: string, data: CategoryPatch)
      modifies this
      ensures categories == UpdateId(old(categories), CategoryId, id, PatchCategory(data))
    {
      categories := UpdateId(categories, CategoryId, id, PatchCategory(data));
    }
  }
}
