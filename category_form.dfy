/** The administrator's category editor, src/components/admin/CategoryForm.tsx. */
module CategoryForm {
  import opened Wrappers
  import opened CatalogTypes
  import Seqs

  /** The inputs wired to `handleChange` (lines 66 and 71). */
  datatype CategoryField = CategoryId | CategoryName

  /** The per-subcategory inputs (lines 80 and 85). */
  datatype SubcategoryField = SubcategoryId | SubcategoryName

  /** Lines 30-33: only the named top-level field changes. */
  function Change(c: Category, field: CategoryField, value: string): (r: Category)
    ensures field.CategoryId? ==> r.id == value && r.name == c.name
    ensures field.CategoryName? ==> r.name == value && r.id == c.id
    ensures r.image == c.image && r.subcategories == c.subcategories
  {
    match field
    case CategoryId => c.(id := value)
    case CategoryName => c.(name := value)
  }

  function SetField(s: Subcategory, field: SubcategoryField, value: string): Subcategory {
    match field
    case SubcategoryId => s.(id := value)
    case SubcategoryName => s.(name := value)
  }

  /** Lines 35-39: entry `index` gets the field; the length and every other entry stay. */
  function SubcategoryChange(subcategories: seq<Subcategory>, index: nat, field: SubcategoryField, value: string): (r: seq<Subcategory>)
    requires index < |subcategories|
    ensures |r| == |subcategories|
    ensures forall j :: 0 <= j < |r| && j != index ==> r[j] == subcategories[j]
    ensures field.SubcategoryId? ==> r[index] == subcategories[index].(id := value)
    ensures field.SubcategoryName? ==> r[index] == subcategories[index].(name := value)
  {
    subcategories[index := SetField(subcategories[index], field, value)]
  }

  /** Lines 41-46: a blank entry whose `categoryId` is the form's id at that moment. */
  function WithNewSubcategory(c: Category): (r: Category)
    ensures |r.subcategories| == |c.subcategories| + 1
    ensures r.subcategories[..|c.subcategories|] == c.subcategories
    ensures r.subcategories[|c.subcategories|] == Subcategory("", "", c.id, [])
    ensures r.(subcategories := c.subcategories) == c
  {
    c.(subcategories := c.subcategories + [Subcategory("", "", c.id, [])])
  }

  /**
   * Lines 48-53: `filter((_, i) => i !== index)` drops exactly position `index`,
   * and nothing when no entry stands there.
   */
  function WithoutSubcategory(c: Category, index: nat): (r: Category)
    ensures index < |c.subcategories| ==> r.subcategories == Seqs.RemoveAt(c.subcategories, index)
    ensures index >= |c.subcategories| ==> r == c
    ensures r.(subcategories := c.subcategories) == c
  {
    if index < |c.subcategories| then c.(subcategories := Seqs.RemoveAt(c.subcategories, index)) else c
  }

  /** Adding an entry and removing it again restores the form. */
  lemma AddThenRemove(c: Category)
    ensures WithoutSubcategory(WithNewSubcategory(c), |c.subcategories|) == c
  {
    assert WithNewSubcategory(c).subcategories[..|c.subcategories|] == c.subcategories;
  }

  /** An entry keeps the category id of the moment it was added, even when the id is edited later. */
  lemma AddedEntryKeepsOldId(c: Category, id: string)
    requires id != c.id
    ensures var r := Change(WithNewSubcategory(c), CategoryId, id);
      r.id == id && r.subcategories[|c.subcategories|].categoryId == c.id
  {
  }

  /** The form's state (line 18). The form starts without an image: `""`. */
  class CategoryFormState {
    var formData: Category

    /** Lines 18-28: an edited category fills the form, otherwise it starts empty. */
    constructor (category: Option<Category>)
      ensures formData == category.GetOr(Category("", "", "", []))
    {
      formData := category.GetOr(Category("", "", "", []));
    }

    method HandleChange(field: CategoryField, value: string)
      modifies this
      ensures formData == Change(old(formData), field, value)
    {
      formData := Change(formData, field, value);
    }

    /** Lines 35-39: a copy of the list with entry `index` replaced. */
    method HandleSubcategoryChange(index: nat, field: SubcategoryField, value: string)
      requires index < |formData.subcategories|
      modifies this
      ensures formData == old(formData).(subcategories := SubcategoryChange(old(formData.subcategories), index, field, value))
    {
      var updated := formData.subcategories;
      updated := updated[index := SetField(updated[index], field, value)];
      formData := formData.(subcategories := updated);
    }

    method AddSubcategory()
      modifies this
      ensures formData == WithNewSubcategory(old(formData))
    {
      formData := WithNewSubcategory(formData);
    }

    method RemoveSubcategory(index: nat)
      modifies this
      ensures formData == WithoutSubcategory(old(formData), index)
    {
      formData := WithoutSubcategory(formData, index);
    }
  }
}
