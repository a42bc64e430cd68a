/**
 * The administrator's product editor, src/components/admin/ProductForm.tsx:
 * the de-duplicating size, color and image lists, the specification editor
 * and the category selects.
 */
module ProductForm {
  import opened Wrappers
  import opened CatalogTypes
  import Seqs

  /** Lines 108-109: a non-empty value not yet listed is appended; otherwise nothing changes. */
  function Include(xs: seq<string>, x: string): (r: seq<string>)
    ensures forall y :: y in r <==> y in xs || (y == x && x != "")
    ensures |r| == |xs| + (if x != "" && x !in xs then 1 else 0)
    ensures r[..|xs|] == xs
    ensures Seqs.Distinct(xs) ==> Seqs.Distinct(r)
  {
    if x != "" && x !in xs then xs + [x] else xs
  }

  function OtherThan(x: string): string -> bool {
    (y: string) => y != x
  }

  /** Line 115: `filter((s) => s !== size)`. */
  function Exclude(xs: seq<string>, x: string): seq<string> {
    Seqs.Filter(xs, OtherThan(x))
  }

  /** Removal deletes every occurrence of the value and keeps the rest in order. */
  lemma ExcludeEffect(xs: seq<string>, x: string, y: string) returns (idx: seq<nat>)
    ensures y in Exclude(xs, x) <==> y in xs && y != x
    ensures Seqs.Embeds(Exclude(xs, x), xs, idx)
    ensures Seqs.Distinct(xs) ==> Seqs.Distinct(Exclude(xs, x))
  {
    Seqs.FilterMember(xs, OtherThan(x), y);
    idx := Seqs.FilterIsSubsequence(xs, OtherThan(x));
    if Seqs.Distinct(xs) {
      Seqs.FilterKeepsDistinct(xs, OtherThan(x));
    }
  }

  /** Removing a value that is not listed changes nothing. */
  lemma ExcludeAbsent(xs: seq<string>, x: string)
    requires x !in xs
    ensures Exclude(xs, x) == xs
  {
    Seqs.FilterKeepsAll(xs, OtherThan(x));
  }

  /** Adding a value and removing it again gives back the list without it. */
  lemma IncludeThenExclude(xs: seq<string>, x: string)
    ensures Exclude(Include(xs, x), x) == Exclude(xs, x)
  {
    if x != "" && x !in xs {
      Seqs.FilterAppend(xs, [x], OtherThan(x));
      assert Seqs.Filter([x], OtherThan(x)) == [] by {
        assert [x][..0] == [];
      }
    }
  }

  /** Lines 91-95: both the name and the value must be non-empty; the key is set or overwritten. */
  function SetAttribute(specifications: map<string, string>, name: string, value: string): (r: map<string, string>)
    ensures name != "" && value != "" ==> name in r && r[name] == value && r.Keys == specifications.Keys + {name}
    ensures name == "" || value == "" ==> r == specifications
    ensures forall k :: k in specifications && k != name ==> k in r && r[k] == specifications[k]
  {
    if name != "" && value != "" then specifications[name := value] else specifications
  }

  /** Lines 100-104: exactly that key is deleted. */
  function DropAttribute(specifications: map<string, string>, name: string): (r: map<string, string>)
    ensures name !in r
    ensures forall k :: k != name ==> (k in r <==> k in specifications)
    ensures forall k :: k in r ==> r[k] == specifications[k]
  {
    specifications - {name}
  }

  /** Setting a new attribute and removing it again restores the specifications. */
  lemma SetThenRemove(specifications: map<string, string>, name: string, value: string)
    requires name !in specifications
    ensures DropAttribute(SetAttribute(specifications, name, value), name) == specifications
  {
  }

  datatype SelectField = CategorySelect | SubcategorySelect

  /** Lines 73-78: a new category clears the subcategory; a new subcategory changes only itself. */
  function SelectChange(p: Product, field: SelectField, value: string): (r: Product)
    ensures field.CategorySelect? ==> r.category == value && r.subcategory == ""
    ensures field.SubcategorySelect? ==> r.subcategory == value && r.category == p.category
    ensures r.(category := p.category, subcategory := p.subcategory) == p
  {
    match field
    case CategorySelect => p.(category := value, subcategory := "")
    case SubcategorySelect => p.(subcategory := value)
  }

  /** The text inputs wired to `handleChange` (lines 68-71). */
  datatype TextField = IdInput | NameInput | BrandInput | DescriptionInput

  /** Lines 68-71: the input's own field takes the value and every other field is kept. */
  function TextChange(p: Product, field: TextField, value: string): (r: Product)
    ensures r.id == (if field.IdInput? then value else p.id)
    ensures r.name == (if field.NameInput? then value else p.name)
    ensures r.brand == (if field.BrandInput? then value else p.brand)
    ensures r.description == (if field.DescriptionInput? then value else p.description)
    ensures r.(id := p.id, name := p.name, brand := p.brand, description := p.description) == p
  {
    match field
    case IdInput => p.(id := value)
    case NameInput => p.(name := value)
    case BrandInput => p.(brand := value)
    case DescriptionInput => p.(description := value)
  }

  /** Typing into the same input twice keeps only the last text; two different inputs commute. */
  lemma TextChangeLastWins(p: Product, field: TextField, other: TextField, a: string, b: string)
    ensures TextChange(TextChange(p, field, a), field, b) == TextChange(p, field, b)
    ensures field != other ==>
      TextChange(TextChange(p, field, a), other, b) == TextChange(TextChange(p, other, b), field, a)
  {
  }

  const EmptyProduct := Product("", "", "", 0, "", [], [], "", "", map[], [])

  /** The form's state (lines 20-38). */
  class ProductFormState {
    var formData: Product
    var newAttributeName: string
    var newAttributeValue: string
    var newSize: string
    var newColor: string
    var newImage: string

    /** Lines 20-45: an edited product fills the form, otherwise it starts empty. */
    constructor (product: Option<Product>)
      ensures formData == product.GetOr(EmptyProduct)
      ensures newAttributeName == "" && newAttributeValue == ""
      ensures newSize == "" && newColor == "" && newImage == ""
    {
      formData := product.GetOr(EmptyProduct);
      newAttributeName, newAttributeValue := "", "";
      newSize, newColor, newImage := "", "", "";
    }

    method HandleChange(field: TextField, value: string)
      modifies this
      ensures formData == TextChange(old(formData), field, value)
      ensures unchanged(this`newAttributeName, this`newAttributeValue, this`newSize, this`newColor, this`newImage)
    {
      formData := TextChange(formData, field, value);
    }

    method HandleSelectChange(field: SelectField, value: string)
      modifies this
      ensures formData == SelectChange(old(formData), field, value)
      ensures unchanged(this`newAttributeName, this`newAttributeValue, this`newSize, this`newColor, this`newImage)
    {
      formData := SelectChange(formData, field, value);
    }

    /** Lines 85-88: the attribute name and value being typed. */
    method HandleAttributeChange(isName: bool, value: string)
      modifies this`newAttributeName, this`newAttributeValue
      ensures isName ==> newAttributeName == value && newAttributeValue == old(newAttributeValue)
      ensures !isName ==> newAttributeValue == value && newAttributeName == old(newAttributeName)
    {
      if isName {
        newAttributeName := value;
      } else {
        newAttributeValue := value;
      }
    }

    /** Lines 90-98: on success the drafts are cleared. */
    method AddAttribute()
      modifies this`formData, this`newAttributeName, this`newAttributeValue
      ensures formData == old(formData).(specifications := SetAttribute(old(formData.specifications), old(newAttributeName), old(newAttributeValue)))
      ensures old(newAttributeName) != "" && old(newAttributeValue) != "" ==> newAttributeName == "" && newAttributeValue == ""
      ensures old(newAttributeName) == "" || old(newAttributeValue) == "" ==>
        newAttributeName == old(newAttributeName) && newAttributeValue == old(newAttributeValue)
    {
      if newAttributeName != "" && newAttributeValue != "" {
        formData := formData.(specifications := SetAttribute(formData.specifications, newAttributeName, newAttributeValue));
        newAttributeName, newAttributeValue := "", "";
      }
    }

    method RemoveAttribute(name: string)
      modifies this`formData
      ensures formData == old(formData).(specifications := DropAttribute(old(formData.specifications), name))
    {
      formData := formData.(specifications := DropAttribute(formData.specifications, name));
    }

    /** Lines 107-112. */
    method AddSize()
      modifies this`formData, this`newSize
      ensures formData == old(formData).(sizes := Include(old(formData.sizes), old(newSize)))
      ensures newSize == (if old(newSize) != "" && old(newSize) !in old(formData.sizes) then "" else old(newSize))
    {
      if newSize != "" && newSize !in formData.sizes {
        formData := formData.(sizes := Include(formData.sizes, newSize));
        newSize := "";
      }
    }

    /** Lines 114-116. */
    method RemoveSize(size: string)
      modifies this`formData
      ensures formData == old(formData).(sizes := Exclude(old(formData.sizes), size))
    {
      formData := formData.(sizes := Exclude(formData.sizes, size));
    }

    /** Lines 118-123. */
    method AddColor()
      modifies this`formData, this`newColor
      ensures formData == old(formData).(colors := Include(old(formData.colors), old(newColor)))
      ensures newColor == (if old(newColor) != "" && old(newColor) !in old(formData.colors) then "" else old(newColor))
    {
      if newColor != "" && newColor !in formData.colors {
        formData := formData.(colors := Include(formData.colors, newColor));
        newColor := "";
      }
    }

    /** Lines 125-127. */
    method RemoveColor(color: string)
      modifies this`formData
      ensures formData == old(formData).(colors := Exclude(old(formData.colors), color))
    {
      formData := formData.(colors := Exclude(formData.colors, color));
    }

    /** Lines 129-134. */
    method AddImage()
      modifies this`formData, this`newImage
      ensures formData == old(formData).(images := Include(old(formData.images), old(newImage)))
      ensures newImage == (if old(newImage) != "" && old(newImage) !in old(formData.images) then "" else old(newImage))
    {
      if newImage != "" && newImage !in formData.images {
        formData := formData.(images := Include(formData.images, newImage));
        newImage := "";
      }
    }

    /** Lines 136-138. */
    method RemoveImage(image: string)
      modifies this`formData
      ensures formData == old(formData).(images := Exclude(old(formData.images), image))
    {
      formData := formData.(images := Exclude(formData.images, image));
    }
  }
}
