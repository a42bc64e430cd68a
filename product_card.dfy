/** The catalog card of src/components/products/product-card.tsx: the link slug and the option pre-selection. */
module ProductCard {
  import opened Wrappers
  import opened CatalogTypes
  import Text
  import AddToCartButton

  /** `replace(/\s+/g, "-")`: every maximal run of white space becomes one `-`. */
  function Dashes(s: string): string
    decreases |s|
  {
    if s == [] then []
    else if Text.IsSpace(s[0]) then "-" + Dashes(Text.TrimStart(s[1..]))
    else [s[0]] + Dashes(s[1..])
  }

  /** Line 13 before `encodeURIComponent`, which is not part of this model. */
  function Slug(name: string): string {
    Dashes(Text.Lower(name))
  }

  predicate NoSpace(s: string) {
    forall i :: 0 <= i < |s| ==> !Text.IsSpace(s[i])
  }

  lemma {:induction false} DashesNoSpace(s: string)
    ensures NoSpace(Dashes(s))
    decreases |s|
  {
    if s != [] {
      if Text.IsSpace(s[0]) {
        DashesNoSpace(Text.TrimStart(s[1..]));
      } else {
        DashesNoSpace(s[1..]);
      }
    }
  }

  lemma {:induction false} DashesOfNoSpace(s: string)
    requires NoSpace(s)
    ensures Dashes(s) == s
    decreases |s|
  {
    if s != [] {
      DashesOfNoSpace(s[1..]);
    }
  }

  /** Lower-casing only changes ASCII letters, so it keeps white space where it was. */
  lemma LowerKeepsSpaces(s: string)
    ensures |Text.Lower(s)| == |s|
    ensures forall i :: 0 <= i < |s| ==> (Text.IsSpace(Text.Lower(s)[i]) <==> Text.IsSpace(s[i]))
  {
  }

  /** The slug contains no white space. */
  lemma SlugNoSpace(name: string)
    ensures NoSpace(Slug(name))
  {
    DashesNoSpace(Text.Lower(name));
  }

  /** A name without white space gives its lower-cased self. */
  lemma SlugOfSpacelessName(name: string)
    requires NoSpace(name)
    ensures Slug(name) == Text.Lower(name)
  {
    LowerKeepsSpaces(name);
    DashesOfNoSpace(Text.Lower(name));
  }

  lemma {:induction false} TrimStartAppend(a: string, b: string)
    requires a != [] && !Text.IsSpace(a[|a| - 1])
    ensures Text.TrimStart(a + b) == Text.TrimStart(a) + b
    ensures Text.TrimStart(a) != [] && !Text.IsSpace(Text.TrimStart(a)[|Text.TrimStart(a)| - 1])
    ensures |Text.TrimStart(a)| <= |a|
    decreases |a|
  {
    if Text.IsSpace(a[0]) {
      assert (a + b)[1..] == a[1..] + b;
      TrimStartAppend(a[1..], b);
    }
  }

  lemma DashesCons(c: char, rest: string)
    ensures Text.IsSpace(c) ==> Dashes([c] + rest) == "-" + Dashes(Text.TrimStart(rest))
    ensures !Text.IsSpace(c) ==> Dashes([c] + rest) == [c] + Dashes(rest)
  {
    assert ([c] + rest)[0] == c;
    assert ([c] + rest)[1..] == rest;
  }

  /** Text that ends in a non-space is dashed on its own. */
  lemma {:induction false} DashesAppend(a: string, b: string)
    requires a == [] || !Text.IsSpace(a[|a| - 1])
    ensures Dashes(a + b) == Dashes(a) + Dashes(b)
    decreases |a|
  {
    if a == [] {
      assert a + b == b;
    } else {
      var c, rest := a[0], a[1..];
      assert a == [c] + rest;
      assert a + b == [c] + (rest + b);
      DashesCons(c, rest);
      DashesCons(c, rest + b);
      if Text.IsSpace(c) {
        TrimStartAppend(rest, b);
        DashesAppend(Text.TrimStart(rest), b);
      } else {
        DashesAppend(rest, b);
      }
    }
  }

  lemma {:induction false} TrimSpaces(w: string, b: string)
    requires forall i :: 0 <= i < |w| ==> Text.IsSpace(w[i])
    requires b == [] || !Text.IsSpace(b[0])
    ensures Text.TrimStart(w + b) == b
    decreases |w|
  {
    if w == [] {
      assert w + b == b;
    } else {
      assert (w + b)[1..] == w[1..] + b;
      TrimSpaces(w[1..], b);
    }
  }

  lemma DashesRun(w: string, b: string)
    requires w != [] && forall i :: 0 <= i < |w| ==> Text.IsSpace(w[i])
    requires b == [] || !Text.IsSpace(b[0])
    ensures Dashes(w + b) == "-" + Dashes(b)
  {
    var wb := w + b;
    assert Text.IsSpace(wb[0]);
    assert wb[1..] == w[1..] + b;
    TrimSpaces(w[1..], b);
  }

  /** A maximal run of white space between two other pieces of text becomes exactly one `-`. */
  lemma RunBecomesDash(a: string, w: string, b: string)
    requires a == [] || !Text.IsSpace(a[|a| - 1])
    requires w != [] && forall i :: 0 <= i < |w| ==> Text.IsSpace(w[i])
    requires b == [] || !Text.IsSpace(b[0])
    ensures Dashes(a + (w + b)) == Dashes(a) + ("-" + Dashes(b))
  {
    DashesRun(w, b);
    DashesAppend(a, w + b);
  }

  /** Lines 15-22: a single option is chosen for the shopper; otherwise the choice stays. */
  function AutoSelected(options: seq<string>, current: Option<string>): Option<string> {
    if |options| == 1 then Some(options[0]) else current
  }

  /** The card's option state (lines 11-12). */
  class ProductCardState {
    const product: Product
    var selectedSize: Option<string>
    var selectedColor: Option<string>

    constructor (product: Product)
      ensures this.product == product && selectedSize == None && selectedColor == None
    {
      this.product := product;
      selectedSize := None;
      selectedColor := None;
    }

    /** Lines 15-22: the effect that runs when the product is shown. */
    method SelectEffect()
      modifies this
      ensures selectedSize == AutoSelected(product.sizes, old(selectedSize))
      ensures selectedColor == AutoSelected(product.colors, old(selectedColor))
    {
      if |product.sizes| == 1 {
        selectedSize := Some(product.sizes[0]);
      }
      if |product.colors| == 1 {
        selectedColor := Some(product.colors[0]);
      }
    }
  }

  /**
   * Running the effect again (React re-runs it when the product changes to the same
   * one) changes nothing, and a choice the shopper made survives it unless the
   * product has exactly one option.
   */
  lemma AutoSelectedStable(options: seq<string>, current: Option<string>)
    ensures AutoSelected(options, AutoSelected(options, current)) == AutoSelected(options, current)
    ensures AutoSelected(options, current).Some? <==> |options| == 1 || current.Some?
    ensures |options| == 1 ==> AutoSelected(options, current).value in options
  {
  }

  /**
   * On a fresh card the add button is enabled exactly when the product has one
   * size and one color, both non-empty.
   */
  lemma FreshCardButton(p: Product)
    ensures !AddToCartButton.Disabled(AutoSelected(p.sizes, None), AutoSelected(p.colors, None)) <==>
      |p.sizes| == 1 && |p.colors| == 1 && p.sizes[0] != "" && p.colors[0] != ""
  {
  }
}
