/** The country menu that `start` and `handle_back` show: one keyboard row
    per catalog entry. */
module Menu {
  import opened Decimal
  import opened Wrappers
  import opened Catalog

  /** An inline button with callback data (its keyboard object is transport). */
  datatype Button = Button(text: string, callbackData: string)

  /** The callback data of the "◀️ Меню" button under an offered number. */
  const BackToMenu: string := "back_to_menu"

  /** A button's caption: `data['name'] + f" - {data['price']}₽"`. */
  function Label(v: Variant): (r: string)
    ensures |r| >= |v.name| + 5
    ensures r[..|v.name| + 3] == v.name + " - " && r[|r| - 1] == '₽'
    ensures IsDigits(r[|v.name| + 3..|r| - 1])
    ensures ParseNat(r[|v.name| + 3..|r| - 1]) == v.price
  {
    var price := NatToString(v.price);
    var r := v.name + " - " + price + "₽";
    assert r[..|v.name| + 3] == v.name + " - ";
    assert r[|v.name| + 3..|r| - 1] == price;
    ParseNatToString(v.price);
    r
  }

  /** The keyboard loop of `start` (and, identically, of `handle_back`): rows
      in catalog order, each a single button labelled with name and price
      whose callback data is the entry's key. */
  method BuildKeyboard() returns (keyboard: seq<seq<Button>>)
    ensures |keyboard| == |NumbersData|
    ensures forall i :: 0 <= i < |NumbersData| ==>
      keyboard[i] == [Button(Label(NumbersData[i].variant), NumbersData[i].key)]
  {
    keyboard := [];
    var i := 0;
    while i < |NumbersData|
      invariant 0 <= i <= |NumbersData|
      invariant |keyboard| == i
      invariant forall k :: 0 <= k < i ==>
        keyboard[k] == [Button(Label(NumbersData[k].variant), NumbersData[k].key)]
    {
      var entry := NumbersData[i];
      keyboard := keyboard + [[Button(Label(entry.variant), entry.key)]];
      i := i + 1;
    }
  }

  /** Pressing any menu button selects a variant the catalog has: the lookup
      in `handle_selection` cannot fail for callback data the menu offers. */
  lemma MenuButtonsSelectTheirEntry(i: nat)
    requires i < |NumbersData|
    ensures Lookup(NumbersData[i].key) == Some(NumbersData[i].variant)
    ensures NumbersData[i].key != BackToMenu
  {
    LookupAt(i);
    BackToMenuIsNotAVariant();
  }

  /** The back button's data is not a catalog key, so it never reads as a selection. */
  lemma BackToMenuIsNotAVariant()
    ensures Lookup(BackToMenu).None?
  {
    assert forall i :: 0 <= i < |NumbersData| ==> |NumbersData[i].key| <= 10;
  }
}
