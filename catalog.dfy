/** The fixed catalog of number variants, `NUMBERS_DATA`: an insertion-ordered
    table from a variant key to its display data. */
module Catalog {
  import opened Wrappers

  /** One catalog record: display name, price in roubles, dialing code,
      kind ("вирт" virtual / "физ" physical), country name and flag. */
  datatype Variant = Variant(
    name: string,
    price: nat,
    code: string,
    kind: string,
    country: string,
    flag: string)

  /** A key and its record, as `NUMBERS_DATA.items()` yields them. */
  datatype Entry = Entry(key: string, variant: Variant)

  /** The catalog, in the order its entries were written. */
  const NumbersData: seq<Entry> := [
    Entry("usa", Variant("⁺¹ Америка 🇺🇸 [вирт]", 55, "+1", "вирт", "Америка", "🇺🇸 ")),
    Entry("myanmar", Variant("⁺⁹⁵ Мьянма 🇲🇲 [вирт]", 50, "+95", "вирт", "Мьянма", "🇲🇲 ")),
    Entry("india", Variant("⁺⁹¹ Индия 🇮🇳 [вирт]", 50, "+91", "вирт", "Индия", "🇮🇳 ")),
    Entry("mexico", Variant("⁺⁵² Мексика 🇲🇽 [вирт]", 50, "+52", "вирт", "Мексика", "🇲🇽 ")),
    Entry("argentina", Variant("⁺⁵⁴ Аргентина 🇦🇷 [вирт]", 50, "+54", "вирт", "Аргентина", "🇦🇷 ")),
    Entry("bangladesh", Variant("⁺⁸⁸⁰ Бангладеш 🇧🇩 [вирт]", 65, "+880", "вирт", "Бангладеш", "🇧🇩 ")),
    Entry("ukraine", Variant("⁺³⁸⁰ Украина 🇺🇦 [физ]", 100, "+380", "физ", "Украина", "🇺🇦 ")),
    Entry("belarus", Variant("⁺³⁷⁵ Беларусь 🇧🇾 [физ]", 110, "+375", "физ", "Беларусь", "🇧🇾 ")),
    Entry("tajikistan", Variant("⁺⁹⁹² Таджикистан 🇹🇯 [физ]", 150, "+992", "физ", "Таджикистан", "🇹🇯 ")),
    Entry("uzbekistan", Variant("⁺⁹⁹⁸ Узбекистан 🇺🇿 [физ]", 100, "+998", "физ", "Узбекистан", "🇺🇿 "))
  ]

  /** No key occurs twice: what a Python dict guarantees by construction. */
  predicate DistinctKeys(entries: seq<Entry>) {
    forall i, j :: 0 <= i < j < |entries| ==> entries[i].key != entries[j].key
  }

  /** Dictionary subscription over an ordered table: the record stored under
      `key`, or None where Python raises KeyError. */
  function Find(entries: seq<Entry>, key: string): (r: Option<Variant>)
    ensures r.Some? <==> exists i :: 0 <= i < |entries| && entries[i].key == key
    ensures r.Some? ==> exists i :: 0 <= i < |entries| && entries[i] == Entry(key, r.value)
  {
    if entries == [] then None
    else if entries[0].key == key then Some(entries[0].variant)
    else
      var r := Find(entries[1..], key);
      assert forall i :: 1 <= i < |entries| ==> entries[i] == entries[1..][i - 1];
      r
  }

  /** `NUMBERS_DATA[key]`. */
  function Lookup(key: string): (r: Option<Variant>)
    ensures r.Some? <==> exists i :: 0 <= i < |NumbersData| && NumbersData[i].key == key
    ensures r.Some? ==> exists i :: 0 <= i < |NumbersData| && NumbersData[i] == Entry(key, r.value)
  {
    Find(NumbersData, key)
  }

  /** In a table with distinct keys, looking up the i-th key finds the i-th record. */
  lemma {:induction false} FindAt(entries: seq<Entry>, i: nat)
    requires DistinctKeys(entries) && i < |entries|
    ensures Find(entries, entries[i].key) == Some(entries[i].variant)
  {
    if i > 0 {
      assert entries[0].key != entries[i].key;
      FindAt(entries[1..], i - 1);
    }
  }

  lemma CatalogKeysDistinct()
    ensures DistinctKeys(NumbersData)
  {
  }

  /** Every catalog key looks up its own record. */
  lemma LookupAt(i: nat)
    requires i < |NumbersData|
    ensures Lookup(NumbersData[i].key) == Some(NumbersData[i].variant)
  {
    CatalogKeysDistinct();
    FindAt(NumbersData, i);
  }
}
