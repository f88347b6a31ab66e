/**
 * `normalizeCategories` of client/src/App.jsx: the catalog the server returns, either as
 * positional rows `[category, subcategory, name, price, imageUrl]` or as objects with
 * alias keys, becomes a list of canonical catalog items; items without a name are dropped.
 */
module Catalog {
  import opened JsRuntime
  import opened Seqs
  import opened Slug

  datatype CatalogItem = CatalogItem(
    id: string, category: string, subcategory: string, name: string, price: int, imageUrl: string)

  /** The test of `.filter(x => x.name)`. */
  predicate Named(item: CatalogItem) { item.name != "" }

  /** Whether `const [...] = row` can iterate `row`; anything else throws a TypeError. */
  predicate Iterable(row: Value) { row.Arr? || row.Str? }

  /** The shape is read off the first element: rows when it is an array. */
  predicate RowShaped(input: Value) {
    input.Arr? && |input.elems| > 0 && input.elems[0].Arr?
  }

  /** Element `k` of `const [a0, a1, a2, a3, a4] = row` (a string is iterated by character). */
  function RowField(row: Value, k: nat): Value
    requires Iterable(row)
  {
    if row.Arr? then (if k < |row.elems| then row.elems[k] else Undefined)
    else if k < |row.s| then Str([row.s[k]])
    else Undefined
  }

  /** The item built from positional row number `idx` (its position before filtering). */
  function RowItem(row: Value, idx: nat, now: EpochMs): (item: CatalogItem)
    requires Iterable(row)
    ensures IsSlug(item.id)
    ensures Named(item) ==> Truthy(RowField(row, 2))
  {
    var category, subcategory, name := RowField(row, 0), RowField(row, 1), RowField(row, 2);
    var price, imageUrl := RowField(row, 3), RowField(row, 4);
    CatalogItem(
      id := Slugify(ToStr(category) + "-" + ToStr(subcategory) + "-" + ToStr(name) + "-" + NatToString(idx), now),
      category := ToStr(Or(category, Str(""))),
      subcategory := ToStr(Or(subcategory, Str(""))),
      name := ToStr(Or(name, Str(""))),
      price := ToNumber(Or(price, Num(0))),
      imageUrl := ToStr(Or(imageUrl, Str(""))))
  }

  /** `a ?? b ?? ''`, stringified. */
  function FirstOf(x: Value, key: string, alias: string): (s: string)
    ensures !Nullish(Prop(x, key)) ==> s == ToStr(Prop(x, key))
    ensures Nullish(Prop(x, key)) && !Nullish(Prop(x, alias)) ==> s == ToStr(Prop(x, alias))
    ensures Nullish(Prop(x, key)) && Nullish(Prop(x, alias)) ==> s == ""
  {
    ToStr(Coalesce(Coalesce(Prop(x, key), Prop(x, alias)), Str("")))
  }

  /** The item built from object number `idx`. */
  function ObjectItem(x: Value, idx: nat, now: EpochMs): (item: CatalogItem)
    requires !Nullish(x)
    ensures !Nullish(Prop(x, "id")) ==> item.id == ToStr(Prop(x, "id"))
    ensures Nullish(Prop(x, "id")) ==> IsSlug(item.id)
    ensures item.name == FirstOf(x, "name", "title")
    ensures item.imageUrl == FirstOf(x, "imageUrl", "image")
    ensures Nullish(Prop(x, "price")) ==> item.price == 0
  {
    var category := ToStr(Coalesce(Prop(x, "category"), Str("")));
    var subcategory := ToStr(Coalesce(Prop(x, "subcategory"), Str("")));
    var name := FirstOf(x, "name", "title");
    var id := if !Nullish(Prop(x, "id")) then ToStr(Prop(x, "id"))
              else Slugify(category + "-" + subcategory + "-" + name + "-" + NatToString(idx), now);
    CatalogItem(
      id := id,
      category := category,
      subcategory := subcategory,
      name := name,
      price := ToNumber(Coalesce(Prop(x, "price"), Num(0))),
      imageUrl := FirstOf(x, "imageUrl", "image"))
  }

  /** Whether the `.map` callback of the given shape can handle element `x`: destructuring
      needs an iterable row, and `x.id` throws on null and undefined. */
  predicate Mappable(x: Value, rows: bool) {
    if rows then Iterable(x) else !Nullish(x)
  }

  function ItemAt(x: Value, idx: nat, now: EpochMs, rows: bool): CatalogItem
    requires Mappable(x, rows)
  {
    if rows then RowItem(x, idx, now) else ObjectItem(x, idx, now)
  }

  predicate AllMappable(input: Value)
    requires input.Arr?
  {
    forall j :: 0 <= j < |input.elems| ==> Mappable(input.elems[j], RowShaped(input))
  }

  /** `input.map((x, i) => ...)`: every element turned into an item, before the name filter. */
  function Items(input: Value, now: EpochMs): (items: seq<CatalogItem>)
    requires input.Arr? && AllMappable(input)
    ensures |items| == |input.elems|
    ensures RowShaped(input) ==> forall j :: 0 <= j < |items| ==>
      IsSlug(items[j].id) && items[j].name == ToStr(Or(RowField(input.elems[j], 2), Str("")))
    ensures !RowShaped(input) ==> forall j :: 0 <= j < |items| ==>
      items[j].name == FirstOf(input.elems[j], "name", "title")
  {
    seq(|input.elems|, j requires 0 <= j < |input.elems| => ItemAt(input.elems[j], j, now, RowShaped(input)))
  }

  /** `normalizeCategories(input)`: a non-array gives no items; an element the callback
      cannot handle throws; otherwise the named items, in input order. */
  function NormalizeCategories(input: Value, now: EpochMs): (r: Result<seq<CatalogItem>>)
    ensures !input.Arr? ==> r == Ok([])
    ensures input.Arr? ==> (r.Ok? <==> AllMappable(input))
    ensures r.Err? ==> r.message == TypeErrorMessage
    ensures r.Ok? ==> forall k :: 0 <= k < |r.value| ==> r.value[k].name != ""
    ensures r.Ok? && input.Arr? ==>
      && |r.value| <= |input.elems|
      && IsSubsequence(r.value, Items(input, now))
      && |r.value| == Count(Items(input, now), Named)
  {
    if !input.Arr? then Ok([])
    else if !AllMappable(input) then Err(TypeErrorMessage)
    else
      var items := Items(input, now);
      FilterIsSubsequence(items, Named);
      Ok(Filter(items, Named))
  }

  /** Every item that survives the name filter in the row shape carries a slug id. */
  lemma RowIdsAreSlugs(input: Value, now: EpochMs)
    requires RowShaped(input) && AllMappable(input)
    ensures NormalizeCategories(input, now).Ok?
    ensures forall k :: 0 <= k < |NormalizeCategories(input, now).value| ==>
      IsSlug(NormalizeCategories(input, now).value[k].id)
  {
    var built := Items(input, now);
    assert NormalizeCategories(input, now) == Ok(Filter(built, Named));
    assert forall j :: 0 <= j < |built| ==> IsSlug(built[j].id);
    FilterKeepsProperty(built, Named, (it: CatalogItem) => IsSlug(it.id));
  }

  /** The row shape is decided by the first element alone: an object after a first row
      cannot be destructured and the whole call throws. */
  lemma ObjectAfterRowThrows(row: seq<Value>, x: map<string, Value>, now: EpochMs)
    ensures NormalizeCategories(Arr([Arr(row), Obj(x)]), now) == Err(TypeErrorMessage)
  {
    var input := Arr([Arr(row), Obj(x)]);
    assert !Mappable(input.elems[1], RowShaped(input));
  }

  /** A catalog of one named object is that object's item. */
  lemma SingleObject(fields: map<string, Value>, now: EpochMs)
    requires Named(ObjectItem(Obj(fields), 0, now))
    ensures NormalizeCategories(Arr([Obj(fields)]), now) == Ok([ObjectItem(Obj(fields), 0, now)])
  {
    var input := Arr([Obj(fields)]);
    assert !RowShaped(input) && AllMappable(input);
    var item := ObjectItem(Obj(fields), 0, now);
    assert Items(input, now) == [item];
    assert Filter([item], Named) == [item];
  }

  /** An object that supplies `id: ""` keeps its empty id: ids are not always non-empty. */
  lemma EmptyObjectIdKept(now: EpochMs)
    ensures NormalizeCategories(Arr([Obj(map["id" := Str(""), "name" := Str("Tea")])]), now)
         == Ok([CatalogItem("", "", "", "Tea", 0, "")])
  {
    var fields := map["id" := Str(""), "name" := Str("Tea")];
    assert ObjectItem(Obj(fields), 0, now) == CatalogItem("", "", "", "Tea", 0, "");
    SingleObject(fields, now);
  }

  /** A negative price is passed through: prices are not always non-negative. */
  lemma NegativePriceKept(now: EpochMs)
    ensures NormalizeCategories(Arr([Obj(map["id" := Str("t"), "title" := Str("Tea"), "price" := Num(-5)])]), now)
         == Ok([CatalogItem("t", "", "", "Tea", -5, "")])
  {
    var fields := map["id" := Str("t"), "title" := Str("Tea"), "price" := Num(-5)];
    assert ObjectItem(Obj(fields), 0, now) == CatalogItem("t", "", "", "Tea", -5, "");
    SingleObject(fields, now);
  }

  /** A row whose category, subcategory and name consist only of characters the slug
      deletes gets the id `---idx`. */
  lemma RowIdOfDeletedText(category: string, subcategory: string, name: string, rest: seq<Value>, idx: nat, now: EpochMs)
    requires AllDeleted(category)
    requires AllDeleted(subcategory)
    requires AllDeleted(name)
    requires idx < Pow10(61)
    ensures RowItem(Arr([Str(category), Str(subcategory), Str(name)] + rest), idx, now).id == "---" + NatToString(idx)
  {
    SlugOfDeletedParts(category, subcategory, name, idx, now);
  }

  /** A catalog of one named row is that row's item. */
  lemma SingleRow(row: Value, now: EpochMs)
    requires row.Arr? && Named(RowItem(row, 0, now))
    ensures NormalizeCategories(Arr([row]), now) == Ok([RowItem(row, 0, now)])
  {
    var input := Arr([row]);
    assert RowShaped(input) && AllMappable(input);
    var item := RowItem(row, 0, now);
    assert Items(input, now) == [item];
    assert Filter([item], Named) == [item];
  }

  /** A full row of three strings, a number and a string maps field by field: the text
      fields and the price are taken as they are. */
  lemma RowItemOfFive(category: string, subcategory: string, name: string, price: int, url: string,
                      idx: nat, now: EpochMs)
    ensures RowItem(Arr([Str(category), Str(subcategory), Str(name), Num(price), Str(url)]), idx, now)
         == CatalogItem(Slugify(category + "-" + subcategory + "-" + name + "-" + NatToString(idx), now),
                        category, subcategory, name, price, url)
  {
    assert forall x :: ToStr(Or(Str(x), Str(""))) == x;
    assert ToNumber(Or(Num(price), Num(0))) == price;
  }

  /** The item of row 0 whose text parts consist of characters the slug deletes has id `---0`. */
  lemma DeletedRowItem(category: string, subcategory: string, name: string, price: int, url: string, now: EpochMs)
    requires AllDeleted(category)
    requires AllDeleted(subcategory)
    requires AllDeleted(name)
    ensures RowItem(Arr([Str(category), Str(subcategory), Str(name), Num(price), Str(url)]), 0, now)
         == CatalogItem("---0", category, subcategory, name, price, url)
  {
    var slug := Slugify(category + "-" + subcategory + "-" + name + "-" + NatToString(0), now);
    assert slug == "---0" by {
      assert Pow10(1) == 10;
      SlugOfDeletedParts(category, subcategory, name, 0, now);
      assert NatToString(0) == "0";
    }
    RowItemOfFive(category, subcategory, name, price, url, 0, now);
  }

  /** A one-row catalog whose text parts consist of characters the slug deletes, such as
      `["食品", "麺類", "塩ラーメン", 800, "http://x/img.png"]`, yields one item with id `---0`
      and the row's values. */
  lemma DeletedTextRow(category: string, subcategory: string, name: string, price: int, url: string, now: EpochMs)
    requires AllDeleted(category)
    requires AllDeleted(subcategory)
    requires AllDeleted(name)
    requires name != ""
    ensures NormalizeCategories(Arr([Arr([Str(category), Str(subcategory), Str(name), Num(price), Str(url)])]), now)
         == Ok([CatalogItem("---0", category, subcategory, name, price, url)])
  {
    DeletedRowItem(category, subcategory, name, price, url, now);
    SingleRow(Arr([Str(category), Str(subcategory), Str(name), Num(price), Str(url)]), now);
  }
}
