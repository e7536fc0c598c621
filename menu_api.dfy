/**
 * The menu handler: show, list (optionally filtered), create, patch and
 * delete `menu` records.
 */
module MenuApi {
  import opened Wrappers
  import opened Text
  import opened JsValues
  import opened Records
  import opened Http
  import opened Store
  import opened Helpers
  import opened ApiCommon
  import Config

  /** `{min: 0.01}`. */
  const PriceOptions: Options := Defaults.(min := 0.01)

  /** `{enumArr: config.menu.categories}`. */
  const CategoryOptions: Options := Defaults.(enumArr := Config.MenuCategories)

  /** The error object of the unfiltered reads; it has no content type. */
  const ListReadFailed := Bare(500, Message("Internal", "Could not get list of menu items."))
  const CreateFailed := Json(500, Message("Internal", "Could not create the item."))
  const RetrieveFailed := Json(500, Message("Internal", "Could not retrieve the item."))
  const UpdateFailed := Json(500, Message("Internal", "Could not update the item."))
  const FilterFailed := Json(500, Message("Internal", "Could not filter the list."))

  /** The four item fields as validated from one source (the body or the query string). */
  datatype Fields = Fields(name: Input, price: Input, description: Input, category: Input) {
    predicate Any() { Truthy(name) || Truthy(price) || Truthy(description) || Truthy(category) }
    predicate All() { Truthy(name) && Truthy(price) && Truthy(description) && Truthy(category) }
  }

  function Validated(name: Input, price: Input, description: Input, category: Input): Fields {
    Fields(Validate(name, StringType, Defaults), Validate(price, NumberType, PriceOptions),
           Validate(description, StringType, Defaults), Validate(category, EnumType, CategoryOptions))
  }

  /** The fields of a request body. */
  function BodyFields(req: Request): Fields {
    Validated(Field(req, "name"), Field(req, "price"), Field(req, "description"), Field(req, "category"))
  }

  /**
   * The filters of a query string. `toNumber` stands for `Number()` on a
   * query value; an absent value is `null`, which converts to 0.
   */
  function QueryFields(req: Request, toNumber: string -> Input): Fields {
    var price := if "price" in req.query then toNumber(req.query["price"]) else Num(0.0);
    Validated(Query(req, "name"), price, Query(req, "description"), Query(req, "category"))
  }

  /** `searchObj`: the truthy filters, in the order name, price, description, category. */
  function SearchEntries(f: Fields): (r: seq<(string, Input)>)
    ensures forall i :: 0 <= i < |r| ==> Truthy(r[i].1)
    ensures r == [] <==> !f.Any()
  {
    (if Truthy(f.name) then [("name", f.name)] else [])
    + (if Truthy(f.price) then [("price", f.price)] else [])
    + (if Truthy(f.description) then [("description", f.description)] else [])
    + (if Truthy(f.category) then [("category", f.category)] else [])
  }

  /** A validated text field's value, when it passed. */
  function TextOf(v: Input): Option<string> {
    if Truthy(v) && v.Str? then Some(v.s) else None
  }

  /** A validated number field's value, when it passed. */
  function NumberOf(v: Input): Option<real> {
    if Truthy(v) && v.Num? then Some(v.n) else None
  }

  /** The record after `put`: each field that validated replaces the stored one. */
  function Patched(item: MenuItem, f: Fields): MenuItem {
    var name := TextOf(f.name);
    var price := NumberOf(f.price);
    var description := TextOf(f.description);
    var category := TextOf(f.category);
    MenuItem(item.id, name.GetOr(item.name), price.GetOr(item.price), description.GetOr(item.description),
             category.GetOr(item.category))
  }

  /**
   * A patch keeps the id, replaces exactly the fields that validated, keeps
   * the rest, and applying it twice is applying it once.
   */
  lemma PatchedEffect(item: MenuItem, f: Fields)
    ensures Patched(item, f).id == item.id
    ensures Patched(item, f).name == (if Truthy(f.name) && f.name.Str? then f.name.s else item.name)
    ensures Patched(item, f).price == (if Truthy(f.price) && f.price.Num? then f.price.n else item.price)
    ensures Patched(item, f).description == (if Truthy(f.description) && f.description.Str? then f.description.s else item.description)
    ensures Patched(item, f).category == (if Truthy(f.category) && f.category.Str? then f.category.s else item.category)
    ensures Patched(Patched(item, f), f) == Patched(item, f)
    ensures !f.Any() ==> Patched(item, f) == item
  {
  }

  /** A patch from validated input stores only a category from the menu's category list. */
  lemma PatchedCategory(item: MenuItem, category: Input, f: Fields)
    requires f.category == Validate(category, EnumType, CategoryOptions)
    requires item.category in Config.MenuCategories
    ensures Patched(item, f).category in Config.MenuCategories
  {
  }

  /** The loop of the unfiltered listing: reads each listed key in turn and collects the records. */
  method ReadEach(c: Collection<MenuItem>, keys: seq<string>) returns (r: Result<seq<MenuItem>, Reply>)
    ensures (forall i :: 0 <= i < |keys| ==> keys[i] in c.records) ==> r == Ok(ValuesAt(keys, c.records))
    ensures (exists i :: 0 <= i < |keys| && keys[i] !in c.records) ==> r == Err(ListReadFailed)
  {
    var menu: seq<MenuItem> := [];
    var i := 0;
    while i < |keys|
      invariant 0 <= i <= |keys|
      invariant forall k :: 0 <= k < i ==> keys[k] in c.records
      invariant menu == ValuesAt(keys[..i], c.records)
    {
      var item := c.Read(keys[i], Some(ListReadFailed));
      if item.Err? {
        return Err(item.error);
      }
      menu := menu + [item.value];
      i := i + 1;
    }
    assert keys[..i] == keys;
    r := Ok(menu);
  }

  /** The listing lists every stored record once, in the order of a listing of the keys. */
  ghost predicate ListsAll(items: seq<MenuItem>, records: map<string, MenuItem>) {
    exists keys :: Enumerates(keys, records) && (forall i :: 0 <= i < |keys| ==> keys[i] in records) && items == ValuesAt(keys, records)
  }

  /** The listing lists the stored records some filter matches, in the order of a listing of the keys. */
  ghost predicate ListsMatching(items: seq<MenuItem>, records: map<string, MenuItem>, search: seq<(string, Input)>,
                                matches: (MenuItem, (string, Input)) -> bool) {
    exists keys :: Enumerates(keys, records) && (forall i :: 0 <= i < |keys| ==> keys[i] in records)
      && items == Select(keys, records, search, matches)
  }

  /** An unfiltered listing holds every stored record once and nothing else. */
  lemma ListsAllContents(items: seq<MenuItem>, records: map<string, MenuItem>, x: MenuItem)
    requires ListsAll(items, records)
    ensures |items| == |records|
    ensures x in items <==> x in records.Values
  {
    var keys :| Enumerates(keys, records) && (forall i :: 0 <= i < |keys| ==> keys[i] in records) && items == ValuesAt(keys, records);
    EnumeratedValues(keys, records, x);
  }

  /** A filtered listing holds the stored records some filter matches, and nothing else. */
  lemma ListsMatchingContents(items: seq<MenuItem>, records: map<string, MenuItem>, search: seq<(string, Input)>,
                              matches: (MenuItem, (string, Input)) -> bool, x: MenuItem)
    requires ListsMatching(items, records, search, matches)
    ensures |items| <= |records|
    ensures x in items <==> x in records.Values && AnyMatch(x, search, matches)
  {
    var keys :| Enumerates(keys, records) && (forall i :: 0 <= i < |keys| ==> keys[i] in records)
      && items == Select(keys, records, search, matches);
    SelectContents(keys, records, search, matches, x);
    EnumeratedValues(keys, records, x);
    if x in records.Values && AnyMatch(x, search, matches) {
      var i :| 0 <= i < |keys| && ValuesAt(keys, records)[i] == x;
      assert records[keys[i]] == x;
    }
  }

  /** The records an outcome lists, when it is a listing. */
  function Listed(o: Outcome): seq<MenuItem> {
    if o.Returned? && o.reply.payload.Some? && o.reply.payload.value.ItemList? then o.reply.payload.value.items else []
  }

  /** `get /:item_id`: shows one record. */
  method Show(db: Db, req: Request) returns (o: Outcome)
    ensures !Truthy(SlugItemId(req)) ==> o == Returned(MissingItemId)
    ensures Truthy(SlugItemId(req)) ==>
      if SlugItemId(req).s in db.menu.records then o == Returned(Json(200, ItemBody(db.menu.records[SlugItemId(req).s])))
      else o == Threw(ItemMissing)
  {
    var itemId := SlugItemId(req);
    if !Truthy(itemId) {
      return Returned(MissingItemId);
    }
    var item := db.menu.Read(itemId.s, Some(ItemMissing));
    match item
    case Ok(v) => o := Returned(Json(200, ItemBody(v)));
    case Err(e) => o := Threw(e);
  }

  /** Some stored record makes the scan of the filters throw: a filter value that does not compile as a pattern is reached before a match. */
  ghost predicate FilterThrows(records: map<string, MenuItem>, search: seq<(string, Input)>,
                               isPattern: ((string, Input)) -> bool, matches: (MenuItem, (string, Input)) -> bool) {
    exists k :: k in records && Scan(records[k], search, isPattern, matches).None?
  }

  /**
   * `get`: lists the menu, filtered when some query filter validates.
   * `matches` stands for the case-insensitive regular-expression test
   * `filterList` applies to one property, and `isPattern` for whether a
   * filter value compiles as a pattern; `false` from `filterList` is
   * answered with a 500.
   */
  method ListMenu(db: Db, req: Request, toNumber: string -> Input,
                  isPattern: ((string, Input)) -> bool, matches: (MenuItem, (string, Input)) -> bool)
    returns (o: Outcome)
    ensures !QueryFields(req, toNumber).Any() ==>
      o == Returned(Json(200, ItemList(Listed(o)))) && ListsAll(Listed(o), db.menu.records)
    ensures QueryFields(req, toNumber).Any() ==>
      if FilterThrows(db.menu.records, SearchEntries(QueryFields(req, toNumber)), isPattern, matches) then o == Returned(FilterFailed)
      else (o == Returned(Json(200, ItemList(Listed(o))))
        && ListsMatching(Listed(o), db.menu.records, SearchEntries(QueryFields(req, toNumber)), matches))
  {
    var filters := QueryFields(req, toNumber);
    var keys := db.menu.List();
    assert forall i :: 0 <= i < |keys| ==> keys[i] in db.menu.records by {
      assert forall i :: 0 <= i < |keys| ==> keys[i] in keys;
    }
    if !filters.Any() {
      var all := ReadEach(db.menu, keys);
      o := Returned(Json(200, ItemList(all.value)));
      assert Listed(o) == ValuesAt(keys, db.menu.records);
    } else {
      var search := SearchEntries(filters);
      var menu := FilterList(keys, db.menu, search, isPattern, matches);
      FilteredFailsIff(keys, db.menu.records, search, isPattern, matches);
      if menu.None? {
        var i :| 0 <= i < |keys| && !Readable(keys[i], db.menu.records, search, isPattern, matches);
        assert keys[i] in db.menu.records;
        o := Returned(FilterFailed);
      } else {
        assert !FilterThrows(db.menu.records, search, isPattern, matches) by {
          forall k | k in db.menu.records
            ensures Scan(db.menu.records[k], search, isPattern, matches).Some?
          {
            assert k in keys;
            var i :| 0 <= i < |keys| && keys[i] == k;
            assert Readable(keys[i], db.menu.records, search, isPattern, matches);
          }
        }
        FilteredIsSelect(keys, db.menu.records, search, isPattern, matches);
        o := Returned(Json(200, ItemList(menu.value)));
        assert Listed(o) == Select(keys, db.menu.records, search, matches);
      }
    }
  }

  /** `get`: with an id slug, shows one record; otherwise lists the menu. */
  method Get(db: Db, req: Request, toNumber: string -> Input,
             isPattern: ((string, Input)) -> bool, matches: (MenuItem, (string, Input)) -> bool)
    returns (o: Outcome)
    ensures |req.slugs| > 1 && !Truthy(SlugItemId(req)) ==> o == Returned(MissingItemId)
    ensures |req.slugs| > 1 && Truthy(SlugItemId(req)) ==>
      if SlugItemId(req).s in db.menu.records then o == Returned(Json(200, ItemBody(db.menu.records[SlugItemId(req).s])))
      else o == Threw(ItemMissing)
    ensures |req.slugs| <= 1 && !QueryFields(req, toNumber).Any() ==>
      o == Returned(Json(200, ItemList(Listed(o)))) && ListsAll(Listed(o), db.menu.records)
    ensures |req.slugs| <= 1 && QueryFields(req, toNumber).Any() ==>
      if FilterThrows(db.menu.records, SearchEntries(QueryFields(req, toNumber)), isPattern, matches) then o == Returned(FilterFailed)
      else (o == Returned(Json(200, ItemList(Listed(o))))
        && ListsMatching(Listed(o), db.menu.records, SearchEntries(QueryFields(req, toNumber)), matches))
  {
    if |req.slugs| > 1 {
      o := Show(db, req);
    } else {
      o := ListMenu(db, req, toNumber, isPattern, matches);
    }
  }

  /**
   * `post`: stores a new item when all four fields validate. Its id is
   * `createRandomString(this._idLength)`, and the handler object has no
   * `_idLength`, so the id is `false` and the record's key is `"false"`:
   * only one item can ever be created.
   */
  method Post(db: Db, req: Request) returns (o: Outcome)
    modifies db.menu
    ensures !BodyFields(req).All() ==>
      o == Returned(MissingFields(FalsyKeys(Entries(BodyFields(req))))) && db.menu.records == old(db.menu.records)
    ensures BodyFields(req).All() && "false" in old(db.menu.records) ==>
      o == Threw(CreateFailed) && db.menu.records == old(db.menu.records)
    ensures BodyFields(req).All() && "false" !in old(db.menu.records) ==>
      var f := BodyFields(req);
      var item := MenuItem(False, f.name.s, f.price.n, f.description.s, f.category.s);
      o == Returned(Json(201, ItemBody(item))) && db.menu.records == old(db.menu.records)["false" := item]
  {
    var f := BodyFields(req);
    if !f.All() {
      var invalid := InvalidFields(Entries(f));
      return Returned(MissingFields(invalid));
    }
    o := AddItem(db, f.name.s, f.price.n, f.description.s, f.category.s);
  }

  /**
   * The saving part of `post`: the id is drawn with no length, which the
   * generator answers with `false`, so every item is stored under `"false"`.
   */
  method AddItem(db: Db, name: string, price: real, description: string, category: string) returns (o: Outcome)
    modifies db.menu
    ensures "false" in old(db.menu.records) ==> o == Threw(CreateFailed) && db.menu.records == old(db.menu.records)
    ensures "false" !in old(db.menu.records) ==>
      var item := MenuItem(False, name, price, description, category);
      o == Returned(Json(201, ItemBody(item))) && db.menu.records == old(db.menu.records)["false" := item]
  {
    var id := CreateRandomString(Undefined);
    var item := MenuItem(id, name, price, description, category);
    var created := db.menu.Create(KeyText(id), item, Some(CreateFailed));
    match created
    case Ok(v) => o := Returned(Json(201, ItemBody(v)));
    case Err(e) => o := Threw(e);
  }

  /** `{name, price, description, category}` as `invalidFields` walks it. */
  function Entries(f: Fields): seq<(string, Input)> {
    [("name", f.name), ("price", f.price), ("description", f.description), ("category", f.category)]
  }

  /** The report names exactly the fields that failed validation. */
  lemma EntriesReport(f: Fields, k: string)
    ensures k in FalsyKeys(Entries(f)) <==>
      (k == "name" && !Truthy(f.name)) || (k == "price" && !Truthy(f.price))
      || (k == "description" && !Truthy(f.description)) || (k == "category" && !Truthy(f.category))
    ensures FalsyKeys(Entries(f)) == [] <==> f.All()
  {
    var e := Entries(f);
    assert e[0] == ("name", f.name) && e[1] == ("price", f.price);
    assert e[2] == ("description", f.description) && e[3] == ("category", f.category);
    FalsyKeysExact(e, k);
    if k in FalsyKeys(e) {
      var i :| 0 <= i < |e| && e[i].0 == k && !Truthy(e[i].1);
      assert i == 0 || i == 1 || i == 2 || i == 3;
    }
    if !f.All() {
      var i :| 0 <= i < 4 && !Truthy(e[i].1);
      FalsyKeysExact(e, e[i].0);
    } else {
      FalsyKeysTwo("name", f.name, "price", f.price);
      FalsyKeysTwo("description", f.description, "category", f.category);
      FalsyKeysAppend([("name", f.name), ("price", f.price)], [("description", f.description), ("category", f.category)]);
      assert e == [("name", f.name), ("price", f.price)] + [("description", f.description), ("category", f.category)];
    }
  }

  /**
   * `put /:item_id`: patches the stored item with the fields that validate.
   * With none, the report names the undefined `street_adress` and throws.
   */
  method Put(db: Db, req: Request) returns (o: Outcome)
    modifies db.menu
    ensures !Truthy(SlugItemId(req)) ==> o == Returned(MissingItemId) && db.menu.records == old(db.menu.records)
    ensures Truthy(SlugItemId(req)) && !BodyFields(req).Any() ==>
      o == Threw(RuntimeError("ReferenceError")) && db.menu.records == old(db.menu.records)
    ensures Truthy(SlugItemId(req)) && BodyFields(req).Any() ==>
      var key := SlugItemId(req).s;
      if key !in old(db.menu.records) then
        o == Threw(RetrieveFailed) && db.menu.records == old(db.menu.records)
      else
        var item := Patched(old(db.menu.records)[key], BodyFields(req));
        o == Returned(Json(200, ItemBody(item))) && db.menu.records == old(db.menu.records)[key := item]
  {
    var itemId := SlugItemId(req);
    var f := BodyFields(req);
    if !Truthy(itemId) {
      return Returned(MissingItemId);
    }
    if !f.Any() {
      return Threw(RuntimeError("ReferenceError"));
    }
    o := PatchItem(db, itemId.s, f);
  }

  /** The record part of `put`: reads the item, overwrites each field that validated and saves it. */
  method PatchItem(db: Db, key: string, f: Fields) returns (o: Outcome)
    modifies db.menu
    ensures key !in old(db.menu.records) ==> o == Threw(RetrieveFailed) && db.menu.records == old(db.menu.records)
    ensures key in old(db.menu.records) ==>
      var item := Patched(old(db.menu.records)[key], f);
      o == Returned(Json(200, ItemBody(item))) && db.menu.records == old(db.menu.records)[key := item]
  {
    var read := db.menu.Read(key, Some(RetrieveFailed));
    if read.Err? {
      return Threw(read.error);
    }
    var item := read.value;
    if Truthy(f.name) && f.name.Str? {
      item := item.(name := f.name.s);
    }
    if Truthy(f.price) && f.price.Num? {
      item := item.(price := f.price.n);
    }
    if Truthy(f.description) && f.description.Str? {
      item := item.(description := f.description.s);
    }
    if Truthy(f.category) && f.category.Str? {
      item := item.(category := f.category.s);
    }
    var saved := db.menu.Update(key, item, Some(UpdateFailed));
    match saved
    case Ok(_) => o := Returned(Json(200, ItemBody(item)));
    case Err(e) => o := Threw(e);
  }

  /** `delete /:item_id`: removes the record if there is one; the answer is 204 either way. */
  method Delete(db: Db, req: Request) returns (o: Outcome)
    modifies db.menu
    ensures !Truthy(SlugItemId(req)) ==> o == Returned(MissingItemId) && db.menu.records == old(db.menu.records)
    ensures Truthy(SlugItemId(req)) ==>
      o == Returned(Json(204, Empty)) && db.menu.records == old(db.menu.records) - {SlugItemId(req).s}
  {
    var itemId := SlugItemId(req);
    if !Truthy(itemId) {
      return Returned(MissingItemId);
    }
    var deleted := db.menu.Delete(itemId.s, None);
    o := Returned(Json(204, Empty));
  }
}
