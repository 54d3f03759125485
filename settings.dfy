/** The site settings (a key/value table) and the category reference table
    the admin maintains. */
module SettingsRoutes {
  import opened Common
  import opened Seqs
  import opened Text
  import opened Sorting
  import Products

  /** A row of the settings table; `key` is its primary key. */
  datatype Setting = Setting(key: string, value: Option<string>)

  predicate DistinctKeys(rows: seq<Setting>) {
    forall i, j :: 0 <= i < j < |rows| ==> rows[i].key != rows[j].key
  }

  /** `settings[row.key] = row.value` over the rows, in order. */
  function Folded(rows: seq<Setting>): (m: map<string, Option<string>>)
    ensures forall i :: 0 <= i < |rows| ==> rows[i].key in m
  {
    if rows == [] then map[]
    else
      var n := |rows| - 1;
      assert forall i :: 0 <= i < n ==> rows[..n][i] == rows[i];
      Folded(rows[..n])[rows[n].key := rows[n].value]
  }

  /** The object's keys are exactly the rows' keys. */
  lemma {:induction false} FoldedKeys(rows: seq<Setting>)
    ensures forall k :: k in Folded(rows) ==> exists i :: 0 <= i < |rows| && rows[i].key == k
  {
    if rows != [] {
      var n := |rows| - 1;
      var front := rows[..n];
      FoldedKeys(front);
      assert forall i :: 0 <= i < n ==> front[i] == rows[i];
      forall k | k in Folded(rows) ensures exists i :: 0 <= i < |rows| && rows[i].key == k {
        if k != rows[n].key {
          assert Folded(rows) == Folded(front)[rows[n].key := rows[n].value];
          assert k in Folded(front);
          var i :| 0 <= i < n && front[i].key == k;
          assert rows[i].key == k;
        }
      }
    }
  }

  /** With distinct keys the object maps every key to its row's value. */
  lemma {:induction false} FoldedValues(rows: seq<Setting>)
    requires DistinctKeys(rows)
    ensures forall i :: 0 <= i < |rows| ==> Folded(rows)[rows[i].key] == rows[i].value
  {
    if rows != [] {
      var n := |rows| - 1;
      var front := rows[..n];
      assert forall i :: 0 <= i < n ==> front[i] == rows[i];
      FoldedValues(front);
      forall i | 0 <= i < |rows| ensures Folded(rows)[rows[i].key] == rows[i].value {
        if i < n {
          assert rows[i].key != rows[n].key;
          assert Folded(rows)[rows[i].key] == Folded(front)[front[i].key];
        }
      }
    }
  }

  /** `GET /`: the `forEach` that builds the settings object. */
  method FoldSettings(rows: seq<Setting>) returns (settings: map<string, Option<string>>)
    ensures settings == Folded(rows)
  {
    settings := map[];
    var i := 0;
    while i < |rows|
      invariant 0 <= i <= |rows|
      invariant settings == Folded(rows[..i])
    {
      assert rows[..i + 1][..i] == rows[..i];
      settings := settings[rows[i].key := rows[i].value];
      i := i + 1;
    }
    assert rows[..|rows|] == rows;
  }

  function HasKey(key: string): Setting -> bool {
    (s: Setting) => s.key == key
  }

  /** `INSERT … ON CONFLICT(key) DO UPDATE SET value = ?`. */
  function Upserted(rows: seq<Setting>, key: string, value: Option<string>): (r: seq<Setting>)
  {
    var k := FindIndex(rows, HasKey(key));
    if k == -1 then rows + [Setting(key, value)] else rows[k := Setting(key, value)]
  }

  /** Replacing the value of one row of a table with distinct keys sets
      that key only. */
  lemma {:induction false} FoldedReplace(rows: seq<Setting>, k: nat, value: Option<string>)
    requires DistinctKeys(rows) && k < |rows|
    ensures DistinctKeys(rows[k := rows[k].(value := value)])
    ensures Folded(rows[k := rows[k].(value := value)]) == Folded(rows)[rows[k].key := value]
  {
    var r := rows[k := rows[k].(value := value)];
    assert forall i :: 0 <= i < |r| ==> r[i].key == rows[i].key;
    var n := |rows| - 1;
    var front := rows[..n];
    var m := Folded(front);
    assert Folded(rows) == m[rows[n].key := rows[n].value];
    if k < n {
      assert forall i :: 0 <= i < n ==> front[i] == rows[i];
      assert r[..n] == front[k := front[k].(value := value)];
      FoldedReplace(front, k, value);
      assert Folded(r[..n]) == m[rows[k].key := value];
      assert r[n] == rows[n];
      assert Folded(r) == m[rows[k].key := value][rows[n].key := rows[n].value];
      assert rows[k].key != rows[n].key;
    } else {
      assert r[..n] == front;
      assert Folded(r) == m[rows[n].key := value];
    }
  }

  /** After an upsert the key maps to the new value, every other key keeps
      its value, and the keys stay distinct. */
  lemma UpsertSetsOnlyKey(rows: seq<Setting>, key: string, value: Option<string>)
    requires DistinctKeys(rows)
    ensures DistinctKeys(Upserted(rows, key, value))
    ensures Folded(Upserted(rows, key, value)) == Folded(rows)[key := value]
  {
    var k := FindIndex(rows, HasKey(key));
    if k == -1 {
      AppendNewKey(rows, key, value);
    } else {
      assert rows[k := Setting(key, value)] == rows[k := rows[k].(value := value)];
      FoldedReplace(rows, k, value);
    }
  }

  /** Appending a row for a key not yet present keeps the keys distinct and
      sets that key. */
  lemma AppendNewKey(rows: seq<Setting>, key: string, value: Option<string>)
    requires DistinctKeys(rows)
    requires forall i :: 0 <= i < |rows| ==> !HasKey(key)(rows[i])
    ensures DistinctKeys(rows + [Setting(key, value)])
    ensures Folded(rows + [Setting(key, value)]) == Folded(rows)[key := value]
  {
    var r := rows + [Setting(key, value)];
    assert r[..|rows|] == rows;
    forall i, j | 0 <= i < j < |r| ensures r[i].key != r[j].key {
      assert r[i] == rows[i];
      if j < |rows| {
        assert r[j] == rows[j];
      } else {
        assert !HasKey(key)(rows[i]);
      }
    }
  }

  /** A row of the categories table; `name` is unique. */
  datatype Category = Category(id: int, name: string)

  function CategoryName(c: Category): string {
    c.name
  }

  /** The name `POST /categories` stores: the trimmed body field, or none
      when it is missing or blank. */
  function GivenName(name: Option<string>): (r: Option<string>)
    ensures r.Some? <==> Truthy(name) && !AllSpace(name.value)
    ensures r.Some? ==> r.value == Trim(name.value) && r.value != ""
  {
    if !Truthy(name) || Trim(name.value) == "" then None else Some(Trim(name.value))
  }

  predicate NameTaken(categories: seq<Category>, name: string) {
    exists i :: 0 <= i < |categories| && categories[i].name == name
  }

  function NotCategory(id: int): Category -> bool {
    (c: Category) => c.id != id
  }

  /** `SELECT COUNT(*) FROM products WHERE category = (SELECT name FROM
      categories WHERE id = ?)`: 0 for an unknown id, whose name is NULL. */
  function ProductsUsing(products: seq<Products.Product>, categories: seq<Category>, id: int): (n: nat)
    ensures FindIndex(categories, (c: Category) => c.id == id) == -1 ==> n == 0
  {
    var k := FindIndex(categories, (c: Category) => c.id == id);
    if k == -1 then 0
    else
      var name := categories[k].name;
      |Filter(products, (p: Products.Product) => p.category == name)|
  }

  /** The settings and categories tables with the category id counter. */
  class ReferenceTables {
    var settings: seq<Setting>
    var categories: seq<Category>
    var nextCategoryId: int

    predicate Valid()
      reads this
    {
      DistinctKeys(settings)
      && (forall i, j :: 0 <= i < j < |categories| ==> categories[i].name != categories[j].name)
      && (forall i, j :: 0 <= i < j < |categories| ==> categories[i].id < categories[j].id)
      && (forall i :: 0 <= i < |categories| ==> categories[i].id < nextCategoryId)
    }

    constructor()
      ensures Valid() && settings == [] && categories == [] && nextCategoryId == 1
    {
      settings := [];
      categories := [];
      nextCategoryId := 1;
    }

    /** `PUT /:key`: 401 without a session, otherwise the upsert. */
    method PutSetting(session: Session, key: string, value: Option<string>) returns (r: Result<()>)
      requires Valid()
      modifies this`settings
      ensures Valid()
      ensures !IsAdmin(session) ==> r == Err(Unauthorized) && settings == old(settings)
      ensures IsAdmin(session) ==> r == Ok(()) && settings == Upserted(old(settings), key, value)
      ensures IsAdmin(session) ==> Folded(settings) == Folded(old(settings))[key := value]
    {
      if !IsAdmin(session) {
        return Err(Unauthorized);
      }
      UpsertSetsOnlyKey(settings, key, value);
      settings := Upserted(settings, key, value);
      r := Ok(());
    }

    /** `GET /categories`: every category, by name. */
    method ListCategories() returns (r: seq<Category>)
      ensures SortedByName(r, CategoryName) && multiset(r) == multiset(categories)
    {
      r := SortByName(categories, CategoryName);
    }

    /** `POST /categories`: 401 without a session, 400 for a missing or
        blank name and for a name already present (after trimming);
        otherwise the trimmed name is stored. */
    method AddCategory(session: Session, name: Option<string>) returns (r: Result<Category>)
      requires Valid()
      modifies this`categories, this`nextCategoryId
      ensures Valid()
      ensures !IsAdmin(session) ==> r == Err(Unauthorized)
      ensures IsAdmin(session) && GivenName(name).None? ==> r == Err(BadRequest)
      ensures IsAdmin(session) && GivenName(name).Some? && NameTaken(old(categories), GivenName(name).value) ==>
                r == Err(BadRequest)
      ensures r.Err? ==> categories == old(categories) && nextCategoryId == old(nextCategoryId)
      ensures r.Ok? <==> IsAdmin(session) && GivenName(name).Some? && !NameTaken(old(categories), GivenName(name).value)
      ensures r.Ok? ==> r.value == Category(old(nextCategoryId), GivenName(name).value)
                        && categories == old(categories) + [r.value]
                        && nextCategoryId == old(nextCategoryId) + 1
    {
      if !IsAdmin(session) {
        return Err(Unauthorized);
      }
      var given := GivenName(name);
      if given.None? {
        return Err(BadRequest);
      }
      var trimmed := given.value;
      var k := FindIndex(categories, (c: Category) => c.name == trimmed);
      if k != -1 {
        return Err(BadRequest);
      }
      var c := Category(nextCategoryId, trimmed);
      categories := categories + [c];
      nextCategoryId := nextCategoryId + 1;
      r := Ok(c);
    }

    /** `DELETE /categories/:id`: 401 without a session; 400 while a
        product uses the category's name; 404 for an unknown id; otherwise
        the category goes. */
    method DeleteCategory(session: Session, id: int, products: seq<Products.Product>) returns (r: Result<()>)
      requires Valid()
      modifies this`categories
      ensures Valid()
      ensures !IsAdmin(session) ==> r == Err(Unauthorized)
      ensures IsAdmin(session) && ProductsUsing(products, old(categories), id) > 0 ==> r == Err(BadRequest)
      ensures IsAdmin(session) && (forall i :: 0 <= i < |old(categories)| ==> old(categories)[i].id != id) ==>
                r == Err(NotFound)
      ensures r.Err? ==> categories == old(categories)
      ensures r.Ok? <==> IsAdmin(session) && ProductsUsing(products, old(categories), id) == 0
                          && exists i :: 0 <= i < |old(categories)| && old(categories)[i].id == id
      ensures r.Ok? ==> categories == Filter(old(categories), NotCategory(id))
    {
      if !IsAdmin(session) {
        return Err(Unauthorized);
      }
      if ProductsUsing(products, categories, id) > 0 {
        return Err(BadRequest);
      }
      var k := FindIndex(categories, (c: Category) => c.id == id);
      if k == -1 {
        return Err(NotFound);
      }
      KeptCategoriesValid(categories, id);
      categories := Filter(categories, NotCategory(id));
      r := Ok(());
    }
  }

  /** Removing categories keeps names distinct and ids increasing. */
  lemma KeptCategoriesValid(categories: seq<Category>, id: int)
    requires forall i, j :: 0 <= i < j < |categories| ==> categories[i].name != categories[j].name
    requires forall i, j :: 0 <= i < j < |categories| ==> categories[i].id < categories[j].id
    ensures forall i, j :: 0 <= i < j < |Filter(categories, NotCategory(id))| ==>
              Filter(categories, NotCategory(id))[i].name != Filter(categories, NotCategory(id))[j].name
              && Filter(categories, NotCategory(id))[i].id < Filter(categories, NotCategory(id))[j].id
  {
    var rel := (a: Category, b: Category) => a.name != b.name && a.id < b.id;
    FilterKeepsPairs(categories, NotCategory(id), rel);
  }
}
