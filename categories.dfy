/**
 * app/api/categories.py: the partial update, the delete with its cascade
 * (app/models/category.py), and the listings.
 */
module Categories {
  import opened Wrappers
  import opened Entities

  /** The `CategoryUpdate` payload: each field is None when not supplied. */
  datatype CategoryUpdate = CategoryUpdate(name: Option<string>, kind: Option<CategoryType>)

  /** The `setattr` loop: supplied fields take the supplied values, the others stay. */
  function ApplyCategoryUpdate(c: Category, u: CategoryUpdate): (r: Category)
    ensures u.name.Some? ==> r.name == u.name.value
    ensures u.name.None? ==> r.name == c.name
    ensures u.kind.Some? ==> r.kind == u.kind.value
    ensures u.kind.None? ==> r.kind == c.kind
  {
    Category(u.name.GetOr(c.name), u.kind.GetOr(c.kind))
  }

  /** update_category: NotFound for an unknown id, otherwise the updated record. */
  function UpdateCategory(categories: map<int, Category>, id: int, u: CategoryUpdate): (r: Result<Category>)
    ensures r.Err? <==> id !in categories
    ensures r.Err? ==> r.error == NotFound(CategoryTable)
    ensures r.Ok? ==> r.value == ApplyCategoryUpdate(categories[id], u)
  {
    if id !in categories then Err(NotFound(CategoryTable)) else Ok(ApplyCategoryUpdate(categories[id], u))
  }

  /** read_category. */
  function ReadCategory(categories: map<int, Category>, id: int): (r: Result<Category>)
    ensures r.Err? <==> id !in categories
    ensures r.Err? ==> r.error == NotFound(CategoryTable)
    ensures r.Ok? ==> r.value == categories[id]
  {
    if id !in categories then Err(NotFound(CategoryTable)) else Ok(categories[id])
  }

  /** The subcategories of category id, which the cascade removes with it. */
  function Children(t: Tables, id: int): set<int> {
    set s | s in t.subcategories && t.subcategories[s].categoryId == id
  }

  /**
   * Whether the cascade reaches a budget or transaction: it names the
   * category, or a subcategory of it.
   */
  predicate Cascades(children: set<int>, id: int, categoryId: int, subcategoryId: Option<int>) {
    categoryId == id || (subcategoryId.Some? && subcategoryId.value in children)
  }

  /**
   * Deleting category id with the ORM cascades: its subcategories, the
   * budgets and transactions that name it, and, through each of those
   * subcategories, the budgets and transactions that name them. Everything
   * else is kept as it was, and no orphan is left behind.
   */
  function DeleteCategory(t: Tables, id: int): (r: Tables)
    ensures r.categories == t.categories - {id}
    ensures forall s :: s in r.subcategories <==> s in t.subcategories && t.subcategories[s].categoryId != id
    ensures forall b :: b in r.budgets <==>
      b in t.budgets && !Cascades(Children(t, id), id, t.budgets[b].categoryId, t.budgets[b].subcategoryId)
    ensures forall x :: x in r.transactions <==>
      x in t.transactions &&
      !Cascades(Children(t, id), id, t.transactions[x].categoryId, t.transactions[x].subcategoryId)
    ensures forall s :: s in r.subcategories ==> r.subcategories[s] == t.subcategories[s]
    ensures forall b :: b in r.budgets ==> r.budgets[b] == t.budgets[b]
    ensures forall x :: x in r.transactions ==> r.transactions[x] == t.transactions[x]
    ensures t.NoOrphans() ==> r.NoOrphans()
  {
    var children := Children(t, id);
    Tables(
      t.categories - {id},
      map s | s in t.subcategories && t.subcategories[s].categoryId != id :: t.subcategories[s],
      map b | b in t.budgets && !Cascades(children, id, t.budgets[b].categoryId, t.budgets[b].subcategoryId)
        :: t.budgets[b],
      map x | x in t.transactions &&
                !Cascades(children, id, t.transactions[x].categoryId, t.transactions[x].subcategoryId)
        :: t.transactions[x])
  }

  /** After the delete nothing refers to the category any more. */
  lemma DeleteCategoryLeavesNoTrace(t: Tables, id: int)
    ensures var r := DeleteCategory(t, id);
      && id !in r.categories
      && (forall s :: s in r.subcategories ==> r.subcategories[s].categoryId != id)
      && (forall b :: b in r.budgets ==> r.budgets[b].categoryId != id)
      && (forall x :: x in r.transactions ==> r.transactions[x].categoryId != id)
  {
  }

  /** The `type_filter` filter, applied only when given. */
  function OfKind(rows: seq<(int, Category)>, typeFilter: Option<CategoryType>): (r: seq<(int, Category)>)
    ensures forall row :: row in r <==> row in rows && (typeFilter.Some? ==> row.1.kind == typeFilter.value)
    ensures |r| <= |rows|
    ensures Ascending(rows) ==> Ascending(r)
  {
    if rows == [] then []
    else
      var row := rows[|rows| - 1];
      var prefix := rows[..|rows| - 1];
      assert Ascending(rows) ==> forall x :: x in prefix ==> x.0 < row.0;
      OfKind(prefix, typeFilter) + (if typeFilter.None? || row.1.kind == typeFilter.value then [row] else [])
  }

  /** Every stored row below the bound that passes the filter is listed. */
  lemma OfKindComplete(categories: map<int, Category>, bound: int, typeFilter: Option<CategoryType>)
    ensures Ascending(OfKind(Rows(categories, bound), typeFilter))
    ensures forall id :: 0 <= id < bound && id in categories && (typeFilter.Some? ==> categories[id].kind == typeFilter.value) ==>
      (id, categories[id]) in OfKind(Rows(categories, bound), typeFilter)
  {
    assert Ascending(Rows(categories, bound));
  }

  /**
   * read_categories over the categories with ids below `bound`: those of
   * the filtered type, by ascending id, `skip` skipped and at most `limit`.
   */
  function ReadCategories(categories: map<int, Category>, bound: int, skip: int, limit: int,
                          typeFilter: Option<CategoryType>): (page: seq<(int, Category)>)
    ensures forall row :: row in page ==>
      row.0 in categories && categories[row.0] == row.1 && (typeFilter.Some? ==> row.1.kind == typeFilter.value)
    ensures limit >= 0 ==> |page| <= limit
    ensures Ascending(page)
    ensures skip <= 0 && limit < 0 ==>
      forall id :: 0 <= id < bound && id in categories && (typeFilter.Some? ==> categories[id].kind == typeFilter.value)
        ==> (id, categories[id]) in page
  {
    var all := OfKind(Rows(categories, bound), typeFilter);
    OfKindComplete(categories, bound, typeFilter);
    PageAscending(all, skip, limit);
    Page(all, skip, limit)
  }

  /**
   * Paging through the listing: a page followed by the rest of the listing
   * after it is the rest of the listing from the page's start, and a page is
   * short only when it is the last one.
   */
  lemma ReadCategoriesPaging(categories: map<int, Category>, bound: int, typeFilter: Option<CategoryType>,
                             skip: nat, limit: nat)
    ensures ReadCategories(categories, bound, skip, limit, typeFilter) +
            ReadCategories(categories, bound, skip + limit, -1, typeFilter) ==
            ReadCategories(categories, bound, skip, -1, typeFilter)
    ensures |ReadCategories(categories, bound, skip, limit, typeFilter)| == limit ||
            ReadCategories(categories, bound, skip + limit, -1, typeFilter) == []
  {
    PageSplit(OfKind(Rows(categories, bound), typeFilter), skip, limit);
  }

  /** The subcategory rows whose category is id. */
  function WithParent(rows: seq<(int, Subcategory)>, id: int): (r: seq<(int, Subcategory)>)
    ensures forall row :: row in r <==> row in rows && row.1.categoryId == id
    ensures |r| <= |rows|
  {
    if rows == [] then []
    else
      var row := rows[|rows| - 1];
      WithParent(rows[..|rows| - 1], id) + (if row.1.categoryId == id then [row] else [])
  }

  /**
   * read_category_subcategories: NotFound for an unknown category,
   * otherwise exactly its subcategories (ids below `bound`).
   */
  function CategorySubcategories(t: Tables, id: int, bound: int): (r: Result<seq<(int, Subcategory)>>)
    ensures r.Err? <==> id !in t.categories
    ensures r.Err? ==> r.error == NotFound(CategoryTable)
    ensures r.Ok? ==> forall s :: 0 <= s < bound ==>
      ((exists row :: row in r.value && row.0 == s) <==> s in t.subcategories && t.subcategories[s].categoryId == id)
    ensures r.Ok? ==> forall row :: row in r.value ==> row.0 in t.subcategories && t.subcategories[row.0] == row.1
  {
    if id !in t.categories then Err(NotFound(CategoryTable))
    else
      var rows := WithParent(Rows(t.subcategories, bound), id);
      assert forall s :: 0 <= s < bound && s in t.subcategories && t.subcategories[s].categoryId == id ==>
        (s, t.subcategories[s]) in rows;
      Ok(rows)
  }
}
