/**
 * app/api/subcategories.py: the parent check of create_subcategory, the
 * partial update, the delete with its cascade (app/models/category.py) and
 * the listing.
 */
module Subcategories {
  import opened Wrappers
  import opened Entities

  /** create_subcategory: the parent category must exist; the subcategory is stored as given. */
  function CreateSubcategory(categories: map<int, Category>, s: Subcategory): (r: Result<Subcategory>)
    ensures r.Err? <==> s.categoryId !in categories
    ensures r.Err? ==> r.error == NotFound(CategoryTable)
    ensures r.Ok? ==> r.value == s
  {
    if s.categoryId !in categories then Err(NotFound(CategoryTable)) else Ok(s)
  }

  /** read_subcategory. */
  function ReadSubcategory(subcategories: map<int, Subcategory>, id: int): (r: Result<Subcategory>)
    ensures r.Err? <==> id !in subcategories
    ensures r.Err? ==> r.error == NotFound(SubcategoryTable)
    ensures r.Ok? ==> r.value == subcategories[id]
  {
    if id !in subcategories then Err(NotFound(SubcategoryTable)) else Ok(subcategories[id])
  }

  /** The `SubcategoryUpdate` payload: each field is None when not supplied. */
  datatype SubcategoryUpdate = SubcategoryUpdate(name: Option<string>, categoryId: Option<int>)

  /** The `setattr` loop: supplied fields take the supplied values, the others stay. */
  function ApplySubcategoryUpdate(s: Subcategory, u: SubcategoryUpdate): (r: Subcategory)
    ensures u.name.Some? ==> r.name == u.name.value
    ensures u.name.None? ==> r.name == s.name
    ensures u.categoryId.Some? ==> r.categoryId == u.categoryId.value
    ensures u.categoryId.None? ==> r.categoryId == s.categoryId
  {
    Subcategory(u.name.GetOr(s.name), u.categoryId.GetOr(s.categoryId))
  }

  /**
   * update_subcategory: NotFound for an unknown subcategory, then NotFound
   * for a supplied category that does not exist; otherwise the updated
   * record, whose parent then exists whenever the old one did.
   */
  function UpdateSubcategory(categories: map<int, Category>, subcategories: map<int, Subcategory>,
                             id: int, u: SubcategoryUpdate): (r: Result<Subcategory>)
    ensures r == Err(NotFound(SubcategoryTable)) <==> id !in subcategories
    ensures r == Err(NotFound(CategoryTable)) <==>
      id in subcategories && u.categoryId.Some? && u.categoryId.value !in categories
    ensures r.Ok? <==> id in subcategories && (u.categoryId.Some? ==> u.categoryId.value in categories)
    ensures r.Ok? ==> r.value == ApplySubcategoryUpdate(subcategories[id], u)
    ensures r.Ok? && subcategories[id].categoryId in categories ==> r.value.categoryId in categories
  {
    if id !in subcategories then Err(NotFound(SubcategoryTable))
    else if u.categoryId.Some? && u.categoryId.value !in categories then Err(NotFound(CategoryTable))
    else Ok(ApplySubcategoryUpdate(subcategories[id], u))
  }

  /** Whether a budget's or transaction's subcategory is id. */
  predicate Names(subcategoryId: Option<int>, id: int) {
    subcategoryId == Some(id)
  }

  /**
   * Deleting subcategory id with the ORM cascades: the budgets and
   * transactions that name it go too. Everything else is kept as it was,
   * and no orphan is left behind.
   */
  function DeleteSubcategory(t: Tables, id: int): (r: Tables)
    ensures r.categories == t.categories
    ensures r.subcategories == t.subcategories - {id}
    ensures forall b :: b in r.budgets <==> b in t.budgets && !Names(t.budgets[b].subcategoryId, id)
    ensures forall x :: x in r.transactions <==> x in t.transactions && !Names(t.transactions[x].subcategoryId, id)
    ensures forall b :: b in r.budgets ==> r.budgets[b] == t.budgets[b]
    ensures forall x :: x in r.transactions ==> r.transactions[x] == t.transactions[x]
    ensures t.NoOrphans() ==> r.NoOrphans()
  {
    Tables(
      t.categories,
      t.subcategories - {id},
      map b | b in t.budgets && !Names(t.budgets[b].subcategoryId, id) :: t.budgets[b],
      map x | x in t.transactions && !Names(t.transactions[x].subcategoryId, id) :: t.transactions[x])
  }

  /** The `category_id` filter, applied only when truthy. */
  function UnderCategory(rows: seq<(int, Subcategory)>, categoryId: Option<int>): (r: seq<(int, Subcategory)>)
    ensures forall row :: row in r <==> row in rows && (Given(categoryId) ==> row.1.categoryId == categoryId.value)
    ensures |r| <= |rows|
    ensures Ascending(rows) ==> Ascending(r)
  {
    if rows == [] then []
    else
      var row := rows[|rows| - 1];
      var prefix := rows[..|rows| - 1];
      var kept := UnderCategory(prefix, categoryId);
      assert Ascending(rows) ==> forall x :: x in kept ==> x.0 < row.0;
      kept + (if !Given(categoryId) || row.1.categoryId == categoryId.value then [row] else [])
  }

  /** Every stored row below the bound that passes the filter is listed. */
  lemma UnderCategoryComplete(subcategories: map<int, Subcategory>, bound: int, categoryId: Option<int>)
    ensures Ascending(UnderCategory(Rows(subcategories, bound), categoryId))
    ensures forall id :: 0 <= id < bound && id in subcategories && (Given(categoryId) ==> subcategories[id].categoryId == categoryId.value) ==>
      (id, subcategories[id]) in UnderCategory(Rows(subcategories, bound), categoryId)
  {
    assert Ascending(Rows(subcategories, bound));
  }

  /**
   * read_subcategories over the subcategories with ids below `bound`: those
   * under the truthy category filter, by ascending id, `skip` skipped and
   * at most `limit`.
   */
  function ReadSubcategories(subcategories: map<int, Subcategory>, bound: int, skip: int, limit: int,
                             categoryId: Option<int>): (page: seq<(int, Subcategory)>)
    ensures forall row :: row in page ==>
      row.0 in subcategories && subcategories[row.0] == row.1 &&
      (Given(categoryId) ==> row.1.categoryId == categoryId.value)
    ensures limit >= 0 ==> |page| <= limit
    ensures Ascending(page)
    ensures skip <= 0 && limit < 0 ==>
      forall id :: 0 <= id < bound && id in subcategories && (Given(categoryId) ==> subcategories[id].categoryId == categoryId.value)
        ==> (id, subcategories[id]) in page
  {
    var all := UnderCategory(Rows(subcategories, bound), categoryId);
    UnderCategoryComplete(subcategories, bound, categoryId);
    PageAscending(all, skip, limit);
    Page(all, skip, limit)
  }

  /**
   * Paging through the listing: a page followed by the rest of the listing
   * after it is the rest of the listing from the page's start, and a page is
   * short only when it is the last one.
   */
  lemma ReadSubcategoriesPaging(subcategories: map<int, Subcategory>, bound: int, categoryId: Option<int>,
                                skip: nat, limit: nat)
    ensures ReadSubcategories(subcategories, bound, skip, limit, categoryId) +
            ReadSubcategories(subcategories, bound, skip + limit, -1, categoryId) ==
            ReadSubcategories(subcategories, bound, skip, -1, categoryId)
    ensures |ReadSubcategories(subcategories, bound, skip, limit, categoryId)| == limit ||
            ReadSubcategories(subcategories, bound, skip + limit, -1, categoryId) == []
  {
    PageSplit(UnderCategory(Rows(subcategories, bound), categoryId), skip, limit);
  }
}
