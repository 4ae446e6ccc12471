/**
 * The `Category` record of Config/models/category.py over the category
 * table kept by the admin routes: the breadcrumb path `get_full_path`
 * and the two counts of `to_dict`.
 *
 * `get_full_path` follows `parent` links and terminates only when they
 * contain no cycle. The admin update refuses only a category that names
 * itself as parent, so acyclicity is a precondition here: a `rank` that
 * strictly decreases from every category to its parent.
 */
module CategoryModel {
  import opened Common
  import opened Text
  import opened AdminRoutes

  const PathSeparator := " > "

  /** The parent a category's `parent` relationship loads: none when `parent_id` is unset or dangling. */
  function Parent(categories: map<int, CategoryRec>, id: int): (p: Option<int>)
    requires id in categories
    ensures p.Some? ==> p.value in categories && categories[id].parentId == p
  {
    var pid := categories[id].parentId;
    if pid.Some? && pid.value in categories then pid else None
  }

  /** `rank` witnesses that no chain of parent links returns to where it started. */
  predicate Ranked(categories: map<int, CategoryRec>, rank: map<int, nat>) {
    forall k :: k in categories ==>
      k in rank && (Parent(categories, k).Some? ==> Parent(categories, k).value in rank &&
                                                     rank[Parent(categories, k).value] < rank[k])
  }

  /** The names from the root down to `id`. */
  function Chain(categories: map<int, CategoryRec>, rank: map<int, nat>, id: int): (c: seq<string>)
    requires Ranked(categories, rank) && id in categories
    ensures |c| >= 1 && c[|c| - 1] == categories[id].name
    decreases rank[id]
  {
    match Parent(categories, id)
    case None => [categories[id].name]
    case Some(p) => Chain(categories, rank, p) + [categories[id].name]
  }

  /** `get_full_path`. */
  function FullPath(categories: map<int, CategoryRec>, rank: map<int, nat>, id: int): (r: string)
    requires Ranked(categories, rank) && id in categories
    ensures Parent(categories, id).None? ==> r == categories[id].name
    ensures |r| >= |categories[id].name| && r[|r| - |categories[id].name|..] == categories[id].name
    decreases rank[id]
  {
    match Parent(categories, id)
    case None => categories[id].name
    case Some(p) =>
      var r := FullPath(categories, rank, p) + PathSeparator + categories[id].name;
      assert r[|r| - |categories[id].name|..] == categories[id].name;
      r
  }

  /** The path is the chain of ancestor names joined with " > ". */
  lemma {:induction false} PathIsJoinedChain(categories: map<int, CategoryRec>, rank: map<int, nat>, id: int)
    requires Ranked(categories, rank) && id in categories
    ensures FullPath(categories, rank, id) == Join(Chain(categories, rank, id), PathSeparator)
    decreases rank[id]
  {
    match Parent(categories, id)
    case None =>
    case Some(p) =>
      PathIsJoinedChain(categories, rank, p);
      var c := Chain(categories, rank, p);
      var c' := Chain(categories, rank, id);
      assert c' == c + [categories[id].name];
      assert c'[..|c'| - 1] == c;
  }

  /**
   * When no name contains '>', the path holds exactly one '>' per ancestor:
   * the number of separators is the depth of the category.
   */
  lemma {:induction false} SeparatorsCountDepth(categories: map<int, CategoryRec>, rank: map<int, nat>, id: int)
    requires Ranked(categories, rank) && id in categories
    requires forall k :: k in categories ==> CountChar(categories[k].name, '>') == 0
    ensures CountChar(FullPath(categories, rank, id), '>') == |Chain(categories, rank, id)| - 1
    decreases rank[id]
  {
    match Parent(categories, id)
    case None =>
    case Some(p) =>
      SeparatorsCountDepth(categories, rank, p);
      var name := categories[id].name;
      var above := FullPath(categories, rank, p);
      CountCharAppend(above, PathSeparator, '>');
      CountCharAppend(above + PathSeparator, name, '>');
      assert CountChar(PathSeparator, '>') == 1 by {
        assert PathSeparator[1..] == "> ";
        assert PathSeparator[1..][1..] == " ";
        assert PathSeparator[1..][1..][1..] == "";
      }
  }

  /** `subcategories_count`: the categories whose parent this is. */
  function SubcategoriesCount(categories: map<int, CategoryRec>, id: int): (n: nat)
    ensures n == 0 <==> !HasSubcategories(categories, id)
  {
    var subs := set k | k in categories && categories[k].parentId == Some(id);
    if HasSubcategories(categories, id) then
      var k :| k in categories && categories[k].parentId == Some(id);
      assert k in subs;
      |subs|
    else
      assert forall x :: x !in subs;
      assert subs == {};
      |subs|
  }

  /** `products_count`: the products filed under this category. */
  function ProductsCount(products: map<int, AdminProduct>, id: int): (n: nat)
    ensures n == 0 <==> !HasProducts(products, id)
  {
    var ps := set k | k in products && products[k].categoryId == Some(id);
    if HasProducts(products, id) then
      var k :| k in products && products[k].categoryId == Some(id);
      assert k in ps;
      |ps|
    else
      assert forall x :: x !in ps;
      assert ps == {};
      |ps|
  }

  /** The admin route deletes a category exactly when both of its counts are 0. */
  lemma DeleteNeedsZeroCounts(s: AdminState, id: int)
    requires id in s.categories
    ensures DeleteCategory(s, id).0 == Ok200 <==>
              SubcategoriesCount(s.categories, id) == 0 && ProductsCount(s.products, id) == 0
  {
  }
}
