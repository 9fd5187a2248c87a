/**
 * The product catalog: how `/addproduct` numbers a new product, which product
 * `/removeproduct` deletes, and the three listing queries. The catalog is the
 * product collection in its natural (insertion) order.
 */
module Catalog {

  /** A stored product. Prices are whole numbers here. */
  datatype Product = Product(
    id: int,
    name: string,
    image: string,
    category: string,
    newPrice: int,
    oldPrice: int,
    description: string,
    author: string,
    available: bool)

  const PopularCategory: string := "dc"

  /** The product schema's `required` check on its strings, which rejects an
      empty string at save. */
  predicate ListingComplete(name: string, image: string, category: string, description: string, author: string)
  {
    name != "" && image != "" && category != "" && description != "" && author != ""
  }

  function Min(a: int, b: int): int
  {
    if a < b then a else b
  }

  /** Ids start at 1 and strictly increase along the catalog's order. Every run
      of adds and removes from an empty catalog keeps this. */
  ghost predicate WellNumbered(products: seq<Product>)
  {
    && (forall i :: 0 <= i < |products| ==> products[i].id >= 1)
    && (forall i, j :: 0 <= i < j < |products| ==> products[i].id < products[j].id)
  }

  // ---------------------------------------------------------------------------
  // Id assignment

  /** The id `/addproduct` gives a new product: the id of the last product plus
      one, or 1 for an empty catalog. In a well-numbered catalog it is positive
      and larger than every id in use. */
  function NextId(products: seq<Product>): (id: int)
    ensures WellNumbered(products) ==> id >= 1
    ensures WellNumbered(products) ==> forall p :: p in products ==> p.id < id
  {
    if |products| > 0 then products[|products| - 1].id + 1 else 1
  }

  /** The largest id in use, 0 for an empty catalog: a reference definition for
      "max + 1" numbering. */
  function MaxId(products: seq<Product>): (m: int)
    ensures products == [] ==> m == 0
    ensures forall p :: p in products ==> p.id <= m
    ensures products != [] ==> m == 0 || exists i :: 0 <= i < |products| && products[i].id == m
  {
    if products == [] then 0
    else
      var rest := MaxId(products[1..]);
      assert forall p :: p in products[1..] ==> p in products;
      if products[0].id > rest then products[0].id else rest
  }

  /** In a well-numbered catalog, "last id + 1" is the same as "largest id + 1". */
  lemma NextIdIsMaxPlusOne(products: seq<Product>)
    requires WellNumbered(products)
    ensures NextId(products) == MaxId(products) + 1
  {
  }

  /** Appending a product numbered by NextId keeps the catalog well numbered. */
  lemma AppendKeepsNumbering(products: seq<Product>, p: Product)
    requires WellNumbered(products)
    requires p.id == NextId(products)
    ensures WellNumbered(products + [p])
  {
  }

  // ---------------------------------------------------------------------------
  // Removal

  /** Position of the first product with the given id, or the catalog's length
      when none has it. */
  function IndexOfId(products: seq<Product>, id: int): (k: nat)
    ensures k <= |products|
    ensures forall i :: 0 <= i < k ==> products[i].id != id
    ensures k < |products| ==> products[k].id == id
  {
    if products == [] then 0
    else if products[0].id == id then 0
    else 1 + IndexOfId(products[1..], id)
  }

  /** `/removeproduct`: deletes the first product whose id matches and keeps every
      other product in its order; a catalog without that id is left as it is. */
  function RemoveFirst(products: seq<Product>, id: int): (r: seq<Product>)
    ensures var k := IndexOfId(products, id);
      r == if k < |products| then products[..k] + products[k + 1..] else products
  {
    if products == [] then []
    else if products[0].id == id then products[1..]
    else
      var k := IndexOfId(products[1..], id);
      assert IndexOfId(products, id) == k + 1;
      DeleteAfterHead(products, k);
      [products[0]] + RemoveFirst(products[1..], id)
  }

  /** Putting the head back in front of the tail with its position k deleted is
      deleting position k + 1 of the whole; with nothing deleted from the tail
      it gives back the whole. */
  lemma DeleteAfterHead(s: seq<Product>, k: nat)
    requires k < |s|
    ensures k < |s| - 1 ==> [s[0]] + (s[1..][..k] + s[1..][k + 1..]) == s[..k + 1] + s[k + 2..]
    ensures [s[0]] + s[1..] == s
  {
    if k < |s| - 1 {
      assert s[1..][..k] == s[1..k + 1];
      assert s[1..][k + 1..] == s[k + 2..];
      assert s[..k + 1] == [s[0]] + s[1..k + 1];
    }
  }

  /** Deleting one element keeps the catalog well numbered. */
  lemma DeleteAtKeepsNumbering(products: seq<Product>, k: nat)
    requires WellNumbered(products) && k < |products|
    ensures WellNumbered(products[..k] + products[k + 1..])
  {
  }

  /** Removal keeps the catalog well numbered, and since ids are then unique it
      leaves no product with the removed id behind. */
  lemma {:induction false} RemoveKeepsNumbering(products: seq<Product>, id: int)
    requires WellNumbered(products)
    ensures WellNumbered(RemoveFirst(products, id))
    ensures forall p :: p in RemoveFirst(products, id) ==> p.id != id
  {
    var k := IndexOfId(products, id);
    if k < |products| {
      DeleteAtKeepsNumbering(products, k);
      var s := products[..k] + products[k + 1..];
      forall p | p in s ensures p.id != id {
        var i :| 0 <= i < |s| && s[i] == p;
        assert s[i] == products[if i < k then i else i + 1];
      }
    }
  }

  /** Ids are not sequence numbers: removing the newest product and adding
      another hands out the removed id again. */
  lemma LastIdReissued(products: seq<Product>, p: Product)
    requires WellNumbered(products)
    requires p.id == NextId(products)
    ensures RemoveFirst(products + [p], p.id) == products
    ensures NextId(RemoveFirst(products + [p], p.id)) == p.id
  {
    var s := products + [p];
    var k := IndexOfId(s, p.id);
    assert k == |products| by {
      assert s[|products|].id == p.id;
    }
    assert s[..k] == products;
  }

  // ---------------------------------------------------------------------------
  // Queries

  /** `products.slice(1).slice(-n)` for n >= 1 (`slice(-0)` would return the
      whole array): the newest n products, never the first one. */
  function NewestAfterFirst(products: seq<Product>, n: nat): (r: seq<Product>)
    requires n > 0
    ensures |r| == if products == [] then 0 else Min(n, |products| - 1)
    ensures r == products[|products| - |r|..]
    ensures products != [] ==> |r| < |products|
  {
    var rest := if products == [] then [] else products[1..];
    if |rest| <= n then rest else rest[|rest| - n..]
  }

  /** `/newcollections`: every product but the first while there are at most
      nine, otherwise the newest eight. */
  function NewCollections(products: seq<Product>): (r: seq<Product>)
    ensures |r| <= 8
    ensures products == [] ==> r == []
    ensures 1 <= |products| <= 9 ==> r == products[1..]
    ensures |products| > 9 ==> r == products[|products| - 8..]
  {
    NewestAfterFirst(products, 8)
  }

  /** `/relatedproducts`: every product but the first while there are at most
      five, otherwise the newest four. */
  function RelatedProducts(products: seq<Product>): (r: seq<Product>)
    ensures |r| <= 4
    ensures products == [] ==> r == []
    ensures 1 <= |products| <= 5 ==> r == products[1..]
    ensures |products| > 5 ==> r == products[|products| - 4..]
  {
    NewestAfterFirst(products, 4)
  }

  /** The related products are the newest (up to) four of the new collection. */
  lemma RelatedWithinNewCollections(products: seq<Product>)
    ensures var newest := NewCollections(products);
      var related := RelatedProducts(products);
      |related| == Min(4, |newest|) && related == newest[|newest| - |related|..]
  {
  }

  /** The products of the popular category, in catalog order. */
  function InCategory(products: seq<Product>): (r: seq<Product>)
    ensures forall p :: p in r <==> p in products && p.category == PopularCategory
    ensures |r| <= |products|
  {
    if products == [] then []
    else
      assert forall p :: p in products <==> p == products[0] || p in products[1..];
      (if products[0].category == PopularCategory then [products[0]] else []) + InCategory(products[1..])
  }

  /** Filtering commutes with concatenation, so the filter keeps catalog order. */
  lemma {:induction false} InCategoryDistributes(s: seq<Product>, t: seq<Product>)
    ensures InCategory(s + t) == InCategory(s) + InCategory(t)
  {
    if s != [] {
      assert (s + t)[1..] == s[1..] + t;
      InCategoryDistributes(s[1..], t);
    } else {
      assert s + t == t;
    }
  }

  /** `/popularindc`: the first four products of category "dc", in catalog order
      (all of them when there are fewer). */
  function PopularInDc(products: seq<Product>): (r: seq<Product>)
    ensures |r| == Min(4, |InCategory(products)|)
    ensures r == InCategory(products)[..|r|]
    ensures forall p :: p in r ==> p in products && p.category == PopularCategory
  {
    var dc := InCategory(products);
    if |dc| <= 4 then dc else dc[..4]
  }

  /** Once the catalog holds four "dc" products, adding products never changes
      the popular list. */
  lemma PopularStableUnderAppend(products: seq<Product>, added: seq<Product>)
    requires |InCategory(products)| >= 4
    ensures PopularInDc(products + added) == PopularInDc(products)
  {
    InCategoryDistributes(products, added);
  }
}
