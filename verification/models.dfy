/** The catalogue schema (models.py): one datatype per table row, the tables
    as finite maps from primary key to row, and the constraints the schema
    declares as predicates over those tables. */
module Models {

  datatype Option<T> = None | Some(value: T)

  /** models.py:6-12. `coefficient` is a non-null column; the calculator still
      checks it for null, so the model lets it be absent and makes presence an
      invariant. */
  datatype ProductType = ProductType(name: string, coefficient: Option<real>)

  /** models.py:14-20. `wastePercentage` is a fraction: 0.008 means 0.8 %. */
  datatype MaterialType = MaterialType(name: string, wastePercentage: real)

  /** models.py:22-28 */
  datatype Workshop = Workshop(name: string, workerCount: int)

  /** models.py:30-45 without the two timestamps. */
  datatype Product = Product(
    article: string,
    productTypeId: int,
    name: string,
    description: Option<string>,
    minCostForPartner: real,
    mainMaterialId: Option<int>,
    parameter1: real,
    parameter2: real,
    productionTime: real)

  /** models.py:47-55 without the row's own id, which no code reads. */
  datatype ProductWorkshop = ProductWorkshop(
    productId: int,
    workshopId: int,
    timeInWorkshop: real,
    workerCount: int)

  /** The production time column's default (models.py:41): no code path
      writes the column, so every product keeps it. */
  const DefaultProductionTime: real := 0.0

  /** The five tables. */
  datatype Db = Db(
    productTypes: map<int, ProductType>,
    materialTypes: map<int, MaterialType>,
    workshops: map<int, Workshop>,
    products: map<int, Product>,
    links: seq<ProductWorkshop>)

  const EmptyDb: Db := Db(map[], map[], map[], map[], [])

  /** A unique column over a table: no two rows share the key. */
  predicate UniqueBy<T, K(==)>(m: map<int, T>, key: T -> K)
  {
    forall i, j :: i in m && j in m && key(m[i]) == key(m[j]) ==> i == j
  }

  /** The same for rows not yet numbered: no two entries share the key. */
  predicate DistinctBy<T, K(==)>(s: seq<T>, key: T -> K)
  {
    forall i, j :: 0 <= i < j < |s| ==> key(s[i]) != key(s[j])
  }

  function PairOf(l: ProductWorkshop): (int, int)
  {
    (l.productId, l.workshopId)
  }

  /** models.py:55: one row per (product, workshop) pair. */
  predicate UniquePairs(links: seq<ProductWorkshop>)
  {
    DistinctBy(links, PairOf)
  }

  predicate CoefficientsPresent(types: map<int, ProductType>)
  {
    forall id :: id in types ==> types[id].coefficient.Some?
  }

  /** Foreign keys of `products` (models.py:34, 38). */
  predicate ProductRefsResolve(db: Db)
  {
    forall id :: id in db.products ==>
      db.products[id].productTypeId in db.productTypes &&
      (db.products[id].mainMaterialId.Some? ==> db.products[id].mainMaterialId.value in db.materialTypes)
  }

  /** Foreign keys of `product_workshops` (models.py:50-51). */
  predicate LinkRefsResolve(db: Db)
  {
    forall i :: 0 <= i < |db.links| ==>
      db.links[i].productId in db.products && db.links[i].workshopId in db.workshops
  }

  /** The unique columns (models.py:9, 17, 25, 33). */
  function TypeName(t: ProductType): string { t.name }
  function MaterialName(m: MaterialType): string { m.name }
  function WorkshopName(w: Workshop): string { w.name }
  function ArticleOf(p: Product): string { p.article }

  /** Every constraint the schema declares. */
  predicate Consistent(db: Db)
  {
    && UniqueBy(db.productTypes, TypeName)
    && CoefficientsPresent(db.productTypes)
    && UniqueBy(db.materialTypes, MaterialName)
    && UniqueBy(db.workshops, WorkshopName)
    && UniqueBy(db.products, ArticleOf)
    && UniquePairs(db.links)
    && ProductRefsResolve(db)
    && LinkRefsResolve(db)
  }

  /** Rows inserted one after another into an emptied table get the keys 1..n. */
  function Numbered<T>(rows: seq<T>): (m: map<int, T>)
    ensures forall i :: i in m <==> 1 <= i <= |rows|
    ensures forall i :: 1 <= i <= |rows| ==> m[i] == rows[i - 1]
  {
    if rows == [] then map[]
    else Numbered(rows[..|rows| - 1])[|rows| := rows[|rows| - 1]]
  }

  /** A unique constraint holds on the numbered table exactly when the rows
      inserted have distinct keys. */
  lemma NumberedUniqueIff<T, K>(rows: seq<T>, key: T -> K)
    ensures UniqueBy(Numbered(rows), key) <==> DistinctBy(rows, key)
  {
    var m := Numbered(rows);
    if DistinctBy(rows, key) {
      forall i, j | i in m && j in m && i != j
        ensures key(m[i]) != key(m[j])
      {
        if i < j {
          assert key(rows[i - 1]) != key(rows[j - 1]);
        } else {
          assert key(rows[j - 1]) != key(rows[i - 1]);
        }
      }
    } else {
      var i, j :| 0 <= i < j < |rows| && key(rows[i]) == key(rows[j]);
      assert i + 1 in m && j + 1 in m && key(m[i + 1]) == key(m[j + 1]);
    }
  }

  /** The links left after the cascade delete of product `pid` (app.py:102). */
  function LinksWithout(links: seq<ProductWorkshop>, pid: int): (r: seq<ProductWorkshop>)
    ensures forall l :: l in r <==> l in links && l.productId != pid
    ensures |r| <= |links|
  {
    if links == [] then []
    else if links[0].productId == pid then LinksWithout(links[1..], pid)
    else [links[0]] + LinksWithout(links[1..], pid)
  }

  lemma {:induction false} LinksWithoutKeepsPairsUnique(links: seq<ProductWorkshop>, pid: int)
    requires UniquePairs(links)
    ensures UniquePairs(LinksWithout(links, pid))
  {
    if links != [] {
      var rest := links[1..];
      assert UniquePairs(rest) by {
        forall i, j | 0 <= i < j < |rest| ensures PairOf(rest[i]) != PairOf(rest[j]) {
          assert rest[i] == links[i + 1] && rest[j] == links[j + 1];
        }
      }
      LinksWithoutKeepsPairsUnique(rest, pid);
      if links[0].productId != pid {
        var tail := LinksWithout(rest, pid);
        var r := [links[0]] + tail;
        forall i, j | 0 <= i < j < |r| ensures PairOf(r[i]) != PairOf(r[j]) {
          if i == 0 {
            assert r[j] in rest;
            var k :| 0 <= k < |rest| && rest[k] == r[j];
            assert links[k + 1] == r[j];
          } else {
            assert r[i] == tail[i - 1] && r[j] == tail[j - 1];
          }
        }
      }
    }
  }

  /** A non-empty set has an element. */
  lemma NonEmpty(s: set<int>)
    requires s != {}
    ensures exists x :: x in s
  {
    if forall x :: x !in s {
      assert false;
    }
  }

  ghost predicate IsLeast(k: int, s: set<int>)
  {
    k in s && forall j :: j in s ==> k <= j
  }

  /** Least element of a non-empty set of keys: the row `first()` returns
      when a query has no ORDER BY. */
  ghost function Least(s: set<int>): (k: int)
    requires s != {}
    ensures IsLeast(k, s)
  {
    LeastExists(s);
    var k :| IsLeast(k, s);
    k
  }

  lemma {:induction false} LeastExists(s: set<int>)
    requires s != {}
    ensures exists k :: IsLeast(k, s)
  {
    NonEmpty(s);
    var x :| x in s;
    if s == {x} {
      assert IsLeast(x, s);
    } else {
      LeastExists(s - {x});
      var k :| IsLeast(k, s - {x});
      LeastOfInsert(s, x, k);
    }
  }

  lemma LeastOfInsert(s: set<int>, x: int, k: int)
    requires x in s && IsLeast(k, s - {x})
    ensures IsLeast(if x < k then x else k, s)
  {
    forall j | j in s
      ensures (if x < k then x else k) <= j
    {
      if j != x {
        assert j in s - {x};
      }
    }
  }

  ghost function FirstOf(s: set<int>): Option<int>
  {
    if s == {} then None else Some(Least(s))
  }

  function TypeIdsNamed(types: map<int, ProductType>, name: string): set<int>
  {
    set id | id in types && types[id].name == name
  }

  function MaterialIdsNamed(materials: map<int, MaterialType>, name: string): set<int>
  {
    set id | id in materials && materials[id].name == name
  }

  function WorkshopIdsNamed(workshops: map<int, Workshop>, name: string): set<int>
  {
    set id | id in workshops && workshops[id].name == name
  }

  function ProductIdsNamed(products: map<int, Product>, name: string): set<int>
  {
    set id | id in products && products[id].name == name
  }

  function ProductIdsWithArticle(products: map<int, Product>, article: string): set<int>
  {
    set id | id in products && products[id].article == article
  }
}
