/** The database session as a mutable store: the five tables of models.py as
    fields that the routes and the import reassign. A committed change
    replaces a table; a rolled-back one leaves it as it was. */
module Catalogue {
  import opened Models

  class Store {
    var productTypes: map<int, ProductType>
    var materialTypes: map<int, MaterialType>
    var workshops: map<int, Workshop>
    var products: map<int, Product>
    var links: seq<ProductWorkshop>

    /** The tables as one value. */
    function Tables(): Db
      reads this
    {
      Db(productTypes, materialTypes, workshops, products, links)
    }

    /** Every constraint the schema declares holds. */
    predicate Valid()
      reads this
    {
      Consistent(Tables())
    }

    /** `db.create_all()` on an empty database. */
    constructor ()
      ensures Tables() == EmptyDb
      ensures Valid()
    {
      productTypes := map[];
      materialTypes := map[];
      workshops := map[];
      products := map[];
      links := [];
    }

    /** The clearing step of the import (init_db.py:10-15): links first, then
        products, workshops, material types and product types, then commit. */
    method Clear()
      modifies this
      ensures Tables() == EmptyDb
      ensures Valid()
    {
      links := [];
      products := map[];
      workshops := map[];
      materialTypes := map[];
      productTypes := map[];
    }
  }

  /** The key SQLite gives the next inserted row of a table whose primary key
      is an integer: one more than the largest key present, 1 for an empty
      table. */
  method NextRowId(keys: set<int>) returns (id: int)
    ensures id !in keys
    ensures forall k :: k in keys ==> k < id
    ensures keys == {} ==> id == 1
    ensures keys != {} ==> id - 1 in keys
  {
    if keys == {} {
      return 1;
    }
    NonEmpty(keys);
    var first :| first in keys;
    var largest := first;
    var rest := keys - {first};
    while rest != {}
      invariant rest <= keys && largest in keys
      invariant forall k :: k in keys && k !in rest ==> k <= largest
      decreases |rest|
    {
      NonEmpty(rest);
      var k :| k in rest;
      if k > largest {
        largest := k;
      }
      rest := rest - {k};
    }
    id := largest + 1;
  }

  /** `query.filter_by(...).first()` over the ids a filter selects: the row
      with the least id, or None when nothing matches. */
  method FirstId(ids: set<int>) returns (r: Option<int>)
    ensures r == FirstOf(ids)
    ensures r.None? <==> ids == {}
    ensures r.Some? ==> r.value in ids && forall k :: k in ids ==> r.value <= k
  {
    if ids == {} {
      return None;
    }
    NonEmpty(ids);
    var first :| first in ids;
    var least := first;
    var rest := ids - {first};
    while rest != {}
      invariant rest <= ids && least in ids
      invariant forall k :: k in ids && k !in rest ==> least <= k
      decreases |rest|
    {
      NonEmpty(rest);
      var k :| k in rest;
      if k < least {
        least := k;
      }
      rest := rest - {k};
    }
    assert IsLeast(least, ids);
    assert IsLeast(Least(ids), ids);
    r := Some(least);
  }
}
