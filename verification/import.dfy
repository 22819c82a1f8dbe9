/** `import_data` (init_db.py:6-125): empty the five tables, then fill them
    from five spreadsheets, one table at a time, committing after each. A
    stage whose commit violates a unique constraint, or whose waste cell
    cannot be parsed, raises out of the script: that stage's rows are lost and
    the tables committed before it stay. The spreadsheets arrive as
    sequences of already-read rows. */
module Import {
  import opened Models
  import opened Text
  import opened Waste
  import opened Catalogue

  /** The worker counts the import gives (init_db.py:76, 121). */
  const ImportWorkshopWorkers: int := 5
  const ImportLinkWorkers: int := 3
  /** The parameters an imported product gets (init_db.py:97-98). */
  const ImportParameter: real := 1.0

  datatype ProductTypeRow = ProductTypeRow(name: string, coefficient: real)
  /** `waste` is the cell as text. */
  datatype MaterialRow = MaterialRow(name: string, waste: string)
  datatype ProductRow = ProductRow(article: string, productType: string, name: string,
                                   minCost: real, material: string)
  datatype LinkRow = LinkRow(productName: string, workshopName: string, hours: real)

  datatype Sheets = Sheets(
    productTypes: seq<ProductTypeRow>,
    materials: seq<MaterialRow>,
    workshopNames: seq<string>,
    products: seq<ProductRow>,
    links: seq<LinkRow>)

  datatype Stage = ProductTypesStage | MaterialTypesStage | WorkshopsStage | ProductsStage | LinksStage

  datatype ImportResult = Completed | Aborted(stage: Stage)

  // ---------------------------------------------------------------------
  // What each stage inserts
  // ---------------------------------------------------------------------

  /** init_db.py:20-25: one product type per row, in order. */
  function ProductTypesFrom(rows: seq<ProductTypeRow>): (r: seq<ProductType>)
    ensures |r| == |rows|
    ensures forall i :: 0 <= i < |r| ==> r[i] == ProductType(rows[i].name, Some(rows[i].coefficient))
  {
    if rows == [] then []
    else ProductTypesFrom(rows[..|rows| - 1]) + [ProductType(rows[|rows| - 1].name, Some(rows[|rows| - 1].coefficient))]
  }

  /** The waste fraction stored for a cell (init_db.py:33-53): the cell is
      stripped and normalised. */
  function StoredWaste(cell: string): (r: Option<real>)
    ensures r.Some? ==> r.value >= 0.0
  {
    NormalizeWaste(Strip(cell))
  }

  /** The `.strip()` of init_db.py:33 never changes the stored waste. */
  lemma StoredWasteIgnoresSpaces(cell: string)
    ensures StoredWaste(cell) == NormalizeWaste(cell)
  {
    var a, b :| 0 <= a <= b <= |cell| && Strip(cell) == cell[a..b] && IsBlank(cell[..a]) && IsBlank(cell[b..]);
    assert IsBlank(cell[..a]);
    forall i | 0 <= i < a ensures !IsTokenChar(cell[i]) {
      assert IsWhitespace(cell[..a][i]);
    }
    assert IsBlank(cell[b..]);
    forall i | b <= i < |cell| ensures !IsTokenChar(cell[i]) {
      assert IsWhitespace(cell[b..][i - b]);
    }
    FirstTokenOfSlice(cell, a, b);
  }

  /** The waste each row stores, or None where `float()` raises. */
  function Wastes(rows: seq<MaterialRow>): (r: seq<Option<real>>)
  {
    seq(|rows|, i requires 0 <= i < |rows| => StoredWaste(rows[i].waste))
  }

  /** One material per row from waste values already read, in order, or
      None as soon as one of them is None. */
  function Collect(rows: seq<MaterialRow>, wastes: seq<Option<real>>): (r: Option<seq<MaterialType>>)
    requires |wastes| == |rows|
    ensures r.Some? ==> |r.value| == |rows|
  {
    if rows == [] then Some([])
    else
      match Collect(rows[..|rows| - 1], wastes[..|wastes| - 1])
      case None => None
      case Some(done) =>
        match wastes[|wastes| - 1]
        case None => None
        case Some(w) => Some(done + [MaterialType(rows[|rows| - 1].name, w)])
  }

  lemma {:induction false} CollectRows(rows: seq<MaterialRow>, wastes: seq<Option<real>>)
    requires |wastes| == |rows|
    ensures Collect(rows, wastes).Some? ==> forall i :: 0 <= i < |rows| ==>
              && Collect(rows, wastes).value[i].name == rows[i].name
              && Some(Collect(rows, wastes).value[i].wastePercentage) == wastes[i]
  {
    if rows != [] && Collect(rows, wastes).Some? {
      var prefix, front := rows[..|rows| - 1], wastes[..|wastes| - 1];
      CollectRows(prefix, front);
      var done := Collect(prefix, front).value;
      var all := Collect(rows, wastes).value;
      forall i | 0 <= i < |rows|
        ensures all[i].name == rows[i].name && Some(all[i].wastePercentage) == wastes[i]
      {
        if i < |prefix| {
          assert all[i] == done[i] && prefix[i] == rows[i] && front[i] == wastes[i];
        }
      }
    }
  }

  /** Reading one more row extends the materials by that row's. */
  lemma CollectStep(rows: seq<MaterialRow>, wastes: seq<Option<real>>, i: nat)
    requires |wastes| == |rows| && i < |rows|
    ensures Collect(rows[..i + 1], wastes[..i + 1]) ==
              match Collect(rows[..i], wastes[..i])
              case None => None
              case Some(done) =>
                match wastes[i]
                case None => None
                case Some(w) => Some(done + [MaterialType(rows[i].name, w)])
  {
    assert rows[..i + 1][..i] == rows[..i] && wastes[..i + 1][..i] == wastes[..i];
  }

  lemma {:induction false} CollectFails(rows: seq<MaterialRow>, wastes: seq<Option<real>>)
    requires |wastes| == |rows|
    ensures Collect(rows, wastes).None? <==> exists i :: 0 <= i < |wastes| && wastes[i].None?
  {
    if rows != [] {
      var prefix, front := rows[..|rows| - 1], wastes[..|wastes| - 1];
      CollectFails(prefix, front);
      if Collect(prefix, front).None? {
        var i :| 0 <= i < |front| && front[i].None?;
        assert wastes[i].None?;
      } else if wastes[|wastes| - 1].None? {
        assert Collect(rows, wastes).None?;
      } else {
        assert Collect(rows, wastes).Some?;
        forall i | 0 <= i < |wastes|
          ensures wastes[i].Some?
        {
          if i < |front| {
            assert front[i] == wastes[i];
          }
        }
      }
    }
  }

  /** init_db.py:31-61: one material per row with its normalised waste, or
      None as soon as one waste cell makes `float()` raise. */
  function MaterialTypesFrom(rows: seq<MaterialRow>): (r: Option<seq<MaterialType>>)
    ensures r.Some? ==> |r.value| == |rows|
  {
    Collect(rows, Wastes(rows))
  }

  /** Each staged material keeps its row's name and stores the row's
      normalised, non-negative waste. */
  lemma MaterialTypesFromRows(rows: seq<MaterialRow>)
    ensures MaterialTypesFrom(rows).Some? ==> forall i :: 0 <= i < |rows| ==>
              && MaterialTypesFrom(rows).value[i].name == rows[i].name
              && Some(MaterialTypesFrom(rows).value[i].wastePercentage) == StoredWaste(rows[i].waste)
              && MaterialTypesFrom(rows).value[i].wastePercentage >= 0.0
  {
    CollectRows(rows, Wastes(rows));
  }

  /** The material stage stops exactly when some waste cell cannot be
      parsed. */
  lemma MaterialTypesFromFails(rows: seq<MaterialRow>)
    ensures MaterialTypesFrom(rows).None? <==> exists i :: 0 <= i < |rows| && StoredWaste(rows[i].waste).None?
  {
    var wastes := Wastes(rows);
    CollectFails(rows, wastes);
    if MaterialTypesFrom(rows).None? {
      var i :| 0 <= i < |wastes| && wastes[i].None?;
      assert StoredWaste(rows[i].waste).None?;
    } else {
      forall i | 0 <= i < |rows|
        ensures StoredWaste(rows[i].waste).Some?
      {
        assert wastes[i].Some?;
      }
    }
  }

  /** Where x first occurs in s. */
  function FirstIndex(s: seq<string>, x: string): (k: nat)
    requires x in s
    ensures k < |s| && s[k] == x
    ensures forall j :: 0 <= j < k ==> s[j] != x
  {
    if s[0] == x then 0
    else
      var k := FirstIndex(s[1..], x);
      assert forall j :: 1 <= j <= k ==> s[j] == s[1..][j - 1];
      1 + k
  }

  /** Appending a value does not move the first occurrence of an earlier one. */
  lemma FirstIndexPrefix(s: seq<string>, x: string)
    requires s != [] && x in s[..|s| - 1]
    ensures FirstIndex(s, x) == FirstIndex(s[..|s| - 1], x)
  {
    var k := FirstIndex(s[..|s| - 1], x);
    assert s[k] == x;
  }

  /** pandas `unique()`: each value once, in order of first appearance. */
  function Distinct(s: seq<string>): (r: seq<string>)
    ensures forall x :: x in r <==> x in s
    ensures forall i, j :: 0 <= i < j < |r| ==> r[i] != r[j]
    ensures forall i, j :: 0 <= i < j < |r| ==> FirstIndex(s, r[i]) < FirstIndex(s, r[j])
  {
    if s == [] then []
    else
      var prefix := s[..|s| - 1];
      var last := s[|s| - 1];
      var d := Distinct(prefix);
      assert forall x :: x in s <==> x in prefix || x == last by {
        assert s == prefix + [last];
      }
      forall x | x in prefix
        ensures FirstIndex(s, x) == FirstIndex(prefix, x) < |prefix|
      {
        FirstIndexPrefix(s, x);
      }
      if last in prefix then d else d + [last]
  }

  /** init_db.py:69-78 over the distinct names: each is stripped, blank ones
      are skipped, the others become workshops with five workers. */
  function WorkshopRows(names: seq<string>): (r: seq<Workshop>)
    ensures |r| <= |names|
  {
    if names == [] then []
    else
      var prefix := names[..|names| - 1];
      var last := names[|names| - 1];
      var rest := WorkshopRows(prefix);
      if Strip(last) == [] then rest else rest + [Workshop(Strip(last), ImportWorkshopWorkers)]
  }

  /** A workshop is staged exactly for each non-blank name, stripped. */
  lemma {:induction false} WorkshopRowsMembers(names: seq<string>)
    ensures forall w :: w in WorkshopRows(names) <==>
              exists n :: n in names && !IsBlank(n) && w == Workshop(Strip(n), ImportWorkshopWorkers)
  {
    if names != [] {
      var prefix := names[..|names| - 1];
      var last := names[|names| - 1];
      WorkshopRowsMembers(prefix);
      assert forall n :: n in names <==> n in prefix || n == last by {
        assert names == prefix + [last];
      }
    }
  }

  /** init_db.py:67-78: the workshops staged from the column of names. */
  function WorkshopsFrom(names: seq<string>): (r: seq<Workshop>)
    ensures forall w :: w in r <==>
              exists n :: n in names && !IsBlank(n) && w == Workshop(Strip(n), ImportWorkshopWorkers)
    ensures forall w :: w in r ==> w.workerCount == ImportWorkshopWorkers && w.name != []
  {
    WorkshopRowsMembers(Distinct(names));
    WorkshopRows(Distinct(names))
  }

  /** No two different non-blank names strip to the same workshop name. */
  ghost predicate StripsApart(names: seq<string>)
  {
    forall m, n :: m in names && n in names && !IsBlank(m) && !IsBlank(n) && m != n ==> Strip(m) != Strip(n)
  }

  lemma DistinctByAppend(s: seq<Workshop>, w: Workshop)
    ensures DistinctBy(s + [w], WorkshopName) <==>
              DistinctBy(s, WorkshopName) && forall v :: v in s ==> v.name != w.name
  {
    var t := s + [w];
    assert forall i :: 0 <= i < |s| ==> t[i] == s[i];
    if DistinctBy(t, WorkshopName) {
      forall v | v in s ensures v.name != w.name {
        var i :| 0 <= i < |s| && s[i] == v;
        assert WorkshopName(t[i]) != WorkshopName(t[|s|]);
      }
    }
  }

  /** One more name keeps the names apart exactly when the earlier ones were
      apart and, if it is not blank, no earlier non-blank name strips like it. */
  lemma StripsApartLast(u: seq<string>)
    requires u != [] && u[|u| - 1] !in u[..|u| - 1]
    ensures StripsApart(u) <==>
              StripsApart(u[..|u| - 1]) &&
              (!IsBlank(u[|u| - 1]) ==> forall n :: n in u[..|u| - 1] && !IsBlank(n) ==> Strip(n) != Strip(u[|u| - 1]))
  {
    assert u == u[..|u| - 1] + [u[|u| - 1]];
    assert forall n :: n in u <==> n in u[..|u| - 1] || n == u[|u| - 1];
  }

  /** No name occurs twice. */
  predicate NoRepeats(u: seq<string>)
  {
    forall i, j :: 0 <= i < j < |u| ==> u[i] != u[j]
  }

  /** Dropping the last of names without repeats leaves names without
      repeats, none of them equal to the dropped one. */
  lemma LastIsNew(u: seq<string>)
    requires u != []
    requires NoRepeats(u)
    ensures u[|u| - 1] !in u[..|u| - 1]
    ensures NoRepeats(u[..|u| - 1])
  {
    assert forall i :: 0 <= i < |u| - 1 ==> u[..|u| - 1][i] == u[i];
  }

  /** A new workshop name clashes with none staged from p exactly when it
      differs from every non-blank name of p once stripped. */
  lemma NewWorkshopName(p: seq<string>, name: string)
    ensures (forall v :: v in WorkshopRows(p) ==> v.name != name) <==>
            (forall n :: n in p && !IsBlank(n) ==> Strip(n) != name)
  {
    WorkshopRowsMembers(p);
    if forall v :: v in WorkshopRows(p) ==> v.name != name {
      forall n | n in p && !IsBlank(n) ensures Strip(n) != name {
        assert Workshop(Strip(n), ImportWorkshopWorkers) in WorkshopRows(p);
      }
    }
  }

  /** Over names without repeats, the staged workshop names are distinct
      exactly when no two names strip alike. */
  lemma {:induction false} WorkshopRowsDistinct(u: seq<string>)
    requires NoRepeats(u)
    ensures DistinctBy(WorkshopRows(u), WorkshopName) <==> StripsApart(u)
  {
    if u != [] {
      var p := u[..|u| - 1];
      var x := u[|u| - 1];
      LastIsNew(u);
      WorkshopRowsDistinct(p);
      StripsApartLast(u);
      if Strip(x) != [] {
        DistinctByAppend(WorkshopRows(p), Workshop(Strip(x), ImportWorkshopWorkers));
        NewWorkshopName(p, Strip(x));
      }
    }
  }

  /** The workshop stage keeps the unique name constraint exactly when
      different non-blank cells of the column never strip to the same name:
      cells differing only in surrounding whitespace collide. */
  lemma WorkshopsFromDistinct(names: seq<string>)
    ensures DistinctBy(WorkshopsFrom(names), WorkshopName) <==> StripsApart(names)
  {
    WorkshopRowsDistinct(Distinct(names));
  }

  /** A product row resolves when both its type and its material are found
      by name (init_db.py:87-90). */
  ghost predicate ProductRowResolves(row: ProductRow, types: map<int, ProductType>, materials: map<int, MaterialType>)
  {
    FirstOf(TypeIdsNamed(types, row.productType)).Some? && FirstOf(MaterialIdsNamed(materials, row.material)).Some?
  }

  /** The product inserted for a resolving row (init_db.py:91-99). */
  ghost function ImportedProduct(row: ProductRow, types: map<int, ProductType>,
                                 materials: map<int, MaterialType>): (p: Product)
    requires ProductRowResolves(row, types, materials)
    ensures p.productTypeId in types && types[p.productTypeId].name == row.productType
    ensures p.mainMaterialId.Some? && p.mainMaterialId.value in materials
    ensures materials[p.mainMaterialId.value].name == row.material
    ensures p.article == row.article && p.name == row.name && p.minCostForPartner == row.minCost
    ensures p.parameter1 == ImportParameter && p.parameter2 == ImportParameter
    ensures p.description.None? && p.productionTime == DefaultProductionTime
  {
    Product(row.article, FirstOf(TypeIdsNamed(types, row.productType)).value, row.name, None, row.minCost,
            FirstOf(MaterialIdsNamed(materials, row.material)), ImportParameter, ImportParameter,
            DefaultProductionTime)
  }

  /** init_db.py:85-100: one product per resolving row; the others are
      skipped without a message. The ensures give membership only: the
      order, which `Numbered` turns into the ids, is the rows' order by the
      definition below, and `StageProducts` is proved equal to it. */
  ghost function ProductsFrom(rows: seq<ProductRow>, types: map<int, ProductType>,
                              materials: map<int, MaterialType>): (r: seq<Product>)
    ensures |r| <= |rows|
    ensures forall p :: p in r <==>
              exists row :: row in rows && ProductRowResolves(row, types, materials)
                            && p == ImportedProduct(row, types, materials)
  {
    if rows == [] then []
    else
      var prefix := rows[..|rows| - 1];
      var last := rows[|rows| - 1];
      var rest := ProductsFrom(prefix, types, materials);
      assert forall row :: row in rows <==> row in prefix || row == last by {
        assert rows == prefix + [last];
      }
      if ProductRowResolves(last, types, materials) then rest + [ImportedProduct(last, types, materials)]
      else rest
  }

  ghost predicate LinkRowResolves(row: LinkRow, products: map<int, Product>, workshops: map<int, Workshop>)
  {
    FirstOf(ProductIdsNamed(products, row.productName)).Some?
    && FirstOf(WorkshopIdsNamed(workshops, row.workshopName)).Some?
  }

  /** The link inserted for a resolving row (init_db.py:116-122). Product
      names are not unique: the product is the first one with that name. */
  ghost function ImportedLink(row: LinkRow, products: map<int, Product>, workshops: map<int, Workshop>)
    : (l: ProductWorkshop)
    requires LinkRowResolves(row, products, workshops)
    ensures l.productId in products && products[l.productId].name == row.productName
    ensures forall id :: id in products && products[id].name == row.productName ==> l.productId <= id
    ensures l.workshopId in workshops && workshops[l.workshopId].name == row.workshopName
    ensures l.timeInWorkshop == row.hours && l.workerCount == ImportLinkWorkers
  {
    assert forall id :: id in products && products[id].name == row.productName
                        ==> id in ProductIdsNamed(products, row.productName);
    ProductWorkshop(FirstOf(ProductIdsNamed(products, row.productName)).value,
                    FirstOf(WorkshopIdsNamed(workshops, row.workshopName)).value,
                    row.hours, ImportLinkWorkers)
  }

  /** init_db.py:107-123: one link per resolving row. As for
      `ProductsFrom`, the ensures give membership only, and the rows' order
      comes from the definition below, which `StageLinks` is proved equal to. */
  ghost function LinksFrom(rows: seq<LinkRow>, products: map<int, Product>,
                           workshops: map<int, Workshop>): (r: seq<ProductWorkshop>)
    ensures |r| <= |rows|
    ensures forall l :: l in r <==>
              exists row :: row in rows && LinkRowResolves(row, products, workshops)
                            && l == ImportedLink(row, products, workshops)
  {
    if rows == [] then []
    else
      var prefix := rows[..|rows| - 1];
      var last := rows[|rows| - 1];
      var rest := LinksFrom(prefix, products, workshops);
      assert forall row :: row in rows <==> row in prefix || row == last by {
        assert rows == prefix + [last];
      }
      if LinkRowResolves(last, products, workshops) then rest + [ImportedLink(last, products, workshops)]
      else rest
  }

  // ---------------------------------------------------------------------
  // The stages
  // ---------------------------------------------------------------------

  /** Product types with distinct names and a coefficient each make a
      consistent catalogue on their own. */
  lemma TypesTableConsistent(types: seq<ProductType>)
    requires DistinctBy(types, TypeName)
    requires forall i :: 0 <= i < |types| ==> types[i].coefficient.Some?
    ensures Consistent(EmptyDb.(productTypes := Numbered(types)))
  {
    NumberedUniqueIff(types, TypeName);
  }

  /** Materials with distinct names can join a catalogue that has no
      products yet. */
  lemma MaterialsTableConsistent(db: Db, materials: seq<MaterialType>)
    requires Consistent(db) && db.products == map[] && db.links == []
    requires DistinctBy(materials, MaterialName)
    ensures Consistent(db.(materialTypes := Numbered(materials)))
  {
    NumberedUniqueIff(materials, MaterialName);
  }

  /** Workshops with distinct names can join a catalogue that has no links
      yet. */
  lemma WorkshopsTableConsistent(db: Db, workshops: seq<Workshop>)
    requires Consistent(db) && db.links == []
    requires DistinctBy(workshops, WorkshopName)
    ensures Consistent(db.(workshops := Numbered(workshops)))
  {
    NumberedUniqueIff(workshops, WorkshopName);
  }

  /** Imported products with distinct articles can join a catalogue that has
      no links yet: their references resolve by construction. */
  lemma ProductsTableConsistent(db: Db, rows: seq<ProductRow>)
    requires Consistent(db) && db.links == []
    requires DistinctBy(ProductsFrom(rows, db.productTypes, db.materialTypes), ArticleOf)
    ensures Consistent(db.(products := Numbered(ProductsFrom(rows, db.productTypes, db.materialTypes))))
  {
    var products := ProductsFrom(rows, db.productTypes, db.materialTypes);
    NumberedUniqueIff(products, ArticleOf);
    var table := Numbered(products);
    forall id | id in table
      ensures table[id].productTypeId in db.productTypes
      ensures table[id].mainMaterialId.Some? && table[id].mainMaterialId.value in db.materialTypes
    {
      assert table[id] in products;
    }
  }

  /** Imported links with distinct pairs keep the catalogue consistent:
      their references resolve by construction. */
  lemma LinksTableConsistent(db: Db, rows: seq<LinkRow>)
    requires Consistent(db)
    requires UniquePairs(LinksFrom(rows, db.products, db.workshops))
    ensures Consistent(db.(links := LinksFrom(rows, db.products, db.workshops)))
  {
    var links := LinksFrom(rows, db.products, db.workshops);
    forall k | 0 <= k < |links|
      ensures links[k].productId in db.products && links[k].workshopId in db.workshops
    {
      assert links[k] in links;
    }
  }

  /** The loop of init_db.py:20-25: the product types staged in the session. */
  method StageProductTypes(rows: seq<ProductTypeRow>) returns (staged: seq<ProductType>)
    ensures staged == ProductTypesFrom(rows)
  {
    staged := [];
    var i := 0;
    while i < |rows|
      invariant 0 <= i <= |rows|
      invariant staged == ProductTypesFrom(rows[..i])
    {
      assert rows[..i + 1][..i] == rows[..i];
      staged := staged + [ProductType(rows[i].name, Some(rows[i].coefficient))];
      i := i + 1;
    }
    assert rows[..i] == rows;
  }

  /** init_db.py:17-26 on the emptied tables. */
  method ImportProductTypes(db: Store, rows: seq<ProductTypeRow>) returns (committed: bool)
    requires db.Tables() == EmptyDb
    modifies db`productTypes
    ensures db.Valid()
    ensures committed <==> DistinctBy(ProductTypesFrom(rows), TypeName)
    ensures committed ==> db.productTypes == Numbered(ProductTypesFrom(rows))
    ensures !committed ==> db.productTypes == map[]
  {
    var staged := StageProductTypes(rows);
    if !DistinctBy(staged, TypeName) {
      return false;
    }
    TypesTableConsistent(staged);
    db.productTypes := Numbered(staged);
    committed := true;
  }

  /** The loop of init_db.py:31-61: the materials staged in the session,
      or None when a waste cell makes `float()` raise. */
  method StageMaterialTypes(rows: seq<MaterialRow>) returns (staged: Option<seq<MaterialType>>)
    ensures staged == MaterialTypesFrom(rows)
  {
    ghost var wastes := Wastes(rows);
    var pending: seq<MaterialType> := [];
    var i := 0;
    while i < |rows|
      invariant 0 <= i <= |rows|
      invariant Collect(rows[..i], wastes[..i]) == Some(pending)
    {
      var waste := StoredWaste(rows[i].waste);
      CollectStep(rows, wastes, i);
      assert wastes[i] == waste;
      if waste.None? {
        CollectFails(rows, wastes);
        return None;
      }
      pending := pending + [MaterialType(rows[i].name, waste.value)];
      i := i + 1;
    }
    assert rows[..i] == rows && wastes[..i] == wastes;
    staged := Some(pending);
  }

  /** init_db.py:28-62, after the product types. */
  method ImportMaterialTypes(db: Store, rows: seq<MaterialRow>) returns (committed: bool)
    requires db.Valid()
    requires db.materialTypes == map[] && db.workshops == map[] && db.products == map[] && db.links == []
    modifies db`materialTypes
    ensures db.Valid()
    ensures committed <==> MaterialTypesFrom(rows).Some? && DistinctBy(MaterialTypesFrom(rows).value, MaterialName)
    ensures committed ==> db.materialTypes == Numbered(MaterialTypesFrom(rows).value)
    ensures !committed ==> db.materialTypes == map[]
  {
    var staged := StageMaterialTypes(rows);
    if staged.None? || !DistinctBy(staged.value, MaterialName) {
      return false;
    }
    MaterialsTableConsistent(db.Tables(), staged.value);
    db.materialTypes := Numbered(staged.value);
    committed := true;
  }

  /** One more name extends the workshops by at most one. */
  lemma WorkshopRowsStep(names: seq<string>, i: nat)
    requires i < |names|
    ensures WorkshopRows(names[..i + 1]) ==
              if Strip(names[i]) == [] then WorkshopRows(names[..i])
              else WorkshopRows(names[..i]) + [Workshop(Strip(names[i]), ImportWorkshopWorkers)]
  {
    assert names[..i + 1][..i] == names[..i];
  }

  /** init_db.py:67-78: `unique()` of the column, then the loop over it. */
  method StageWorkshops(names: seq<string>) returns (staged: seq<Workshop>)
    ensures staged == WorkshopsFrom(names)
  {
    var unique := Distinct(names);
    staged := StageWorkshopRows(unique);
  }

  /** The loop of init_db.py:69-78: a workshop per non-blank name, stripped. */
  method StageWorkshopRows(unique: seq<string>) returns (staged: seq<Workshop>)
    ensures staged == WorkshopRows(unique)
  {
    staged := [];
    var i := 0;
    while i < |unique|
      invariant 0 <= i <= |unique|
      invariant staged == WorkshopRows(unique[..i])
    {
      var clean := Strip(unique[i]);
      WorkshopRowsStep(unique, i);
      if clean != [] {
        staged := staged + [Workshop(clean, ImportWorkshopWorkers)];
      }
      i := i + 1;
    }
    assert unique[..i] == unique;
  }

  /** init_db.py:64-79, after the materials. */
  method ImportWorkshops(db: Store, names: seq<string>) returns (committed: bool)
    requires db.Valid()
    requires db.workshops == map[] && db.products == map[] && db.links == []
    modifies db`workshops
    ensures db.Valid()
    ensures committed <==> DistinctBy(WorkshopsFrom(names), WorkshopName)
    ensures committed ==> db.workshops == Numbered(WorkshopsFrom(names))
    ensures !committed ==> db.workshops == map[]
  {
    var staged := StageWorkshops(names);
    if !DistinctBy(staged, WorkshopName) {
      return false;
    }
    WorkshopsTableConsistent(db.Tables(), staged);
    db.workshops := Numbered(staged);
    committed := true;
  }

  /** The loop of init_db.py:85-100: each row looks up its type and material
      by name and is staged only when both are found. */
  method StageProducts(rows: seq<ProductRow>, types: map<int, ProductType>, materials: map<int, MaterialType>)
    returns (staged: seq<Product>)
    ensures staged == ProductsFrom(rows, types, materials)
  {
    staged := [];
    var i := 0;
    while i < |rows|
      invariant 0 <= i <= |rows|
      invariant staged == ProductsFrom(rows[..i], types, materials)
    {
      assert rows[..i + 1][..i] == rows[..i];
      var row := rows[i];
      var typeId := FirstId(TypeIdsNamed(types, row.productType));
      var materialId := FirstId(MaterialIdsNamed(materials, row.material));
      if typeId.Some? && materialId.Some? {
        staged := staged + [Product(row.article, typeId.value, row.name, None, row.minCost,
                                    materialId, ImportParameter, ImportParameter, DefaultProductionTime)];
      }
      i := i + 1;
    }
    assert rows[..i] == rows;
  }

  /** init_db.py:81-101, after the workshops. */
  method ImportProducts(db: Store, rows: seq<ProductRow>) returns (committed: bool)
    requires db.Valid()
    requires db.products == map[] && db.links == []
    modifies db`products
    ensures db.Valid()
    ensures committed <==> DistinctBy(ProductsFrom(rows, db.productTypes, db.materialTypes), ArticleOf)
    ensures committed ==> db.products == Numbered(ProductsFrom(rows, db.productTypes, db.materialTypes))
    ensures !committed ==> db.products == map[]
  {
    var staged := StageProducts(rows, db.productTypes, db.materialTypes);
    if !DistinctBy(staged, ArticleOf) {
      return false;
    }
    ProductsTableConsistent(db.Tables(), rows);
    db.products := Numbered(staged);
    committed := true;
  }

  /** The loop of init_db.py:107-123: each row looks up its product and
      workshop by name and is staged only when both are found. */
  method StageLinks(rows: seq<LinkRow>, products: map<int, Product>, workshops: map<int, Workshop>)
    returns (staged: seq<ProductWorkshop>)
    ensures staged == LinksFrom(rows, products, workshops)
  {
    staged := [];
    var i := 0;
    while i < |rows|
      invariant 0 <= i <= |rows|
      invariant staged == LinksFrom(rows[..i], products, workshops)
    {
      assert rows[..i + 1][..i] == rows[..i];
      var row := rows[i];
      var productId := FirstId(ProductIdsNamed(products, row.productName));
      var workshopId := FirstId(WorkshopIdsNamed(workshops, row.workshopName));
      if productId.Some? && workshopId.Some? {
        staged := staged + [ProductWorkshop(productId.value, workshopId.value, row.hours, ImportLinkWorkers)];
      }
      i := i + 1;
    }
    assert rows[..i] == rows;
  }

  /** init_db.py:103-124, last. */
  method ImportLinks(db: Store, rows: seq<LinkRow>) returns (committed: bool)
    requires db.Valid()
    requires db.links == []
    modifies db`links
    ensures db.Valid()
    ensures committed <==> UniquePairs(LinksFrom(rows, db.products, db.workshops))
    ensures committed ==> db.links == LinksFrom(rows, db.products, db.workshops)
    ensures !committed ==> db.links == []
  {
    var staged := StageLinks(rows, db.products, db.workshops);
    if !UniquePairs(staged) {
      return false;
    }
    LinksTableConsistent(db.Tables(), rows);
    db.links := staged;
    committed := true;
  }

  // ---------------------------------------------------------------------
  // The whole import
  // ---------------------------------------------------------------------

  /** The tables each stage commits, and whether its commit succeeds. */
  function TypesTable(s: Sheets): map<int, ProductType>
  {
    Numbered(ProductTypesFrom(s.productTypes))
  }

  predicate TypesCommit(s: Sheets)
  {
    DistinctBy(ProductTypesFrom(s.productTypes), TypeName)
  }

  predicate MaterialsCommit(s: Sheets)
  {
    MaterialTypesFrom(s.materials).Some? && DistinctBy(MaterialTypesFrom(s.materials).value, MaterialName)
  }

  function MaterialsTable(s: Sheets): map<int, MaterialType>
    requires MaterialsCommit(s)
  {
    Numbered(MaterialTypesFrom(s.materials).value)
  }

  function WorkshopsTable(s: Sheets): map<int, Workshop>
  {
    Numbered(WorkshopsFrom(s.workshopNames))
  }

  predicate WorkshopsCommit(s: Sheets)
  {
    DistinctBy(WorkshopsFrom(s.workshopNames), WorkshopName)
  }

  ghost function ProductsTable(s: Sheets): map<int, Product>
    requires MaterialsCommit(s)
  {
    Numbered(ProductsFrom(s.products, TypesTable(s), MaterialsTable(s)))
  }

  ghost predicate ProductsCommit(s: Sheets)
    requires MaterialsCommit(s)
  {
    DistinctBy(ProductsFrom(s.products, TypesTable(s), MaterialsTable(s)), ArticleOf)
  }

  ghost function LinksTable(s: Sheets): seq<ProductWorkshop>
    requires MaterialsCommit(s)
  {
    LinksFrom(s.links, ProductsTable(s), WorkshopsTable(s))
  }

  ghost predicate LinksCommit(s: Sheets)
    requires MaterialsCommit(s)
  {
    UniquePairs(LinksTable(s))
  }

  /** One waste cell that `float()` cannot read (a lone "." say) stops the
      import at the material stage. */
  lemma UnparsableWasteStopsImport(s: Sheets, i: int)
    requires 0 <= i < |s.materials| && StoredWaste(s.materials[i].waste).None?
    ensures !MaterialsCommit(s)
  {
    MaterialTypesFromFails(s.materials);
  }

  /** `import_data`: clear, then run the five stages in order, stopping at
      the first that raises. Whatever happens, the catalogue left behind
      satisfies every schema constraint; the stages before the failing one
      keep their rows and the later tables stay empty. */
  method ImportData(db: Store, sheets: Sheets) returns (result: ImportResult)
    modifies db
    ensures db.Valid()
    ensures result == Completed <==>
              && TypesCommit(sheets) && MaterialsCommit(sheets) && WorkshopsCommit(sheets)
              && ProductsCommit(sheets) && LinksCommit(sheets)
    ensures result == Completed ==>
              db.Tables() == Db(TypesTable(sheets), MaterialsTable(sheets), WorkshopsTable(sheets),
                                ProductsTable(sheets), LinksTable(sheets))
    ensures !TypesCommit(sheets) ==> result == Aborted(ProductTypesStage) && db.Tables() == EmptyDb
    ensures TypesCommit(sheets) && !MaterialsCommit(sheets) ==>
              result == Aborted(MaterialTypesStage) && db.Tables() == EmptyDb.(productTypes := TypesTable(sheets))
    ensures TypesCommit(sheets) && MaterialsCommit(sheets) && !WorkshopsCommit(sheets) ==>
              && result == Aborted(WorkshopsStage)
              && db.Tables() == EmptyDb.(productTypes := TypesTable(sheets), materialTypes := MaterialsTable(sheets))
    ensures TypesCommit(sheets) && MaterialsCommit(sheets) && WorkshopsCommit(sheets) && !ProductsCommit(sheets) ==>
              && result == Aborted(ProductsStage)
              && db.Tables() == EmptyDb.(productTypes := TypesTable(sheets), materialTypes := MaterialsTable(sheets),
                                         workshops := WorkshopsTable(sheets))
    ensures TypesCommit(sheets) && MaterialsCommit(sheets) && WorkshopsCommit(sheets) && ProductsCommit(sheets)
            && !LinksCommit(sheets) ==>
              && result == Aborted(LinksStage)
              && db.Tables() == EmptyDb.(productTypes := TypesTable(sheets), materialTypes := MaterialsTable(sheets),
                                         workshops := WorkshopsTable(sheets), products := ProductsTable(sheets))
  {
    db.Clear();
    var committed := ImportProductTypes(db, sheets.productTypes);
    if !committed {
      return Aborted(ProductTypesStage);
    }
    committed := ImportMaterialTypes(db, sheets.materials);
    if !committed {
      return Aborted(MaterialTypesStage);
    }
    committed := ImportWorkshops(db, sheets.workshopNames);
    if !committed {
      return Aborted(WorkshopsStage);
    }
    committed := ImportProducts(db, sheets.products);
    if !committed {
      return Aborted(ProductsStage);
    }
    committed := ImportLinks(db, sheets.links);
    if !committed {
      return Aborted(LinksStage);
    }
    result := Completed;
  }
}
