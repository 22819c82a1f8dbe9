/** The store effects of the routes in app.py. Each route that writes
    validates first, stages its change and commits it; a failing commit rolls
    the session back, which leaves every table as it was. A fault the database
    could raise at commit is the parameter `commitFault`. */
module App {
  import opened Models
  import opened Numeric
  import opened Services
  import opened Forms
  import opened Catalogue

  /** What a writing route reports: the flash message it shows, in effect. */
  datatype Outcome =
    | Saved(id: int)
    | Deleted
    | FormRejected
    | ArticleTaken
    | NotFound
    | RolledBack

  // ---------------------------------------------------------------------
  // Listing (app.py:17-27)
  // ---------------------------------------------------------------------

  /** The `products` route fills `production_times` with one entry per
      product, computed from the stored links. It writes nothing. Each
      product's query may fail on its own; `faults` holds the ids whose query
      raised, and those get 0 (services.py:12-14). */
  method ProductionTimes(db: Store, faults: set<int>) returns (times: map<int, int>)
    ensures times.Keys == db.products.Keys
    ensures forall id :: id in times ==>
              times[id] == ProductionTime(id, if id in faults then None else Some(db.links))
  {
    times := map[];
    var remaining := db.products.Keys;
    while remaining != {}
      invariant remaining <= db.products.Keys
      invariant times.Keys == db.products.Keys - remaining
      invariant forall id :: id in times ==>
                  times[id] == ProductionTime(id, if id in faults then None else Some(db.links))
      decreases |remaining|
    {
      NonEmpty(remaining);
      var id :| id in remaining;
      times := times[id := ProductionTime(id, if id in faults then None else Some(db.links))];
      remaining := remaining - {id};
    }
  }

  // ---------------------------------------------------------------------
  // Add and edit (app.py:29-94)
  // ---------------------------------------------------------------------

  /** The row a validated form builds (app.py:41-50, and the same fields
      assigned at app.py:77-84): the decimal fields' data, parameters whose
      data is None stored as 0, and the column default production time. */
  function FormProduct(form: ProductForm, obj: Option<Product>): (p: Product)
    requires MinCostData(form, obj).Some?
    ensures p.article == form.article && p.name == form.name && p.description == Some(form.description)
    ensures p.productTypeId == form.productTypeId && p.mainMaterialId == Some(form.mainMaterialId)
    ensures p.minCostForPartner == MinCostData(form, obj).value
    ensures p.parameter1 == OrZero(Parameter1Data(form, obj)) && p.parameter2 == OrZero(Parameter2Data(form, obj))
  {
    Product(form.article, form.productTypeId, form.name, Some(form.description),
            MinCostData(form, obj).value, Some(form.mainMaterialId),
            OrZero(Parameter1Data(form, obj)), OrZero(Parameter2Data(form, obj)), DefaultProductionTime)
  }

  /** The row after `edit_product` assigns the form's fields (app.py:77-84):
      the form was built from the row, and the stored production time is not
      a form field and is kept. */
  function EditedProduct(p: Product, form: ProductForm): (q: Product)
    requires MinCostData(form, Some(p)).Some?
    ensures q.productionTime == p.productionTime
  {
    FormProduct(form, Some(p)).(productionTime := p.productionTime)
  }

  /** What `add_product` stores from a valid form: references that resolve,
      a positive cost, each parameter as submitted when given, and 0 exactly
      when the field is absent from the request. */
  lemma FormProductFields(form: ProductForm, types: map<int, ProductType>, materials: map<int, MaterialType>)
    requires ProductFormValid(form, None, types, materials)
    ensures var p := FormProduct(form, None);
      && p.article == form.article && p.name == form.name
      && p.productTypeId in types
      && p.mainMaterialId.Some? && p.mainMaterialId.value in materials
      && p.minCostForPartner > 0.0
      && p.parameter1 >= 0.0 && (p.parameter1 == 0.0 <==> form.parameter1.Absent?)
      && (form.parameter1.Given? ==> p.parameter1 == form.parameter1.number)
      && p.parameter2 >= 0.0 && (p.parameter2 == 0.0 <==> form.parameter2.Absent?)
      && (form.parameter2.Given? ==> p.parameter2 == form.parameter2.number)
      && p.productionTime == DefaultProductionTime
  {
    StoredParameter(Parameter1Data(form, None));
    StoredParameter(Parameter2Data(form, None));
    MinCostMustBePositive(form, None, types, materials);
  }

  /** What `edit_product` stores from a valid form: a parameter absent from
      the request keeps the row's value, which must then already be positive
      (a stored 0 fails validate_positive); a given one replaces it. */
  lemma EditedProductFields(p: Product, form: ProductForm,
                            types: map<int, ProductType>, materials: map<int, MaterialType>)
    requires ProductFormValid(form, Some(p), types, materials)
    ensures var q := EditedProduct(p, form);
      && q.minCostForPartner > 0.0
      && (form.minCostForPartner.Absent? ==> q.minCostForPartner == p.minCostForPartner)
      && (form.parameter1.Absent? ==> p.parameter1 > 0.0 && q.parameter1 == p.parameter1)
      && (form.parameter1.Given? ==> q.parameter1 == form.parameter1.number > 0.0)
      && (form.parameter2.Absent? ==> p.parameter2 > 0.0 && q.parameter2 == p.parameter2)
      && (form.parameter2.Given? ==> q.parameter2 == form.parameter2.number > 0.0)
      && q.productionTime == p.productionTime
  {
    StoredParameter(Parameter1Data(form, Some(p)));
    StoredParameter(Parameter2Data(form, Some(p)));
    MinCostMustBePositive(form, Some(p), types, materials);
  }

  /** `add_product`: refuse an invalid form, refuse an article already in
      use, otherwise insert the row under the next row id and commit. */
  method AddProduct(db: Store, form: ProductForm, commitFault: bool) returns (outcome: Outcome)
    requires db.Valid()
    modifies db`products
    ensures db.Valid()
    ensures !ProductFormValid(form, None, db.productTypes, db.materialTypes) ==> outcome == FormRejected
    ensures (ProductFormValid(form, None, db.productTypes, db.materialTypes)
             && ProductIdsWithArticle(old(db.products), form.article) != {}) ==> outcome == ArticleTaken
    ensures (ProductFormValid(form, None, db.productTypes, db.materialTypes)
             && ProductIdsWithArticle(old(db.products), form.article) == {}
             && commitFault) ==> outcome == RolledBack
    ensures outcome.Saved? <==>
              ProductFormValid(form, None, db.productTypes, db.materialTypes)
              && ProductIdsWithArticle(old(db.products), form.article) == {} && !commitFault
    ensures outcome.Saved? ==>
              && outcome.id !in old(db.products)
              && db.products == old(db.products)[outcome.id := FormProduct(form, None)]
    ensures !outcome.Saved? ==> db.products == old(db.products)
  {
    if !ProductFormValid(form, None, db.productTypes, db.materialTypes) {
      return FormRejected;
    }
    var existing := FirstId(ProductIdsWithArticle(db.products, form.article));
    if existing.Some? {
      return ArticleTaken;
    }
    var id := NextRowId(db.products.Keys);
    var staged := db.products[id := FormProduct(form, None)];
    if commitFault {
      return RolledBack;
    }
    AddKeepsConsistent(db.Tables(), id, FormProduct(form, None));
    db.products := staged;
    outcome := Saved(id);
  }

  /** `edit_product`: a missing id is a 404; otherwise refuse an invalid
      form (built from the stored row), refuse an article held by another product (the product may keep
      its own), and commit the assigned fields. */
  method EditProduct(db: Store, productId: int, form: ProductForm, commitFault: bool) returns (outcome: Outcome)
    requires db.Valid()
    modifies db`products
    ensures db.Valid()
    ensures productId !in old(db.products) ==> outcome == NotFound
    ensures (productId in old(db.products)
             && !ProductFormValid(form, Some(old(db.products)[productId]), db.productTypes, db.materialTypes)) ==> outcome == FormRejected
    ensures (productId in old(db.products)
             && ProductFormValid(form, Some(old(db.products)[productId]), db.productTypes, db.materialTypes)
             && ProductIdsWithArticle(old(db.products), form.article) - {productId} != {})
            ==> outcome == ArticleTaken
    ensures (productId in old(db.products)
             && ProductFormValid(form, Some(old(db.products)[productId]), db.productTypes, db.materialTypes)
             && ProductIdsWithArticle(old(db.products), form.article) - {productId} == {}
             && commitFault) ==> outcome == RolledBack
    ensures outcome.Saved? <==>
              && productId in old(db.products)
              && ProductFormValid(form, Some(old(db.products)[productId]), db.productTypes, db.materialTypes)
              && ProductIdsWithArticle(old(db.products), form.article) - {productId} == {}
              && !commitFault
    ensures outcome.Saved? ==>
              && outcome.id == productId
              && db.products == old(db.products)[productId := EditedProduct(old(db.products)[productId], form)]
    ensures !outcome.Saved? ==> db.products == old(db.products)
  {
    if productId !in db.products {
      return NotFound;
    }
    if !ProductFormValid(form, Some(db.products[productId]), db.productTypes, db.materialTypes) {
      return FormRejected;
    }
    var existing := FirstId(ProductIdsWithArticle(db.products, form.article) - {productId});
    if existing.Some? {
      return ArticleTaken;
    }
    var updated := EditedProduct(db.products[productId], form);
    var staged := db.products[productId := updated];
    if commitFault {
      return RolledBack;
    }
    EditKeepsConsistent(db.Tables(), productId, updated);
    db.products := staged;
    outcome := Saved(productId);
  }

  /** Inserting a product whose article is new and whose references resolve
      keeps the schema's constraints. */
  lemma AddKeepsConsistent(db: Db, id: int, p: Product)
    requires Consistent(db)
    requires id !in db.products
    requires ProductIdsWithArticle(db.products, p.article) == {}
    requires p.productTypeId in db.productTypes
    requires p.mainMaterialId.Some? ==> p.mainMaterialId.value in db.materialTypes
    ensures Consistent(db.(products := db.products[id := p]))
  {
    var after := db.products[id := p];
    forall i, j | i in after && j in after && i != j
      ensures after[i].article != after[j].article
    {
      if i == id {
        assert j !in ProductIdsWithArticle(db.products, p.article);
      } else if j == id {
        assert i !in ProductIdsWithArticle(db.products, p.article);
      }
    }
  }

  /** Replacing a product's fields keeps the constraints when no other
      product holds the new article and the new references resolve. */
  lemma EditKeepsConsistent(db: Db, id: int, p: Product)
    requires Consistent(db)
    requires id in db.products
    requires ProductIdsWithArticle(db.products, p.article) - {id} == {}
    requires p.productTypeId in db.productTypes
    requires p.mainMaterialId.Some? ==> p.mainMaterialId.value in db.materialTypes
    ensures Consistent(db.(products := db.products[id := p]))
  {
    var after := db.products[id := p];
    forall i, j | i in after && j in after && i != j
      ensures after[i].article != after[j].article
    {
      if i == id {
        assert j !in ProductIdsWithArticle(db.products, p.article) - {id};
      } else if j == id {
        assert i !in ProductIdsWithArticle(db.products, p.article) - {id};
      }
    }
  }

  // ---------------------------------------------------------------------
  // Delete (app.py:96-114)
  // ---------------------------------------------------------------------

  /** `delete_product`: a missing id changes nothing. Unlike edit's real
      404, `get_or_404` runs inside the `try` here, so its NotFound is
      caught, rolled back and reported like a failed commit before the
      redirect; the outcome `NotFound` stands for that caught 404;
      otherwise the product's links are deleted first, then the product, and
      both go in one commit. */
  method DeleteProduct(db: Store, productId: int, commitFault: bool) returns (outcome: Outcome)
    requires db.Valid()
    modifies db`products, db`links
    ensures db.Valid()
    ensures productId !in old(db.products) ==> outcome == NotFound
    ensures productId in old(db.products) && commitFault ==> outcome == RolledBack
    ensures outcome == Deleted <==> productId in old(db.products) && !commitFault
    ensures outcome == Deleted ==>
              && db.products == old(db.products) - {productId}
              && db.links == LinksWithout(old(db.links), productId)
    ensures outcome != Deleted ==> db.products == old(db.products) && db.links == old(db.links)
  {
    if productId !in db.products {
      return NotFound;
    }
    var stagedLinks := LinksWithout(db.links, productId);
    var stagedProducts := db.products - {productId};
    if commitFault {
      return RolledBack;
    }
    DeleteKeepsConsistent(db.Tables(), productId);
    db.links := stagedLinks;
    db.products := stagedProducts;
    outcome := Deleted;
  }

  lemma DeleteKeepsConsistent(db: Db, id: int)
    requires Consistent(db)
    ensures Consistent(db.(products := db.products - {id}, links := LinksWithout(db.links, id)))
  {
    var after := db.(products := db.products - {id}, links := LinksWithout(db.links, id));
    LinksWithoutKeepsPairsUnique(db.links, id);
    forall i | 0 <= i < |after.links|
      ensures after.links[i].productId in after.products && after.links[i].workshopId in after.workshops
    {
      var l := after.links[i];
      assert l in db.links;
      var k :| 0 <= k < |db.links| && db.links[k] == l;
    }
  }

  /** After a delete the removed product has no links left, so its
      production time is 0, and every other product's time is unchanged. */
  lemma ProductionTimeAfterDelete(links: seq<ProductWorkshop>, deleted: int, other: int)
    ensures ProductionTime(deleted, Some(LinksWithout(links, deleted))) == 0
    ensures other != deleted ==>
              ProductionTime(other, Some(LinksWithout(links, deleted))) == ProductionTime(other, Some(links))
  {
    var kept := LinksWithout(links, deleted);
    forall i | 0 <= i < |kept|
      ensures kept[i].productId != deleted
    {
      assert kept[i] in kept;
    }
    ProductionTimeWithoutRows(deleted, kept);
    if other != deleted {
      TotalTimeIgnoresOtherProducts(other, links, deleted);
    }
  }

  // ---------------------------------------------------------------------
  // Material calculator (app.py:127-168)
  // ---------------------------------------------------------------------

  datatype Calculation =
    | NotCalculated
    | CalculationFailed
    | Calculated(amount: int, productType: ProductType, materialType: MaterialType)

  /** What the calculator page shows: a warning when either table is empty,
      and for a submitted form that validates, either the error message
      (result -1) or the amount with the chosen type and material. */
  datatype CalculatorPage = CalculatorPage(noData: bool, calculation: Calculation)

  /** The page for a submitted form that validated (app.py:152-157): the
      tables cannot be empty then, so there is no warning; -1 shows the
      error, and any other result shows the amount with the chosen type and
      material. */
  function ViewOf(types: map<int, ProductType>, materials: map<int, MaterialType>,
                  form: Option<CalculatorForm>, result: int): (page: CalculatorPage)
    requires form.Some? && CalculatorFormValid(form.value, types, materials)
    ensures !page.noData
    ensures page.calculation.CalculationFailed? <==> result == -1
    ensures result != -1 ==>
              && page.calculation.Calculated?
              && page.calculation.amount == result
              && page.calculation.productType == types[form.value.productTypeId]
              && page.calculation.materialType == materials[form.value.materialTypeId]
  {
    var noData := types == map[] || materials == map[];
    if result == -1 then CalculatorPage(noData, CalculationFailed)
    else CalculatorPage(noData, Calculated(result, types[form.value.productTypeId],
                                           materials[form.value.materialTypeId]))
  }

  /** `material_calculator` on exact numbers; `form` is None for a GET. */
  function Calculator(types: map<int, ProductType>, materials: map<int, MaterialType>,
                      form: Option<CalculatorForm>): (page: CalculatorPage)
    ensures page.noData <==> types == map[] || materials == map[]
    ensures form.None? || !CalculatorFormValid(form.value, types, materials) ==> page.calculation == NotCalculated
    ensures form.Some? && CalculatorFormValid(form.value, types, materials) ==>
              var f := form.value;
              var r := RawMaterial(types, materials, f.productTypeId, f.materialTypeId,
                                   f.quantity.value, f.param1.value, f.param2.value);
              && (page.calculation == CalculationFailed <==> r == -1)
              && (page.calculation.Calculated? ==>
                    page.calculation.amount == r
                    && page.calculation.productType == types[f.productTypeId]
                    && page.calculation.materialType == materials[f.materialTypeId])
  {
    if form.Some? && CalculatorFormValid(form.value, types, materials) then
      var f := form.value;
      ViewOf(types, materials, form, RawMaterial(types, materials, f.productTypeId, f.materialTypeId,
                                                 f.quantity.value, f.param1.value, f.param2.value))
    else
      CalculatorPage(types == map[] || materials == map[], NotCalculated)
  }

  /** On a consistent catalogue with non-negative rates, a form that
      validates always yields an amount: every check of the estimator is
      already guaranteed by the form. */
  lemma CalculatorSucceedsOnValidForm(db: Db, form: CalculatorForm)
    requires Consistent(db) && NonNegativeRates(db.productTypes, db.materialTypes)
    requires CalculatorFormValid(form, db.productTypes, db.materialTypes)
    ensures Calculator(db.productTypes, db.materialTypes, Some(form)).calculation.Calculated?
    ensures Calculator(db.productTypes, db.materialTypes, Some(form)).calculation.amount >= 0
  {
    CalculatorFormBounds(form, db.productTypes, db.materialTypes);
    RawMaterialSentinelIff(db.productTypes, db.materialTypes, form.productTypeId, form.materialTypeId,
                           form.quantity.value, form.param1.value, form.param2.value);
  }

  /** `material_calculator` as written: the form's DecimalField values reach
      the estimator as `decimal.Decimal`. */
  function CalculatorAsWritten(types: map<int, ProductType>, materials: map<int, MaterialType>,
                               form: Option<CalculatorForm>): (page: CalculatorPage)
    ensures page.noData <==> types == map[] || materials == map[]
    ensures form.None? || !CalculatorFormValid(form.value, types, materials) ==> page.calculation == NotCalculated
  {
    if form.Some? && CalculatorFormValid(form.value, types, materials) then
      var f := form.value;
      ViewOf(types, materials, form,
             RawMaterialAsWritten(types, materials, f.productTypeId, f.materialTypeId, f.quantity.value,
                                  PyDecimal(f.param1.value), PyDecimal(f.param2.value)))
    else
      CalculatorPage(types == map[] || materials == map[], NotCalculated)
  }

  /** As written, every submitted form that validates ends in the error
      message, whereas the exact calculator succeeds on the same input. */
  lemma CalculatorAsWrittenAlwaysFails(db: Db, form: CalculatorForm)
    requires Consistent(db) && NonNegativeRates(db.productTypes, db.materialTypes)
    requires CalculatorFormValid(form, db.productTypes, db.materialTypes)
    ensures CalculatorAsWritten(db.productTypes, db.materialTypes, Some(form)).calculation == CalculationFailed
    ensures Calculator(db.productTypes, db.materialTypes, Some(form)).calculation.Calculated?
  {
    DecimalParametersAlwaysFail(db.productTypes, db.materialTypes, form.productTypeId, form.materialTypeId,
                                form.quantity.value, PyDecimal(form.param1.value), PyDecimal(form.param2.value));
    CalculatorSucceedsOnValidForm(db, form);
  }
}
