# Product catalogue: a Dafny model

This project models the core of a small Flask application for a product
catalogue. The catalogue has five tables:

- product types, each with a coefficient;
- material types, each with a waste percentage;
- workshops;
- products;
- product–workshop links, each giving the hours a product spends in a
  workshop.

The application has two calculators, both modelled:

- **Production time** sums a product's workshop hours and rounds the sum.
- **Raw-material estimate** runs an ordered cascade of checks that return
  `-1`, then a formula rounded up by adding `0.999`.

It also has three pieces of bookkeeping, also modelled:

- the web routes that add, edit and delete products;
- the form validators that guard them;
- the spreadsheet import that empties and refills every table, with its
  waste-percentage normalisation.

Modules, one per part of the program:

- `Numeric`: Python's `int()` truncation and `round()` with ties to even,
  over exact reals.
- `Models`: the rows as datatypes, the tables as maps, and the schema's
  constraints as the predicate `Consistent`. It also holds the row numbering
  of a freshly emptied table and the "first row" of an unordered query.
- `Services`: both calculators as pure functions, with their properties as
  lemmas. It also has a second estimator that tracks which kind of Python
  number each operand is.
- `Text`: `str.strip()` and the blank test.
- `Forms`: the validators, the data a decimal field takes from a request,
  and the validity of both forms.
- `Waste`: the regular-expression token, the comma fix, `float()` parsing
  and the two overlapping classification branches.
- `Catalogue`: the database session as a class `Store`. Its table fields are
  reassigned on commit. The module also has the next-row-id and first-match
  lookups, written as loops.
- `App`: the routes as methods on a `Store` (listing, add, edit, delete), and
  the calculator page.
- `Import`: `import_data` as stage methods, each looping over its sheet, and
  the whole import as one method. Each stage method has a specification
  function.

Faults the database could raise are explicit:

- `commitFault` is a parameter of the writing routes;
- a production-time query that fails is `None`, and the listing takes the
  set of products whose query fails.

The spreadsheets arrive as sequences of rows already read.

Several behaviours of the code differ from what a reader might expect. The
model follows the code in each case:

- **A minimum cost of 0 is refused.** `DataRequired` runs before
  `NumberRange(min=0)` and treats 0 as missing, so a product form validates
  only with a strictly positive cost (`Forms.MinCostMustBePositive`).
- **A waste value below 1 is divided by 100 too.** The comment at
  init_db.py:43 says such a value is already a fraction, and the first branch
  keeps it. The second branch (init_db.py:50-51) then overwrites the result
  with the value divided by 100 whenever it is above 0. So every value is
  divided by 100 exactly once (`Waste.Classify`).
- **A parameter left empty is refused, not stored as 0.** The parameter
  fields have no `Optional()`, so an empty entry fails `decimal.Decimal` and
  the form does not validate (`Forms.EmptyParameterRefused`). `or 0` stores 0
  only when the field is absent from the request.
- **`int(t + 0.999)` is not always the ceiling.** It rounds a non-negative
  total down when the fractional part lies strictly between 0 and 0.001
  (`Numeric.RoundUpByEpsilonIsCeilingIff`).

## Model

| member | source | states |
|---|---|---|
| `Numeric.Truncate` | services.py:73 | `int()` on a float truncates toward zero: for x ≥ 0 the result is the largest integer not above x; for x < 0 the smallest not below it |
| `Numeric.RoundHalfEven` | services.py:11 | `round()` returns an integer within 0.5 of x, and on a tie it returns the even one |
| `Numeric.RoundHalfEvenUnique` | services.py:11 | those two properties single out `round()`'s result: any integer meeting them is it |
| `Numeric.RoundUpByEpsilon` | services.py:72-73 | for t ≥ 0, `int(t + 0.999)` lies in (t − 0.001, t + 0.999] |
| `Numeric.RoundUpByEpsilonBounds` | services.py:69-73 | for t ≥ 0 the round-up is non-negative, within (t − 0.001, t + 0.999], and returns a whole t unchanged |
| `Numeric.RoundUpByEpsilonIsCeilingIff` | services.py:72-73 | the round-up equals the ceiling exactly when t is whole or its fractional part is at least 0.001 |
| `Numeric.TruncateMonotone` | services.py:73 | truncation is monotone on non-negative values |
| `Models.Numbered` | init_db.py:20-26 | rows inserted one by one into an emptied table get exactly the keys 1..n, row i under key i |
| `Models.NumberedUniqueIff` | init_db.py:20-26 | a unique constraint holds on the numbered table exactly when the inserted rows have distinct keys, so the commit succeeds exactly then |
| `Models.LinksWithout` | app.py:102 | the bulk delete keeps exactly the links of other products, and no more rows than before |
| `Models.LinksWithoutKeepsPairsUnique` | models.py:55 | deleting a product's links keeps the (product, workshop) pairs unique |
| `Models.Consistent` | models.py:9-55 | the schema's constraints: unique type, material and workshop names, unique articles, unique (product, workshop) pairs, a coefficient on every type, and every product and link reference resolving |
| `Models.Least` | init_db.py:87-88 | the row `first()` returns is a member of the matching ids that is no greater than any other |
| `Services.TotalTime` | services.py:7-9 | the SQL sum of one product's workshop hours, 0 when it has none; its properties are the lemmas that follow |
| `Services.TotalTimeNoRows` | services.py:7-9 | a product with no workshop rows sums to 0 |
| `Services.TotalTimeNonNegative` | services.py:7-9 | non-negative hours give a non-negative sum |
| `Services.TotalTimeAppend` | services.py:7-9 | the SQL sum over two batches of rows is the sum of their sums |
| `Services.TotalTimeIgnoresOtherProducts` | services.py:7-9 | deleting another product's links does not change a product's sum |
| `Services.ProductionTime` | services.py:4-14 | a failed query gives 0; otherwise the sum of the product's hours rounded to the nearest integer, ties to even |
| `Services.ProductionTimeWithoutRows` | services.py:7-11 | a product without workshop rows takes 0 hours |
| `Services.ProductionTimeNonNegative` | services.py:7-11 | non-negative hours give a non-negative production time |
| `Services.FirstFailure` | services.py:20-50 | the checks pass exactly when both types exist, both parameters and the quantity are positive, and the coefficient is set |
| `Services.FirstFailureOrder` | services.py:20-50 | each failure is reported exactly when every earlier check passed and its own fails, in the order type, material, param1, param2, quantity, coefficient |
| `Services.RawMaterial` | services.py:16-81 | −1 when a check fails; otherwise, for a non-negative total t = p1·p2·coef·(1+loss)·qty, a result in (t − 0.001, t + 0.999] |
| `Services.RequiredMaterial` | services.py:59-69 | the exact total p1·p2·coef·(1+loss)·qty that the estimator rounds up |
| `Services.RequiredMaterialNonNegative` | services.py:59-69 | with non-negative rates and positive inputs the total is non-negative |
| `Services.RawMaterialSentinelIff` | services.py:59-75 | with non-negative rates the result is −1 exactly when a check fails; otherwise it is ≥ 0 and cannot be mistaken for the error value |
| `Services.RawMaterialWholeTotal` | services.py:69-73 | a whole-number total is returned unchanged |
| `Services.RequiredMaterialMonotone` | services.py:59-69 | the total grows with the quantity |
| `Services.RawMaterialMonotoneInQuantity` | services.py:69-73 | more units never need less material |
| `Services.RawMaterialDoubling` | services.py:69-73 | doubling the quantity needs at least twice the material, less one unit |
| `Services.RawMaterialExample` | services.py:59-73 | coefficient 1.0, waste 0.1, one unit of 2 × 3 gives 7 |
| `Services.Combine` | services.py:59-69 | mixing `Decimal` and `float` in `*` or `+` fails (TypeError), and only that mix fails; any other mix yields the exact value except for `int` with `int` |
| `Services.FloatProduct` | services.py:59-69 | a `float` times a `float` or an `int` is the `float` of the exact product |
| `Services.RoundedTotal` | services.py:60-73 | a `Decimal` area times the `float` coefficient raises TypeError |
| `Services.FloatRoundedTotal` | services.py:60-73 | with `float` operands the chain computes the `float` of the required amount plus 0.999 |
| `Services.RawMaterialAsWritten` | services.py:16-81 | the estimator with Python number kinds: it returns −1 or the checks passed |
| `Services.DecimalParametersAlwaysFail` | services.py:59-60 | a `Decimal` parameter always makes the estimator return −1 |
| `Services.FloatParametersMatchRawMaterial` | services.py:52-73 | with `float` parameters the code computes exactly `RawMaterial` |
| `Text.LeadingBlank` | init_db.py:70 | where `strip()` cuts in front: everything before is whitespace and the character there is not |
| `Text.TrailingBlank` | init_db.py:70 | where `strip()` cuts behind: everything after is whitespace and the character before is not |
| `Text.Strip` | init_db.py:70-72 | `strip()` returns a slice of the input with only whitespace (Python's `isspace()` set) cut from either end; it is empty exactly for a blank string, and otherwise starts and ends with a non-space |
| `Forms.ValidatePositive` | forms.py:6-8 | an absent value passes; a present one must be above 0, and a present value that passes is stored as a positive number |
| `Forms.ValidateDecimal` | forms.py:10-12 | the value must be above 0; on a present value this is exactly `validate_positive`, and it implies DataRequired |
| `Forms.OrZero` | app.py:48-49 | `data or 0` stores 0 for a missing value and the value otherwise |
| `Forms.StoredParameter` | forms.py:6-8 | a parameter whose data passed `validate_positive` is stored non-negative, and as 0 exactly when its data is None |
| `Forms.DecimalData` | forms.py:22-23 | a DecimalField's data: an absent field keeps the form's default, an unreadable entry (the empty string among them) gives None with a processing error, and a number gives itself |
| `Forms.ProductFormValid` | forms.py:14-28 | ProductForm validates exactly when every chain passes: article and name not blank, known non-zero type and material ids, a cost that is read, non-zero and ≥ 0, and parameters that are read and positive unless None |
| `Forms.MinCostMustBePositive` | forms.py:19-20 | a product form that validates, fresh or built from a row, carries a strictly positive minimum cost |
| `Forms.EmptyParameterRefused` | forms.py:22-23 | a parameter submitted empty or unreadable makes the product form invalid, on add and on edit |
| `Forms.CalculatorFormValid` | forms.py:30-40 | both ids are listed, non-zero choices, the quantity is required and at least 1, both parameters are required and above 0; no form validates while either table is empty |
| `Forms.CalculatorFormBounds` | forms.py:30-35 | a valid calculator form has known type and material ids, a quantity ≥ 1 and both parameters > 0 |
| `Waste.FirstToken` | init_db.py:36 | `re.search` finds no token exactly when no digit, dot or comma occurs; otherwise the leftmost maximal run of them |
| `Waste.FirstTokenOfSlice` | init_db.py:36 | cutting characters that are not digits, dots or commas from either end leaves `re.search`'s match unchanged |
| `Waste.FirstTokenAt` | init_db.py:36 | a run with no token character before it and none right after it is the token |
| `Waste.CommasToDots` | init_db.py:39 | every comma becomes a dot and nothing else changes |
| `Waste.ParseNumber` | init_db.py:40 | `float()` on digits and dots succeeds exactly with at most one dot and at least one digit, giving a non-negative value |
| `Waste.ParseDigits` | init_db.py:40 | `float()` of a non-empty run of digits is the integer the digits spell |
| `Waste.ParseWithDot` | init_db.py:40 | `float()` of digits around one dot, with at least one digit, is the integer spelt by all the digits divided by ten to the number of digits after the dot |
| `Waste.DigitsValueAppend` | init_db.py:40 | all the digits read as one integer are the whole part times ten to the number of fraction digits, plus the fraction; so the value above is the whole part plus the scaled fraction |
| `Waste.Classify` | init_db.py:44-51 | the two overlapping branches divide every non-negative value by 100 |
| `Waste.NormalizeWaste` | init_db.py:33-53 | no token gives 0.0; a parsed token gives its value / 100; `float()` fails exactly when the token does not parse; never negative |
| `Waste.SeparatorOnlyTokenFails` | init_db.py:36-40 | a token with no digit makes `float()` raise |
| `Waste.ParsePointEighty` | init_db.py:40 | `float("0.80")` is 0.8 |
| `Waste.ParsePointEight` | init_db.py:40 | `float("0.8")` is 0.8 |
| `Waste.NormalizePercentString` | init_db.py:32 | "0.80%" becomes 0.008 |
| `Waste.NormalizeDecimalComma` | init_db.py:38-39 | "0,8 %" becomes 0.008 |
| `Waste.NormalizeWholePercent` | init_db.py:44-51 | "5" becomes 0.05 |
| `Waste.NormalizeNoNumber` | init_db.py:52-53 | "nan" becomes 0.0 |
| `Waste.NormalizeLoneDot` | init_db.py:40 | "." cannot be parsed |
| `Catalogue.Store.constructor` | app.py:178-179 | a new database has five empty tables, which satisfy the schema |
| `Catalogue.Store.Clear` | init_db.py:10-15 | clearing empties all five tables and leaves a consistent catalogue |
| `Catalogue.NextRowId` | app.py:52-53 | the inserted row's id is new, above every existing id, one more than the largest, and 1 for an empty table |
| `Catalogue.FirstId` | app.py:36 | `first()` finds nothing exactly when nothing matches; otherwise it finds the least matching id |
| `App.ProductionTimes` | app.py:19-23 | the listing maps exactly the product ids; a product whose query fails gets 0 and every other one its production time from the stored links; nothing is written |
| `App.FormProduct` | app.py:41-50 | the row built from a valid form carries its text fields and ids, the cost's data, and each parameter's data or 0 |
| `App.EditedProduct` | app.py:77-84 | the edit assigns the same fields from the form built on the row, and keeps the stored production time |
| `App.FormProductFields` | app.py:41-50 | a product added from a valid form resolves its type and material, has a positive cost, stores a given parameter as submitted and 0 exactly when the field is absent from the request, and has the default production time |
| `App.EditedProductFields` | app.py:67-84 | on edit, a parameter absent from the request keeps the row's value, which must already be positive, and a given one replaces it; an absent cost keeps the row's; the production time is kept |
| `App.AddProduct` | app.py:29-62 | an invalid form, a taken article and a failed commit each leave the products unchanged with their own outcome; otherwise the form's product is stored under a new id; the schema stays satisfied |
| `App.AddKeepsConsistent` | app.py:36-53 | inserting a product with a new article and resolving references keeps every schema constraint |
| `App.EditProduct` | app.py:64-94 | a missing id, an invalid form, an article held by another product and a failed commit each leave the products unchanged; otherwise the fields are replaced and the production time is kept; a product may keep its own article |
| `App.EditKeepsConsistent` | app.py:72-86 | replacing a product's fields with an article no other product holds keeps every constraint |
| `App.DeleteProduct` | app.py:96-114 | a missing id (a 404 caught inside the `try` and reported like a failed deletion) or a failed commit changes nothing; otherwise the product and exactly its links are removed and everything else is kept; the schema stays satisfied |
| `App.DeleteKeepsConsistent` | app.py:101-106 | removing a product and its links keeps every constraint, including the link foreign keys |
| `App.ProductionTimeAfterDelete` | app.py:102-106 | after the delete the removed product's time is 0, and every other product's time is unchanged |
| `App.ViewOf` | app.py:152-157 | after a valid form there is no empty-table warning; −1 shows the error, any other result shows the amount with the chosen type and material |
| `App.Calculator` | app.py:127-168 | the page warns exactly when a table is empty; a GET or an invalid form calculates nothing; a valid form shows the error exactly when the estimate is −1, and otherwise the amount with the chosen type and material |
| `App.CalculatorSucceedsOnValidForm` | app.py:141-157 | on a consistent catalogue with non-negative rates, a valid form always yields a non-negative amount |
| `App.CalculatorAsWritten` | app.py:141-157 | the page as written has the same warning and the same no-calculation cases |
| `App.CalculatorAsWrittenAlwaysFails` | app.py:144-153 | as written, every valid form shows the error message, while the exact estimate succeeds on the same input |
| `Import.ProductTypesFrom` | init_db.py:20-25 | one product type per row, in order, with its name and coefficient |
| `Import.StoredWaste` | init_db.py:33-53 | the waste stored for a cell is never negative |
| `Import.StoredWasteIgnoresSpaces` | init_db.py:33-36 | the `.strip()` before the regular expression never changes the stored waste |
| `Import.Collect` | init_db.py:31-61 | when no waste value is unparsable, one material per row |
| `Import.CollectRows` | init_db.py:55-61 | each collected material carries its row's name and waste value |
| `Import.CollectStep` | init_db.py:31-61 | one more row extends the collected materials by that row's material, or fails |
| `Import.CollectFails` | init_db.py:36-40 | collecting fails exactly when some waste value is unparsable |
| `Import.MaterialTypesFrom` | init_db.py:31-61 | when it succeeds, one material per row |
| `Import.MaterialTypesFromRows` | init_db.py:31-61 | each material keeps its row's name and stores the row's normalised, non-negative waste |
| `Import.MaterialTypesFromFails` | init_db.py:36-40 | the material stage fails exactly when some waste cell cannot be parsed |
| `Import.Distinct` | init_db.py:67 | `unique()` keeps every name, repeats none, and lists them in order of first appearance |
| `Import.WorkshopRows` | init_db.py:69-78 | the loop over the distinct names stages at most one workshop per name |
| `Import.WorkshopRowsMembers` | init_db.py:69-78 | a workshop is created exactly for each non-blank name, stripped, with five workers |
| `Import.WorkshopsFrom` | init_db.py:66-79 | a workshop is staged exactly for each non-blank name, stripped, with five workers, and every staged name is non-empty |
| `Import.WorkshopRowsDistinct` | init_db.py:69-78 | over names without repeats, the staged workshop names are distinct exactly when no two non-blank names strip alike |
| `Import.WorkshopsFromDistinct` | init_db.py:64-79 | the workshop stage keeps the unique name constraint exactly when no two different non-blank cells strip to the same name |
| `Import.ImportedProduct` | init_db.py:87-99 | an imported product points to a type and a material carrying the row's names, copies the row's fields, has parameters 1.0, no description and the default production time |
| `Import.ProductsFrom` | init_db.py:85-100 | exactly the rows whose type and material both resolve become products |
| `Import.ImportedLink` | init_db.py:112-122 | an imported link points to the first product with the row's name and to the workshop with the row's name, with the row's hours and three workers |
| `Import.LinksFrom` | init_db.py:107-123 | exactly the rows whose product and workshop both resolve become links |
| `Import.TypesTableConsistent` | init_db.py:17-26 | product types with distinct names, each with a coefficient, form a consistent catalogue |
| `Import.MaterialsTableConsistent` | init_db.py:28-62 | materials with distinct names keep the catalogue consistent |
| `Import.WorkshopsTableConsistent` | init_db.py:64-79 | workshops with distinct names keep the catalogue consistent |
| `Import.ProductsTableConsistent` | init_db.py:81-101 | imported products with distinct articles keep the catalogue consistent, since their type and material exist |
| `Import.LinksTableConsistent` | init_db.py:103-124 | imported links with distinct pairs keep the catalogue consistent, since their product and workshop exist |
| `Import.StageProductTypes` | init_db.py:20-25 | the loop stages exactly the specified product types |
| `Import.ImportProductTypes` | init_db.py:17-26 | the stage commits exactly when the names are distinct, and the table becomes the numbered rows; otherwise it stays empty |
| `Import.StageMaterialTypes` | init_db.py:31-61 | the loop stages exactly the specified materials, or fails at an unparsable waste cell |
| `Import.ImportMaterialTypes` | init_db.py:28-62 | the stage commits exactly when every waste parses and the names are distinct |
| `Import.WorkshopRowsStep` | init_db.py:69-78 | one more name adds its stripped workshop, or nothing when it is blank |
| `Import.StageWorkshops` | init_db.py:67-78 | `unique()` followed by the loop stages exactly the specified workshops |
| `Import.StageWorkshopRows` | init_db.py:69-78 | the loop over the distinct names stages exactly the workshops `WorkshopRows` specifies, in order |
| `Import.ImportWorkshops` | init_db.py:64-79 | the stage commits exactly when the stripped names are distinct |
| `Import.StageProducts` | init_db.py:85-100 | the loop stages exactly the specified products |
| `Import.ImportProducts` | init_db.py:81-101 | the stage commits exactly when the imported articles are distinct, and the references resolve |
| `Import.StageLinks` | init_db.py:107-123 | the loop stages exactly the specified links |
| `Import.ImportLinks` | init_db.py:103-124 | the stage commits exactly when the imported pairs are distinct |
| `Import.UnparsableWasteStopsImport` | init_db.py:36-40 | one unparsable waste cell stops the import at the material stage |
| `Import.ImportData` | init_db.py:6-125 | the import completes exactly when every stage commits, and then holds the five specified tables. Otherwise it stops at the first failing stage: earlier tables keep their rows and later ones stay empty. The schema holds in every case |

## Left out

- Column precision is not modelled. `Numeric(5,2)` and `Numeric(10,2)` would round stored values such as 0.008.
- The arithmetic is over exact reals, so IEEE float rounding is not modelled.
- The `created_at` and `updated_at` timestamps are not modelled, because they come from the clock.
- The Flask side is not modelled: rendering, flash texts, redirects, the index page, `app.run` and the static folders. Logging through `print` and `traceback` is left out too.
- The workshops page (app.py:116-125) is not modelled as a route. It only reads a product, its links and its production time, and `Services.ProductionTime` covers the last of these.
- `static/js/main.js` is left out. It is browser-side display code, and its checks repeat the form validators.
- Reading the spreadsheets with pandas is left out. Cells arrive already typed. A `float()` that fails on a coefficient, a cost or an hours cell, and a missing name cell, are not modelled; a missing waste cell is the text "nan".
- CSRF checking by `validate_on_submit` is not modelled. A GET is modelled only for the calculator page.
- The calculator's choice lists are ordered by name. The order only affects display, so the model keeps only the set of ids.
- Row ids follow SQLite's rule: one more than the largest id, and 1 in an emptied table. Other engines' sequences are not modelled.
- `first()` without `ORDER BY` is modelled as the least matching id.
- A unique violation inside an import stage raises either at an autoflush or at the commit. Both lose the whole stage, so the model checks at the commit only.
- Which exception a failed commit raises is not modelled: it is the `commitFault` flag.
- Services.RawMaterial: the contract bounds the result only for a non-negative total. With negative rates the result is still defined, by truncation toward zero, but no bound is stated.
- Services.ProductionTime: only a failed query is modelled as a fault. `round` on a finite float cannot raise.
- Waste.FirstToken: only ASCII digits are recognised. Python's `\d` and `float()` also accept the decimal digits of other scripts.
- Text and select fields absent from an edit request are not modelled. The model takes them as submitted values, whereas wtforms would keep the edited row's values. Absent decimal fields are modelled.

## Findings

| source | as written | input that shows it | evidently intended | confidence | as-written member | corrected member |
|---|---|---|---|---|---|---|
| services.py:59-60 | `area * coefficient` multiplies the form's `decimal.Decimal` parameters by a `float` coefficient. Python raises `TypeError`, and the handler turns it into −1 | any calculator form that validates, e.g. type with coefficient 1.0, material with waste 0.1, quantity 1, param1 2, param2 3 | the estimate over the numbers: 7 for this input | not executed | `Services.RawMaterialAsWritten` | `Services.RawMaterial` |

The as-written behaviour is exhibited by `Services.DecimalParametersAlwaysFail` and
`App.CalculatorAsWrittenAlwaysFails`. `App.Calculator` uses the corrected
estimator, and `App.CalculatorSucceedsOnValidForm` proves that it always
yields an amount.
