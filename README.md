# craftzApp back end: a Dafny model of its sequential core

craftzApp is the back end of a print-and-garment shop. It keeps a product
catalog, quotations that can become sales, direct sales, an inventory ledger,
production-cost parameters, product categories and users with roles. Under
the database calls, the controllers hold a good deal of sequential logic.
This project models that logic and proves what it promises:

- **Quotations** (`Quotations`, over `QuotationModel`, `SaleModel` and
  `LegacyCatalog`):
  - each line item is resolved variant → colour → optional size;
  - a new quotation expires fifteen days after creation;
  - conversion into a sale happens at most once and never after expiry;
  - the derived status fields, and the filters of the two listings.
- **Storefront** (`Storefront`, over `Catalog`):
  - the online-only public view of a product, proved to be a sub-tree of the
    stored product;
  - the "can be offered online" test;
  - the candidate-price loop and the price range it gives;
  - paging;
  - online-product creation and the design-category store.
- **Catalog migration** (`Migration`): the per-product translation of a
  legacy document into the current four-level tree, and the upsert loop over
  all products.
- **Reports** (`Reports`): inventory totals and motive counts, the sales
  summary, receipt summaries, displayed price fallbacks and variant labels.
- **Small stores and rules**:
  - cost parameters (`CostParameters`);
  - categories with their cascade delete (`Categories`);
  - direct sales (`DirectSales`);
  - users, profile and role updates, and the role guard (`Users`,
    `UserControl`, `RoleCheck`).

## Modelling conventions

- **Stores.** A database collection is a `map<Id, T>` field of a class. Each
  stateful operation is a method whose `ensures` states the whole new state.
  Each decision it makes is a function, specified on its own and used by the
  method.
- **Values.**
  - Ids are `nat`.
  - Money is an `int` number of cents.
  - Time is an `int` number of milliseconds.
  - The current time is a parameter (`now`).
  - A field that may be absent is an `Option`.
  - JavaScript truthiness is modelled for exactly the value kinds the code
    tests: `Truthy` for strings and `TruthyNum` for numbers.
- **Schemas.** Each schema file becomes a datatype plus a validity predicate
  holding its required fields, enums and minimums:
  - `Catalog.ValidProducto` and `LegacyCatalog.ValidProducto`;
  - `SaleModel.ValidVenta` and `SaleModel.ValidLinea`;
  - `QuotationModel.ValidCotizacion`;
  - `InventoryModel.ValidMovimiento`;
  - `Categories.ValidCategoria` and the matching predicate for subcategories;
  - `Users.ValidUsuario`.

  Where the schema fills in defaults, a `…ConDefectos` function builds the
  stored document.
- **Outside callers.** A function stands for each call the model cannot see:
  - the password hash is an opaque `string -> string` parameter;
  - the subcategory lookup is a `set<Id>` of existing ids.
- **Picking an id.** A fresh id for a new document is a parameter that the
  caller guarantees is unused.

## Model

| member | source | states |
|---|---|---|
| Common.MapResult | backend/app/controllers/cotizacionesController.js:20-92 | `Promise.all` over a failing map: succeeds iff every element succeeds, the results keep length and order, and an error is that of the first failing element |
| Common.Buscar | backend/app/controllers/cotizacionesController.js:26 | `find` by id: the result is the first element with that id; none iff no element has it or no id is given |
| Common.CeilDiv | backend/app/controllers/cotizacionesController.js:240 | `Math.ceil(a / b)`: the least `r` with `r * b >= a` |
| Common.OrStr | backend/app/controllers/cotizacionesController.js:86 | `a \|\| b` on an optional string: the value when it is non-empty, else the fallback |
| Common.OrNum | backend/app/controllers/cotizacionesController.js:86 | `a \|\| b` on an optional number: the value when it is present and non-zero, else the fallback |
| Catalog.TallaConDefectos | backend/app/models/productsRelatedModels/productosModel.js:3-11 | a stored size is online only when that is given (default false); it keeps code, stock, cost and order; it is valid iff it has a code and stock and cost are at least 0 |
| Catalog.ColorConDefectos | backend/app/models/productsRelatedModels/productosModel.js:13-22 | a colour is online only when given; its own stock and cost stay optional; it is valid iff it has a name and a hex code and every size is valid |
| Catalog.CalidadConDefectos | backend/app/models/productsRelatedModels/productosModel.js:24-29 | a quality is online exactly when `disponibleOnline` is given as true; when it is not given, it is offline |
| Catalog.VarianteConDefectos | backend/app/models/productsRelatedModels/productosModel.js:33-38 | a variant is online exactly when `disponibleOnline` is given as true; when it is not given, it is offline |
| Catalog.ConfigConDefectos | backend/app/models/productsRelatedModels/productosModel.js:49-53 | `usaVariante` and `usaCalidad` are false unless given |
| Catalog.ValidProducto | backend/app/models/productsRelatedModels/productosModel.js:44-63 | the product schema: required name and description, valid variants all the way down to the sizes, and a url on every image |
| Catalog.HojasValidas | backend/app/models/productsRelatedModels/productosModel.js:3-11 | in a valid product, every size at any depth has a code and non-negative stock and cost |
| LegacyCatalog.ValidProducto | backend/app/models/productosModel.js:21-32 | the legacy product schema: required name and description, and valid variants, colours and sizes |
| SaleModel.EstadoDesdeNombre | backend/app/models/ventasModel.js:79-83 | a string names a sale state iff it is one of the six enum values, and naming that state gives the string back |
| SaleModel.EstadoIdaYVuelta | backend/app/models/ventasModel.js:79-83 | every state is recovered from its stored name |
| SaleModel.MetodoDesdeNombre | backend/app/models/ventasModel.js:87 | a string names a payment method iff it is efectivo, tarjeta or transferencia |
| SaleModel.MetodoIdaYVuelta | backend/app/models/ventasModel.js:87 | every payment method is recovered from its stored name |
| SaleModel.ValidVenta | backend/app/models/ventasModel.js:3-108 | the sale schema: non-negative subtotal, total and amount owed, a seller, valid items and non-negative payments |
| SaleModel.VentaConDefectos | backend/app/models/ventasModel.js:79-108 | a new sale defaults to pendiente, no payments, `restante` 0 and not online; with non-negative totals, a seller and valid items it satisfies the sale schema |
| QuotationModel.ValidCotizacion | backend/app/models/cotizacionModel.js:3-89 | the quotation schema: every item valid (product reference unless temporary, names, `precioBase`, prices, at least one unit, valid extras); the totals have no minimum |
| QuotationModel.CotizacionConDefectos | backend/app/models/cotizacionModel.js:80-88 | a new quotation is created now, expires fifteen days later, is active, not online and not converted |
| QuotationModel.TotalesSinCota | backend/app/models/cotizacionModel.js:9-10 | changing the totals, even to negative values, does not change whether a quotation satisfies its schema |
| QuotationModel.TotalNegativoSoloEnCotizacion | backend/app/models/cotizacionModel.js:9-10 | illustration: a quotation with total -1 is valid, but a sale with the same totals and item is not |
| InventoryModel.ValidMovimiento | backend/app/models/movimientosInventarioModel.js:31-44 | the movement schema: a required product description and at least one unit |
| InventoryModel.MotivosCompletos | backend/app/models/movimientosInventarioModel.js:45-49 | the motive list holds every motive |
| InventoryModel.TipoDesdeNombre | backend/app/models/movimientosInventarioModel.js:35-39 | a string names a direction iff it is entrada or salida, and back |
| InventoryModel.TipoIdaYVuelta | backend/app/models/movimientosInventarioModel.js:35-39 | every direction is recovered from its stored name |
| InventoryModel.MotivoDesdeNombre | backend/app/models/movimientosInventarioModel.js:45-49 | a string names a motive iff it is one of the five enum values, and back |
| InventoryModel.MotivoIdaYVuelta | backend/app/models/movimientosInventarioModel.js:45-49 | every motive is recovered from its stored name |
| Quotations.ResolverExtras | backend/app/controllers/cotizacionesController.js:51-65 | succeeds iff every requested extra exists; then one entry per id, in order, with the catalog's name, unit and amount; a failure names a missing id |
| Quotations.ResolverItem | backend/app/controllers/cotizacionesController.js:21-91 | success points at the named product, variant, colour and size with their names copied, `cantidad` defaults to 1, and prices are copied, but not `precioBase`; its extras are exactly the resolved requested extras; product not found iff no or unknown ref; each later failure implies every earlier step matched and this one found nothing; no size is looked up unless one is asked for |
| Quotations.ResolverItemCompleto | backend/app/controllers/cotizacionesController.js:21-65 | with unique sibling ids, an item whose variant, colour, requested size and extras all exist always resolves |
| Quotations.ResolverItems | backend/app/controllers/cotizacionesController.js:20-92 | all items resolve or creation fails; on success, items map one-to-one in order |
| Quotations.ConstruirCotizacion | backend/app/controllers/cotizacionesController.js:12-101 | 400 iff the client is missing, the item list is missing or empty, or a total is falsy (so 0 is rejected); otherwise success iff every item resolves; a created quotation keeps client, totals and discount, expires at now + 15 days, is active and unconverted, and holds the resolved items in order |
| Quotations.CotizacionCreadaIncumpleEsquema | backend/app/models/cotizacionModel.js:76 | as written, every quotation creation builds is refused by its schema: its items lack the required `precioBase` |
| Quotations.ExtrasResueltosIncumplenEsquema | backend/app/models/cotizacionModel.js:45-52 | as written, every resolved extra is refused by the schema: it carries `id` and no `extraRef` |
| Quotations.ConExtraRef | backend/app/controllers/cotizacionesController.js:57-63 | the extra's id is written under `extraRef`; nothing else changes |
| Quotations.LineaCorregida | backend/app/controllers/cotizacionesController.js:67-91 | the corrected item takes the request's `precioBase` and writes each extra under `extraRef`; every other field is as resolved |
| Quotations.LineasCorregidas | backend/app/controllers/cotizacionesController.js:20-92 | corrects every resolved item with its own request item, in order |
| Quotations.ConstruirCotizacionCorregida | backend/app/controllers/cotizacionesController.js:12-101 | corrected creation fails exactly when creation as written fails, with the same error; on success it is the same quotation with each item corrected |
| Quotations.CotizacionCorregidaCumpleEsquema | backend/app/models/cotizacionModel.js:3-89 | with a valid catalog, named extras and items that send base price, price, final price and a positive quantity, a corrected quotation satisfies its schema |
| Quotations.CopiaLinea | backend/app/controllers/cotizacionesController.js:151-162 | the sale item copies every listed field of the quotation item, has no `precioBase` and is not temporary |
| Quotations.VentaDesde | backend/app/controllers/cotizacionesController.js:147-167 | the new sale has the quotation's client, totals, online flag and discount, `restante` = total and `origenCotizacion` = the quotation id; its items are copies of the quotation's, in the same count and order; it is pending, with no payments and no seller |
| Quotations.VentaConvertidaIncumpleEsquema | backend/app/models/ventasModel.js:75-104 | the converted sale never satisfies the sale schema (no seller), and neither does any of its items (no `precioBase`) |
| Quotations.CopiaLineaCorregida | backend/app/controllers/cotizacionesController.js:151-162 | the corrected copy is the copy as written plus the quotation item's `precioBase` |
| Quotations.VentaDesdeCorregida | backend/app/controllers/cotizacionesController.js:147-167 | the corrected sale is the sale as written, with the base prices kept and the authenticated user (`req.userId`) as the seller |
| Quotations.VentaCorregidaCumpleEsquema | backend/app/models/ventasModel.js:75-104 | the corrected sale from a valid quotation with non-negative totals whose items reference products satisfies the sale schema |
| Quotations.GuardadaTalCual | backend/app/models/cotizacionModel.js:3-89 | under strict mode, a saved quotation loses `convertidaAVenta`, which the schema does not declare; every other field is kept |
| Quotations.ReconvertibleTalCual | backend/app/controllers/cotizacionesController.js:173-174 | as written, a convertible quotation whose back-reference was saved under strict mode is still convertible |
| Quotations.UnaVentaPorCotizacion | backend/app/controllers/cotizacionesController.js:131-174 | while sales and back-references are linked, two sales from the same quotation are the same sale |
| Quotations.VentaGuardadaTalCual | backend/app/models/ventasModel.js:3-108 | under strict mode, a saved sale loses `origenCotizacion`, which the sale schema does not declare; every other field is kept |
| Quotations.EnlaceRotoTalCual | backend/app/controllers/cotizacionesController.js:164-174 | as written, even with the back-reference kept, storing the converted sale under strict mode leaves the quotation pointing to a sale that does not point back, so the link invariant fails |
| Quotations.EstadoEn | backend/app/controllers/cotizacionesController.js:236-248 | `expirada` iff expira < now; `diasRestantes` is 0 when expired, else the ceiling of the remaining time in days; `puedeConvertir` iff not expired and not converted |
| Quotations.Convertible | backend/app/controllers/cotizacionesController.js:131-144 | conversion accepts a quotation exactly when it has no back-reference and has not expired; expiring exactly now still passes |
| Quotations.PuedeConvertirSiiConvertible | backend/app/controllers/cotizacionesController.js:131-144 | the displayed `puedeConvertir` agrees exactly with what conversion accepts |
| Quotations.QuinceDiasAlCrear | backend/app/controllers/cotizacionesController.js:100 | a quotation created now shows fifteen days left |
| Quotations.FiltroActivas | backend/app/controllers/cotizacionesController.js:197-200 | the active listing's filter: unconverted and expiring strictly after now |
| Quotations.ActivaSii | backend/app/controllers/cotizacionesController.js:197-200 | active means unconverted and expiring strictly after now |
| Quotations.ActivasYConvertibles | backend/app/controllers/cotizacionesController.js:139-200 | active quotations are convertible; the only convertible ones that the active listing omits expire exactly now |
| Quotations.FiltroDesdeConsulta | backend/app/controllers/cotizacionesController.js:263-292 | the filtered listing's query: client and date range when given, the conversion filter only for "true" and "false", and the expiry filter only for "true" (before now) and "false" (now or later) |
| Quotations.ConsultaSatisfecha | backend/app/controllers/cotizacionesController.js:263-292 | the filtered listing matches a quotation iff each given criterion holds: client, date bounds, `convertidas` "true"/"false", `expiradas` "true" (< now) or "false" (>= now); other values impose nothing |
| Quotations.ExpiradasParticion | backend/app/controllers/cotizacionesController.js:288-292 | `expiradas=true` and `expiradas=false` split the quotations in two, in agreement with the derived `expirada` |
| Quotations.Registro.CrearCotizacion | backend/app/controllers/cotizacionesController.js:7-103 | corrected creation: a failed check or lookup returns its error; a quotation the schema refuses gives a server error; otherwise the quotation is stored under the new id; every stored document satisfies its schema and the links between sales and quotations are kept |
| Quotations.Registro.ConvertirAVenta | backend/app/controllers/cotizacionesController.js:121-174 | corrected conversion: unknown gives 404, already converted gives 400 with the existing sale id, expired gives 400, and a sale the schema refuses gives a server error, each changing nothing; otherwise the corrected sale is stored with its `origenCotizacion` and the back-reference is written (both fields declared by the corrected schemas), so the quotation is no longer convertible; the stored documents stay valid and linked |
| Storefront.VistaPublica | backend/app/controllers/storeController.js:64-85 | the public view of a product: its online variants, their online qualities and colours, and the online sizes with stock, in stored order |
| Storefront.VistaSoloVisible | backend/app/controllers/storeController.js:64-85 | every variant, quality and colour in the public view is online, and every size kept is online with stock > 0 |
| Storefront.VistaConservaLoVisible | backend/app/controllers/storeController.js:68-81 | every online variant → quality → colour path appears in the view, and every online in-stock size of such a colour is kept |
| Storefront.VistaEsSubArbol | backend/app/controllers/storeController.js:66-84 | the public view is a sub-tree of the product: each node kept is unchanged except for its children, and the kept children stay in their original order |
| Storefront.ListadoSiiVistaConColor | backend/app/controllers/storeController.js:209-217 | a base product is offered iff some online variant has an online quality with an online colour, which holds iff its public view still reaches a colour |
| Storefront.TieneCaminoOnline | backend/app/controllers/storeController.js:209-217 | the `some` chain of the base-product listing: an online variant with an online quality holding an online colour; sizes and stock are not looked at |
| Storefront.ProductosBaseListados | backend/app/controllers/storeController.js:209-217 | the listed base products are exactly those with an online path |
| Storefront.PreciosDeColor | backend/app/controllers/storeController.js:249-260 | a colour contributes `x` iff it is online and either has sizes, one of them online with stock and cost `x`, or has no sizes and a truthy own cost `x` |
| Storefront.Precios | backend/app/controllers/storeController.js:244-265 | the candidate prices of a product in tree order: the costs the nested `forEach` pushes |
| Storefront.PreciosCaracterizados | backend/app/controllers/storeController.js:244-265 | `x` is a candidate price iff it comes from such a colour on an online quality of an online variant |
| Storefront.PrecioNegativoSoloDeColor | backend/app/models/productsRelatedModels/productosModel.js:3-22 | in a valid product a negative candidate price can only be a colour's own cost, on a colour without sizes: the schema bounds size costs but not colour costs |
| Storefront.CalcularPrecios | backend/app/controllers/storeController.js:244-265 | the nested `forEach` loop fills exactly the candidate price list, in tree order |
| Storefront.AgregarPreciosVariante | backend/app/controllers/storeController.js:246-264 | appends exactly an online variant's candidate prices |
| Storefront.AgregarPreciosCalidad | backend/app/controllers/storeController.js:248-262 | appends exactly an online quality's candidate prices |
| Storefront.AgregarPreciosTallas | backend/app/controllers/storeController.js:252-256 | appends the cost of each online size with stock, in order |
| Storefront.Minimo | backend/app/controllers/storeController.js:271 | `Math.min` of a non-empty list is a member and a lower bound |
| Storefront.Maximo | backend/app/controllers/storeController.js:272 | `Math.max` of a non-empty list is a member and an upper bound |
| Storefront.RangoPrecios | backend/app/controllers/storeController.js:267-272 | no range iff there is no candidate price; otherwise minimum ≤ maximum, both are candidates, and every candidate lies between them |
| Storefront.Salto | backend/app/controllers/storeController.js:7-8 | the documents skipped are `(page − 1) · limit`, with `page` defaulting to 1 and `limit` to 12, so a query without `page` starts at the first document |
| Storefront.Paginas | backend/app/controllers/storeController.js:7-35 | `Math.ceil(total / limit)` with `limit` defaulting to 12: a page count exists iff the limit is positive, and it is the least number of pages of that size that holds every document |
| Storefront.PaginaDeElemento | backend/app/controllers/storeController.js:7-35 | with the defaults applied and a positive limit, document `k` lies on page `k / limit + 1`, which is within the page count |
| Storefront.NuevoProductoOnline | backend/app/controllers/storeController.js:274-289 | the stored online product has the request's slug, base, names, descriptions, design and suggested variant, the computed prices, and is active; it is featured only when `destacado` is true; images, categories and tags default to empty, and the colour configuration to `colorFijo` |
| Storefront.ValidProductoOnline | backend/app/models/productsRelatedModels/productosOnlineModel.js:3-33 | the online-product schema: required slug, name, description and design, a short description of at most 200 characters, non-negative price bounds, a url on every image, and a suggested variant with its required cut, quality and colour |
| Storefront.SinVarianteSugeridaRechazado | backend/app/models/productsRelatedModels/productosOnlineModel.js:17-22 | a request without `varianteSugerida` is never saved, whatever the prices |
| Storefront.SolicitudCompletaAceptada | backend/app/models/productsRelatedModels/productosOnlineModel.js:3-33 | a request whose own fields satisfy the schema, with non-negative price bounds, is saved |
| Storefront.Tienda.CrearProductoOnline | backend/app/controllers/storeController.js:226-291 | an unknown base gives 404, a used slug gives 400, no candidate price gives 400, and a document the schema refuses gives 500, each storing nothing; otherwise it stores the product with the base's price range; slugs stay unique |
| Storefront.Tienda.CrearCategoriaDiseno | backend/app/controllers/storeController.js:120-131 | stores an active design category whose `orden` defaults to 0 when falsy |
| Storefront.Tienda.EliminarCategoriaDiseno | backend/app/controllers/storeController.js:160-174 | soft delete: only `activo` becomes false and no key disappears; 404 when unknown |
| Migration.NombreTalla | backend/migrate.js:128 | a size code maps to its table name, an unknown code to itself, and no code to none |
| Migration.CodigoHex | backend/migrate.js:120 | a colour maps to its table hex code, else to `#CCCCCC` |
| Migration.Tablas | backend/migrate.js:63-81 | illustration of both tables: an unknown colour gets `#CCCCCC` and an unknown size code is kept |
| Migration.ImagenesMigradas | backend/migrate.js:91-95 | images map one-to-one, in order, with `orden = index + 1`, and only the first is principal |
| Migration.TallaMigrada | backend/migrate.js:126-133 | a size keeps its code, stock and cost, takes its table name and `orden = index + 1`, and is online |
| Migration.TallasMigradas | backend/migrate.js:126-133 | sizes map one-to-one in order |
| Migration.ColorConCalidad | backend/migrate.js:117-140 | a colour under a quality keeps its name, takes its hex code, `orden = index + 1` and online; with sizes it takes them and no own stock or cost; without sizes, a stock that is not null brings its value (undefined if absent) and the cost, and a null stock brings neither |
| Migration.ColorSinCorte | backend/migrate.js:168-193 | a colour of a product without `corte` keeps its name, takes its hex code, `orden = index + 1` and online; with sizes it takes them; without sizes it takes its stock value and its cost whatever the stock holds |
| Migration.StockNuloSegunRama | backend/migrate.js:134-138 | for a colour without sizes and a null stock, the quality branch stores neither stock nor cost, while the no-`corte` branch stores no stock but keeps the cost |
| Migration.ColorSinCalidad | backend/migrate.js:144-157 | with `corte` but no `calidad`, sizes are translated but a colour's own stock and cost are not copied |
| Migration.ColoresMigrados | backend/migrate.js:117-193 | colours map one-to-one in order under the branch's translation |
| Migration.NombreVariante | backend/migrate.js:104-165 | a variant is named by its `tipo`, else by the product's `corte`, or "Estándar" when there is no `corte` |
| Migration.VarianteMigrada | backend/migrate.js:105-196 | `orden = index + 1` and online; with `calidad` it holds exactly one quality with `orden` 1 and the colours; otherwise the colours sit directly on the variant |
| Migration.VariantesMigradas | backend/migrate.js:105-196 | variants map one-to-one in order |
| Migration.Construidas | backend/migrate.js:104-214 | the translated variants, except that a product with neither `corte` nor variants gets the single generic variant |
| Migration.AlEsquema | backend/app/models/productsRelatedModels/productosModel.js:33-38 | storing keeps name, order and qualities of a built variant, and its directly placed colours are dropped |
| Migration.AlEsquemaTodas | backend/app/models/productsRelatedModels/productosModel.js:33-38 | the stored form of every built variant, in order |
| Migration.AlEsquemaCorregido | backend/migrate.js:143-144 | corrected storing puts colours placed on the variant into one pass-through quality |
| Migration.AlEsquemaCorregidoTodas | backend/migrate.js:143-144 | the corrected stored form of every built variant, in order |
| Migration.ConfigDe | backend/migrate.js:57-60 | `usaVariante` iff `corte` is defined, `usaCalidad` iff `calidad` is defined |
| Migration.MigrarTalCual | backend/migrate.js:84-226 | the product the migration stores as written: its translated variants given the variant schema's shape, so quality-less colours are dropped |
| Migration.Migrar | backend/migrate.js:84-226 | the product the corrected migration stores: the same translation, with quality-less colours kept under one pass-through quality |
| Migration.ColoresPerdidos | backend/migrate.js:142-157 | as written, a product with `corte` and no `calidad` whose variant has a colour is stored with a variant that has no quality and so no colour |
| Migration.ColoresConservados | backend/migrate.js:104-214 | corrected, each legacy variant's colours survive in order at the same position; a product with neither `corte` nor variants holds exactly the generic variant's "N/A" colour |
| Migration.StockYCostoConservados | backend/migrate.js:129-130 | every migrated size keeps the legacy size's stock and cost and gets `orden = index + 1` |
| Migration.OrdenesUnicasTrasMigrar | backend/migrate.js:109-131 | display orders are distinct among the children of every node of the migrated product |
| Migration.ConfigRespetadaSii | backend/migrate.js:57-60 | the one-child rule for unused levels holds iff the product has `corte` or at most one legacy variant |
| Migration.MigrarProducto | backend/migrate.js:55-217 | the loop body assigns the variants branch by branch and yields exactly the corrected migration of the product |
| Migration.MigrarProductos | backend/migrate.js:55-225 | upsert by id: the resulting ids are the old ones plus the migrated ones; each migrated id holds the migration of the last legacy document with that id; other documents are unchanged |
| Reports.TotalTipo | backend/app/controllers/reportesController.js:318-319 | the summed `cantidad` of the movements of one direction (`filter` then `reduce`) |
| Reports.Saldo | backend/app/controllers/reportesController.js:320 | the balance: entries minus exits |
| Reports.EntradasMasSalidas | backend/app/controllers/reportesController.js:318-319 | every movement is counted in exactly one of `totalEntradas` and `totalSalidas` |
| Reports.SaldoConcat | backend/app/controllers/reportesController.js:318-320 | the balance of two consecutive periods is the sum of their balances |
| Reports.TotalTipoConcat | backend/app/controllers/reportesController.js:318-319 | the total of one direction over two consecutive periods is the sum of the two totals |
| Reports.TotalAlMenosCuenta | backend/app/models/movimientosInventarioModel.js:40-44 | with valid entries (`cantidad ≥ 1`), each direction's total is at least its number of movements |
| Reports.Conteo | backend/app/controllers/reportesController.js:322-328 | the number of movements with one motive |
| Reports.ConteosParticionan | backend/app/controllers/reportesController.js:322-328 | the five motive counts add up to the number of movements |
| Reports.FilasCompletas | backend/app/controllers/reportesController.js:322-328 | a count row is computed for every motive of the enum |
| Reports.Desglose | backend/app/controllers/reportesController.js:354-360 | the breakdown holds a motive's row iff its count is positive, with that count |
| Reports.DesgloseSumaTotal | backend/app/controllers/reportesController.js:322-360 | the breakdown's counts add up to the number of movements |
| Reports.ConstruirConsulta | backend/app/controllers/reportesController.js:298-309 | the movement query: the period, the direction only when truthy, and the motives only when a non-empty list is given |
| Reports.ConsultaCumplida | backend/app/controllers/reportesController.js:298-309 | a movement is reported iff it is in the period, has the direction if one is given, and has one of the motives if the list is non-empty |
| Reports.ListaVaciaNoFiltra | backend/app/controllers/reportesController.js:307-309 | an empty motive list filters nothing, the same as no list |
| Reports.ResumenDeVentas | backend/app/controllers/reportesController.js:31-39 | the sales summary: the sum of `total || 0` and the count over the sales in the period that are not returned |
| Reports.ResumenAlAgregar | backend/app/controllers/reportesController.js:31-39 | adding a sale adds its total and one to the count when it is in the period and not returned, and changes nothing otherwise |
| Reports.DevueltaNoCuenta | backend/app/controllers/reportesController.js:34 | a returned sale never changes the summary |
| Reports.ResumenAcotado | backend/app/controllers/reportesController.js:38-39 | over valid sales, the summed total is non-negative and the count is at most the number of sales |
| Reports.TotalItems | backend/app/controllers/reportesController.js:598 | `totalItems`: the sum of `cantidad || 0` over the items |
| Reports.TotalItemsAlMenosLineas | backend/app/models/ventasModel.js:69 | items satisfying the schema give `totalItems` ≥ the number of items |
| Reports.ResumenDe | backend/app/controllers/reportesController.js:402-431 | 400 iff there are no items; otherwise `totalProductos` is the item count and `totalItems` the summed quantities |
| Reports.ReciboCotizacion | backend/app/controllers/reportesController.js:390-431 | 404 iff the quotation is unknown, 400 iff it has no items |
| Reports.ReciboVenta | backend/app/controllers/reportesController.js:553-716 | 404 iff the sale is unknown, 400 iff it has no items; `mostrarRestante` iff `restante > 0` |
| Reports.TotalItemsCopia | backend/app/controllers/cotizacionesController.js:151-162 | converting a quotation keeps the summed item quantities |
| Reports.ReciboDeConvertida | backend/app/controllers/reportesController.js:593-598 | a sale converted (corrected) from a quotation with items and a positive total has the quotation's item counts and shows its whole total as owed |
| Reports.PreciosMostrados | backend/app/controllers/reportesController.js:452-454 | base price or 0; unit price or else base price; final price or else unit price × quantity, a falsy quantity counting as 1 |
| Reports.PreciosTrasConversion | backend/app/controllers/reportesController.js:634-636 | an item converted (corrected) shows on the sale receipt the base, unit and final prices it showed on the quotation receipt |
| Reports.Presentes | backend/app/controllers/reportesController.js:471-472 | `filter(Boolean)`: exactly the truthy parts, never an empty string |
| Reports.Etiqueta | backend/app/controllers/reportesController.js:469-473 | the label is `nombreCompleto` when truthy, else the present parts joined by " / " |
| Reports.EtiquetaLongitud | backend/app/controllers/reportesController.js:470-472 | without a full name, the label's length is that of its parts plus 3 for each separator |
| Reports.EtiquetaSoloColor | backend/app/controllers/reportesController.js:470-472 | illustration: with only a colour name, the label is that name |
| CostParameters.IdsInvalidos | backend/app/controllers/parametrosCostosController.js:27-29 | the ids reported are exactly the requested ids that do not exist |
| CostParameters.CardinalElementos | backend/app/controllers/parametrosCostosController.js:26 | a list has at most as many distinct ids as entries, exactly as many when none repeats |
| CostParameters.FaltanSiiAlgunaDesconocida | backend/app/controllers/parametrosCostosController.js:25-26 | with no repeated ids, the count check fails iff some id does not exist |
| CostParameters.RepetidaRechazada | backend/app/controllers/parametrosCostosController.js:25-35 | a repeated id fails the check although it exists, with no id reported |
| CostParameters.NuevoCosto | backend/app/controllers/parametrosCostosController.js:45-53 | the new document keeps the request's fields, with the plancha dimensions only for `cm_cuadrado` |
| CostParameters.Creacion | backend/app/controllers/parametrosCostosController.js:10-55 | corrected creation: missing fields give 400 and a bad cost gives 400; once those pass, unknown subcategories give 400 listing exactly the unknown ids; once those pass, missing dimensions give 400; once all pass, a unit outside the enum fails on save; success iff every check passes, with the new document |
| CostParameters.CreacionTalCual | backend/app/controllers/parametrosCostosController.js:3-25 | as written: the first two checks behave as intended, and then the misdirected lookup throws |
| CostParameters.CreacionTalCualNuncaCrea | backend/app/controllers/parametrosCostosController.js:3-25 | as written, no request creates a parameter: past the first two checks, every request ends in a server error |
| CostParameters.CreacionCorregidaCrea | backend/app/controllers/parametrosCostosController.js:10-55 | corrected, a request with every field right and existing, distinct subcategories is created |
| CostParameters.CreadoConDimensionesCorrectas | backend/app/controllers/parametrosCostosController.js:38-51 | a created parameter has dimensions only for `cm_cuadrado`, has both when it is `cm_cuadrado`, and has a non-negative cost |
| CostParameters.OrOpcion | backend/app/controllers/parametrosCostosController.js:154-155 | `a \|\| b` on optional numbers |
| CostParameters.Datos | backend/app/controllers/parametrosCostosController.js:144-159 | falsy name and unit keep the stored ones; description, cost and subcategories keep them only when absent; dimensions are merged for `cm_cuadrado` and cleared otherwise |
| CostParameters.Aplicar | backend/app/controllers/parametrosCostosController.js:161-164 | the update validators accept iff the cost is a number and the unit is in the enum |
| CostParameters.Actualizacion | backend/app/controllers/parametrosCostosController.js:124-165 | corrected update: unknown id gives 404; unknown subcategories give 400; an existing id whose subcategories (if sent) all exist gives exactly the validated merge of the request over the stored parameter |
| CostParameters.ActualizacionTalCual | backend/app/controllers/parametrosCostosController.js:124-165 | as written: 404 for an unknown id; without subcategories, the same as the corrected update |
| CostParameters.ActualizacionTalCualConSubcategorias | backend/app/controllers/parametrosCostosController.js:133-134 | as written, every update that sends subcategories ends in a server error |
| CostParameters.CostoCeroYNombreVacio | backend/app/controllers/parametrosCostosController.js:145-148 | an update can set the cost to 0, while an empty name keeps the stored name |
| CostParameters.ActualizacionAceptaCostoNegativo | backend/app/controllers/parametrosCostosController.js:148 | unlike creation, an update stores a negative cost |
| CostParameters.ActualizacionConservaDimensionesSoloConCm | backend/app/controllers/parametrosCostosController.js:153-159 | an update keeps "dimensions only for `cm_cuadrado`" |
| CostParameters.UnidadOmitidaBorraDimensiones | backend/app/controllers/parametrosCostosController.js:153-159 | an update that omits the unit clears the dimensions of a `cm_cuadrado` parameter, which is then left without them |
| CostParameters.Costos.Crear | backend/app/controllers/parametrosCostosController.js:5-55 | stores exactly the corrected creation's document, or nothing with its rejection |
| CostParameters.Costos.Actualizar | backend/app/controllers/parametrosCostosController.js:119-165 | builds the update object step by step, and its result is the corrected update; writes only on success |
| Categories.SinLasDe | backend/app/controllers/categoriasController.js:60 | exactly the subcategories whose category is not the deleted one survive, unchanged |
| Categories.BorrarSubcategoriaDejaReferencia | backend/app/controllers/categoriasController.js:84 | deleting a listed subcategory leaves its id in the parent's list, so the lists stop being coherent |
| Categories.CascadaSinHuerfanas | backend/app/controllers/categoriasController.js:60-70 | the cascade delete leaves no subcategory without its category |
| Categories.NombreValido | backend/app/models/categoriasModel.js:19-26 | the category and subcategory name rule: present, non-empty and at most 50 characters |
| Categories.Catalogo.AgregarCategoria | backend/app/controllers/categoriasController.js:4-20 | a name in use or refused by the schema saves nothing; otherwise the category is added with no subcategories; names stay unique |
| Categories.Catalogo.CrearSubcategoria | backend/app/controllers/categoriasController.js:22-42 | an unknown category or a refused name saves nothing; otherwise the subcategory points at its category, `usaTallas` defaults to false, and its id is appended to the category's list |
| Categories.Catalogo.EliminarCategoria | backend/app/controllers/categoriasController.js:53-78 | an unknown category aborts, leaving everything exactly as before; otherwise the category and every subcategory pointing at it go together |
| Categories.Catalogo.EliminarSubcategoria | backend/app/controllers/categoriasController.js:80-94 | removes only that subcategory and leaves the categories untouched; 404 when unknown |
| DirectSales.Suma | backend/app/controllers/ventasController.js:22 | the sale total: the subtotals added one by one |
| DirectSales.SumaConcat | backend/app/controllers/ventasController.js:22 | the total of a concatenation is the sum of the totals |
| DirectSales.SumaNoNegativa | backend/app/controllers/ventasController.js:21-22 | non-negative subtotals give a non-negative total |
| DirectSales.ProcesarProductos | backend/app/controllers/ventasController.js:12-28 | succeeds iff every product exists; then one processed item per input, in order, with `subtotal = precio · cantidad` and the total their sum; otherwise the error is the first unknown product |
| DirectSales.Registro.CrearVenta | backend/app/controllers/ventasController.js:4-38 | a missing or empty list gives 400 and the first unknown product gives 404, neither saving anything; otherwise the sale is stored under the authenticated user with the processed items and their sum |
| DirectSales.Registro.ActualizarEstado | backend/app/controllers/ventasController.js:68-79 | overwrites only `estado`; 404 when unknown |
| Users.NombreRol | backend/app/models/usuariosModel.js:5-9 | every role's stored name is one of the ROLES values |
| Users.RolDesdeNombre | backend/app/models/usuariosModel.js:34-42 | a string names a role iff it is among the ROLES values, and back |
| Users.RolIdaYVuelta | backend/app/models/usuariosModel.js:34-42 | every role is recovered from its stored name |
| Users.TresRoles | backend/app/models/usuariosModel.js:5-9 | ROLES has exactly three distinct values, covering every role |
| Users.Publico | backend/app/controllers/usersControllers.js:35 | the public record keeps every field except the password |
| Users.NombreValido | backend/app/models/usuariosModel.js:12-18 | the user-name rule: non-empty, at most 50 characters, only letters, accented letters and whitespace |
| Users.ValidUsuario | backend/app/models/usuariosModel.js:11-47 | the user schema: a name the name rule accepts, a required email and a required password |
| Users.EjemplosDeNombre | backend/app/models/usuariosModel.js:12-18 | illustration: an accented two-word name and a name with a no-break space pass the name rule; a digit or an empty name fails it |
| Users.CaracterDeNombre | backend/app/models/usuariosModel.js:12-18 | a name character is a letter, an accented letter or any character JavaScript's `\s` matches (space, tab, line breaks, no-break and the other Unicode spaces); digits are never allowed |
| Users.NuevoUsuario | backend/app/models/usuariosModel.js:34-46 | the role defaults to vendedor and `ultimoAcceso` to now; the new user satisfies the schema exactly when its name passes the name rule and its email and password are non-empty |
| Users.PreGuardar | backend/app/models/usuariosModel.js:50-60 | the password is replaced by its hash iff it was modified; nothing else changes |
| Users.TieneRol | backend/app/models/usuariosModel.js:67-69 | `tieneRol(...roles)`: the user's stored role name is among `roles` |
| Users.TieneRolSegunEnum | backend/app/models/usuariosModel.js:67-69 | the role test agrees with the role enum: every user passes with all of ROLES, and a user passes exactly when a listed name parses to the user's role |
| UserControl.SiVerdadero | backend/app/controllers/usersControllers.js:21-29 | a request field is kept iff it is truthy |
| UserControl.Aplicar | backend/app/controllers/usersControllers.js:31-35 | the fields supplied are replaced and every other field is untouched |
| UserControl.Actualizacion | backend/app/controllers/usersControllers.js:18-37 | corrected profile update: the update validators run first, so it fails (500) exactly when a truthy name breaks the name rule, whether or not the user exists; past them, an unknown id gives an empty response and a known one returns the updated user, whose truthy name, password (hashed) and token replace the stored ones while email and role are kept |
| UserControl.ActualizacionTalCual | backend/app/controllers/usersControllers.js:18-37 | as written: without a password, the same as the corrected update; a refused name fails even for an unknown id |
| UserControl.PasswordNuncaCambiaTalCual | backend/app/controllers/usersControllers.js:24-27 | as written, a request with a password always ends in a server error |
| UserControl.PasswordCambiada | backend/app/controllers/usersControllers.js:24-35 | corrected, a password change with an acceptable name stores the hash of the new password |
| UserControl.SinCamposNoCambia | backend/app/controllers/usersControllers.js:20-35 | a request with no truthy field leaves the user unchanged |
| UserControl.Directorio.ConstruirCambios | backend/app/controllers/usersControllers.js:21-29 | the update object holds exactly the truthy fields, with the password hashed |
| UserControl.Directorio.ActualizarUsuario | backend/app/controllers/usersControllers.js:18-42 | a refused name gives 500 and stores nothing, for known and unknown ids; otherwise stores the corrected update's result and returns it without the password, storing nothing for an unknown id |
| UserControl.Directorio.ActualizarRolUsuario | backend/app/controllers/usersControllers.js:45-69 | a role outside ROLES gives 400 and an unknown id gives 404, neither changing anything; otherwise only the role changes, and the record comes back without the password |
| RoleCheck.Decidir | backend/app/middleware/roleMiddleware.js:7-22 | unknown user iff absent; denied iff present with a role outside the allowed list; allowed attaches the stored record |
| RoleCheck.DecideConElRolActual | backend/app/middleware/roleMiddleware.js:7 | the decision follows the role just stored, whatever it was before |
| RoleCheck.SoloAdmin | backend/app/middleware/roleMiddleware.js:14 | a guard for admin alone passes exactly the stored admins |
| RoleCheck.Solicitud.VerificarRol | backend/app/middleware/roleMiddleware.js:3-28 | 404 for an unknown user and 403 for a role not allowed, without calling `next`; otherwise `req.usuario` is set and `next` runs exactly once |

## Left out

- The database layer is not modelled: queries, `populate`, `sort`, the
  execution of skip/limit, `$regex` search and the aggregation pipelines.
  Stores are maps, and each request runs alone, as one operation.
- Mongoose casting and the `trim` and `lowercase` setters are not modelled.
  Schema validation on a write is modelled only here: quotations and sales
  stored by `Quotations.Registro`; online products stored by
  `Storefront.Tienda.CrearProductoOnline`; category and subcategory names
  in `Categories.Catalogo`; the profile name under the update validators in
  `UserControl`; the unit enum and the cost's type in
  `CostParameters.Creacion` and `CostParameters.Aplicar`. Every other write
  stores its document unchecked, among them the design category of
  `Storefront.Tienda.CrearCategoriaDiseno`, whose required, unique name of
  at most 50 characters and description of at most 200 are not checked. Unique `orden` is modelled as "distinct
  among siblings", not as a collection-wide index.
- Storefront.ValidProductoOnline: a suggested variant that lacks its cut,
  quality or colour cannot be written in the model, so the schema's refusal
  of such a partial `varianteSugerida` is not modelled; only its absence is.
- Rendering, formatting and floating point are not modelled: templates, file
  and logo reads, `moment` formatting and its day/week/month ranges,
  `toFixed`, percentages and averages, `precioAntesDescuento`. Money is an
  integer, and no rounding is stated.
- Password hashing and tokens are not modelled. The hash is an opaque
  function, and only the user id taken from the token is modelled.
- Routes that no shown file implements are left out: returns, payment
  liquidation and reverting a sale to a quotation. The state update only
  overwrites `estado`, with no effect on stock or the ledger.
- The online-products controller is not part of this model. It uploads to a
  cloud store and refers to names its file does not define.
- Thin pass-through operations are left out because they hold no logic of
  their own:
  - the cost-parameter get, list and delete;
  - `obtenerCategorias`;
  - the public category and design-category listings;
  - the featured-products query;
  - `actualizarCategoriaDiseno`: its update passes possibly undefined fields,
    whose meaning depends on the mongoose version.
- The sales controller's record module (`../models/venta`) is not part of
  this model. `DirectSales.VentaDirecta` holds exactly the fields the
  controller writes.
- Quantities that are not numbers are not modelled.
- Error responses:
  - quotation creation: which item fails first when several do, and the
    message or status of a lookup failure (modelled as a distinct error
    value);
  - categories: only "nothing is saved" is modelled, not the 400/404
    responses, which refer to an undefined variable.
- Partial failure between the two writes of `crearSubcategoria` and of a
  conversion is not modelled. Each operation is all or nothing.
- Quotations.Registro.CrearCotizacion and Quotations.Registro.ConvertirAVenta
  store the corrected documents of the findings below; as written, neither
  ever stores anything, which the as-written members state.
- The per-item `ventaEnLinea` that quotation creation writes is not modelled,
  because the item schema does not declare it.
- `SaleModel.ExtraItem` keeps both the `id` key that quotation creation
  writes and the schema's `extraRef`, so that creation as written can be
  stated.
- The legacy product's root-level stock and cost are not modelled, because
  the legacy schema does not declare them. The generic variant's colour
  therefore always gets 0 for both.
- Storefront.Paginas: a limit that is not positive gives no page count. The
  source would divide by zero or by a negative number. The `limit` and
  `page` query values are numbers; the string coercions of `parseInt` and
  `*` are not modelled.
- UserControl.Actualizacion: an unknown user id whose update passes the
  validators gives an empty response (`Ok(None)`), as the source does, not
  a 404; a refused name fails first, for any id.
- CostParameters.Datos: for a unit other than `cm_cuadrado` the update sets
  both dimensions to `undefined`, and the model clears them. That assumes
  the driver stores `undefined` as null, as Mongoose 5 does; Mongoose 6 and
  later drop undefined keys and keep the stored dimensions, and no file
  pins the version. The same applies to
  CostParameters.UnidadOmitidaBorraDimensiones.

## Findings

| source | as written | input that shows it | evidently intended | confidence | as-written member | corrected member |
|---|---|---|---|---|---|---|
| backend/app/controllers/parametrosCostosController.js:3 | the module `{ Categoria, Subcategoria }` is bound to `Subcategoria`, so `Subcategoria.find` is not a function and throws | a creation with name, unit, cost ≥ 0 and subcategories; or an update that sends `subcategoriasAplica` | look up the subcategory model (`require(...).Subcategoria`) | high, not executed | CostParameters.CreacionTalCual, CostParameters.CreacionTalCualNuncaCrea, CostParameters.ActualizacionTalCualConSubcategorias | CostParameters.Creacion, CostParameters.CreacionCorregidaCrea, CostParameters.Actualizacion |
| backend/app/controllers/usersControllers.js:26-27 | `bcrypt` is used but never required, so a profile update with a password throws before anything is written | any profile update whose `password` is non-empty | require `bcrypt` and store the hash | high, not executed | UserControl.ActualizacionTalCual, UserControl.PasswordNuncaCambiaTalCual | UserControl.Actualizacion, UserControl.PasswordCambiada |
| backend/migrate.js:143-144 | without a quality level, the colours are put straight on the variant (also at lines 168 and 204), but the variant schema declares only `calidades`, so the stored variant has no colours | a legacy product with `corte` "Unisex", no `calidad`, and one variant with colour "Negro" | one pass-through quality holding the colours, which is how the schema represents an unused level | medium, not executed | Migration.MigrarTalCual, Migration.ColoresPerdidos | Migration.Migrar, Migration.ColoresConservados |
| backend/app/controllers/cotizacionesController.js:67-91 | the stored item has no `precioBase`, which the item schema requires, and each extra is written under `id` instead of the required `extraRef`, so `save()` always fails | any well-formed creation request whose items resolve | copy the client's `precioBase` and write the extra's id as `extraRef` | high, not executed | Quotations.ConstruirCotizacion, Quotations.CotizacionCreadaIncumpleEsquema, Quotations.ExtrasResueltosIncumplenEsquema | Quotations.ConstruirCotizacionCorregida, Quotations.CotizacionCorregidaCumpleEsquema, Quotations.Registro.CrearCotizacion |
| backend/app/controllers/cotizacionesController.js:147-167 | the sale built from a quotation has no `vendedor` and its items have no `precioBase`, both required by the sale schema, so `save()` always fails | the conversion of any convertible quotation | set `vendedor` from the authenticated user (`req.userId`) and copy `precioBase` | high, not executed | Quotations.VentaDesde, Quotations.VentaConvertidaIncumpleEsquema | Quotations.VentaDesdeCorregida, Quotations.VentaCorregidaCumpleEsquema, Quotations.Registro.ConvertirAVenta |
| backend/app/controllers/cotizacionesController.js:173-174 | the back-reference `convertidaAVenta` is not declared by the quotation schema, so under strict mode it is dropped on save and the quotation can be converted again; the sale's `origenCotizacion` (line 166) is not declared by the sale schema either, so the sale-to-quotation link is lost as well | converting the same unexpired quotation twice, once the fix for lines 147-167 lets the first sale save (as written, that first `save()` already fails) | declare `convertidaAVenta` in the quotation schema and `origenCotizacion` in the sale schema, so both links are kept | medium, not executed | Quotations.GuardadaTalCual, Quotations.ReconvertibleTalCual, Quotations.VentaGuardadaTalCual, Quotations.EnlaceRotoTalCual | Quotations.Registro.ConvertirAVenta, Quotations.UnaVentaPorCotizacion |
