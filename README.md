# Inventory front end: the rules under the screens

This project models, in Dafny, the decision logic of a React front end for an inventory
system: products kept in warehouses, stock movements in and out, categories, users with
the roles `administrador` and `colaborador`, and reports. Almost all of the application
fetches data and renders it. What is modelled here is the part that can be stated
exactly and that the screens rely on:

- the stock status of a product (`bajo`, `medio`, `suficiente`), its colour, and the
  counters of the Stock alerts page;
- the five form modals (movement, product, user, category, warehouse). Each has its
  `formData` and `errors` state, `handleChange`, `validate` and the payload
  `handleSubmit` emits;
- the two CSV writers (`exportToCSV` and the report modal's `downloadCSV`), with a
  decoder that proves their escaping can be read back;
- the report modal's choice of endpoint, parameters and file name, and its year and
  month lists;
- the small string helpers `capitalize`, `truncateText` and `isValidEmail`;
- the session: the signed-in user, the start-up check of a stored session, login,
  logout and the two storage keys;
- the route guards and route table, and the role-filtered sidebar menu;
- the case-insensitive product search filter, and the badge table with its fallback.

## JavaScript semantics

Module `Js` states the JavaScript semantics the rules depend on:

- truthiness;
- `String.prototype.trim` with the ECMAScript white-space set;
- `includes`;
- ASCII `toLowerCase` and `toUpperCase`;
- `Array.prototype.join`;
- `String` of a value;
- `parseInt` as a function from a string to `Option<int>`, where `None` is NaN.
  It reads the leading integer, so `"2.5"` parses to 2 and `"abc"` to NaN.

## Form model

A form value is `Text(s)` or `Number(n)`. The product form needs both, because its
initial values carry the product's numbers.

Absent props (`products`, `warehouses`, `user`, `category`, `warehouse`) are
parameters of the methods that read them.

An object the source updates in place is a `class` whose methods state the whole new
state:

- the modals;
- the two pages (Products and Stock alerts);
- the session provider.

The `validate` of each modal is a method. It builds the error map step by step, as the
source does, and is proved equal to a specification function of the form. The lemmas
about that function say when a form is accepted.

## Model

| member | source | states |
|---|---|---|
| Formatters.GetStockStatus | src/utils/formatters.js:48-52 | Each of the three statuses holds exactly in its own range:<br>- bajo iff stock ≤ minimum, whatever the maximum;<br>- suficiente iff stock > minimum and stock ≥ maximum;<br>- medio iff minimum < stock < maximum. |
| Formatters.StatusMonotonic | src/utils/formatters.js:48-52 | For fixed limits, raising the stock never moves the status backwards in the order bajo < medio < suficiente. |
| Formatters.GetStockColor | src/utils/formatters.js:55-67 | bajo is red, medio is yellow and suficiente is green. The gray default is never returned. |
| Formatters.Capitalize | src/utils/formatters.js:32-35 | '' stays ''. Otherwise the length is kept, the first character is upper-cased and every later character is lower-cased. |
| Formatters.TruncateText | src/utils/formatters.js:37-41 | '' gives ''. A text no longer than the limit is returned unchanged. A longer one becomes its first maxLength characters plus '...', of length maxLength + 3. |
| Formatters.IsValidEmailIff | src/utils/formatters.js:43-46 | The anchored pattern accepts a string iff all of these hold:<br>- it has no whitespace;<br>- it has exactly one '@', with something before it;<br>- after the '@' there is a '.' that is neither first nor last. |
| Js.Trim | src/components/modals/ProductModal.jsx:59-60 | The result is a substring of the input. It is empty iff the input is all whitespace. Otherwise it neither starts nor ends with whitespace. |
| Js.BlankIffTrimEmpty | src/components/modals/CategoryModal.jsx:40 | `!s.trim()` holds iff every character of s is whitespace. |
| Js.ParseIntOfIntToString | src/components/modals/MovementModal.jsx:53 | `parseInt` reads back every integer numeral that `String` writes. |
| Js.ParseIntOfDecimal | src/components/modals/MovementModal.jsx:53 | `parseInt("2.5")` is 2: the fraction is cut off. |
| Js.ParseIntOfLetters | src/components/modals/MovementModal.jsx:53 | `parseInt("abc")` is NaN. |
| Js.ParseIntOfBlank | src/components/modals/MovementModal.jsx:53 | A blank string parses to NaN. |
| Forms.TruthyFieldIsTruthy | src/components/modals/ProductModal.jsx:61 | A form value is truthy exactly as the JavaScript value is: '' and 0 are falsy. |
| Forms.ParseField | src/components/modals/ProductModal.jsx:68-69 | Parsing a form value is `parseInt` of its JavaScript value. |
| Forms.ClearFieldError | src/components/modals/ProductModal.jsx:50-53 | The error of the named field becomes '' when it was set. Every other error and every key are kept. A map without that error is returned unchanged. |
| Forms.NameError | src/components/modals/CategoryModal.jsx:40-42 | 'El nombre es requerido' is reported iff nombre is blank. A missing field counts as ''. |
| Forms.NoKeysIsEmpty | src/components/modals/CategoryModal.jsx:45 | `Object.keys(newErrors).length === 0` holds iff the map is empty. |
| StockAlerts.GetStatus | src/pages/StockAlerts.jsx:58-62 | The page's own rule is the same function as `getStockStatus`. |
| StockAlerts.StockCellColor | src/pages/StockAlerts.jsx:74-82 | The stock cell's colour is `getStockColor` of the row. |
| StockAlerts.ComputeStats | src/pages/StockAlerts.jsx:41-50 | total is the number of products, and bajo + medio + suficiente == total always. |
| StockAlerts.LowIsBajo | src/pages/StockAlerts.jsx:41 | The bajo counter is the number of rows whose status is bajo. |
| StockAlerts.HighIsSuficientePlusOverlap | src/pages/StockAlerts.jsx:42 | The suficiente counter also counts the rows that have both stock ≤ minimum and stock ≥ maximum. |
| StockAlerts.StatusesPartition | src/pages/StockAlerts.jsx:58-62 | Each row has exactly one status. |
| StockAlerts.MedioMissesOverlap | src/pages/StockAlerts.jsx:43 | medio is the number of medio rows minus the doubly counted rows. |
| StockAlerts.NoOverlapWhenOrdered | src/pages/StockAlerts.jsx:41-42 | When every minimum is below its maximum, no row is counted twice. |
| StockAlerts.StatsMatchStatuses | src/pages/StockAlerts.jsx:41-62 | When every minimum is below its maximum, each counter is the number of rows with that status, and medio is not negative. |
| StockAlerts.NegativeMedio | src/pages/StockAlerts.jsx:41-43 | A product with minimum ≥ maximum and stock at the minimum makes medio -1. |
| StockAlerts.StockAlertsPage.constructor | src/pages/StockAlerts.jsx:10-20 | The page starts with empty lists, while loading, with no warehouse selected and no search term. |
| StockAlerts.StockAlertsPage.FetchData | src/pages/StockAlerts.jsx:26-56 | Parameters:<br>- warehouse_id is sent iff a warehouse is selected, and with that id.<br><br>On success:<br>- both lists are stored;<br>- the counters are computed from the whole fetched list.<br><br>On failure only loading changes. Loading is off afterwards. |
| StockAlerts.StockAlertsPage.SetSearchTerm | src/pages/StockAlerts.jsx:158 | Only the term changes. The counters stay those of the full list. |
| StockAlerts.StockAlertsPage.SelectWarehouse | src/pages/StockAlerts.jsx:167 | Only the selected warehouse changes. |
| StockAlerts.StockAlertsPage.FilteredProducts | src/pages/StockAlerts.jsx:91-94 | The rows are the products that match the term, in their order. An empty term keeps them all. |
| StockAlerts.StockAlertsPage.ShowWarehouseSelector | src/pages/StockAlerts.jsx:164 | The warehouse selector is shown iff there is more than one warehouse. |
| ProductSearch.FilterBySearch | src/pages/Products.jsx:125-128 | The result is a subsequence of the list that holds exactly the matching products, each as often as in the list. |
| ProductSearch.FilterEmptyTerm | src/pages/Products.jsx:125-128 | The empty term keeps every product. |
| ProductSearch.SearchIgnoresCase | src/pages/Products.jsx:125-128 | Upper-casing the term does not change the filter. |
| ProductSearch.LowerOfUpper | src/pages/Products.jsx:126 | Lower-casing undoes upper-casing. |
| ProductSearch.BuildParams | src/pages/Products.jsx:31-32 | warehouse_id is present iff a warehouse is selected. It then holds the selected id, and no other key is present. |
| ProductsPage.ProductsPage.constructor | src/pages/Products.jsx:11-20 | The page starts with empty lists, while loading, with no term and no warehouse. |
| ProductsPage.ProductsPage.FetchData | src/pages/Products.jsx:26-49 | Parameters:<br>- warehouse_id is sent iff a warehouse is selected.<br><br>On success the three lists are stored. On failure the lists are kept and 'Error al cargar los datos' is alerted. Loading is off afterwards. |
| ProductsPage.ProductsPage.HandleSearch | src/pages/Products.jsx:51-65 | A blank term (after trimming) reloads exactly as FetchData does: a list request whose only parameter is warehouse_id, given iff a warehouse is selected and equal to it. A successful reload stores the three lists; a failed one keeps them and returns the 'Error al cargar los datos' alert. Loading ends off either way. Any other term sends only `search`, untrimmed, with no alert. Its answer replaces the products, and a failed search changes nothing. |
| ProductsPage.ProductsPage.SetSearchTerm | src/pages/Products.jsx:144 | Only the term changes. |
| ProductsPage.ProductsPage.SelectWarehouse | src/pages/Products.jsx:155 | Only the selected warehouse changes. |
| ProductsPage.ProductsPage.FilteredProducts | src/pages/Products.jsx:125-128 | The table rows are the matching products, in order. An empty term keeps all of them. |
| ProductsPage.ProductsPage.Offered | src/pages/Products.jsx:152-178 | The warehouse selector is offered iff there is more than one warehouse. Add, edit and delete are offered iff the user is an admin. |
| MovementModal.InsufficientStock | src/components/modals/MovementModal.jsx:66 | The message is 'Stock insuficiente. Disponible: ' followed by a numeral that parses back to the stock. |
| MovementModal.FindProductById | src/components/modals/MovementModal.jsx:38-39 | The result is the first product whose id equals the parsed value. It is none iff the value is NaN or no product has that id. |
| MovementModal.MovementErrors | src/components/modals/MovementModal.jsx:48-68 | The product_id error is present iff product_id is '', and its message is 'Selecciona un producto'. The cantidad error is the quantity check's result, which the stock check overrides for salidas. No other key is present. |
| MovementModal.MovementAcceptedIff | src/components/modals/MovementModal.jsx:48-71 | A movement is accepted iff all of these hold:<br>- a product is chosen;<br>- cantidad parses to a positive number;<br>- for a salida with a known product, cantidad is at most its stock. |
| MovementModal.QuantityMessages | src/components/modals/MovementModal.jsx:53-68 | The cantidad message, case by case:<br>- a salida of a selected product that parses above its stock gets 'Stock insuficiente. Disponible: ' and the stock;<br>- otherwise an empty field gets 'La cantidad es requerida';<br>- a parse of at most 0 gets 'La cantidad debe ser mayor a 0';<br>- NaN gets 'La cantidad debe ser un número entero';<br>- a positive parse gets no entry. |
| MovementModal.DecimalQuantityAccepted | src/components/modals/MovementModal.jsx:53-61 | An entrada of "2.5" passes validation. |
| MovementModal.LettersRejected | src/components/modals/MovementModal.jsx:59-60 | "abc" gives exactly the 'debe ser un número entero' error. |
| MovementModal.EntradaIgnoresStock | src/components/modals/MovementModal.jsx:64 | Only a salida is checked against the stock. |
| MovementModal.CheckQuantity | src/components/modals/MovementModal.jsx:53-68 | The sequence of assignments to `newErrors.cantidad` leaves the value of the quantity check. |
| MovementModal.MovementModal.constructor | src/components/modals/MovementModal.jsx:6-14 | The form starts as an entrada with empty fields, no errors and no product. |
| MovementModal.MovementModal.OnOpenChange | src/components/modals/MovementModal.jsx:16-27 | Closing resets the state to an entrada with empty fields, no errors and no product. Opening changes nothing. |
| MovementModal.MovementModal.HandleChange | src/components/modals/MovementModal.jsx:29-46 | Only the named field is set, and only its error is cleared. Changing product_id looks the product up by its parsed id. |
| MovementModal.MovementModal.Validate | src/components/modals/MovementModal.jsx:48-72 | The errors become the movement's error map. The result is true iff that map is empty, and the form is kept. |
| MovementModal.MovementModal.HandleSubmit | src/components/modals/MovementModal.jsx:74-82 | A payload is emitted iff the form is valid. It is the form with cantidad replaced by the parsed integer. |
| ProductModal.OrEmpty | src/components/modals/ProductModal.jsx:22-25 | `n \|\| ''`: truthy iff n is not 0. It keeps n when n is not 0, and is '' when n is 0. |
| ProductModal.InitialForm | src/components/modals/ProductModal.jsx:17-40 | The six fields are always present.<br><br>Create mode:<br>- sku, nombre, category_id, stock_minimo and stock_maximo are '';<br>- warehouse_id is the first warehouse's id, or '' when there is none.<br><br>Edit mode:<br>- sku and nombre are the product's;<br>- category_id, warehouse_id and both stock limits are the product's values, or '' where falsy (0 or no warehouse);<br>- a stock limit of 0 therefore reloads as a falsy value. |
| ProductModal.StockError | src/components/modals/ProductModal.jsx:71-85 | A stock field has no error iff it is truthy and parses to a number ≥ 0. A falsy field gets the 'requerido' message, a negative parse the 'positivo' message, and NaN the 'entero' message. |
| ProductModal.TextErrors | src/components/modals/ProductModal.jsx:59-66 | sku and nombre are required after trimming, and category_id is required.<br><br>warehouse_id is required only when warehouses exist. |
| ProductModal.FormErrorsEntries | src/components/modals/ProductModal.jsx:59-89 | The stock entries are added on top of the text errors without touching them. stock_minimo is present iff its check fails, with that check's message, and so is stock_maximo. |
| ProductModal.ProductAcceptedIff | src/components/modals/ProductModal.jsx:56-92 | A product form is accepted iff all of these hold:<br>- the required fields are present;<br>- both limits are truthy and parse to numbers ≥ 0;<br>- when both limits are non-zero, the minimum is at most the maximum. |
| ProductModal.MinimumMessages | src/components/modals/ProductModal.jsx:68-89 | The stock_minimo message, case by case:<br>- both parses non-zero numbers with the minimum above the maximum gets 'El stock mínimo no puede ser mayor al máximo', whatever the field's own checks say;<br>- otherwise a falsy field gets 'requerido', a negative parse 'positivo' and NaN 'entero';<br>- a parse ≥ 0 of a truthy field gets no entry. |
| ProductModal.MaximumMessages | src/components/modals/ProductModal.jsx:68-85 | The stock_maximo message: a falsy field gets 'El stock máximo es requerido', a negative parse 'debe ser positivo' and NaN 'debe ser un número entero'. A parse ≥ 0 of a truthy field gets no entry. The minimum plays no part. |
| ProductModal.ZeroMinimumReloadsAsMissing | src/components/modals/ProductModal.jsx:17-72 | Editing a product whose minimum is 0 reports 'El stock mínimo es requerido'. |
| ProductModal.ZeroMaximumSkipsOrder | src/components/modals/ProductModal.jsx:87-89 | A maximum of "0" skips the order check, so a minimum of 10 passes. |
| ProductModal.Payload | src/components/modals/ProductModal.jsx:98-107 | Both stock fields are the parsed integers. warehouse_id is omitted without warehouses, and every other field is the form's. |
| ProductModal.ValidStockParses | src/components/modals/ProductModal.jsx:100-101 | In an accepted form both stock fields parse. |
| ProductModal.EditRoundTrip | src/components/modals/ProductModal.jsx:17-92 | A well-formed product whose limits are positive and ordered reloads into a form that validates. The form's limits parse back to the product's. |
| ProductModal.CheckStock | src/components/modals/ProductModal.jsx:71-85 | The assignments to one stock field add exactly its stock error. |
| ProductModal.CheckTexts | src/components/modals/ProductModal.jsx:59-66 | The text checks build the text error map. |
| ProductModal.CheckForm | src/components/modals/ProductModal.jsx:57-89 | The whole sequence of checks builds the product's error map. |
| ProductModal.ProductModal.constructor | src/components/modals/ProductModal.jsx:6-15 | The form starts empty, with no errors. |
| ProductModal.ProductModal.Init | src/components/modals/ProductModal.jsx:17-42 | The form becomes the initial form of the product and warehouses, and the errors are cleared. |
| ProductModal.ProductModal.HandleChange | src/components/modals/ProductModal.jsx:44-54 | Only the named field is set, as text, and only its error is cleared. |
| ProductModal.ProductModal.Validate | src/components/modals/ProductModal.jsx:56-93 | The errors become the product's error map. The result is true iff that map is empty, and the form is kept. |
| ProductModal.ProductModal.HandleSubmit | src/components/modals/ProductModal.jsx:95-111 | A payload is emitted iff the form is valid. It is then the normalised payload, with both limits parsed. |
| UserModal.InitialForm | src/components/modals/UserModal.jsx:15-30 | The password is never preloaded. rol is the user's, or 'colaborador'. Create mode is the empty form. |
| UserModal.LooseEmailIff | src/components/modals/UserModal.jsx:52 | The unanchored pattern matches iff somewhere there is a whitespace-free x@y.z with x, y and z non-empty. |
| UserModal.ValidEmailIsLoose | src/components/modals/UserModal.jsx:52 | Every address the anchored `isValidEmail` accepts, the modal accepts too. |
| UserModal.LooseAcceptsSpace | src/components/modals/UserModal.jsx:52 | "a b@c.d" passes the modal and fails `isValidEmail`. |
| UserModal.UserErrors | src/components/modals/UserModal.jsx:49-61 | The only keys are nombre, correo and contrasenia. Each is present iff its check fails. nombre holds 'El nombre es requerido'; correo and contrasenia hold their checks' messages. |
| UserModal.UserAcceptedIff | src/components/modals/UserModal.jsx:46-64 | A user form is accepted iff all of these hold:<br>- nombre and correo are not blank;<br>- correo matches the pattern;<br>- when creating, the password is not blank;<br>- a non-empty password has at least 6 characters. |
| UserModal.EditWithoutPassword | src/components/modals/UserModal.jsx:57-61 | An empty password is accepted when editing. |
| UserModal.BlankEditPasswordIsShort | src/components/modals/UserModal.jsx:59-60 | A password of three spaces is rejected as too short when editing. |
| UserModal.Payload | src/components/modals/UserModal.jsx:71-74 | When editing, a blank password is removed. Otherwise the payload is the form. |
| UserModal.SubmittedPassword | src/components/modals/UserModal.jsx:67-76 | A created user always sends a password. A password that is sent is not blank and has at least 6 characters. |
| UserModal.CheckUser | src/components/modals/UserModal.jsx:47-61 | The sequence of checks builds the user's error map. |
| UserModal.UserModal.constructor | src/components/modals/UserModal.jsx:6-13 | The form starts empty, as a colaborador, with no errors. |
| UserModal.UserModal.Init | src/components/modals/UserModal.jsx:15-32 | The form becomes the user's initial form, and the errors are cleared. |
| UserModal.UserModal.HandleChange | src/components/modals/UserModal.jsx:34-44 | Only the named field is set, and only its error is cleared. |
| UserModal.UserModal.Validate | src/components/modals/UserModal.jsx:46-65 | The errors become the user's error map. The result is true iff that map is empty. |
| UserModal.UserModal.HandleSubmit | src/components/modals/UserModal.jsx:67-77 | A payload is emitted iff the form is valid, and it is then the payload for the mode. |
| CategoryModal.InitialForm | src/components/modals/CategoryModal.jsx:12-21 | nombre is preloaded in edit mode, and is '' in create mode. |
| CategoryModal.CategoryErrors | src/components/modals/CategoryModal.jsx:37-46 | The only key is nombre. The map is empty iff nombre is not blank. |
| CategoryModal.CategoryModal.constructor | src/components/modals/CategoryModal.jsx:6-10 | The form starts empty, with no errors. |
| CategoryModal.CategoryModal.Init | src/components/modals/CategoryModal.jsx:12-23 | The form becomes the initial form, and the errors are cleared. |
| CategoryModal.CategoryModal.HandleChange | src/components/modals/CategoryModal.jsx:25-35 | Only the named field is set, and only its error is cleared. |
| CategoryModal.CategoryModal.Validate | src/components/modals/CategoryModal.jsx:37-46 | The result is true iff nombre is not blank, and the form is kept. |
| CategoryModal.CategoryModal.HandleSubmit | src/components/modals/CategoryModal.jsx:48-53 | The form is emitted unchanged iff it is valid. |
| WarehouseModal.InitialForm | src/components/modals/WarehouseModal.jsx:13-24 | nombre and ubicacion are preloaded with a '' fallback, or are both '' in create mode. |
| WarehouseModal.WarehouseErrors | src/components/modals/WarehouseModal.jsx:40-49 | The only key is nombre. The map is empty iff nombre is not blank. |
| WarehouseModal.LocationIsFree | src/components/modals/WarehouseModal.jsx:40-49 | ubicacion never affects validation. |
| WarehouseModal.WarehouseModal.constructor | src/components/modals/WarehouseModal.jsx:6-11 | The form starts empty, with no errors. |
| WarehouseModal.WarehouseModal.Init | src/components/modals/WarehouseModal.jsx:13-26 | The form becomes the initial form, and the errors are cleared. |
| WarehouseModal.WarehouseModal.HandleChange | src/components/modals/WarehouseModal.jsx:28-38 | Only the named field is set, and only its error is cleared. |
| WarehouseModal.WarehouseModal.Validate | src/components/modals/WarehouseModal.jsx:40-49 | The result is true iff nombre is not blank, and the form is kept. |
| WarehouseModal.WarehouseModal.HandleSubmit | src/components/modals/WarehouseModal.jsx:51-56 | The form is emitted unchanged iff it is valid. |
| Csv.Keys | src/utils/formatters.js:77 | There is one header per field of the first row. |
| Csv.HalveDoubleQuotes | src/utils/formatters.js:83 | Halving the doubled quotes gives the original text back. |
| Csv.NeedsQuotingIff | src/utils/formatters.js:83 | A field is quoted iff it contains ',' or '"'. |
| Csv.ExportCsv | src/utils/formatters.js:70-94 | A document exists iff there is non-empty data, and it starts with the BOM. |
| Csv.ReportCell | src/components/modals/ReportModal.jsx:38-41 | A cell is the escaping of the value's text. null and undefined give ''. |
| Csv.ReportCsv | src/components/modals/ReportModal.jsx:31-45 | A document exists iff there is non-empty data, and it starts with the BOM. |
| Csv.ExportCellIsReportCell | src/utils/formatters.js:80-88 | On every value except an array, the two encoders print the same cell. |
| Csv.EncodersDifferOnArrays | src/components/modals/ReportModal.jsx:40-41 | `[1, 2]` prints as 1,2 in `exportToCSV` and as "1,2" in `downloadCSV`. |
| Csv.ExportRowIsReportRow | src/utils/formatters.js:80-88 | Without arrays the two encoders print the same row. |
| Csv.ExportCsvIsReportCsv | src/utils/formatters.js:70-94 | Without arrays the two encoders build the same document. |
| Csv.DecodeEscapeText | src/components/modals/ReportModal.jsx:41 | Decoding an escaped field gives back its text. |
| Csv.DecodeExportedString | src/utils/formatters.js:83 | Decoding a string cell gives back the string. |
| Csv.DecodeReportCell | src/components/modals/ReportModal.jsx:38-41 | Decoding a report cell gives back the value's text. |
| Csv.SplitFieldsOfEscaped | src/components/modals/ReportModal.jsx:37-42 | Splitting a row of escaped fields gives back the fields. |
| Csv.SplitOnJoin | src/components/modals/ReportModal.jsx:36 | Splitting a joined header line gives back the headers. |
| Csv.ReportCsvRoundTrip | src/components/modals/ReportModal.jsx:36-45 | For data without line breaks whose headers have no ',', decoding the document gives back the headers and every row's texts. |
| Csv.ExportCsvRoundTrip | src/utils/formatters.js:77-94 | The same round trip holds for `exportToCSV` when there are no arrays. |
| Csv.LineBreakIsNotQuoted | src/components/modals/ReportModal.jsx:41 | A line break is left unquoted, so it breaks the row. |
| ReportModal.MonthsInOrder | src/components/modals/ReportModal.jsx:13-26 | There are twelve months, with values 1 to 12 in order. |
| ReportModal.Years | src/components/modals/ReportModal.jsx:28 | There are five years, strictly decreasing from the current one. |
| ReportModal.Extension | src/components/modals/ReportModal.jsx:96-113 | The extension is '.pdf' iff the format is pdf, otherwise '.csv'. |
| ReportModal.SelectReport | src/components/modals/ReportModal.jsx:88-118 | The three known report types each select their endpoint, parameters and file name. Any other type fails.<br><br>The monthly reports send format, year and month. lowStock sends only format. |
| ReportModal.MonthlyNamesDistinct | src/components/modals/ReportModal.jsx:96-113 | Two monthly file names are equal only for the same year and month. |
| ReportModal.FailureAlert | src/components/modals/ReportModal.jsx:136 | The server's message is shown when it is present and not ''. When it is missing or '' (both falsy for `||`), 'Error al generar el reporte' is shown. |
| ReportModal.BuildRequest | src/components/modals/ReportModal.jsx:88-118 | The switch's assignments yield the selected request, or none for an unknown type. |
| ReportModal.ReportModal.constructor | src/components/modals/ReportModal.jsx:7-11 | inventory and csv are selected, with the current year and month. |
| ReportModal.ReportModal.GenerateReport | src/components/modals/ReportModal.jsx:84-140 | An unknown type raises the generic alert.<br><br>A pdf raises the success alert and closes. A csv writes `downloadCSV`'s document, alerting when there is no data, then succeeds and closes.<br><br>A failed transfer raises the failure alert. Loading is off afterwards. |
| Sidebar.FilterMenu | src/components/layout/Sidebar.jsx:59 | The menu is a subsequence of the table. It holds exactly the entries whose roles include the user's role. |
| Sidebar.FilterMenuAppend | src/components/layout/Sidebar.jsx:59 | Filtering distributes over concatenation. |
| Sidebar.AdminSeesAll | src/components/layout/Sidebar.jsx:13-56 | An administrador sees all 7 entries. |
| Sidebar.ColaboradorSeesFour | src/components/layout/Sidebar.jsx:14-37 | A colaborador sees exactly Dashboard, Productos, Movimientos and Stock. |
| Sidebar.UnknownRoleSeesNothing | src/components/layout/Sidebar.jsx:13-59 | No role, or an unknown one, gives an empty menu. |
| Sidebar.ColaboradorMenuWithinAdmin | src/components/layout/Sidebar.jsx:13-59 | The colaborador menu is part of the administrador menu. |
| Routes.ProtectedRoute | src/App.jsx:15-35 | The spinner is shown iff loading. A visitor is sent to /login. A page renders iff the user is signed in and, on an admin-only route, is an admin. Any other redirect goes to /dashboard. |
| Routes.PublicRoute | src/App.jsx:38-54 | The spinner is shown iff loading. A signed-in user is sent to /dashboard. The page renders iff no one is signed in. |
| Routes.PublicAndProtectedExclusive | src/App.jsx:15-54 | Once loading is over, exactly one of the sign-in page and a plain protected page renders. |
| Routes.AdminOnlyRoutes | src/App.jsx:83-122 | categorias, almacenes and usuarios are admin-only. The other four children are not. |
| Routes.Resolve | src/App.jsx:61-126 | A path renders iff either:<br>- it is /login and no one is signed in; or<br>- it is a child route, the user is signed in, and the user is an admin if the route is admin-only.<br><br>An unknown path redirects to /dashboard. |
| Routes.RedirectsSettle | src/App.jsx:61-126 | Once loading is over, at most two redirects lead to a page that renders. |
| Routes.MenuMatchesRoutes | src/App.jsx:83-122 | Every menu entry is a child route. An entry is hidden from colaboradores iff its route is admin-only. |
| Routes.MenuEntriesRender | src/App.jsx:83-122 | Every entry in a user's menu opens a page that renders for that user. |
| AuthContext.Admin | src/context/AuthContext.jsx:74-75 | isAdmin iff user.rol is 'administrador'. isAdmin implies isAuthenticated. |
| AuthContext.GetItem | src/context/AuthContext.jsx:21-22 | A stored key gives its string. A missing key gives null. |
| AuthContext.LoginFailure | src/context/AuthContext.jsx:58 | The server's message when it is present and not ''. When it is missing or '' (both falsy for `||`), 'Error al iniciar sesión'. |
| AuthContext.RemovingKeysEndsSession | src/context/AuthContext.jsx:63-67 | Removing both keys leaves no session and keeps every other key. |
| AuthContext.StoringKeysStartsSession | src/context/AuthContext.jsx:48-49 | A non-empty token stored with the user record makes a session that the start-up check accepts. |
| AuthContext.AuthProvider.constructor | src/context/AuthContext.jsx:15-16 | The provider starts with no user, while loading. |
| AuthContext.AuthProvider.CheckAuth | src/context/AuthContext.jsx:20-36 | verify is called iff both keys are stored.<br>- A verified session takes the server's user.<br>- A rejected one loses both keys and the user.<br>- Without a session nothing changes.<br><br>Loading is off afterwards. |
| AuthContext.AuthProvider.Login | src/context/AuthContext.jsx:42-61 | On success:<br>- the token and the serialised user are stored;<br>- the user is set, and success is returned.<br><br>On failure nothing changes, and the message is returned. |
| AuthContext.AuthProvider.Logout | src/context/AuthContext.jsx:63-67 | Both keys are removed, every other key is kept and the user is cleared. |
| Json.EscapeChar | src/context/AuthContext.jsx:49 | `JSON.stringify` escapes quote, backslash and control characters with a leading backslash. It writes any other character as itself. |
| Json.UnquoteQuote | src/context/AuthContext.jsx:49 | Reading a stringified string back gives the string. |
| Json.QuoteInjective | src/context/AuthContext.jsx:49 | Different strings are written differently. |
| Json.UserJson | src/context/AuthContext.jsx:49 | The stored user is a JSON object text. |
| Badge.ConfigFor | src/components/common/Badge.jsx:62 | A type in the table gets its row. Any other type gets the medio row. |
| Badge.RenderBadge | src/components/common/Badge.jsx:62-67 | A non-empty text replaces the default text, and a given icon replaces the table's. The text is never empty. The classes are the base classes, the row's colours and the caller's. |
| Badge.UnknownTypeIsMedio | src/components/common/Badge.jsx:62 | An unknown type looks exactly like medio. |
| Badge.StockBadgesMatchStockColors | src/components/common/Badge.jsx:6-23 | bajo, medio and suficiente have the hue `getStockColor` gives that status: red, yellow and green. Their default texts are distinct. |
| Badge.MovementBadges | src/components/common/Badge.jsx:26-37 | entrada is green and salida is red, and neither has an icon. |

## Left out

- Network: every request to the REST server (`api`, `fetch`, `Promise.all`, the service modules) is left out. Each answer is a parameter of the method that awaits it: an `Option` or a small datatype with a failure case.
- Concurrency: out-of-order answers and stale responses after the warehouse filter changes are not modelled. Every awaited call completes before the next step.
- Browser side effects are not modelled:
  - the Blob, object-URL and anchor-click downloads;
  - `downloadPDF`;
  - `alert`, which appears only as the list of messages a method returns;
  - `console.error`;
  - `localStorage` itself, which is a map from keys to strings;
  - the exceptions storage can raise.
- The clock: `new Date()` is not modelled. The current year and month are constructor parameters, and the date in the lowStock file name is the parameter `today`.
- `formatDate`, `formatDateTime`, `formatNumber`, `formatCurrency` and `debounce` are left out. They depend on `Intl`, the locale or timers.
- Numbers are integers only. Floating point, -0, Infinity and numeric strings with exponents are not modelled, and NaN is only the `None` of `parseInt`.
- Strings are sequences of code points. JavaScript's `length` counts UTF-16 units, so lengths of text outside the Basic Multilingual Plane differ.
- Js.ToLower: only ASCII letters change case. The Unicode case mapping of `toLowerCase` and `toUpperCase` is not modelled, and neither are accented capitals.
- A form field that is not a string: `trim` on it throws a TypeError in the source, which is not modelled. The text fields of the product form are required to be text by its `TextsAreStrings` invariant, which every form the modal builds satisfies.
- React rendering is not modelled: JSX, Layout, Header, Table, Button, the confirmation and PDF viewer modals, the Login page and the Dashboard.
- Routing is an exact string comparison of the path. react-router's case-insensitive, trailing-slash and parameter matching is left out.
- `useAuth` outside its provider, which throws, is not part of this model.
- The create, edit, delete and submit handlers of the Products page only call the server and reopen modals, so they are left out.
- The report modal's setters (type, format, year and month) only assign one field each, so they are not modelled.
- Json.UserJson: the stored user is written with the four fields of `Entities.User` (id, nombre, correo, rol). Other fields the server sends are not modelled, and surrogate pairs are not decoded in `Json.Unescape`.
- AuthContext.AuthProvider.Login: the credentials are only sent to the server, so they are not parameters. A token of '' is stored as the source does, but it then gives no session.
- Badge.RenderBadge: the icon override is `Option<Icon>`. A falsy non-null icon component is not modelled, and neither is the lookup of a type that names an `Object.prototype` key such as `constructor`.
