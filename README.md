# Ecommerce admin client: a Dafny model of its view-model logic

This project models the client-side logic of a React admin application for
a sports e-commerce shop. It covers four groups of behaviour:

- **The product catalogue pages.** The product list has a search and category filter, a de-duplicated category menu, size and colour selections per product, an update payload and an image fallback. The stock management page has a category menu, a by-id stock patch, an in/out mode filter and footer totals. Its per-product quantity selection handler is modelled as written, but no control on the page calls it, so the units-to-add total it shows is always 0. The edit page has initial selections, a quantity menu, a stock-in loop that repeats one request `quantity` times, and the stock figures it shows.
- **The dashboard's inventory chart.** It shows three sums over the product list: Stock In, Stock Out and Sold. The model proves that Sold is Stock In minus Stock Out. It also proves that the edit page's "Sale Stocks" figure has the opposite sign.
- **The form pages as state machines.** The account creation page puts two ordered gates in front of its request. The login page runs a loading/error cycle. The add-product page converts four fields with `Number()`, resets on success and keeps a loading flag. The participant pages:
  - registration checks the token before adding a header;
  - edit resolves the id, normalises a loaded record, coerces the gender to a number, sends `null` for an empty date and picks where to go on close;
  - the list rejects a falsy id, opens and closes the editor, and shows gender labels and serial numbers.
- **Session and navigation.** The root component holds a logged-in flag. Logging out clears storage. The unauthenticated route table falls back to `/login`. Two sidebar predicates on the current path decide which item is selected.

Pages whose state changes over time are Dafny classes. Each such class has one field per piece of React state, and each handler is a method with a `modifies` clause. Pure expressions are functions, and their properties are lemmas.

Some things outside the model are passed in as parameters instead:
- the outcome of each HTTP request (`Response`: success with the decoded body, or failure with the backend's optional `message`);
- the token read from storage;
- the data URL a dropped file reads as.

JavaScript's `undefined` numbers are `Option<int>`, and a sum that meets one is `None` (NaN).

## Model

| member | source | states |
|---|---|---|
| Common.ErrorText | src/Pages/StockManagement.jsx:97 | the backend's message when it is present and non-empty, else the fallback; never empty when the fallback is not |
| Common.AuthHeader | src/Pages/AddProduct.jsx:148 | a header exactly when a non-empty token is stored, and then it is "Bearer " followed by the token |
| Strings.ContainsAt | src/Pages/ProductList.jsx:102-103 | `includes` finds an occurrence at any offset |
| Strings.ContainsWitness | src/Pages/ProductList.jsx:102-103 | `includes` succeeds only where there is an occurrence, and yields its offset |
| Strings.Lower | src/Pages/ProductList.jsx:102-103 | the lowered text has the same length and lowers each ASCII capital, leaving every other character |
| Strings.LowerIdempotent | src/Pages/ProductList.jsx:102-103 | lowering an already lowered text changes nothing |
| Strings.ToNumber | src/Pages/AddProduct.jsx:141-144 | `Number()` never yields text; numbers stay, "" becomes 0; in the model, text with a non-digit becomes NaN |
| Strings.ToNumberOfDecimal | src/Pages/AddProduct.jsx:141-144 | the decimal text of n converts back to the number n |
| Strings.ToNumberIdempotent | src/Pages/ParticipantEdit.jsx:49 | converting an already converted value changes nothing |
| Entries.Put | src/Pages/StockManagement.jsx:105-108 | `{...prev, [id]: v}` in insertion order, as JavaScript iterates non-index keys such as the backend's ids: keys stay distinct, id maps to v, every other key keeps its value, no other key appears |
| Forms.ApplyInput | src/Pages/CreateAccount.jsx:36-42 | the named field takes `checked` for a checkbox and `value` otherwise; every other field keeps its value; no other key appears |
| Forms.ApplyInputIdempotent | src/Pages/Login.jsx:35-41 | replaying an input event is the same as applying it once |
| Catalog.CategoryColumn | src/Pages/ProductList.jsx:171 | the category of each product, in list order |
| Catalog.OrZero | src/Pages/StockManagement.jsx:117 | `value \|\| 0`: a missing figure counts as 0, a present one as itself |
| Catalog.StockMessage | src/Pages/StockManagement.jsx:90 | "Stock increased" for 'in', "Stock decreased" for 'out' |
| ProductList.FilterProducts | src/Pages/ProductList.jsx:97-110 | an order-preserving subsequence of the products holding exactly those that match the search (lowered name or category contains the lowered text) and the selected category; all products when both are empty |
| ProductList.SearchIgnoresCase | src/Pages/ProductList.jsx:99-105 | searching for a text and for its lowered form lists the same products |
| ProductList.UniqueCategories | src/Pages/ProductList.jsx:171 | every product category exactly once, in first-occurrence order |
| ProductList.CardImage | src/Pages/ProductList.jsx:323-327 | the product image iff it starts with "data:image/", else the placeholder |
| ProductList.Selection | src/Pages/ProductList.jsx:147-148 | a product's selection is present exactly when the map has its id |
| ProductList.PayloadFor | src/Pages/ProductList.jsx:146-149 | the update body carries that product's selected size and colour, `undefined` when none was chosen |
| ProductList.SelectionIsPerProduct | src/Pages/ProductList.jsx:112-149 | selecting a size for one id puts it in that id's payload and leaves every other product's payload as it was |
| ProductList.Caption | src/Pages/ProductList.jsx:480-486 | the product's selected size or colour, or the fallback ("XL", "black") when none or an empty one is selected |
| ProductList.ProductListPage.constructor | src/Pages/ProductList.jsx:29-34 | empty lists, empty search and category, empty selection maps, closed snackbar; the filter invariant holds |
| ProductList.ProductListPage.ApplyFetch | src/Pages/ProductList.jsx:66-91 | success replaces the list and the filter is re-applied; failure changes only the snackbar |
| ProductList.ProductListPage.SetSearch | src/Pages/ProductList.jsx:237 | the search changes and `filtered` is again the filter of the current inputs |
| ProductList.ProductListPage.SetCategory | src/Pages/ProductList.jsx:213 | the category changes and `filtered` is again the filter of the current inputs |
| ProductList.ProductListPage.SelectSize | src/Pages/ProductList.jsx:112-114 | only that id's size entry is set; every other entry and all other state unchanged |
| ProductList.ProductListPage.SelectColor | src/Pages/ProductList.jsx:116-118 | only that id's colour entry is set; every other entry and all other state unchanged |
| ProductList.ProductListPage.SubmitUpdate | src/Pages/ProductList.jsx:145-169 | sends that product's payload; success announces and refetches, failure announces "Update failed"; selections unchanged |
| ProductList.ProductListPage.UpdateStock | src/Pages/ProductList.jsx:120-143 | success announces the stock change and refetches; a failed refetch's notice replaces it; failure announces "Stock update failed" |
| StockManagement.Categories | src/Pages/StockManagement.jsx:55 | 'All' followed by each non-empty product category exactly once, in first-occurrence order |
| StockManagement.PatchStock | src/Pages/StockManagement.jsx:81-87 | same length; products with another id unchanged; products with the id get the response's two stock fields and keep every other field |
| StockManagement.PatchStockKeepsIds | src/Pages/StockManagement.jsx:81-87 | patching never changes any product's id |
| StockManagement.PatchStockIdempotent | src/Pages/StockManagement.jsx:81-87 | applying the same response twice equals applying it once |
| StockManagement.PatchStockUnknownId | src/Pages/StockManagement.jsx:81-87 | a response for an id no product has leaves the list unchanged |
| StockManagement.ModesPartition | src/Pages/StockManagement.jsx:113 | a product with non-negative stock is listed in exactly one mode; one with missing or negative stock in neither |
| StockManagement.FilteredProducts | src/Pages/StockManagement.jsx:112-114 | an order-preserving subsequence holding exactly the products of the mode and of the category ('All' matches every category) |
| StockManagement.AllKeepsMode | src/Pages/StockManagement.jsx:114 | category 'All' keeps every product the mode filter keeps |
| StockManagement.TotalCurrentStock | src/Pages/StockManagement.jsx:117 | the footer's current stock is not negative when no listed figure, read with `\|\| 0`, is |
| StockManagement.TotalCurrentStockZero | src/Pages/StockManagement.jsx:117 | the footer sum is 0 when every listed figure counts as 0 |
| StockManagement.TotalCurrentStockAtLeastCount | src/Pages/StockManagement.jsx:117 | the footer sum is at least the row count when every listed figure is at least 1 |
| StockManagement.OutModeTotalIsZero | src/Pages/StockManagement.jsx:113-117 | in 'out' mode the footer's current stock is 0 |
| StockManagement.InModeTotalAtLeastRows | src/Pages/StockManagement.jsx:113-117 | in 'in' mode the footer's current stock is at least the number of rows |
| StockManagement.TotalUnitsToAdd | src/Pages/StockManagement.jsx:118 | the units-to-add total is not negative when no selected quantity, read with `\|\| 0`, is |
| StockManagement.SelectChangesTotalBy | src/Pages/StockManagement.jsx:104-118 | selecting a quantity moves the units-to-add total by exactly the change of that product's entry |
| StockManagement.StockManagementPage.constructor | src/Pages/StockManagement.jsx:21-33 | empty list, category 'All', menu ['All'], the given initial mode, no selections |
| StockManagement.StockManagementPage.ApplyFetch | src/Pages/StockManagement.jsx:45-67 | success sets the list and its category menu from the same response; failure only shows the notice |
| StockManagement.StockManagementPage.HandleStockUpdate | src/Pages/StockManagement.jsx:70-101 | success patches the list by id and announces the change; failure keeps the list and shows the backend text or "Stock update failed" |
| StockManagement.StockManagementPage.HandleProductSelect | src/Pages/StockManagement.jsx:104-109 | the handler as written (no control calls it, and every other operation keeps the selections empty, so the shown total stays 0): that product's quantity is set, every other entry unchanged, and the units total moves by the entry's change |
| StockManagement.StockManagementPage.SetMode | src/Pages/StockManagement.jsx:186-202 | only the mode changes |
| StockManagement.StockManagementPage.SetCategory | src/Pages/StockManagement.jsx:220 | only the category changes |
| StockManagement.StockManagementPage.Rows | src/Pages/StockManagement.jsx:112-114 | the rows shown are the products of the current mode and category |
| Dashboard.Add | src/Pages/Dashboard.jsx:15-16 | JavaScript `+` on possibly-NaN numbers: a number exactly when both are |
| Dashboard.Sub | src/Pages/Dashboard.jsx:17 | JavaScript `-` on possibly-NaN numbers: a number exactly when both are |
| Dashboard.SoldIsStockInMinusStockOut | src/Pages/Dashboard.jsx:15-17 | Sold equals Stock In minus Stock Out, NaN exactly when either is |
| Dashboard.TotalStockIn | src/Pages/Dashboard.jsx:15 | Stock In is a number exactly when every product has `inStock`, and then it is the stock page's `\|\| 0` footer sum over the same products |
| Dashboard.TotalStockOut | src/Pages/Dashboard.jsx:16 | Stock Out is a number exactly when every product has `stockQuantity`, and not negative when no figure is |
| Dashboard.TotalSold | src/Pages/Dashboard.jsx:17 | Sold is a number exactly when every product has both figures, and not negative when each product's stock in is at least its stock out |
| Dashboard.ChartData | src/Pages/Dashboard.jsx:19-23 | three entries in the order Stock In, Stock Out, Sold, with Sold = Stock In − Stock Out |
| Dashboard.StockData | src/Pages/Dashboard.jsx:9-27 | the chart data on success; stays empty on failure |
| Dashboard.CellColor | src/Pages/Dashboard.jsx:47 | slice i takes colour i mod 3 |
| EditProduct.FirstOrEmpty | src/Pages/EditProduct.jsx:104-105 | the first listed value, or "" when there is none |
| EditProduct.QuantityOptions | src/Pages/EditProduct.jsx:337-341 | exactly the numbers 1..10, in order |
| EditProduct.SaleStocks | src/Pages/EditProduct.jsx:366 | `stockQuantity − inStock`, NaN when either is missing |
| EditProduct.RemainStock | src/Pages/EditProduct.jsx:371 | the product's `inStock` |
| EditProduct.SaleStocksIsMinusDashboardSold | src/Pages/EditProduct.jsx:366 | for one product the page's Sale Stocks is the negation of the dashboard's Sold; they agree only when the two figures are equal or one is missing |
| EditProduct.RunStockIn | src/Pages/EditProduct.jsx:121-129 | all requests succeed iff each of the first `quantity` does, and then `quantity` were sent; otherwise sending stopped right after the first failure |
| EditProduct.EditProductPage.constructor | src/Pages/EditProduct.jsx:78-88 | no product (nothing rendered), empty selections, quantity 1 |
| EditProduct.EditProductPage.Load | src/Pages/EditProduct.jsx:91-116 | success stores the product, its name and image, and the first size and colour; failure records the notice and keeps the rest; before a first successful load nothing, the notice included, is rendered |
| EditProduct.EditProductPage.SetQuantity | src/Pages/EditProduct.jsx:329 | only the quantity changes |
| EditProduct.EditProductPage.SetProductName | src/Pages/EditProduct.jsx:263 | only the edited name changes |
| EditProduct.EditProductPage.SetImage | src/Pages/EditProduct.jsx:283 | only the edited image URL changes |
| EditProduct.EditProductPage.HandleStockUpdate | src/Pages/EditProduct.jsx:118-150 | the refetch happens iff all `quantity` requests succeed; any failure leaves `product` unchanged and shows the failure notice |
| EditProduct.EditProductPage.HandleUpdate | src/Pages/EditProduct.jsx:169-190 | the body is the name and image only; the notice reports the outcome; no other state changes |
| EditProduct.EditProductPage.HandleDelete | src/Pages/EditProduct.jsx:152-167 | success navigates to "/"; failure stays and shows the notice |
| CreateAccount.InitialForm | src/Pages/CreateAccount.jsx:27-34 | six fields, terms unticked, passwords equal |
| CreateAccount.AccountPayload | src/Pages/CreateAccount.jsx:58-64 | exactly the keys FirstName, LastName, Email, Password, ConfirmPassword taken from the renamed fields; no `agreeToTerms` |
| CreateAccount.PayloadIgnoresOtherFields | src/Pages/CreateAccount.jsx:58-64 | input to any field but the five sent ones, the terms box included, leaves the body unchanged |
| CreateAccount.SubmitGate | src/Pages/CreateAccount.jsx:46-53 | when the gate lets the submit through, it sends the renamed payload |
| CreateAccount.SubmitGateDecides | src/Pages/CreateAccount.jsx:46-65 | a request goes out iff the passwords are equal and the terms agreed; a mismatch is reported before missing terms |
| CreateAccount.CreateAccountPage.constructor | src/Pages/CreateAccount.jsx:23-34 | the initial form; the account not created; submit enabled |
| CreateAccount.CreateAccountPage.HandleInputChange | src/Pages/CreateAccount.jsx:36-42 | the form takes the input; the created flag is unchanged |
| CreateAccount.CreateAccountPage.HandleSubmit | src/Pages/CreateAccount.jsx:44-77 | each gate's alert and no request; otherwise the payload is sent; the flag and the navigation to /login follow status 200 or 201 only; a failure alerts |
| CreateAccount.CreatedIsFinal | src/Pages/CreateAccount.jsx:282 | once the account is created, the submit button stays disabled through any input and any submit |
| Login.InitialForm | src/Pages/Login.jsx:22-26 | email, password and an unticked rememberMe |
| Login.BodyOf | src/Pages/Login.jsx:51-54 | the body is the form's email and password |
| Login.BodyIgnoresOtherFields | src/Pages/Login.jsx:51-54 | input to any field but email and password, rememberMe included, leaves the body unchanged |
| Login.LoginPage.constructor | src/Pages/Login.jsx:22-28 | the initial form, not loading, no error |
| Login.LoginPage.HandleInputChange | src/Pages/Login.jsx:35-41 | the form takes the input; loading and the error are unchanged |
| Login.LoginPage.BeginSubmit | src/Pages/Login.jsx:45-54 | loading on (button disabled), error cleared, the body taken from the current form |
| Login.LoginPage.CompleteSubmit | src/Pages/Login.jsx:57-73 | status 200: loading off, `onLogin` gets the submitted email, navigate to /dashboard; another success status: loading unchanged; failure: loading off and the backend text or the fallback |
| Login.Submit | src/Pages/Login.jsx:43-75 | after a submission the button is disabled iff the status was a success other than 200; a login reports the email of the submit; an error shows iff the request failed |
| AddProduct.InitialForm | src/Pages/AddProduct.jsx:84-95 | every text field empty, both lists empty |
| AddProduct.SetText | src/Pages/AddProduct.jsx:124-127 | the named field takes the value; every other field, both lists and the image unchanged |
| AddProduct.SetList | src/Pages/AddProduct.jsx:129-131 | the named list is replaced; the other list, the text fields and the image unchanged |
| AddProduct.SetTextRestores | src/Pages/AddProduct.jsx:124-127 | typing a field's own value changes nothing; restoring the old value undoes an edit |
| AddProduct.Sanitize | src/Pages/AddProduct.jsx:139-145 | exactly price, productNo, inStock and stockQuantity are converted with `Number()`; all else passes through |
| AddProduct.SanitizedFieldsAreNumbers | src/Pages/AddProduct.jsx:139-145 | none of the four converted fields is sent as text |
| AddProduct.SanitizedPrice | src/Pages/AddProduct.jsx:141 | the digits of n are sent as n, an empty price as 0; in the model, text with another character is NaN (posted as `null`) |
| AddProduct.SanitizeInitialForm | src/Pages/AddProduct.jsx:139-145 | an untouched form is sent with 0 in each numeric field |
| AddProduct.AddProductPage.constructor | src/Pages/AddProduct.jsx:99-102 | the initial form, no preview, closed snackbar, not loading |
| AddProduct.AddProductPage.HandleChange | src/Pages/AddProduct.jsx:124-127 | the form takes the text; nothing else changes |
| AddProduct.AddProductPage.HandleSelectChange | src/Pages/AddProduct.jsx:129-131 | the form takes the list; nothing else changes |
| AddProduct.AddProductPage.OnDrop | src/Pages/AddProduct.jsx:104-113 | an empty drop changes nothing; otherwise the first file is the image and the preview |
| AddProduct.AddProductPage.BeginSubmit | src/Pages/AddProduct.jsx:136-148 | loading on; the body is the sanitised form; the header is present only with a token |
| AddProduct.AddProductPage.CompleteSubmit | src/Pages/AddProduct.jsx:151-158 | success resets form and preview; failure keeps both; loading off on both paths |
| Participants.EmptyForm | src/Pages/ParticipantRegistration.jsx:22-32 | gender 0 and every text field empty |
| Participants.SetText | src/Pages/ParticipantRegistration.jsx:48-51 | the named text field takes the value; every other field and the gender unchanged |
| ParticipantEdit.ResolveId | src/Pages/ParticipantEdit.jsx:23 | the prop id when truthy, else the route parameter |
| ParticipantEdit.DayPart | src/Pages/ParticipantEdit.jsx:50 | the first ten characters of a stored date (all of a shorter one), "" when there is none |
| ParticipantEdit.Normalise | src/Pages/ParticipantEdit.jsx:47-51 | the gender converted to a number (never text), the date cut to its day part, all else as loaded |
| ParticipantEdit.EditChange | src/Pages/ParticipantEdit.jsx:62-68 | a text input sets only its field; the gender input stores `Number(value)` |
| ParticipantEdit.EditChangeKeepsGenderNumeric | src/Pages/ParticipantEdit.jsx:47-68 | no change makes the gender text again |
| ParticipantEdit.EditChangeSameGender | src/Pages/ParticipantEdit.jsx:66 | selecting the gender already held changes nothing |
| ParticipantEdit.PayloadOf | src/Pages/ParticipantEdit.jsx:73-78 | every form field but the date is sent as entered; the entered date text is replaced by `null` exactly when it is empty, else by that day at midnight UTC |
| ParticipantEdit.PayloadDeterminesForm | src/Pages/ParticipantEdit.jsx:73-78 | two forms give the same body exactly when they are equal: the date conversion loses nothing |
| ParticipantEdit.CloseTarget | src/Pages/ParticipantEdit.jsx:85-88 | call `onClose` iff one was given, else go to /participants |
| ParticipantEdit.ParticipantEditPage.constructor | src/Pages/ParticipantEdit.jsx:21-37 | the resolved id, the empty form, closed notice |
| ParticipantEdit.ParticipantEditPage.Load | src/Pages/ParticipantEdit.jsx:39-60 | success sets the normalised record; failure shows the backend text or "Load failed" |
| ParticipantEdit.ParticipantEditPage.HandleChange | src/Pages/ParticipantEdit.jsx:62-68 | the form takes the coerced input; the gender stays numeric |
| ParticipantEdit.ParticipantEditPage.HandleSave | src/Pages/ParticipantEdit.jsx:70-96 | sends the payload with the token header; success announces "Updated!" and closes as `CloseTarget` says; failure shows the backend text or "Update failed" and stays |
| ParticipantEdit.ParticipantEditPage.HandleCancel | src/Pages/ParticipantEdit.jsx:98-101 | closes the same way as a successful save |
| ParticipantRegistration.RegistrationHeader | src/Pages/ParticipantRegistration.jsx:55-59 | a header iff the token is truthy and neither "null" nor "undefined" |
| ParticipantRegistration.RegistrationHeaderRefinesAuthHeader | src/Pages/ParticipantRegistration.jsx:56-58 | the same header as the other pages except for the two placeholder texts, which only this page omits |
| ParticipantRegistration.RegistrationChange | src/Pages/ParticipantRegistration.jsx:48-51 | the named field takes the raw value, the gender unconverted |
| ParticipantRegistration.RegistrationChangeUndo | src/Pages/ParticipantRegistration.jsx:48-51 | restoring a field's old text undoes an edit |
| ParticipantRegistration.ParticipantRegistrationPage.constructor | src/Pages/ParticipantRegistration.jsx:40-46 | the empty form, closed snackbar, the form shown |
| ParticipantRegistration.ParticipantRegistrationPage.View | src/Pages/ParticipantRegistration.jsx:86-88 | the list replaces the form exactly when `showList` is set |
| ParticipantRegistration.ParticipantRegistrationPage.HandleChange | src/Pages/ParticipantRegistration.jsx:48-51 | the form takes the input; nothing else changes |
| ParticipantRegistration.ParticipantRegistrationPage.HandleSubmit | src/Pages/ParticipantRegistration.jsx:53-80 | the form goes out with the checked header; success resets to the empty form; failure keeps it and shows the backend text or "Registration failed" |
| ParticipantRegistration.ParticipantRegistrationPage.HandleToggleList | src/Pages/ParticipantRegistration.jsx:82-84 | the list is shown; no handler turns it off |
| ParticipantList.GenderLabel | src/Pages/ParticipantList.jsx:110 | 0, 1, 2 (or their text) label Male, Female, Other; any other number or NaN shows nothing |
| ParticipantList.GenderLabelTextAgrees | src/Pages/ParticipantList.jsx:110 | a gender stored as text gets the same label as the number |
| ParticipantList.RowOf | src/Pages/ParticipantList.jsx:104-112 | row i shows serial i+1, the gender label and the participant's fields |
| ParticipantList.Rows | src/Pages/ParticipantList.jsx:104-112 | one row per participant, in order |
| ParticipantList.SerialsAreOneToN | src/Pages/ParticipantList.jsx:106 | serials start at 1, rise by one per row, are distinct and end at the row count |
| ParticipantList.ParticipantListPage.constructor | src/Pages/ParticipantList.jsx:20-23 | no participants, the table shown, no id |
| ParticipantList.ParticipantListPage.View | src/Pages/ParticipantList.jsx:72-82 | the editor for the chosen id exactly while `showEdit` is set |
| ParticipantList.ParticipantListPage.ApplyFetch | src/Pages/ParticipantList.jsx:26-38 | success replaces the list; failure shows the backend text or "Failed to fetch participants" |
| ParticipantList.ParticipantListPage.HandleEdit | src/Pages/ParticipantList.jsx:44-51 | a falsy id warns and changes nothing else; a given id opens the editor on it |
| ParticipantList.ParticipantListPage.HandleDelete | src/Pages/ParticipantList.jsx:53-70 | a request iff the id is given; success announces and refetches; failure shows the backend text or "Delete failed" |
| ParticipantList.ParticipantListPage.CloseEditor | src/Pages/ParticipantList.jsx:76-79 | back to the table, and the list is refetched |
| Sidebar.SelectionsExclusive | src/Components/Sidebar.jsx:41-85 | no path selects both items; every path under /dashboard/ecommerce selects E-commerce; each link's own target selects its item |
| Sidebar.StyleFor | src/Components/Sidebar.jsx:60-76 | the icon is white and the text bold exactly when the item is selected |
| Sidebar.DashboardStyle | src/Components/Sidebar.jsx:60-76 | white and bold exactly when the path is "/dashboard" or "/dashboard/" |
| Sidebar.EcommerceStyle | src/Components/Sidebar.jsx:104-116 | white and bold exactly when the path starts with "/dashboard/ecommerce" |
| Sidebar.AtMostOneHighlighted | src/Components/Sidebar.jsx:60-116 | at most one item is drawn bold |
| Sidebar.DrawerAfterClick | src/Components/Sidebar.jsx:42 | a click toggles the drawer in mobile mode and leaves it otherwise |
| AuthRoutes.Route | src/Components/AuthRoutes.jsx:11-14 | /login is the login page given `onLogin`; /create-account and /forgot-password their pages; every other path redirects to /login |
| AuthRoutes.ResolveEndsOnPage | src/Components/AuthRoutes.jsx:11-14 | resolution never ends on a redirect: every unknown path reaches the login page after one redirect |
| App.AppState.constructor | src/App.js:8 | the flag starts false and the auth routes are mounted |
| App.AppState.Mounted | src/App.js:22-26 | exactly one subtree: the auth routes with `handleLogin` while logged out, the landing shell with `handleLogout` while logged in |
| App.AppState.HandleLogin | src/App.js:10-12 | the flag is set; storage untouched |
| App.AppState.HandleLogout | src/App.js:14-17 | the flag is cleared and storage emptied |
| App.AppState.PageAt | src/App.js:22-23 | a logged-out visitor always sees a page, never a redirect, and the login page gets the root's `handleLogin` |
| App.LoginThenLogout | src/App.js:10-17 | logging in and then out returns to the auth routes with empty storage |

## Left out

- CreateAccount.SubmitGateDecides, CreateAccount.CreateAccountPage.HandleSubmit, Login.Submit, ParticipantRegistration.ParticipantRegistrationPage.HandleSubmit: these describe the submit handler once the browser has let the submit through. The browser's own constraint validation is not modelled: a form with an empty `required` field or a malformed `type="email"` field is never submitted, so no request or alert follows it.
- HTTP and storage. Every request is a `Response` parameter, and every storage read is a parameter. Request URLs and query strings are not modelled.
- Concurrency. Requests are taken to complete in the order they were issued. Interleavings, double submits and unmounting are not modelled.
- Timers. The delays before applying the login outcome, and before navigating after account creation or a participant save, each collapse into one step.
- The headers of the product pages. ProductList, StockManagement and EditProduct always send "Bearer " followed by whatever is stored, even when nothing is. These requests are parameters, so their headers are not modelled.
- AddProduct.SanitizedPrice, AddProduct.Sanitize: inherit the `Number()` restriction below. A price, product number or stock figure typed as "19.99", "-3" or " 7" is posted as that number by the page but as NaN (posted as `null`) by the model.
- Strings.ToNumberOfDecimal, Strings.ToNumber, AddProduct.SanitizedPrice: numbers are unbounded integers. JavaScript numbers are IEEE doubles, so `Number()` rounds a digit string above 2^53 (`Number("9007199254740993")` is 9007199254740992) while the model keeps it exact, and a fractional figure from the backend, such as an `inStock` of 2.5 or a gender of 1.5, has no value in the model.
- Strings.ToNumber: `Number()` is modelled only for numbers, the empty string and decimal digit strings. Signs, decimals, exponents, surrounding whitespace, hexadecimal and `Infinity` are all mapped to NaN instead of their JavaScript value.
- Strings.Lower: lowers ASCII capitals only, not Unicode case mappings.
- ParticipantEdit.PayloadOf: the date is kept as the entered day, not turned into a timestamp. An unparsable date makes the source throw and show "Update failed"; that path is not modelled.
- ParticipantEdit.Normalise: only the nine form fields are modelled. The record's other fields (`_id`, timestamps) are copied into the form by the spread and sent back on save; the model drops them.
- ParticipantList.GenderLabel: property names of the label array other than "0", "1" and "2" are not modelled. For example, "length" would display 3.
- Missing text fields of a backend record are modelled as strings. A sequence field (sizes, colours) that is missing is modelled as empty.
- Dashboard.TotalStockIn, Dashboard.TotalStockOut, Dashboard.TotalSold, EditProduct.SaleStocks: JavaScript `null` against `undefined`. In these sums and differences, a `null` figure counts as 0, but the model treats every missing figure as NaN.
- File reading. A dropped file arrives as the data URL that the reader would produce.
- Rendering and styling beyond the highlighted sidebar item. This includes snackbar auto-hide, which is why no handler closes a snackbar.
- The product list's view switch to the stock page and its mobile drawer.
- The edit page's size and colour toggle handlers, which can receive `null`.
- AuthRoutes.Route: route matching is exact. React-router's case-insensitive and trailing-slash matching is not modelled.
- The landing route table, the layouts, the header, the e-commerce and carousel pages, and the forgot-password page are not part of this model.
