# Storefront client logic, modelled in Dafny

This project models the parts of a React storefront (a product catalogue,
an order page, an add-product form and a checkout page over a REST backend)
that can be stated exactly:

- **Catalog** (`catalog.dfy`): the catalogue section filters the fetched
  products by an optional category, records how many remain, and shows the
  1-based page `[(p-1)*8, (p-1)*8+8)` of them; each card gets an image URL
  with a placeholder fallback; the pagination control appears only when
  there are more than eight products. `ProductsSection` is a class holding
  the section's state (a new category prop keeps the current page), and `FetchProducts` takes the outcome of the products
  request as a parameter.
- **OrderView** (`order_view.dfy`): the order page's status badge (two
  closed tables from the five statuses to a colour and a French label, with
  different fallbacks), the six-character order number in the title, and the
  amount of each line.
- **PriceFormat** (`price_format.dfy`): the price input's formatter (a comma
  before every group of three digits) and parser (delete `$` with one
  following space and every comma, then `parseInt`), specified on character
  sequences; the parser reads back every price the formatter shows. The
  old-price input uses the same pair (AddProductPage.tsx lines 120-121).
- **ProductForm** (`product_form.dfy`): upload-event normalisation, the
  add-product form's required fields, and the product payload with its
  defaults.
- **Checkout** (`checkout.dfy`): the checkout form's rules, the order payload
  (form values, then `items`, `total` and `status: 'pending'` on top), and
  the submission sequence on a `CheckoutPage` class: the cart is cleared and
  the page moves to the confirmation only when the backend accepted the
  order. The backend's answer is a parameter of the methods.

`wrappers.dfy` holds `Option` (JavaScript's `undefined`) and `Min`/`Max`;
`form_rules.dfy` holds `Filled`, the form library's `required` test that
both forms use.

Prices, quantities, stock, ratings and weights are natural numbers (the
currency, XOF, has no subunit).

## Model

| member | source | states |
|---|---|---|
| Catalog.ImageUrl | src/components/ProductsSection.js:14-19 | a non-empty string image is the URL, an object's non-empty `url` is the URL, anything else (absent, empty, other values) gives '/placeholder.png'; the URL is never empty |
| Catalog.Matching | src/components/ProductsSection.js:29 | the category filter keeps exactly the products of that category, never more than it was given |
| Catalog.FilterByCategory | src/components/ProductsSection.js:26-30 | with no (or an empty) category the list is the fetched list; with a category a product is in it iff it was fetched and has that category |
| Catalog.MatchingAppend | src/components/ProductsSection.js:29 | filtering distributes over concatenation (order is kept) |
| Catalog.FilterKeepsOrder | src/components/ProductsSection.js:26-30 | the filtered list of a concatenation is the concatenation of the filtered parts, and a single product is kept iff its category matches: exactly the matching products, in fetched order |
| Catalog.JsSlice | src/components/ProductsSection.js:35 | `slice` with clamped bounds: length max(0, min(end, N) - start), element i is s[start + i] |
| Catalog.Page | src/components/ProductsSection.js:33-35 | page p has min(8, max(0, N - (p-1)*8)) products, its i-th being filtered[(p-1)*8 + i] |
| Catalog.PageBeyondLastIsEmpty | src/components/ProductsSection.js:33-35 | a page past ceil(N/8) is the empty list, not an error |
| Catalog.PagesArePrefix | src/components/ProductsSection.js:33-35 | pages 1..k laid end to end are the first min(N, 8k) filtered products |
| Catalog.AllPagesRebuildList | src/components/ProductsSection.js:33-35 | pages 1..ceil(N/8) in order give back the filtered list |
| Catalog.IndexOnOnePage | src/components/ProductsSection.js:33-35 | product j is at position j mod 8 of page j div 8 + 1, that page exists, and no other page covers index j |
| Catalog.ShowsPagination | src/components/ProductsSection.js:87-96 | the pagination control (rendered iff totalProducts > 8) is shown iff there are at least two pages |
| Catalog.StrandedOnEmptyPage | src/components/ProductsSection.js:33-35 | on a page p >= 2 of at most eight filtered products (as after switching to a small category while on a later page) the grid is empty and the pagination control is hidden |
| Catalog.ProductsSection.constructor | src/components/ProductsSection.js:8-11 | initial state: no products, loading, page 1, count 0 |
| Catalog.ProductsSection.FetchProducts | src/components/ProductsSection.js:22-41 | only the products, the count and the loading flag change: on success the count is the size of the list filtered by the section's own category (whatever the page) and the shown products are the current page of it; on failure both are kept; loading ends false; the category and the page are unchanged |
| Catalog.ProductsSection.HandlePageChange | src/components/ProductsSection.js:46-48 | the current page becomes the page the control reports |
| Catalog.ProductsSection.SetCategory | src/components/ProductsSection.js:7-44 | a new `category` prop changes only the category: the current page, the products, the count and the loading flag are kept for the next fetch |
| OrderView.ParseStatus | src/components/Order.js:43-49 | a status string hits a table key iff it is the name of one of the five statuses |
| OrderView.ParseStatusName | src/components/Order.js:43-49 | every status name is read back as that status |
| OrderView.StatusColor | src/components/Order.js:42-51 | a known status gets its colour from the table, any other string 'default' |
| OrderView.StatusText | src/components/Order.js:53-62 | a known status gets its French label, any other string is shown as it is |
| OrderView.StatusColorTable | src/components/Order.js:43-49 | pending, processing, shipped, delivered, cancelled give warning, processing, info, success, error |
| OrderView.StatusTextTable | src/components/Order.js:54-60 | the five statuses give 'En attente', 'En cours de traitement', 'Expédiée', 'Livrée', 'Annulée' |
| OrderView.DefaultColorIffUnknown | src/components/Order.js:50 | the colour is 'default' iff the status is not one of the five |
| OrderView.RawTextIffUnknown | src/components/Order.js:61 | the label equals the raw status iff the status is not one of the five |
| OrderView.TablesInjective | src/components/Order.js:43-60 | distinct statuses get distinct colours and distinct labels |
| OrderView.UpperChar | src/components/Order.js:93 | a lower-case ASCII letter becomes the letter 32 code points below it (its upper case), every other character is kept, and the result is never a lower-case letter |
| OrderView.UpperCase | src/components/Order.js:93 | `toUpperCase` keeps the length and raises each character |
| OrderView.LastSix | src/components/Order.js:93 | `slice(-6)` is the suffix of length min(6, N): its i-th character is the id's character N - min(6, N) + i |
| OrderView.OrderNumber | src/components/Order.js:93 | the order number has min(6, N) characters and no lower-case letter |
| OrderView.OrderNumberIsUpperSuffix | src/components/Order.js:93 | character i of the order number is the upper-cased character N - min(6, N) + i of the id: the id's suffix of that length, upper-cased |
| OrderView.LineAmounts | src/components/Order.js:126 | one amount per line, in order, each price * quantity of its line (the checkout summary, CheckoutPage.js line 188, shows the same) |
| PriceFormat.DigitValue | src/components/AddProductPage.tsx:108 | a digit's value is below ten and writes back as the same digit |
| PriceFormat.Decimal | src/components/AddProductPage.tsx:107 | the text of a natural number is a non-empty digit string without a leading zero |
| PriceFormat.ValueOfDecimal | src/components/AddProductPage.tsx:107 | reading the digits of n gives n |
| PriceFormat.Commas | src/components/AddProductPage.tsx:107 | the regular expression inserts one comma per full group of three in the tail |
| PriceFormat.Format | src/components/AddProductPage.tsx:107 | the formatted text has (N-1) div 3 commas more than the digits and starts with the first digit (never a comma) |
| PriceFormat.FormatPrice | src/components/AddProductPage.tsx:107 | the shown price is the digits of n grouped by three from the right and joined with commas, and deleting its commas gives the digits of n back |
| PriceFormat.CommasAppend | src/components/AddProductPage.tsx:107 | the comma insertion distributes over a concatenation whose second part has a multiple of three characters |
| PriceFormat.FormatIsGrouped | src/components/AddProductPage.tsx:107 | the formatter equals grouping the digits by three from the right and joining the groups with commas |
| PriceFormat.RemoveCommasOfFormat | src/components/AddProductPage.tsx:107 | deleting the commas of the formatted text gives back the digit string |
| PriceFormat.StripCurrency | src/components/AddProductPage.tsx:108 | the replacement leaves no comma and no `$` and never lengthens the text |
| PriceFormat.StripCurrencyTokens | src/components/AddProductPage.tsx:108 | a character other than `$` and `,` is kept; a comma and a lone `$` are deleted; a `$` takes one white-space character after it with it, and only that one |
| PriceFormat.StripCurrencyAppend | src/components/AddProductPage.tsx:108 | the replacement works match by match: text not ending in `$` is stripped independently of what follows it |
| PriceFormat.StripDollarNoSpace | src/components/AddProductPage.tsx:108 | a `$` not followed by white space is deleted alone, and the character after it is matched on its own (so `$$ 5` gives `5`) |
| PriceFormat.StripWithoutDollar | src/components/AddProductPage.tsx:108 | on text without `$` the replacement only deletes the commas |
| PriceFormat.TrimStart | src/components/AddProductPage.tsx:108 | `parseInt` skips a prefix made only of white space, and what it keeps does not start with white space |
| PriceFormat.DigitPrefix | src/components/AddProductPage.tsx:108 | the digits read are the longest prefix of decimal digits; a digit string is read whole |
| PriceFormat.ParseUnsigned | src/components/AddProductPage.tsx:108 | the unsigned part is never negative, is NaN when no digit starts the text, and is the value of a digit string |
| PriceFormat.ParseInt | src/components/AddProductPage.tsx:108 | blank text gives NaN, a digit string gives its value, and `-` followed by a digit string gives the negated value |
| PriceFormat.ParseIntOfDecimal | src/components/AddProductPage.tsx:108 | `parseInt` of the digits of n is n |
| PriceFormat.Parse | src/components/AddProductPage.tsx:108 | the empty text parses to 0; other text is `parseInt` of the text with `$`, its following space and the commas deleted |
| PriceFormat.ParseFormatRoundTrip | src/components/AddProductPage.tsx:107-108 | parser(formatter(n)) == n; the model proves it for every natural n, while in JavaScript it holds for n below 2^53, since `parseInt` returns a double |
| ProductForm.NormFile | src/components/AddProductPage.tsx:54-59 | an array is returned unchanged, an event gives its `fileList`, nothing gives undefined |
| ProductForm.NormFileIdempotent | src/components/AddProductPage.tsx:54-59 | normalising the normalised list again changes nothing |
| ProductForm.FirstFile | src/components/AddProductPage.tsx:37 | the image is the first upload's file, absent when there is no upload |
| ProductForm.OriginFiles | src/components/AddProductPage.tsx:38 | the additional images keep the uploads' length and order, each being its upload's file |
| ProductForm.BuildPayload | src/components/AddProductPage.tsx:21-39 | falsy isNew/isPromo become false, falsy rating/reviewCount become 0, image and additional images come from the uploads, the category is the option's value, every other field is copied |
| ProductForm.PayloadDefaultsMatchInitialValues | src/components/AddProductPage.tsx:32-36 | fields left untouched give the same payload as the form's initial values (false, false, 0, 0) |
| ProductForm.ProductFormErrors | src/components/AddProductPage.tsx:76-210 | each of the eight kinds of required rule (name, description, price, stock, category, specification key, specification value, image) is reported exactly when a field of that kind is missing; the per-row messages are ProductForm.ShownMessages |
| ProductForm.MessagesDistinct | src/components/AddProductPage.tsx:78-210 | the eight rules have eight different messages |
| ProductForm.Messages | src/components/AddProductPage.tsx:78-210 | the messages of a list of rules, one per rule, in order |
| ProductForm.MessageInMessages | src/components/AddProductPage.tsx:78-210 | a rule's message is among those of a list of rules iff the rule is in the list |
| ProductForm.RowMessages | src/components/AddProductPage.tsx:177-192 | one specification row shows "Clé manquante" iff its key is missing and "Valeur manquante" iff its value is, at most two messages |
| ProductForm.SpecificationMessages | src/components/AddProductPage.tsx:176-194 | the rows' messages are only key and value messages, and a key (value) message is shown iff some row misses its key (value) |
| ProductForm.SpecificationMessagesAppend | src/components/AddProductPage.tsx:176-194 | the rows are rendered one after another: the messages of two runs of rows concatenate |
| ProductForm.KeyMessagePerRow | src/components/AddProductPage.tsx:177-185 | n rows with a value but no key show "Clé manquante" n times, once per row |
| ProductForm.AboveSilentIff | src/components/AddProductPage.tsx:76-140 | the fields above the specification list show no message iff name, description, price, stock and category are present |
| ProductForm.RowsSilentIff | src/components/AddProductPage.tsx:176-194 | the specification rows show no message iff every row has its key and its value |
| ProductForm.NoMessagesIff | src/components/AddProductPage.tsx:76-210 | no part of the form shows a message iff the form is accepted |
| ProductForm.ShownMessages | src/components/AddProductPage.tsx:76-210 | the messages shown top to bottom (the fields above the list, each row in order, the image) are empty iff the form is accepted |
| ProductForm.MessageShownIff | src/components/AddProductPage.tsx:78-210 | a rule's message is shown exactly when that rule fails |
| ProductForm.ProductFormAcceptedIff | src/components/AddProductPage.tsx:75-219 | the product form passes iff name, description, price, stock, category and an image are present and every specification row has a key and a value |
| ProductForm.AcceptedPayload | src/components/AddProductPage.tsx:21-39 | an accepted form's payload has name, description, price, stock, one of the five category values, and the first upload's file as image |
| ProductForm.PathAfterCreate | src/components/AddProductPage.tsx:42-45 | after a successful creation the page goes to /products/ followed by the new id; after a failure it stays |
| Checkout.IndexOfAt | src/components/CheckoutPage.js:91 | the index of the first `@` of the email, or its length |
| Checkout.IsEmailIff | src/components/CheckoutPage.js:92 | the email shape holds iff some `@` after the first character is the only `@`, is followed by a dot with characters on both sides, and the text holds no white-space character of the set PriceFormat.IsSpace models (ASCII white space, U+00A0, U+FEFF) |
| Checkout.CheckoutErrors | src/components/CheckoutPage.js:71-166 | an error (field, problem) is reported exactly when that field's rule refuses its value |
| Checkout.CheckoutErrorsByField | src/components/CheckoutPage.js:71-166 | every field but the notes is reported missing iff its value is undefined or empty; the email is reported malformed iff it is present and not well formed; the notes are never reported |
| Checkout.NoErrorsIff | src/components/CheckoutPage.js:71-166 | no rule fails iff first and last name, email, phone, address, city, postal code, country and payment method are present and the email is well formed |
| Checkout.CheckoutAccepted | src/components/CheckoutPage.js:69-166 | onFinish is called iff first and last name, email, phone, address, city, postal code, country and payment method are present and the email is well formed |
| Checkout.NotesAreOptional | src/components/CheckoutPage.js:161-166 | the notes never decide whether the form passes |
| Checkout.FormFieldsKeys | src/components/CheckoutPage.js:71-166 | the form values hold exactly the ten field names of the form |
| Checkout.FormFieldsHoldValues | src/components/CheckoutPage.js:71-166 | each field's name holds that field's value: undefined when empty, the text when filled, the option's value for a select |
| Checkout.OrderPayload | src/components/CheckoutPage.js:26-31 | the order has the form's keys plus items, total and status; items is the cart, total the total, status 'pending'; every other form field is copied |
| Checkout.OverriddenFieldsIgnored | src/components/CheckoutPage.js:26-31 | a form field named items, total or status has no effect on the order |
| Checkout.OrderCarriesField | src/components/CheckoutPage.js:26-31 | every form field reaches the order under its own name with its value |
| Checkout.AcceptedOrderContact | src/components/CheckoutPage.js:26-31 | an accepted form's order carries the first and last name, the email (well formed) and the phone as typed |
| Checkout.AcceptedOrderAddress | src/components/CheckoutPage.js:26-31 | an accepted form's order carries the address, city and postal code as typed, and the notes when there are any |
| Checkout.AcceptedOrderChoices | src/components/CheckoutPage.js:26-31 | an accepted form's order carries the chosen country (one of the five values) and payment method (one of the four), the cart, the total and status 'pending' |
| Checkout.CheckoutPage.constructor | src/components/CheckoutPage.js:21 | the page starts from the cart store's cart and total, at the location it is given, with no order sent |
| Checkout.CheckoutPage.ShowsForm | src/components/CheckoutPage.js:43-56 | the form is shown iff the cart is not empty |
| Checkout.CheckoutPage.ClearCart | src/components/CheckoutPage.js:35 | clearing leaves an empty cart with total 0 |
| Checkout.CheckoutPage.OnFinish | src/components/CheckoutPage.js:24-41 | the order is posted; on success the cart is cleared and the location becomes /order-confirmation; on failure cart, total and location are unchanged |
| Checkout.CheckoutPage.Submit | src/components/CheckoutPage.js:43-56 | with an empty cart no form is shown and nothing happens; a failing rule stops the submission before any request; otherwise onFinish runs |

## Left out

- Rendering, routing (except the target location of the checkout page), the loading flags of the order page and of the add-product page (the catalogue's flag is modelled), `message` notifications, `console` logging and `useEffect` scheduling.
- Checkout.CheckoutPage.Submit: one press is one atomic step. In the component the submit button has no loading or disabled state, so a second press while `createOrder` is pending runs onFinish again with the same cart and total and posts the same order twice; in the model the second press finds the cart already cleared and returns NotRendered, so the duplicate order is not captured.
- Catalog.ProductsSection.FetchProducts: a request and its answer are one atomic step; in the component, overlapping requests (a page change while one is pending) can resolve out of order and leave a stale page on screen, which the model does not capture.
- The HTTP services (`getProducts`, `getOrder`, `createOrder`, `createProduct`): their outcome is a parameter. src/services/orderService.js and src/services/productService.js are not part of this model.
- The cart store (src/context/CartContext): its merge rule for `addToCart` and how `total` is computed are not part of this model; `cart` and `total` are inputs.
- Checkout.CheckoutPage.ClearCart: the store's clearCart is not shown; it is taken to empty the cart and reset its total to 0.
- Order fetching and the not-found rendering of the order page, and the status life cycle, which the backend drives.
- Locale formatting (`toLocaleString`, `toLocaleDateString`) and floating point: `rating` with one decimal, the weight step of 0.1, and the formatter on decimal strings (its regular expression also groups the fractional digits).
- PriceFormat.Format: specified on digit strings only (for prices, as PriceFormat.FormatPrice, exact in JavaScript for n below 2^53), which is what a natural-number price gives; the formatter on `undefined` or on text typed into the input is not modelled.
- PriceFormat.ParseInt: white space is the ASCII set plus U+00A0 and U+FEFF; the other Unicode space characters `\s` and `parseInt` skip are not modelled. `parseInt` returns a double, exact only below 2^53; the model reads every digit string to its exact integer, so PriceFormat.ParseFormatRoundTrip holds in JavaScript only for n below 2^53.
- OrderView.UpperChar: `toUpperCase` is modelled on ASCII letters; other characters are kept, so Unicode case mappings (including those that change the length) are not modelled.
- OrderView.StatusColor: a status named like an inherited object property (`constructor`, `toString`) would read that property in JavaScript; only own table keys are modelled. The same holds for OrderView.StatusText.
- Checkout.IsEmail: the `type: 'email'` rule belongs to the form library (not part of this model); it is modelled as a shape check (one `@`, non-empty local part, a dot inside the domain, no character of PriceFormat.IsSpace's white-space set). This approximates the library's pattern in both directions: it accepts addresses the pattern refuses, such as `a@b.c` with a one-letter top-level domain, and refuses addresses the pattern accepts, such as a quoted local part holding a space.
- The category, country and payment selects can only produce their listed options; this is modelled by enumerations rather than by validating strings.
- Negative page numbers and JavaScript `slice` on negative indices: pages start at 1.
- The stock bound on the quantity picker (src/components/ProductDetailPage.js) is enforced by the widget and is not modelled.
