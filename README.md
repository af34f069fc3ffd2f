# fittinglab-shop storefront core in Dafny

This project models the client-side core of the FittingLab storefront, a
Next.js shop that sits on a Medusa commerce backend. The model covers:

- the quantity selector;
- the product image gallery;
- the home page's product list;
- the navigation bar's derived values;
- the cart context and the add-to-cart button;
- the three-step checkout (address form, shipping options, payment form) and
  the page that drives it;
- the account page's address form.

Pure derivations are written as functions, and lemmas are proved about them.
Components whose state changes through event handlers are modelled as
classes. A class's fields are the component's state. Its methods are the
handlers, and each method is tied by its `ensures` clauses to a pure
transition function.

Calls to the backend SDK are not made. Their answers are parameters instead:

- an `Outcome<T>` (`Ok(value)` or `Err(status, message)`) for a single call;
- a `retrieve: string -> Outcome<Cart>` function where it matters which cart
  id is fetched.

The browser's `localStorage` is the class `Browser.LocalStorage`, which holds
a `map<string, string>`. An environment variable is an `Option<string>`.
JavaScript truthiness of strings is modelled by `Common.Truthy`, and `a || b`
by `Common.OrElse`.

Files:

| file | models |
|---|---|
| `common.dfy` | Option/Outcome, truthiness, backend URL, the commerce records, local storage |
| `quantity_selector.dfy` | `src/components/QuantitySelector.tsx` |
| `image_gallery.dfy` | `src/components/ProductImageGallery.tsx` |
| `product_listing.dfy` | `getProducts` in `src/app/page.tsx` |
| `navbar.dfy` | `src/components/Navbar.tsx` |
| `cart_context.dfy` | `src/context/CartContext.tsx` |
| `add_to_cart.dfy` | `src/components/AddToCartButton.tsx` |
| `checkout_address_form.dfy` | `src/components/checkout/AddressForm.tsx` |
| `shipping_options.dfy` | `src/components/checkout/ShippingOptions.tsx` |
| `payment_form.dfy` | `src/components/checkout/PaymentForm.tsx` |
| `checkout_client.dfy` | `src/components/CheckoutClient.tsx` |
| `account_address_form.dfy` | `src/components/account/AddressForm.tsx` |

## Model

| member | source | states |
|---|---|---|
| Common.OrElse | src/components/checkout/AddressForm.tsx:12-21 | `s \|\| fallback` on strings: the value when it is non-empty, otherwise the fallback. |
| Common.BackendUrl | src/app/page.tsx:31 | The backend base URL is the environment value when it is non-empty, and `http://localhost:9000` otherwise; it is never empty. |
| Common.Lookup | src/context/CartContext.tsx:22 | `getItem` yields the stored value for a present key and null for an absent one. |
| Browser.LocalStorage.SetItem | src/components/AddToCartButton.tsx:30 | Storing a value updates that key and leaves the other keys unchanged. |
| Browser.LocalStorage.RemoveItem | src/context/CartContext.tsx:39 | Removing a key deletes only that key. |
| QuantitySelector.OnInput | src/components/QuantitySelector.tsx:30-35 | A keystroke's text is taken exactly when it is empty or all digits; otherwise the input keeps its old value. |
| QuantitySelector.OnInputKeepsWellFormed | src/components/QuantitySelector.tsx:30-35 | The filter preserves the invariant that typed text holds only digits. |
| QuantitySelector.ParseDigits | src/components/QuantitySelector.tsx:38 | `parseInt` of a digit string is NaN exactly for the empty string, and otherwise is non-negative. |
| QuantitySelector.ParseInput | src/components/QuantitySelector.tsx:38 | A number held by the input is taken as it is; typed text is parsed, which is NaN exactly for the empty text and otherwise non-negative. |
| QuantitySelector.ShowParses | src/components/QuantitySelector.tsx:38-43 | The decimal text of a committed number is all digits and parses back to the same number (round trip). |
| QuantitySelector.Clamp | src/components/QuantitySelector.tsx:40-41 | The committed value lies in [min, max] whenever min <= max, and is min, max or the parsed number. |
| QuantitySelector.CommitCases | src/components/QuantitySelector.tsx:38-41 | NaN or a number below min commits min; above max commits max; a number inside the bounds is kept. |
| QuantitySelector.RecommitIsNoop | src/components/QuantitySelector.tsx:37-46 | Committing an already committed value changes nothing (idempotence). |
| QuantitySelector.StepDown | src/components/QuantitySelector.tsx:55-59 | The minus button emits value - 1 exactly when value > min. |
| QuantitySelector.StepUp | src/components/QuantitySelector.tsx:61-65 | The plus button emits value + 1 exactly when value < max. |
| QuantitySelector.StepsStayInBounds | src/components/QuantitySelector.tsx:55-65 | A button emits exactly when it is not disabled (lines 72 and 88), and from a value inside the bounds it emits a value inside them. |
| QuantitySelector.QuantityInput.constructor | src/components/QuantitySelector.tsx:15-22 | The bounds default to 1 and 99, and the input starts at the `value` prop. |
| QuantitySelector.QuantityInput.SyncValue | src/components/QuantitySelector.tsx:26-28 | A new `value` prop resynchronises the input to it. |
| QuantitySelector.QuantityInput.HandleInputChange | src/components/QuantitySelector.tsx:30-35 | The input becomes `OnInput` of its old state, and stays well formed. |
| QuantitySelector.QuantityInput.CommitChange | src/components/QuantitySelector.tsx:37-47 | The input snaps to the clamped parse of its old state, and `onChange` fires exactly when that differs from `value`. |
| QuantitySelector.QuantityInput.Decrease | src/components/QuantitySelector.tsx:55-59 | Emits `StepDown(value, min)`. |
| QuantitySelector.QuantityInput.Increase | src/components/QuantitySelector.tsx:61-65 | Emits `StepUp(value, max)`. |
| ImageGallery.BuildAllImages | src/components/ProductImageGallery.tsx:21-35 | The loop builds exactly `AllImages`: the non-empty thumbnail first, then every image whose URL differs from the thumbnail, in order, with alt falling back to the title. |
| ImageGallery.Lead | src/components/ProductImageGallery.tsx:24-26 | The list starts with exactly one entry, the thumbnail with the title as alt text, when the thumbnail is non-empty, and with none otherwise. |
| ImageGallery.Extras | src/components/ProductImageGallery.tsx:28-34 | There is at most one entry per image, and when the last image's URL differs from the thumbnail, its entry ends the list. |
| ImageGallery.AllImages | src/components/ProductImageGallery.tsx:21-35 | At most one entry per image plus the thumbnail. A non-empty thumbnail is entry 0 with the title as alt text, followed by the images' entries; without one the list is just the images' entries. |
| ImageGallery.KeptImagesAppear | src/components/ProductImageGallery.tsx:28-34 | Every image whose URL is not the thumbnail has its entry in the list. |
| ImageGallery.ExtrasComeFromKeptImages | src/components/ProductImageGallery.tsx:28-34 | Every entry after the lead comes from an image whose URL is not the thumbnail. |
| ImageGallery.ExtrasLength | src/components/ProductImageGallery.tsx:31 | Exactly the images equal to the thumbnail are dropped: the entries plus the dropped images are all the images. |
| ImageGallery.NoThumbnailKeepsAll | src/components/ProductImageGallery.tsx:24-34 | Without a thumbnail, the list has one entry per image, in order. |
| ImageGallery.Next | src/components/ProductImageGallery.tsx:62 | `goNext` is successor modulo the list length, and stays in range. |
| ImageGallery.Prev | src/components/ProductImageGallery.tsx:61 | `goPrev` is predecessor modulo the list length, and stays in range. |
| ImageGallery.PrevNextInverse | src/components/ProductImageGallery.tsx:61-62 | Prev and Next undo each other. |
| ImageGallery.Render | src/components/ProductImageGallery.tsx:40-54 | There is a placeholder exactly for an empty list. Otherwise the view shows the selected image, shows the controls only for more than one image, and the counter reads index + 1 of n (line 114). |
| ImageGallery.Gallery.constructor | src/components/ProductImageGallery.tsx:22-38 | The gallery holds `AllImages`, with index 0 selected and zoom off. |
| ImageGallery.Gallery.GoTo | src/components/ProductImageGallery.tsx:56-59 | Selecting an index also resets zoom. |
| ImageGallery.Gallery.GoPrev | src/components/ProductImageGallery.tsx:61 | The index becomes `Prev` of the old index, zoom is off, and the index stays valid. |
| ImageGallery.Gallery.GoNext | src/components/ProductImageGallery.tsx:62 | The index becomes `Next` of the old index, zoom is off, and the index stays valid. |
| ImageGallery.Gallery.ToggleZoom | src/components/ProductImageGallery.tsx:73 | A click on the main image flips zoom. |
| ProductListing.FindEur | src/app/page.tsx:16 | `find` returns the first price whose currency is "eur", and none exactly when there is no such price. |
| ProductListing.PriceAmount | src/app/page.tsx:16-17 | The amount is the amount of the first EUR price of the first variant when there is one, and 0 without variants or without an EUR price. |
| ProductListing.RawImageUrl | src/app/page.tsx:28 | The thumbnail when non-empty, else the first image's URL when non-empty, else none; a present URL is never empty. |
| ProductListing.Normalise | src/app/page.tsx:30-32 | A URL starting with "http" and an empty URL are kept; any other URL gets the backend URL in front; a missing URL stays missing. |
| ProductListing.ToCard | src/app/page.tsx:35-43 | id, handle and title are copied. The description defaults to "". The default variant is the first variant's id, and absent exactly when there are no variants. |
| ProductListing.GetProducts | src/app/page.tsx:8-49 | A failed fetch gives no cards; otherwise there is one card per product, in order. |
| ProductListing.CardPrice | src/app/page.tsx:15-24 | The price is formatted exactly when the first EUR price of the first variant has a non-zero amount, and it shows that amount; otherwise "Preis auf Anfrage". |
| ProductListing.CardImage | src/app/page.tsx:28-32 | A card has no image exactly when the product has neither thumbnail nor image URL. A URL starting with "http" is shown as it is, and any other gets the backend URL in front. |
| ProductListing.NormaliseIdempotent | src/app/page.tsx:30-32 | With an absolute backend URL, normalising twice equals normalising once. |
| ProductListing.DefaultBackendIsAbsolute | src/app/page.tsx:31 | The default backend URL starts with "http". |
| Navbar.ReduceIsSum | src/components/Navbar.tsx:50 | The left fold with accumulator `acc` equals `acc` plus the sum of the quantities. |
| Navbar.Reduce | src/components/Navbar.tsx:50 | The fold never goes below its start value, and grows when the first line has a positive quantity. |
| Navbar.ItemCount | src/components/Navbar.tsx:50 | The badge count is the sum of the line quantities, and 0 without a cart. |
| Navbar.SumPositive | src/components/Navbar.tsx:50 | The sum is positive exactly when some line has a positive quantity. |
| Navbar.BadgeShown | src/components/Navbar.tsx:96 | The badge is shown exactly when the cart has a line with a positive quantity. |
| Navbar.AtMostOneActive | src/components/Navbar.tsx:13-17 | The links' targets are distinct, so at most one link is highlighted by `IsActive` (line 74). |
| Navbar.AccountLinkFor | src/components/Navbar.tsx:103-105 | A signed-in customer gets "/account" with "Mein Konto"; a visitor gets "/account/login" with "Partner Login". |
| Navbar.NavbarState.constructor | src/components/Navbar.tsx:20-22 | The menu and the scroll-to-top button start hidden. |
| Navbar.NavbarState.Toggle | src/components/Navbar.tsx:111 | The menu button flips the menu. |
| Navbar.NavbarState.Navigate | src/components/Navbar.tsx:39-42 | A change of path closes the menu; the same path leaves it as it was. |
| Navbar.NavbarState.LinkClicked | src/components/Navbar.tsx:158 | A click on a mobile link closes the menu. |
| Navbar.NavbarState.Scrolled | src/components/Navbar.tsx:31-34 | The scroll-to-top button is shown exactly past 400 pixels (`ShowScrollTop`). |
| CartContext.Fetched | src/context/CartContext.tsx:29-44 | A fetched cart replaces the local one. A 404 clears the cart, the id and the stored id. Any other failure changes nothing. |
| CartContext.Adopted | src/context/CartContext.tsx:21-27 | With nothing stored, nothing changes. With a stored id, the fetch of that id decides: success adopts the id and installs the fetched cart, a 404 clears cart, id and the stored "cart_id", and any other error adopts the id and keeps the cart. |
| CartContext.Refreshed | src/context/CartContext.tsx:46-57 | With an id, success only replaces the cart, a 404 clears cart, id and the stored "cart_id", and any other error changes nothing. Without an id, a stored one is adopted as in `Adopted`. |
| CartContext.LineChanged | src/context/CartContext.tsx:59-77 | The id and storage never change. With an id, a successful call replaces the cart; without an id, or on failure, nothing changes. |
| CartContext.OperationsKeepSync | src/context/CartContext.tsx:21-77 | Mount, fetch, refresh and the line operations all keep the id non-empty and equal to the stored "cart_id". |
| CartContext.MountOutcomes | src/context/CartContext.tsx:21-27 | On mount, a stored id is adopted and the fetch of that very id decides the state; with nothing stored, the state stays empty. |
| CartContext.RefreshIgnoresStorageWithId | src/context/CartContext.tsx:46-48 | With an id set, the refreshed cart and id do not depend on what storage holds. |
| CartContext.CartProvider.constructor | src/context/CartContext.tsx:16-18 | The provider starts with no cart and no id, over the given storage. |
| CartContext.CartProvider.Mount | src/context/CartContext.tsx:21-27 | The new state is `Adopted` of the old one. |
| CartContext.CartProvider.FetchCart | src/context/CartContext.tsx:29-44 | The new state is `Fetched` of the old one. |
| CartContext.CartProvider.RefreshCart | src/context/CartContext.tsx:46-57 | The new state is `Refreshed` of the old one. |
| CartContext.CartProvider.UpdateItem | src/context/CartContext.tsx:59-67 | A request is sent exactly when there is an id, and the state follows `LineChanged`. |
| CartContext.CartProvider.RemoveItem | src/context/CartContext.tsx:69-77 | A request is sent exactly when there is an id, and the state follows `LineChanged`. |
| CartContext.UseCart | src/context/CartContext.tsx:86-92 | The enclosing provider is returned, or, outside one, the error "useCart must be used within a CartProvider". |
| AddToCart.GetCartIdSpec | src/components/AddToCartButton.tsx:23-35 | A stored id is reused without creating a cart. Otherwise a cart is created and its id returned; the id is stored when it is non-empty, and storage stays as it was when it is empty. A failed creation returns its error and leaves storage as it was. Other keys never change. |
| AddToCart.SecondCallReuses | src/components/AddToCartButton.tsx:23-35 | Once an id has been obtained, the next call reuses it whatever creation would answer. |
| AddToCart.FirstAddAdoptsCreatedCart | src/components/AddToCartButton.tsx:24-58 | On the first add, the refresh adopts exactly the created cart's id, so the context holds that cart and agrees with storage. |
| AddToCart.AddToCartButton.constructor | src/components/AddToCartButton.tsx:17-19 | The quantity defaults to 1, and the button starts idle. |
| AddToCart.AddToCartButton.GetCartId | src/components/AddToCartButton.tsx:23-35 | The id and the new storage are `GetCartIdSpec` of the old storage. |
| AddToCart.AddToCartButton.HandleAddToCart | src/components/AddToCartButton.tsx:37-74 | A line is added exactly when a non-empty id was obtained. Success exactly when the add succeeded, and then the context is refreshed. Loading always ends, and the button stays disabled (`ButtonDisabled`, line 74) exactly while success is shown. |
| CheckoutAddressForm.InitialFields | src/components/checkout/AddressForm.tsx:12-21 | Every field starts from the cart's e-mail or the matching field of its shipping address, with "" for what is missing and "de" for the country. |
| CheckoutAddressForm.ToLower | src/components/checkout/AddressForm.tsx:160 | Lower-casing keeps the length and lowers each letter. |
| CheckoutAddressForm.SetField | src/components/checkout/AddressForm.tsx:81-170 | Each input sets its own field to the typed text and leaves the other eight fields unchanged; the country code is stored lower-cased. |
| CheckoutAddressForm.CountryCodeInput | src/components/checkout/AddressForm.tsx:158-160 | A typed country code is stored in lower case at the typed length, and lower-casing it again changes nothing. |
| CheckoutAddressForm.SetFieldIdempotent | src/components/checkout/AddressForm.tsx:81-170 | Typing the same text into a field twice is typing it once, also for the lower-cased country code. |
| CheckoutAddressForm.Payload | src/components/checkout/AddressForm.tsx:36-51 | The address sent carries each of the eight address fields unchanged, with company and province empty. |
| CheckoutAddressForm.ErrorText | src/components/checkout/AddressForm.tsx:63 | The error message when it is non-empty, and "Ein Fehler ist aufgetreten." otherwise. |
| CheckoutAddressForm.Submit | src/components/checkout/AddressForm.tsx:26-67 | The e-mail update goes first. The address update is sent only after it succeeds. Success returns the second call's cart; a failure of either call shows `ErrorText` of that call's message. |
| CheckoutAddressForm.BillingIsShipping | src/components/checkout/AddressForm.tsx:54-57 | Every address update sends the same address as shipping and billing address. |
| CheckoutAddressForm.AddressForm.constructor | src/components/checkout/AddressForm.tsx:12-24 | The form starts at `InitialFields`, not loading and with no error. |
| CheckoutAddressForm.AddressForm.Input | src/components/checkout/AddressForm.tsx:81-170 | An input event sets that field (the country in lower case). |
| CheckoutAddressForm.AddressForm.HandleSubmit | src/components/checkout/AddressForm.tsx:26-67 | The requests, the returned cart and the error are those of `Submit`, and loading ends. |
| ShippingOptions.PreSelection | src/components/checkout/ShippingOptions.tsx:34-36 | The cart's first shipping method's option id is preselected exactly when it is non-empty. |
| ShippingOptions.Submit | src/components/checkout/ShippingOptions.tsx:47-60 | A request with the selected option is sent exactly when an option is selected, and the cart is updated exactly when that request succeeds. |
| ShippingOptions.Render | src/components/checkout/ShippingOptions.tsx:62-123 | A spinner while loading, the warning for no options, otherwise the list with the selected option highlighted. Continue is disabled while submitting or with no selection. |
| ShippingOptions.EnabledButtonSubmits | src/components/checkout/ShippingOptions.tsx:117-119 | An enabled continue button always sends a request, and a click that sends nothing comes from a disabled button. |
| ShippingOptions.ShippingStep.constructor | src/components/checkout/ShippingOptions.tsx:15-18 | The step starts loading, with no options and no selection. |
| ShippingOptions.ShippingStep.FetchOptions | src/components/checkout/ShippingOptions.tsx:20-45 | Without a cart id nothing happens and the spinner stays. Otherwise the fetched options replace the list, the cart's option is preselected, and loading ends even on failure. |
| ShippingOptions.ShippingStep.Select | src/components/checkout/ShippingOptions.tsx:83 | A click selects that option. |
| ShippingOptions.ShippingStep.HandleSubmit | src/components/checkout/ShippingOptions.tsx:47-60 | The request and the result are those of `Submit`, and submitting ends. |
| PaymentForm.ToSessions | src/components/checkout/PaymentForm.tsx:31-35 | One entry per provider, in order, with id and provider id both equal to the provider's id. |
| PaymentForm.AutoSelect | src/components/checkout/PaymentForm.tsx:38-40 | A provider is preselected exactly when there is only one. |
| PaymentForm.AutoSelectIsListed | src/components/checkout/PaymentForm.tsx:31-40 | The preselected provider is the provider of the single listed entry. |
| PaymentForm.ProviderLabel | src/components/checkout/PaymentForm.tsx:119 | The system provider is shown as "Vorkasse / Rechnung"; any other provider shows its id. |
| PaymentForm.Render | src/components/checkout/PaymentForm.tsx:83-139 | A spinner while loading. Otherwise: exactly the set error when there is one, one label per entry, the warning exactly for an empty list, and the order button disabled while processing or with no selection. |
| PaymentForm.PlaceOrder | src/components/checkout/PaymentForm.tsx:52-81 | The session is opened before the cart is completed. An order is placed exactly when both calls succeed and the response is of type "order". A failed call shows `ErrorText` of its message, and a non-order response the "Not an order type" text. |
| PaymentForm.ErrorText | src/components/checkout/PaymentForm.tsx:77 | The error message when it is non-empty, and "Fehler beim Abschluss der Bestellung." otherwise. |
| PaymentForm.PaymentFormState.constructor | src/components/checkout/PaymentForm.tsx:15-20 | The step starts loading, with no entries, no selection and no error. |
| PaymentForm.PaymentFormState.FetchProviders | src/components/checkout/PaymentForm.tsx:22-50 | Without a region nothing happens and the spinner stays. Otherwise the entries and the auto-selection are set, or the load error is set, and loading ends. |
| PaymentForm.PaymentFormState.Select | src/components/checkout/PaymentForm.tsx:106 | A click selects that provider. |
| PaymentForm.PaymentFormState.HandlePlaceOrder | src/components/checkout/PaymentForm.tsx:52-81 | Without a selection nothing happens. Otherwise the calls, the order and the error are those of `PlaceOrder`, and processing ends. |
| CheckoutClient.AutoAdvance | src/components/CheckoutClient.tsx:31-38 | A loaded cart with an address and an e-mail goes to payment when it has a shipping method, else to shipping; without both, the step stays. |
| CheckoutClient.Next | src/components/CheckoutClient.tsx:55-72 | An event can occur only in the step whose form raises it (lines 104-120). |
| CheckoutClient.Run | src/components/CheckoutClient.tsx:55-120 | A run of no events stays put, and a run of n events moves at most n steps either way. |
| CheckoutClient.MovesAreAdjacent | src/components/CheckoutClient.tsx:55-120 | Every move goes to a neighbouring step: forward exactly on a save, back exactly on a back button, and never from address to payment. |
| CheckoutClient.PaymentNeedsShipping | src/components/CheckoutClient.tsx:55-120 | Any run of events that reaches payment from an earlier step contains a saved shipping method, and a saved address when it starts at the address. |
| CheckoutClient.Render | src/components/CheckoutClient.tsx:74-120 | A spinner while loading. The empty-cart notice for a missing or empty cart, whatever the step. Otherwise the current step's form. |
| CheckoutClient.AfterOrder | src/components/CheckoutClient.tsx:67-72 | After an order no "cart_id" is stored and every other key is unchanged; a context without an id keeps its state apart from the removed entry. |
| CheckoutClient.OrderSuccessKeepsCart | src/components/CheckoutClient.tsx:67-72 | As written, an order success leaves a context holding an id with that id and the refetched cart, and out of step with storage. See Findings. |
| CheckoutClient.ClearedAfterOrder | src/components/CheckoutClient.tsx:67-72 | The context as the handler evidently intends it after an order: no cart, no id, no stored id, other keys unchanged, consistent. |
| CheckoutClient.ClearedStaysClear | src/context/CartContext.tsx:46-57 | A cleared context stays cleared under later refreshes. |
| CheckoutClient.CheckoutPage.constructor | src/components/CheckoutClient.tsx:15-18 | The page starts loading at the address step, with no cart. |
| CheckoutClient.CheckoutPage.Load | src/components/CheckoutClient.tsx:22-53 | With no cart id, loading ends at once. Otherwise that id is fetched; on success the cart is set and the step auto-advances; loading ends. |
| CheckoutClient.CheckoutPage.HandleAddressSuccess | src/components/CheckoutClient.tsx:55-59 | The cart is replaced, the step becomes shipping, and the context is refreshed. From the step that shows the handler, this is the move `Next` makes for `AddressSaved`. |
| CheckoutClient.CheckoutPage.HandleShippingSuccess | src/components/CheckoutClient.tsx:61-65 | The cart is replaced, the step becomes payment, and the context is refreshed. From the step that shows the handler, this is the move `Next` makes for `ShippingSaved`. |
| CheckoutClient.CheckoutPage.BackToAddress | src/components/CheckoutClient.tsx:111 | The back button of the shipping step returns to the address. From the step that shows the handler, this is the move `Next` makes for `BackFromShipping`. |
| CheckoutClient.CheckoutPage.BackToShipping | src/components/CheckoutClient.tsx:118 | The back button of the payment step returns to shipping. From the step that shows the handler, this is the move `Next` makes for `BackFromPayment`. |
| CheckoutClient.CheckoutPage.HandleOrderSuccess | src/components/CheckoutClient.tsx:67-72 | The stored id is removed, the context is refreshed (`AfterOrder`), and the route is "/order/confirmed/" followed by the order id. |
| AccountAddressForm.InitialForm | src/components/account/AddressForm.tsx:31-42 | Every field comes from the address, with "" for what is missing. First and last name fall back to the customer's name, then "". The country defaults to "de". The metadata holds exactly "tax_id", from the address's tax id or "". |
| AccountAddressForm.HandleChange | src/components/account/AddressForm.tsx:47-53 | The tax id updates only metadata["tax_id"]; every other input sets only its own field. |
| AccountAddressForm.ChangeTouchesOnePlace | src/components/account/AddressForm.tsx:47-53 | A typed tax id is read back from the metadata and the other metadata entries are kept. Every other field leaves the metadata untouched. Repeating a change is a no-op. |
| AccountAddressForm.Target | src/components/account/AddressForm.tsx:61-67 | An address with an id is updated at ".../addresses/" followed by the id; one without is created at ".../addresses". Both use POST. |
| AccountAddressForm.TargetUrls | src/components/account/AddressForm.tsx:61-64 | Every URL starts at the backend, and the update URL extends the create URL by "/" and the id. |
| AccountAddressForm.SaveError | src/components/account/AddressForm.tsx:76-84 | No error exactly on success. A rejection shows the server's message or "Adresse konnte nicht gespeichert werden."; a network failure shows its message or "Fehler beim Speichern.". |
| AccountAddressForm.AddressEditor.constructor | src/components/account/AddressForm.tsx:31-45 | The form starts at `InitialForm`, not saving and with no error. |
| AccountAddressForm.AddressEditor.Change | src/components/account/AddressForm.tsx:47-53 | An input event applies `HandleChange`. |
| AccountAddressForm.AddressEditor.HandleSubmit | src/components/account/AddressForm.tsx:55-88 | The form is sent to `Target`. `onSaved` is called exactly on success, the error is `SaveError`, and saving ends. |

## Left out

- HTTP, the SDK, the `fetch` headers, cookies and the publishable key are left out. Each call's answer is a parameter, and a request the code sends is returned as a value.
- Price formatting with `toLocaleString` (floating-point division by 100, the "de-DE" currency format) is left out; amounts stay integer cents.
- Animations, framer-motion's scroll transforms, `scrollTo`, images and CSS classes are not modelled. Neither are the Enter-key blur of the quantity input and the router itself; a navigation is returned as the route string.
- The concurrency of asynchronous handlers is not modelled. Each handler runs to completion against the responses it is given. Interleavings and stale closures (a `refreshCart` that captured an old `cartId`) are not modelled.
- AddToCart.AddToCartButton.HandleAddToCart: the two-second `setTimeout` that resets `isSuccess` is left out; the success flag stays set.
- QuantitySelector.ParseDigits: `parseInt` is modelled only on the digit strings the keystroke filter lets through. That filter makes these the only texts that reach it.
- CheckoutAddressForm.SetField: the browser's `maxLength={2}` on the country input is not modelled; the model accepts a typed country code of any length.
- CheckoutAddressForm.ToLower: `toLowerCase` is modelled on ASCII letters only; other characters are kept.
- Navbar.ShowScrollTop: `window.scrollY` is modelled as an integer.
- JavaScript numbers (quantities, the quantity bounds, prices in cents, gallery and step indices) are modelled as unbounded integers; floating-point rounding and fractional values are not modelled.
- AccountAddressForm.HandleChange: the field name is the enumeration of the form's inputs rather than an arbitrary string, so a key outside the form is not modelled.
- PaymentForm.PlaceOrder: the completion response is reduced to an order or a non-order. A response that throws later (for instance, a failing `onSuccess` callback) is not modelled.
- ShippingOptions.ShippingStep.FetchOptions, PaymentForm.PaymentFormState.FetchProviders, CheckoutClient.CheckoutPage.Load: the re-run of the effect when its dependency changes is modelled as another call of the method.
- Console logging is not modelled.
- The account, login, registration and product pages, the account context and the backend workflows are not part of this model.

## Findings

| source | as written | input that shows it | evidently intended | confidence | as-written member | corrected member |
|---|---|---|---|---|---|---|
| src/components/CheckoutClient.tsx:67-72 | After an order, the stored "cart_id" is removed, then `refreshCart` runs. That function refetches the id the context still holds and never reads storage. | A context holding cart id "c1" whose cart the server still returns: the context keeps "c1" and the cart, while storage has no id. | The global cart state is cleared after an order: no cart, no id, no stored id. | medium; not executed | CheckoutClient.OrderSuccessKeepsCart | CheckoutClient.ClearedAfterOrder |
