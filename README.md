# visit-frontend: a Dafny model of the admin console's rules

The visit admin console is a React single-page application over a REST
backend. It registers merchants, issues QR business cards and shows scan
statistics. This project models the parts of it that hold behaviour rather
than presentation, and proves what they promise:

- the two client-side stores. The merchant store (list, pagination, filters,
  loading and error fields) and the auth store (session: user, token,
  isAuthenticated) are classes whose methods update their fields. Each
  server reply is a parameter: a success value, or a failure carrying the
  server's optional message;
- the HTTP client: base-URL choice, the request interceptor (bearer header,
  Content-Type removal for multipart bodies) and the response interceptor
  (status code to message, and session teardown on 401);
- request building in the merchant service: filters become an ordered
  query, and form fields become multipart entries;
- the statistics page's group-by-count folds (scans per day, top merchants
  per city), which are imperative loops proved equal to a recursive
  specification;
- the rules of the public card page, the card visualiser, the merchant form,
  the cards page and the merchants list: contact targets, WhatsApp number
  formatting, day names, payment providers, colour fallbacks, the phone
  pattern, the logo checks, card status and the filters each fetch sends.

Modules: `Wrappers` (Option/Result/Outcome), `Types` (the API records),
`JsValues` (JavaScript truthiness, `||`, integer `toString` and its
inverse), `Storage` (localStorage), `Api`, `MerchantService`,
`MerchantStore`, `AuthStore`, `Statistics`, `PublicCard`, `CardVisualizer`,
`MerchantForm`, `CardsPage` and `MerchantsList`. The last ten each model
one source file; the first four are shared support that several of them import.
Timestamps and numbers are integers. Date formatting is an abstract key
function and "now" is an integer parameter. `JSON.parse` and
`JSON.stringify` are function parameters.

## Model

| member | source | states |
|---|---|---|
| Api.GetApiUrl | src/services/api.ts:5-12 | The URL is the environment override when that is non-empty, else the production or development default by the PROD flag; it is never empty |
| Api.InterceptedHeaders | src/services/api.ts:26-38 | Authorization is "Bearer " + token exactly when a non-empty token is stored, and is left alone otherwise; Content-Type is removed exactly for form bodies; every other header is kept and no other is added |
| Api.RequestConfig.Intercept | src/services/api.ts:26-38 | The request's headers become InterceptedHeaders of the old headers, the stored token and whether the body is form data |
| Api.ErrorNotice | src/services/api.ts:51-77 | 401, 403 and 500 get their fixed messages; 404 and other statuses use the server message when non-empty, else "Ressource non trouvée" or the generic message; no response gives "Impossible de contacter le serveur"; a setup failure gives the generic message; the message is never empty |
| Api.Rejection | src/hooks/authStore.ts:39-41 | What a store's `catch` reads of a rejected request: the server's message for a status failure, and nothing when no response came back or the request was never sent |
| Api.HandleResponse | src/services/api.ts:46-81 | A success passes through unchanged with no notice; every failure is still rejected with its notice; only a 401 removes the token and user entries and redirects to /login, and storage is otherwise untouched |
| Storage.BrowserStorage.GetItem | src/services/api.ts:28 | A stored key yields its value and a missing key yields nothing |
| Storage.BrowserStorage.SetItem | src/services/auth.service.ts:10-12 | The entry for the key becomes the value and no other entry changes |
| Storage.BrowserStorage.RemoveItem | src/services/auth.service.ts:53-56 | The key's entry is gone and no other entry changes |
| MerchantService.QueryLookup | src/services/merchant.service.ts:10-14 | page, limit, search and city are in the query exactly when truthy (0 and "" are dropped), with their string forms; isActive is there whenever it is given, false included |
| MerchantService.QueryOrder | src/services/merchant.service.ts:10-14 | The parameters appear in the order page, limit, search, isActive, city, each at most once |
| MerchantService.AppendQueryParams | src/services/merchant.service.ts:8-14 | The appended parameters are exactly QueryParams of the filters |
| MerchantService.QueryRoundTrip | src/services/merchant.service.ts:8-14 | Reading the query back gives the filters with their falsy fields made absent: no truthy filter is lost or altered |
| MerchantService.QueryIgnoresFalsy | src/services/merchant.service.ts:10-14 | Falsy filters do not change the query |
| MerchantService.FormFields | src/services/merchant.service.ts:36-40 | The entries are text entries, no more than there are fields |
| MerchantService.BuildFormData | src/services/merchant.service.ts:34-44 | The body is the defined fields' text entries in entry order, then the logo; the logo is last and there is a file entry exactly when a logo is given |
| MerchantService.FormFieldsExactly | src/services/merchant.service.ts:36-40 | A text entry (key, text) is sent exactly when some field with that key is neither undefined nor null and its string form is text |
| MerchantService.FormFieldsCount | src/services/merchant.service.ts:36-40 | One entry per defined field |
| MerchantService.FormFieldsAppend | src/services/merchant.service.ts:36-40 | Serialising two runs of fields is serialising each in turn |
| MerchantService.GetAllRequest | src/services/merchant.service.ts:7-18 | GET /merchants with the query QueryParams(filters) |
| MerchantService.CreateRequest | src/services/merchant.service.ts:33-46 | POST /merchants with the multipart body |
| MerchantService.UpdateRequest | src/services/merchant.service.ts:52-65 | PUT /merchants/{id} with the same multipart body as create |
| MerchantService.GetAllResult | src/services/merchant.service.ts:20-23 | The result's data and pagination are the server's, unchanged |
| MerchantStore.ReplaceById | src/hooks/merchantStore.ts:105 | Same length; every merchant with the id becomes the server's merchant and every other is kept in place |
| MerchantStore.RemoveById | src/hooks/merchantStore.ts:125 | A merchant stays exactly when its id differs; the list is unchanged when the id is absent |
| MerchantStore.RemoveByIdAppend | src/hooks/merchantStore.ts:125 | Removal works run by run, so the remaining merchants keep their order |
| MerchantStore.RemoveAfterReplace | src/hooks/merchantStore.ts:99-136 | Deleting after an update leaves the same list as deleting straight away |
| MerchantStore.UpdatedCurrent | src/hooks/merchantStore.ts:106-107 | The current merchant is replaced only when its id matches |
| MerchantStore.Failed | src/hooks/merchantStore.ts:110-114 | On failure, error is the server message or the action's default text, loading ends, and nothing else changes |
| MerchantStore.MerchantStoreState.constructor | src/hooks/merchantStore.ts:28-37 | The initial store: empty list, no current merchant, total 0, page 1, limit 10, no filters |
| MerchantStore.MerchantStoreState.BeginRequest | src/hooks/merchantStore.ts:100 | Every asynchronous action first sets isLoading and clears error |
| MerchantStore.MerchantStoreState.EndWithError | src/hooks/merchantStore.ts:54-58 | A failed action ends loading and sets error to the server message or the fallback, changing nothing else |
| MerchantStore.MerchantStoreState.FetchMerchants | src/hooks/merchantStore.ts:39-61 | Sends the given filters, or the stored ones when none are given; on success stores the page, total, page number, limit, page count and those filters; on failure only error and loading change, and the failure is returned |
| MerchantStore.MerchantStoreState.FetchMerchantById | src/hooks/merchantStore.ts:63-78 | On success the fetched merchant becomes current; on failure only error and loading change |
| MerchantStore.MerchantStoreState.CreateMerchant | src/hooks/merchantStore.ts:80-97 | POSTs the form; on success the new merchant is at index 0 before the old list and total grows by 1; on failure the list is kept |
| MerchantStore.MerchantStoreState.UpdateMerchant | src/hooks/merchantStore.ts:99-117 | On success every copy with the id is replaced (ReplaceById) and the current merchant only if its id matches; on failure only error and loading change |
| MerchantStore.MerchantStoreState.DeleteMerchant | src/hooks/merchantStore.ts:119-136 | On success the merchants with the id go and total drops by 1 whether or not one matched |
| MerchantStore.MerchantStoreState.ToggleMerchantStatus | src/hooks/merchantStore.ts:138-156 | Like an update, with the merchant the server returns |
| MerchantStore.MerchantStoreState.SetFilters | src/hooks/merchantStore.ts:158-160 | Only filters changes |
| MerchantStore.MerchantStoreState.ClearError | src/hooks/merchantStore.ts:162 | Only error changes |
| MerchantStore.MerchantStoreState.SetCurrentMerchant | src/hooks/merchantStore.ts:164-166 | Only currentMerchant changes |
| AuthStore.SignedIn | src/hooks/authStore.ts:32-38 | After a successful login or register the user and token are the reply's, the session is authenticated, loading has ended and error is cleared |
| AuthStore.Rejected | src/hooks/authStore.ts:39-43 | A failed login, register or update keeps user, token and isAuthenticated and sets the error text |
| AuthStore.SignedOut | src/hooks/authStore.ts:68-76 | Logout clears user, token, isAuthenticated and error and leaves isLoading |
| AuthStore.Loaded | src/hooks/authStore.ts:78-96 | The state changes only when both storage entries are non-empty and the user text parses; then user and token are loaded and the session is authenticated |
| AuthStore.AuthStoreState.SignIn | src/services/auth.service.ts:6-15 | A successful sign-in stores the token and the serialised user, overwriting only those two entries, and moves the store to SignedIn |
| AuthStore.AuthStoreState.Login | src/hooks/authStore.ts:28-46 | The reply first passes the response interceptor. On success the state is SignedIn, storage holds the token and the serialised user, and there is no notice or redirect. On failure the state is Rejected with the server message or "Erreur de connexion", the failure is returned and its notice shown; a 401 also removes the stored token and user and redirects to /login, any other failure leaves storage alone |
| AuthStore.AuthStoreState.Register | src/hooks/authStore.ts:48-66 | As Login, with "Erreur d'inscription" as fallback, including the 401 teardown |
| AuthStore.AuthStoreState.Logout | src/hooks/authStore.ts:68-76 | The state is SignedOut and both storage entries are removed |
| AuthStore.AuthStoreState.LoadUser | src/hooks/authStore.ts:78-96 | The state is Loaded from the stored entries; a parse failure removes both entries and leaves the state |
| AuthStore.AuthStoreState.UpdateUser | src/hooks/authStore.ts:98-114 | On success only the user changes (token and isAuthenticated stay); on failure the state is Rejected |
| AuthStore.AuthStoreState.ClearError | src/hooks/authStore.ts:116 | Only error changes |
| AuthStore.RunKeepsSession | src/hooks/authStore.ts:21-116 | Any sequence of actions keeps "isAuthenticated exactly when there is a token" |
| AuthStore.ReachableStatesConsistent | src/hooks/authStore.ts:21-27 | Every state reachable from the initial one is consistent |
| Statistics.CountByKey | src/pages/Statisticspage.tsx:108-117 | The fold with its find loop computes exactly GroupCounts of the keys |
| Statistics.GroupKeysDistinct | src/pages/Statisticspage.tsx:110-115 | The group keys are distinct |
| Statistics.GroupKeysAreKeys | src/pages/Statisticspage.tsx:110-115 | A key has a group exactly when it occurs in the input |
| Statistics.GroupCountsOrdered | src/pages/Statisticspage.tsx:110-115 | Groups appear in the order of their key's first occurrence |
| Statistics.GroupCountsAreOccurrences | src/pages/Statisticspage.tsx:111-115 | Each count is the number of occurrences of its key, so at least 1 |
| Statistics.GroupCountsTotal | src/pages/Statisticspage.tsx:106-117 | The counts sum to the number of keys |
| Statistics.LastN | src/pages/Statisticspage.tsx:118 | slice(-n) keeps the last min(n, length) elements for n >= 1, and, as slice(-0) does, the whole sequence for n = 0 |
| Statistics.ScansByDay | src/pages/Statisticspage.tsx:106-118 | The last 7 day groups of the recent scans, at most 7 entries, empty when there are no stats |
| Statistics.ScansByDayConserves | src/pages/Statisticspage.tsx:106-117 | Before slicing, the day counts sum to the number of scans |
| Statistics.CityData | src/pages/Statisticspage.tsx:121-130 | The city fold computes GroupCounts of the cities |
| Statistics.CityDataConserves | src/pages/Statisticspage.tsx:121-130 | City keys are distinct and the counts sum to the number of top merchants |
| Statistics.Position | src/pages/Statisticspage.tsx:63-66 | Rows 0-2 show the medal at that index, later rows show index + 1 |
| Statistics.PositionInjective | src/pages/Statisticspage.tsx:63-66 | Different rows show different positions |
| Statistics.TagColour | src/pages/Statisticspage.tsx:88-92 | purple exactly for ENTERPRISE, cyan exactly for PREMIUM, blue for anything else |
| Statistics.CompareByScans | src/pages/Statisticspage.tsx:101 | The sorter's sign orders rows by totalScans |
| PublicCard.StripPlus | src/pages/PublicCard.tsx:108 | Removes every '+' and keeps every other character |
| PublicCard.StripPlusIdempotent | src/pages/PublicCard.tsx:108 | Stripping twice is stripping once |
| PublicCard.FormatWhatsApp | src/pages/PublicCard.tsx:108 | A number starting with '+' loses every '+'; any other gets the 221 prefix |
| PublicCard.WhatsAppNumber | src/pages/PublicCard.tsx:106 | The WhatsApp number when non-empty, else the phone number |
| PublicCard.WhatsAppTarget | src/pages/PublicCard.tsx:105-111 | Opens wa.me with the formatted number exactly when the chosen number is non-empty |
| PublicCard.CallTarget | src/pages/PublicCard.tsx:99-103 | Dials the phone number exactly when it is non-empty |
| PublicCard.EmailTarget | src/pages/PublicCard.tsx:113-117 | Opens mailto exactly when the email is non-empty |
| PublicCard.MapsTarget | src/pages/PublicCard.tsx:119-133 | Coordinates only when latitude and longitude are both truthy (0 counts as absent), else a search for "address, city" when the address is non-empty, else nothing |
| PublicCard.DayName | src/pages/PublicCard.tsx:150-153 | 0..6 map to Dim, Lun, Mar, Mer, Jeu, Ven, Sam; other values have no name |
| PublicCard.DayNamesDistinct | src/pages/PublicCard.tsx:150-153 | Different days have different names |
| PublicCard.HoursLabel | src/pages/PublicCard.tsx:624 | "Fermé" when closed, else "open - close" |
| PublicCard.ProviderOf | src/pages/PublicCard.tsx:29-70 | Only WAVE, ORANGE_MONEY and FREE_MONEY have a provider; USSD is *144# for Wave and Orange Money and *400# for Free Money |
| PublicCard.PaymentRows | src/pages/PublicCard.tsx:640-642 | Only mobile-money methods of the merchant render, each with its provider, and there are no more rows than methods; bank card and cash render nothing |
| PublicCard.PaymentRowsComplete | src/pages/PublicCard.tsx:640-642 | Every Wave, Orange Money or Free Money method of the merchant gets a row |
| PublicCard.PrimaryColour | src/pages/PublicCard.tsx:203 | The merchant's primary colour when non-empty, else #667eea |
| PublicCard.SecondaryColour | src/pages/PublicCard.tsx:204 | The merchant's secondary colour when non-empty, else #764ba2 |
| CardVisualizer.ResolveColour | src/components/MemberCardVisualizer.tsx:50-51 | The prop colour, else the merchant's, else the default |
| CardVisualizer.SameColoursAsPublicPage | src/components/MemberCardVisualizer.tsx:50-51 | Without props the card uses the public page's colours |
| CardVisualizer.ResolveGradient | src/components/MemberCardVisualizer.tsx:52 | The prop when defined, else the merchant's value when defined, else true |
| CardVisualizer.HeaderBackground | src/components/MemberCardVisualizer.tsx:177-179 | A gradient from primary to secondary exactly when useGradient holds, else solid primary |
| CardVisualizer.StylesGrowWithSize | src/components/MemberCardVisualizer.tsx:54-76 | Each size's dimensions (QR 80/100/140) grow strictly from small to large, and the QR fits inside the padded card |
| CardVisualizer.HandleContact | src/components/MemberCardVisualizer.tsx:118-156 | The callback runs last whenever one is given, whether or not the contact value exists; navigation happens exactly when there is a target |
| CardVisualizer.CollapseSpaces | src/components/MemberCardVisualizer.tsx:100 | The result has no whitespace and is no longer than the input |
| CardVisualizer.CollapseSplit | src/components/MemberCardVisualizer.tsx:100 | Collapsing splits at a boundary that is not inside a whitespace run |
| CardVisualizer.CollapseRun | src/components/MemberCardVisualizer.tsx:100 | A whole run of whitespace between two other characters becomes exactly one '_', the text on either side collapsed on its own |
| CardVisualizer.CollapseKeepsText | src/components/MemberCardVisualizer.tsx:100 | Every character that is neither whitespace nor '_' survives, in order |
| CardVisualizer.CollapseKeepsPlainText | src/components/MemberCardVisualizer.tsx:100 | A name without whitespace is unchanged |
| CardVisualizer.CollapseIdempotent | src/components/MemberCardVisualizer.tsx:100 | Collapsing twice is collapsing once |
| CardVisualizer.PdfFileName | src/components/MemberCardVisualizer.tsx:100 | The file name ends in "_carte.pdf" and has no whitespace |
| CardVisualizer.PdfFileNameKeepsText | src/components/MemberCardVisualizer.tsx:100 | Leaving out whitespace and '_', the file name is the business name's text followed by "carte.pdf" |
| CardVisualizer.PdfFileNameRun | src/components/MemberCardVisualizer.tsx:100 | A whitespace run inside the business name turns into one '_' in the file name |
| CardVisualizer.PdfFileNameExample | src/components/MemberCardVisualizer.tsx:100 | "Chez  Awa" (two spaces) gives "Chez_Awa_carte.pdf" |
| MerchantForm.PhoneRule | src/pages/Merchantform.tsx:188-194 | The pattern accepts exactly nine ASCII digits, optionally after "+221" |
| MerchantForm.DigitRunEnds | src/pages/Merchantform.tsx:191 | [0-9]{n} matches exactly n digits |
| MerchantForm.PrefixEnds | src/pages/Merchantform.tsx:191 | (\+221)? matches "+221" at the start, or nothing |
| MerchantForm.PhoneLength | src/pages/Merchantform.tsx:188-194 | Accepted numbers have 9 or 13 characters |
| MerchantForm.PhoneForms | src/pages/Merchantform.tsx:188-194 | Every 9-digit number is accepted, with or without "+221" |
| MerchantForm.AcceptedPhoneWhatsApp | src/pages/Merchantform.tsx:188-194 | Both accepted forms of a number give the public page's WhatsApp link the same target, "221" and the nine digits |
| MerchantForm.BeforeUpload | src/pages/Merchantform.tsx:126-138 | Never starts antd's upload; reports no error exactly for an image under 2 MB; a non-image is reported as such before size is looked at |
| MerchantForm.KeepLast | src/pages/Merchantform.tsx:117 | slice(-1) keeps only the last entry, and nothing of an empty list |
| MerchantForm.UploadChange | src/pages/Merchantform.tsx:116-124 | The list keeps at most its last entry, and the changed file becomes the logo |
| MerchantForm.PickFile | src/pages/Merchantform.tsx:116-138 | Picking a file runs the check and still passes the file to the change handler |
| MerchantForm.PickFileIgnoresCheck | src/pages/Merchantform.tsx:116-138 | As written, every picked file becomes the logo |
| MerchantForm.RejectedFileBecomesLogo | src/pages/Merchantform.tsx:116-138 | A PDF is reported as not an image and still becomes the logo |
| MerchantForm.PickCheckedFile | src/pages/Merchantform.tsx:126-138 | Corrected pick: a file that fails the check changes nothing |
| MerchantForm.CheckedPicksKeepLogoChecked | src/pages/Merchantform.tsx:126-138 | With the corrected pick, every logo kept for submission is an image under 2 MB |
| MerchantForm.SubmittedData | src/pages/Merchantform.tsx:89-101 | The form values, colour objects replaced by their hex strings in place; a missing colour is appended as undefined |
| MerchantForm.SubmittedFields | src/pages/Merchantform.tsx:89-101 | The appended undefined colours add nothing to the multipart body |
| MerchantForm.PickedColourSent | src/pages/Merchantform.tsx:89-101 | A colour chosen with the picker is sent as its hex string |
| MerchantForm.Title | src/pages/Merchantform.tsx:152 | The edit title appears exactly in edit mode |
| MerchantForm.OnFinish | src/pages/Merchantform.tsx:86-114 | Updates the route's merchant in edit mode (route id present) and creates one otherwise; on success announces it and returns to /merchants; on failure reports the error and stays |
| CardsPage.StatusOf | src/pages/CardsPage.tsx:161-174 | "Non créée" without a card, "Expirée" when now is after expiresAt whatever isActive says, else Active or Inactive by isActive |
| CardsPage.ExpiredStaysExpired | src/pages/CardsPage.tsx:165-168 | An expired card stays expired at every later time |
| CardsPage.StatusStableUntilExpiry | src/pages/CardsPage.tsx:165-173 | Up to expiry the status does not depend on the time |
| CardsPage.TypeCellOf | src/pages/CardsPage.tsx:151-156 | The card's type, or "Aucune carte" exactly when there is no card |
| CardsPage.ExpirationCell | src/pages/CardsPage.tsx:179-183 | '-' exactly when there is no card, else the card's expiry date |
| CardsPage.QrCellOf | src/pages/CardsPage.tsx:187-198 | The card's QR image, opening that card's QR modal; '-' exactly when there is no card |
| CardsPage.Actions | src/pages/CardsPage.tsx:205-266 | A row with a card gets exactly the six card actions (view, QR, print, regenerate, renew, delete) aimed at that card and merchant; a row without one gets only "Créer une carte" for that merchant |
| CardsPage.CallOf | src/pages/CardsPage.tsx:83-124 | Only create, regenerate, renew and delete call the card service |
| CardsPage.CallParameters | src/pages/CardsPage.tsx:83-108 | Created cards are BASIC and renewals ask for 12 months |
| CardsPage.LoadQuery | src/pages/CardsPage.tsx:53 | Loading the page sends only limit=100 |
| CardsPage.Respond | src/pages/CardsPage.tsx:83-124 | For a card service call, success reports success and reloads the list; a failure reports an error and does not reload |
| CardsPage.Loaded | src/pages/CardsPage.tsx:50-60 | Loading ends; the list becomes the reply's merchants with no message, or stays on failure and "Erreur lors du chargement" is shown exactly then; nothing else changes |
| CardsPage.Click | src/pages/CardsPage.tsx:62-70 | QR selects the card and opens its modal, Imprimer selects the merchant and opens the print modal, other actions leave the page state |
| CardsPage.PrintContent | src/pages/CardsPage.tsx:337 | The printable card is shown exactly when the selected merchant has a card |
| CardsPage.PrintShowsCard | src/pages/CardsPage.tsx:330-340 | Imprimer always opens the modal on that merchant's card |
| CardsPage.QrModalTitle | src/pages/CardsPage.tsx:291 | "QR Code - " followed by the selected card's merchant name, or by "undefined" when there is no selected card or it carries no merchant |
| CardsPage.QrFileName | src/pages/CardsPage.tsx:77 | "qr-", the selected card's merchant name ("undefined" without one), then ".png" |
| CardsPage.SelectedName | src/pages/CardsPage.tsx:291 | The selected card's merchant name, or "undefined" when the card carries none |
| MerchantsList.SearchFilters | src/pages/Merchantslist.tsx:53-60 | A search asks for page 1 at the current limit, with the search text and status |
| MerchantsList.TableChangeFilters | src/pages/Merchantslist.tsx:62-69 | A table change asks for the table's page and page size, with the search text and status |
| MerchantsList.InitialQuery | src/pages/Merchantslist.tsx:49-51 | The first fetch sends page=1 and limit=10 only |
| MerchantsList.SearchQuery | src/pages/Merchantslist.tsx:53-60 | A search query has page "1"; the search text only when non-empty; the status exactly when chosen; never a city |
| MerchantsList.TableChangeKeepsSearch | src/pages/Merchantslist.tsx:53-69 | Paging keeps the search and status parameters of the search |
| MerchantsList.SearchRoundTrip | src/pages/Merchantslist.tsx:53-60 | The server reads a search back as the same filters |
| MerchantStore.Listed | src/hooks/merchantStore.ts:44-52 | After a successful listing the store holds the reply's merchants and pagination and the filters asked with, loading is over, there is no error, and the current merchant is kept |
| MerchantsList.LoadFirstPage | src/pages/Merchantslist.tsx:49-51 | The first fetch sends page 1 of 10. On success the whole store is Listed: the reply's merchants and pagination, those filters, loading over, no error. On failure it is Failed with "Erreur lors du chargement" |
| MerchantsList.HandleSearch | src/pages/Merchantslist.tsx:53-60 | Sends SearchFilters at the store's limit. On success the store is Listed with those filters; on failure it is Failed with "Erreur lors du chargement" |
| MerchantsList.HandleTableChange | src/pages/Merchantslist.tsx:62-69 | Sends TableChangeFilters. On success the store is Listed with those filters; on failure it is Failed with "Erreur lors du chargement" |
| MerchantsList.HandleDelete | src/pages/Merchantslist.tsx:71-78 | On success the merchants with that id are removed, the total drops by one, loading ends with no error, and success is announced. On failure the store is Failed with "Erreur lors de la suppression" and that error is shown |
| MerchantsList.CategoryCell | src/pages/Merchantslist.tsx:121 | The category when non-empty, else '-' |
| MerchantsList.ScansCell | src/pages/Merchantslist.tsx:149 | The scan count, or 0 without counts |
| MerchantsList.CardTag | src/pages/Merchantslist.tsx:126-134 | A green ("success") "Active" tag exactly when the merchant has a card, else a "default" "Aucune" tag |
| MerchantsList.CardTagIgnoresCardState | src/pages/Merchantslist.tsx:126-134 | The tag says "Active" for every card the cards page shows, expired and inactive ones included |
| MerchantsList.StatusTag | src/pages/Merchantslist.tsx:140-144 | A "success" "Actif" tag exactly for an active merchant, else an "error" "Inactif" tag |
| MerchantsList.RowActions | src/pages/Merchantslist.tsx:162-189 | Three actions in the order Voir, Modifier, Supprimer: view /merchants/{id}, edit /merchants/{id}/edit and delete of that merchant |
| MerchantsList.TotalText | src/pages/Merchantslist.tsx:244 | "Total: ", the total, " commerçants"; the number in the middle reads back as the total |
| MerchantsList.AvatarOf | src/pages/Merchantslist.tsx:86-94 | The logo when non-empty, else the name's first character on #667eea |
| JsValues.IntRoundTrip | src/services/merchant.service.ts:10-11 | Reading back an integer's decimal form gives the integer |
| JsValues.OrElse | src/hooks/merchantStore.ts:56 | `a \|\| b` on strings: a when non-empty, else b |

## Left out

- Rendering: JSX, inline styles, animations, icons and the medal emoji glyphs (medals are three distinct constants).
- HTTP transport and the backend. Replies are parameters. Card expiry, QR generation and scan counting happen on the server.
- Asynchrony: each store action is one atomic step. Interleaved requests ("last write wins") are not modelled.
- localStorage is a map; `JSON.parse` and `JSON.stringify` are function parameters.
- The profile rewrite of the stored user in `updateProfile` (src/services/auth.service.ts:36-45) is not modelled; `AuthStore.AuthStoreState.UpdateUser` changes the store only.
- Percent-encoding of query values (`URLSearchParams`, `encodeURIComponent`): a query is an ordered list of key/value pairs.
- Floating point: coordinates and counts are integers. The size check `size / 1024 / 1024 < 2` is modelled as `size < 2097152`, which agrees for whole byte counts.
- Date formatting (`dayjs(...).format`) is an abstract key function, and "now" is an integer parameter.
- Timers, the clipboard, `window.open`, `window.location` and router navigation are returned as values (targets, paths) rather than performed.
- QR rendering, PDF and canvas capture; src/components/PrintableCard.tsx is not part of this model.
- The declarative antd rules (required, email type) of the merchant, login and profile forms. Only the phone pattern is modelled.
- Routing, bootstrap, layout, the dashboard and the merchant details page, and the one-line forwarding wrappers of the auth, card and statistics services.
- The edit form's prefill from the current merchant (src/pages/Merchantform.tsx:50-84), an effect that only copies fields.
- The public card page's loading spinner and not-found view.
- MerchantForm.OnFinish, MerchantForm.SubmittedData and MerchantForm.SubmittedFields require that only the two colour fields hold picker objects, as the form declares (src/pages/Merchantform.tsx:89-95 reads only those two).
- MerchantStore's actions, AuthStore.AuthStoreState.UpdateUser, CardsPage.Respond and CardsPage.Loaded take the reply after the response interceptor has run; its notice and 401 teardown are stated by Api.HandleResponse and not repeated in their contracts.
- Strings are sequences of Unicode characters, not of UTF-16 code units: MerchantsList.AvatarOf takes the name's first character, where `charAt(0)` on a name starting with an emoji would give half a surrogate pair.
- Statistics.ScansByDay takes the day key as a function of the timestamp; the `DD/MM` formatting itself is not modelled.

## Findings

| source | as written | input that shows it | evidently intended | confidence | as-written member | corrected member |
|---|---|---|---|---|---|---|
| src/pages/Merchantform.tsx:116-138 | `beforeUpload` returns `false` for rejected files too. That only stops antd's own upload: the file is still listed and `handleUploadChange` makes it the logo that `onFinish` submits | picking `menu.pdf` (type `application/pdf`) shows "Vous ne pouvez télécharger que des images" and the PDF is still sent as the logo | a rejected file is dropped (`Upload.LIST_IGNORE`), so only images under 2 MB are submitted | not executed; medium (depends on antd's documented `beforeUpload` semantics) | MerchantForm.RejectedFileBecomesLogo | MerchantForm.CheckedPicksKeepLogoChecked |
