# Sheet-metal quotation portal front end — a verified model

This project models the stateful logic of the React front end of a laser
cutting and bending quotation portal.

Customers upload drawing files to open an inquiry. Back office staff price
the inquiry's parts in a quotation form. Orders then move through a fixed
workflow: pending, confirmed, in production, ready for dispatch, dispatched,
delivered.

The model covers these pages and components:

- **Order management page:** the order statuses, the buttons each status
  offers and the state each button requests, the two delivery and dispatch
  forms with their checks, the status filter and counter, and the status
  label.
- **Quotation form:** editing parts one field at a time, adding and removing
  rows, the comma-separated price list and the two bulk-pricing passes, the
  list of materials, the total, and the submit checks.
- **New inquiry page:** the file extension whitelist, the rows built from
  accepted files, updating and deleting rows by id, the submit checks, and
  the API base address.
- **Profile page:**
  - the address shown and the address sent back;
  - splitting the display name into first and last name;
  - the back-office contact lists, with their minimum lengths and save checks;
  - the tabs each role sees.
- **Inquiry detail page:** the status timeline, the CSV export, shortened
  names, the quotation total, the id check, the choice of API, and the
  classification of failed requests.
- **Back-office dashboard:** the 30-second reload cache, the order request
  limited by role, the row transforms, and the Quote and Send buttons.
- **Signed-in header:** the menu per role, the role badge, and logout.
- **The two carousels:** the image slider, with its transition lock and
  autoplay, and the home page's hero slides.

## How the model is organised

The model has one module per source file, plus two shared modules:

- `Strings` holds the JavaScript string and array built-ins the pages rely
  on.
- `Carousel` holds the index arithmetic that both sliders share.

How each kind of source code is modelled:

- A component's state that its handlers update becomes a class whose fields
  the methods change. Examples: `OrderManagementPage`, `QuotationFormState`,
  `NewInquiryPage`, `BackOfficeSettings`, `Dashboard`, `Header`,
  `ImageSlider`, `HomeCarousel`.
- Loops become methods with invariants, proved against a specification
  function. Examples: the price-list parser, the missing-material scan,
  the save checks and the CSV export. Address formatting and the status
  timeline, which build a list by adding one entry at a time, are methods
  too, without loops.
- Pure helpers become functions, with lemmas that relate them to their
  partners. Examples: quoting and unquoting, splitting and joining, update
  then delete.

Other modelling choices:

- Answers from the server, clicks, key presses, timer ticks and the current
  time are method parameters.
- Prices are integers, counted in cents.

## Model

| member | source | states |
|---|---|---|
| OrderManagement.ParseIffName | src/pages/order/OrderManagement.js:219-237 | a status string is recognised as a status exactly when it is that status's name |
| OrderManagement.ActionsFor | src/pages/order/OrderManagement.js:693-763 | View comes first and exactly once. Pending offers Confirm and Set Delivery, confirmed Start Production and Set Delivery, in_production Ready for Dispatch and Update Delivery, dispatched Mark Delivered. Dispatch appears exactly for ready_for_dispatch, Set/Update Delivery exactly for pending, confirmed and in_production. Delivered, cancelled and unknown statuses offer only View |
| OrderManagement.ActionsMoveForward | src/pages/order/OrderManagement.js:700-763 | soundness: every status-changing button of a status requests the next stage of the workflow, never an earlier one |
| OrderManagement.ForwardActionOffered | src/pages/order/OrderManagement.js:700-763 | completeness: every status before delivered offers its way forward, the dispatch form on ready_for_dispatch and a request for the next stage on every other one |
| OrderManagement.DispatchFollowsReady | src/pages/order/OrderManagement.js:748-755 | Dispatch is offered only on ready_for_dispatch, and dispatched is the stage after it |
| OrderManagement.WithStatus | src/pages/order/OrderManagement.js:292 | the orders of one status are exactly the orders with that status, never more than the list |
| OrderManagement.WithStatusAppend | src/pages/order/OrderManagement.js:292 | filtering keeps the original order: filtering a concatenation concatenates the filtered parts |
| OrderManagement.FilteredOrders | src/pages/order/OrderManagement.js:290-292 | 'all' leaves the list unchanged; any other filter keeps exactly the orders with that status |
| OrderManagement.StatusCountIsCount | src/pages/order/OrderManagement.js:295-297 | the count of a status equals a direct count of its orders, and equals the length of the filtered list |
| OrderManagement.TwoCountsFit | src/pages/order/OrderManagement.js:295-297 | the counts of two different statuses together never exceed the number of orders |
| OrderManagement.IndexOf | src/pages/order/OrderManagement.js:680 | the position found is the first occurrence of the character, or the end when it is absent |
| OrderManagement.ReplaceFirst | src/pages/order/OrderManagement.js:680 | only the first occurrence of the character is replaced |
| OrderManagement.StatusLabel | src/pages/order/OrderManagement.js:680 | the label has the status's length and an upper-cased first character |
| OrderManagement.StatusLabelMeaning | src/pages/order/OrderManagement.js:680 | after the first character the label is the status with the first '_' after it turned into a space, every other character kept |
| OrderManagement.ReplaceFirstAfter | src/pages/order/OrderManagement.js:680 | when the prefix holds no '_', replacing the first '_' changes exactly that one character |
| OrderManagement.StatusLabelOfSplit | src/pages/order/OrderManagement.js:680 | a status made of two words split by '_' reads as the capitalised first word, a space, then the rest unchanged; so ready_for_dispatch reads Ready for_dispatch |
| OrderManagement.ButtonRequest | src/pages/order/OrderManagement.js:104-215 | a button sends a status request exactly when its effect is a status change, to that order and that target |
| OrderManagement.OrderManagementPage.constructor | src/pages/order/OrderManagement.js:7-23 | no orders, filter 'all', both forms closed and empty |
| OrderManagement.OrderManagementPage.ReceiveOrders | src/pages/order/OrderManagement.js:25-62 | a successful answer replaces the list; a failed one keeps it |
| OrderManagement.OrderManagementPage.SelectFilter | src/pages/order/OrderManagement.js:488-578 | the filter becomes the chosen status and nothing else changes |
| OrderManagement.OrderManagementPage.OpenDeliveryForm | src/pages/order/OrderManagement.js:65-69 | the order is selected, the delivery time cleared, and the form shown |
| OrderManagement.OrderManagementPage.EnterDeliveryTime | src/pages/order/OrderManagement.js:796 | only the delivery time changes |
| OrderManagement.OrderManagementPage.CloseDeliveryForm | src/pages/order/OrderManagement.js:803 | the delivery form is hidden |
| OrderManagement.OrderManagementPage.SubmitDeliveryTime | src/pages/order/OrderManagement.js:71-101 | an empty time is refused with no request and the form kept; otherwise the delivery request is sent, and the form closes only if it is accepted |
| OrderManagement.OrderManagementPage.OpenDispatchForm | src/pages/order/OrderManagement.js:161-169 | the order is selected, courier, tracking number and estimated delivery are cleared, and the form is shown |
| OrderManagement.OrderManagementPage.EnterCourier | src/pages/order/OrderManagement.js:836 | only the courier field changes |
| OrderManagement.OrderManagementPage.EnterTrackingNumber | src/pages/order/OrderManagement.js:849 | only the tracking number changes |
| OrderManagement.OrderManagementPage.EnterEstimatedDelivery | src/pages/order/OrderManagement.js:862 | only the estimated delivery changes |
| OrderManagement.OrderManagementPage.CloseDispatchForm | src/pages/order/OrderManagement.js:869 | the dispatch form is hidden |
| OrderManagement.OrderManagementPage.SubmitDispatch | src/pages/order/OrderManagement.js:171-198 | a missing courier or tracking number is refused with no request and the form kept open; the estimated delivery is optional; an accepted dispatch closes the form |
| QuotationForm.Edited | src/components/QuotationForm.js:104-119 | only the named field changes. A price or quantity edit makes the total equal unit price times quantity, with unparsable input as 0. A text edit keeps the total |
| QuotationForm.EditKeepsConsistent | src/components/QuotationForm.js:104-119 | an edit of a consistent part leaves it consistent |
| QuotationForm.BlankPart | src/components/QuotationForm.js:121-132 | the added row has quantity 1, unit price 0 and total 0 |
| QuotationForm.SamplePart | src/components/QuotationForm.js:88-99 | the default row of an inquiry without parts is consistent |
| QuotationForm.Unpriced | src/components/QuotationForm.js:77-83 | an inquiry part enters the form with its texts and quantity, unit price 0 and total 0 |
| QuotationForm.InitialParts | src/components/QuotationForm.js:62-102 | the inquiry's parts, unpriced and in order, or the single sample row when there are none; never empty, always consistent |
| QuotationForm.SumAppend | src/components/QuotationForm.js:318-324 | the total of two lists is the sum of their totals |
| QuotationForm.SumUpdate | src/components/QuotationForm.js:104-119 | replacing one part changes the total by the difference of the two parts' totals |
| QuotationForm.SumAdd | src/components/QuotationForm.js:121-132 | adding a row leaves the total unchanged |
| QuotationForm.SumRemove | src/components/QuotationForm.js:312-316 | removing a row lowers the total by that row's total |
| QuotationForm.SumIsAmount | src/components/QuotationForm.js:318-324 | for consistent parts, the sum of totals equals the sum of unit price times quantity |
| QuotationForm.CalculateTotal | src/components/QuotationForm.js:318-324 | manual mode gives the sum of the part totals; upload mode gives the entered amount once the PDF is processed, else 0 |
| QuotationForm.EntryOf | src/components/QuotationForm.js:150-158 | a line yields one entry exactly when it has at least three comma-separated fields |
| QuotationForm.PriceEntries | src/components/QuotationForm.js:146-159 | never more entries than lines |
| QuotationForm.PriceEntriesFromLines | src/components/QuotationForm.js:146-159 | every entry comes from one of the lines |
| QuotationForm.EntryTrimmed | src/components/QuotationForm.js:152-156 | part reference and material come out trimmed |
| QuotationForm.ParsePriceList | src/components/QuotationForm.js:146-159 | the parse of every line after the header, and fewer entries than lines |
| QuotationForm.HeaderOnly | src/components/QuotationForm.js:146-149 | a text of a single line yields no entries |
| QuotationForm.MatchIndex | src/components/QuotationForm.js:181-183 | the first entry matching both part reference and material, or none |
| QuotationForm.Repriced | src/components/QuotationForm.js:185-191 | a repriced part has the new unit price, the matching total, and every other field kept |
| QuotationForm.BulkPriced | src/components/QuotationForm.js:173-197 | same length; matched parts take the first match's price; unmatched parts are unchanged |
| QuotationForm.BulkPricedProperties | src/components/QuotationForm.js:173-197 | bulk pricing keeps parts consistent, and applying it twice equals applying it once |
| QuotationForm.MatchIndexSameKey | src/components/QuotationForm.js:181-183 | the match depends only on part reference and material |
| QuotationForm.LackingMaterials | src/components/QuotationForm.js:210-217 | exactly the materials of parts that have no positive price |
| QuotationForm.Distinct | src/components/QuotationForm.js:210-217 | the same members without repetition |
| QuotationForm.MissingMaterials | src/components/QuotationForm.js:210-217 | each material lacking a price is listed once |
| QuotationForm.CollectMissing | src/components/QuotationForm.js:210-217 | the scan over the parts collects exactly the missing materials, each once |
| QuotationForm.MaterialPriced | src/components/QuotationForm.js:224-236 | same length; parts whose material is priced take that price and the matching total |
| QuotationForm.MaterialPricingComplete | src/components/QuotationForm.js:200-236 | with no material missing, every part takes its material's price and all end consistent |
| QuotationForm.UniqueMaterials | src/components/QuotationForm.js:242-245 | exactly the non-blank materials that occur in some part, without repetition |
| QuotationForm.SubmitCheck | src/components/QuotationForm.js:326-348 | submission passes exactly when manual mode has parts all with a positive unit price, or upload mode has a file and a positive amount. Each refusal is given exactly when its check is the first to fail: no parts, then an unpriced part; no file, then an amount of 0 or less |
| QuotationForm.FailureNoticeOf | src/components/QuotationForm.js:410-421 | a 400 whose message mentions "already exists" gets the duplicate notice; another server message is shown as it is |
| QuotationForm.QuotationFormState.constructor | src/components/QuotationForm.js:6-28 | the form starts empty, in manual mode, with nothing loaded |
| QuotationForm.QuotationFormState.Open | src/components/QuotationForm.js:62-102 | opening on an inquiry resets the mode and the amount and loads its initial parts |
| QuotationForm.QuotationFormState.ChangePart | src/components/QuotationForm.js:104-119 | only the part at the index is replaced, by its edited form; the total moves by the difference |
| QuotationForm.QuotationFormState.AddPart | src/components/QuotationForm.js:121-132 | exactly one blank row is appended and the total is unchanged |
| QuotationForm.QuotationFormState.RemovePart | src/components/QuotationForm.js:312-316 | a row is removed only while more than one exists, so the list never empties |
| QuotationForm.QuotationFormState.LoadPriceList | src/components/QuotationForm.js:135-170 | the parsed entries become the bulk pricing data |
| QuotationForm.QuotationFormState.ApplyBulkPricing | src/components/QuotationForm.js:173-197 | without entries nothing changes; otherwise the parts become their bulk-priced form |
| QuotationForm.QuotationFormState.SetMaterialPrice | src/components/QuotationForm.js:970-973 | the typed price of one material is stored, with unparsable input as 0 |
| QuotationForm.QuotationFormState.ApplyMaterialPricing | src/components/QuotationForm.js:200-239 | parts are left unchanged when no price is positive or a material lacks one; otherwise every part takes its material's price and the dialog closes |
| QuotationForm.QuotationFormState.SwitchToUpload | src/components/QuotationForm.js:246-252 | upload mode with a zero amount |
| QuotationForm.QuotationFormState.SwitchToManual | src/components/QuotationForm.js:544 | manual mode |
| QuotationForm.QuotationFormState.EnterTotalAmount | src/components/QuotationForm.js:615-620 | the amount is stored; a positive amount marks the PDF as processed |
| NewInquiry.StripApiSuffix | src/pages/inquiry/NewInquiry.js:11-14 | a trailing "/api" is removed once; other addresses are unchanged |
| NewInquiry.BaseURL | src/pages/inquiry/NewInquiry.js:11-14 | the configured address without its "/api" when it is set and not empty; otherwise "http://localhost:5000" |
| NewInquiry.StripApiSuffixOf | src/pages/inquiry/NewInquiry.js:11-14 | exactly one suffix is removed: stripping twice does not reach into the host |
| NewInquiry.ExtensionOf | src/pages/inquiry/NewInquiry.js:164-166 | the extension is the lower-cased last '.'-piece; a name without '.' is tested whole |
| NewInquiry.ValidFiles | src/pages/inquiry/NewInquiry.js:110-114 | exactly the names with an allowed extension, never more than given |
| NewInquiry.ActiveMaterials | src/pages/inquiry/NewInquiry.js:50 | exactly the materials whose status is Active |
| NewInquiry.NewRows | src/pages/inquiry/NewInquiry.js:184-200 | one row per accepted file, named after it, with quantity 1, no remarks, and the first material's data |
| NewInquiry.Merged | src/pages/inquiry/NewInquiry.js:220-229 | each field the update gives (part reference, material, thickness, grade, remarks, quantity) replaces the row's, the others stay; id, name and file type are kept, and the update time is set |
| NewInquiry.UpdatedRows | src/pages/inquiry/NewInquiry.js:220-229 | same length and ids; only rows with the id are merged |
| NewInquiry.WithoutId | src/pages/inquiry/NewInquiry.js:231-234 | exactly the rows with another id remain |
| NewInquiry.WithoutIdCount | src/pages/inquiry/NewInquiry.js:231-234 | the count drops by the number of rows with that id |
| NewInquiry.DeleteAfterUpdate | src/pages/inquiry/NewInquiry.js:220-234 | deleting after an update of the same id equals deleting alone |
| NewInquiry.RowsWithoutRemarks | src/pages/inquiry/NewInquiry.js:249 | exactly the rows whose remarks are missing or blank |
| NewInquiry.RowsWithoutQuantity | src/pages/inquiry/NewInquiry.js:250 | exactly the rows whose quantity is missing or below 1 |
| NewInquiry.SubmitCheck | src/pages/inquiry/NewInquiry.js:243-260 | an empty table is refused first. A remarks refusal counts exactly the rows with blank remarks. A quantity refusal comes only when every row has remarks, and counts exactly the rows without a quantity of at least 1 |
| NewInquiry.SubmitCheckMeaning | src/pages/inquiry/NewInquiry.js:243-260 | submission passes exactly when there are rows, every remark is non-blank, and every quantity is at least 1 |
| NewInquiry.FreshRowBlocksSubmit | src/pages/inquiry/NewInquiry.js:184-200 | a freshly added row, whose remarks are empty, blocks submission |
| NewInquiry.NewInquiryPage.constructor | src/pages/inquiry/NewInquiry.js:29-32 | no rows, not dragging, no materials |
| NewInquiry.NewInquiryPage.ReceiveMaterials | src/pages/inquiry/NewInquiry.js:41-82 | the active materials of a successful answer, and none otherwise |
| NewInquiry.NewInquiryPage.Drag | src/pages/inquiry/NewInquiry.js:91-99 | enter and over set the drag flag, leave clears it, other events keep it |
| NewInquiry.NewInquiryPage.Upload | src/pages/inquiry/NewInquiry.js:160-211 | rejected names are reported. Without valid files or without materials the table is unchanged. Otherwise the new rows are appended after the existing ones |
| NewInquiry.NewInquiryPage.Drop | src/pages/inquiry/NewInquiry.js:101-158 | a drop clears the drag flag; a drop without files does nothing else. Otherwise refused files are reported exactly when some file is refused, no accepted file or no material is refused, and the accepted files are added, after the existing rows, exactly when there are some and materials are loaded |
| NewInquiry.NewInquiryPage.UpdateRow | src/pages/inquiry/NewInquiry.js:220-229 | the table becomes its updated form |
| NewInquiry.NewInquiryPage.DeleteRow | src/pages/inquiry/NewInquiry.js:231-234 | the rows with the id are removed |
| Profile.FormatAddress | src/pages/Profile.js:32-47 | a text address passes through; a structured one is its non-empty fields in order, joined by ", " |
| Profile.FormattedAllFields | src/pages/Profile.js:38-46 | with all five fields filled, the text is the five joined by ", " |
| Profile.FormattedNoFields | src/pages/Profile.js:38-46 | with no field filled, the text is empty |
| Profile.SplitNameRoundTrip | src/pages/Profile.js:81-83 | when the trimmed name has a space, first name, a space and last name give it back |
| Profile.DisplayThenSplit | src/pages/Profile.js:81-83 | splitting a display name returns the first and last name it was made from, when the first has no space or blank ends |
| Profile.RebuildAddress | src/pages/Profile.js:86-97 | a non-blank text becomes the street; the other fields are copied from the stored address, or are empty |
| Profile.RebuildKeepsFields | src/pages/Profile.js:86-97 | a blank text keeps the stored address; city and the rest are always kept |
| Profile.FormatThenRebuild | src/pages/Profile.js:38-97 | sending the shown text of a structured address back unedited makes that whole text the street and keeps the other fields; only a blank text keeps the address as it was |
| Profile.ResendCopiesFieldsIntoStreet | src/pages/Profile.js:38-97 | with all five fields filled, the street sent back is the whole joined address, so the address does not come back as it was |
| Profile.Padded | src/pages/Profile.js:224-225 | the loaded entries stay as the prefix, then empty entries up to the minimum |
| Profile.EmailPatternAccepts | src/pages/Profile.js:294 | local@host.tld is accepted when the three parts are non-empty and free of spaces and '@' |
| Profile.EmailPatternShape | src/pages/Profile.js:294 | an accepted email has exactly one '@', not first, and no spaces |
| Profile.SaveSettings | src/pages/Profile.js:277-309 | fewer than 4 non-blank emails or fewer than 2 non-blank mobiles is refused. The first invalid email, then the first short mobile, is reported. Otherwise only the non-blank entries are sent |
| Profile.FirstFailing | src/pages/Profile.js:295-308 | none when every entry passes, else the first that fails |
| Profile.BackOfficeSettings.constructor | src/pages/Profile.js:203-204 | four empty emails and two empty mobiles |
| Profile.BackOfficeSettings.Load | src/pages/Profile.js:209-232 | a successful load pads the lists to their minimums; a failed one keeps them |
| Profile.BackOfficeSettings.ChangeEmail | src/pages/Profile.js:241-245 | only the email at the index changes |
| Profile.BackOfficeSettings.ChangeMobile | src/pages/Profile.js:247-251 | only the mobile at the index changes |
| Profile.BackOfficeSettings.AddEmail | src/pages/Profile.js:253-255 | one empty email is appended |
| Profile.BackOfficeSettings.AddMobile | src/pages/Profile.js:265-267 | one empty mobile is appended |
| Profile.BackOfficeSettings.RemoveEmail | src/pages/Profile.js:257-263 | an email is removed only while there are more than 4, so never below 4 |
| Profile.BackOfficeSettings.RemoveMobile | src/pages/Profile.js:269-275 | a mobile is removed only while there are more than 2, so never below 2 |
| Profile.Tabs | src/pages/Profile.js:340-352 | staff roles get only the profile tab; everyone else gets profile, orders and inquiries |
| InquiryDetail.Timeline | src/pages/inquiry/InquiryDetail.js:205-241 | always starts with Inquiry Created. quoted gives 3 entries, order_created 4, any other status 1. Order Created appears exactly for order_created |
| InquiryDetail.Truncate | src/pages/inquiry/InquiryDetail.js:684-693 | a name within the limit is unchanged; a longer one is its first n characters and "..." |
| InquiryDetail.TruncateProperties | src/pages/inquiry/InquiryDetail.js:684-693 | never longer than the limit plus three, keeps the name's start, and shortening twice equals once, for every limit including 0 |
| InquiryDetail.PartLabel | src/pages/inquiry/InquiryDetail.js:684-693 | the part label is at most 10 characters plus the dots |
| InquiryDetail.FileLabel | src/pages/inquiry/InquiryDetail.js:756-762 | the file label is at most 30 characters plus the dots |
| InquiryDetail.Columns | src/pages/inquiry/InquiryDetail.js:30-45 | six columns; the part name falls back from reference to name to file name to N/A; no column is empty |
| InquiryDetail.SplitQuoted | src/pages/inquiry/InquiryDetail.js:38-45 | a quoted line splits at its double quotes into an empty piece, then each field followed by its comma, the last followed by an empty rest |
| InquiryDetail.UnquoteQuoted | src/pages/inquiry/InquiryDetail.js:38-45 | reading a quoted line back gives its fields, when no field holds a double quote |
| InquiryDetail.CsvRowReadsBack | src/pages/inquiry/InquiryDetail.js:30-45 | a specification's line reads back as its six columns |
| InquiryDetail.CsvRowsAppend | src/pages/inquiry/InquiryDetail.js:37-46 | the lines of a concatenation are the lines of each part in order |
| InquiryDetail.ExportCsv | src/pages/inquiry/InquiryDetail.js:16-66 | header, one line per specification or the placeholder line when there are none, then the trailer with the part count |
| InquiryDetail.TotalAmountMeaning | src/pages/inquiry/InquiryDetail.js:252-254 | 0 without specifications. With every quantity present, the sum of quantity times unit price (missing price as 0). A missing quantity makes the sum NaN, which turns into 0 |
| InquiryDetail.FetchPlan | src/pages/inquiry/InquiryDetail.js:84-132 | no user waits. A bad id is refused before anything else. A missing token goes to login. Otherwise the request uses the administrator API exactly for staff roles or the administrator email |
| InquiryDetail.ClassifyError | src/pages/inquiry/InquiryDetail.js:140-162 | 401, 403, 404 and 500 each get their own report, then a network error code, then the generic message |
| InquiryDetail.OnlyAuthFailureLogsOut | src/pages/inquiry/InquiryDetail.js:140-146 | stored credentials are cleared exactly on a 401 |
| InquiryDetail.UploadFile | src/pages/inquiry/InquiryDetail.js:294-312 | an upload without files is refused; otherwise the first file is sent |
| Dashboard.RefreshAfterLoad | src/pages/BackOfficeDashboard.js:39-44 | with the time the previous call recorded, an unforced call reloads exactly when more than 30000 ms have passed since then; a forced call always reloads |
| Dashboard.CustomerNameMeaning | src/pages/BackOfficeDashboard.js:69 | the customer column is the trimmed "first last", or N/A when that is blank; never empty |
| Dashboard.InquiryRowOf | src/pages/BackOfficeDashboard.js:67-85 | the row keeps number, key and status, counts the files, and carries the full parts list |
| Dashboard.QuotationRowOf | src/pages/BackOfficeDashboard.js:90-113 | the row keeps number, amount, status, key and PDF; without an inquiry its columns read N/A |
| Dashboard.OrderRowOf | src/pages/BackOfficeDashboard.js:124-138 | the row keeps number, status, amount and key, and counts the parts |
| Dashboard.InquiryRows | src/pages/BackOfficeDashboard.js:67-86 | one row per inquiry, in order |
| Dashboard.QuotationRows | src/pages/BackOfficeDashboard.js:93-115 | one row per quotation, in order |
| Dashboard.OrderRows | src/pages/BackOfficeDashboard.js:124-139 | one row per order, in order |
| Dashboard.OrderAnswer | src/pages/BackOfficeDashboard.js:57 | orders are requested only for admin and backoffice; other roles see an answer without success |
| Dashboard.OrderFailureNotice | src/pages/BackOfficeDashboard.js:140-152 | 401, 403 and 500 get their own message; otherwise the server's message, or else the error's own |
| Dashboard.InquiryActions | src/pages/BackOfficeDashboard.js:474-497 | Quote is offered exactly for pending inquiries |
| Dashboard.QuotationActions | src/pages/BackOfficeDashboard.js:568-599 | Send is offered exactly for drafts; the PDF button exactly when there is a PDF |
| Dashboard.RowFeedsQuotationForm | src/pages/BackOfficeDashboard.js:80-83 | the row hands the quotation form the inquiry's key and full parts list |
| Dashboard.Dashboard.constructor | src/pages/BackOfficeDashboard.js:13-28 | empty lists, zero counters, no load time, form closed |
| Dashboard.Dashboard.FetchData | src/pages/BackOfficeDashboard.js:36-163 | the time is recorded on every call, also when the cache answers, and a cached call changes nothing else. A reload replaces each list whose answer succeeded, empties the orders and reports it when the order request failed, and keeps the rest |
| Dashboard.CachedCallDefersReload | src/pages/BackOfficeDashboard.js:39-162 | because cached calls record their time, two unforced calls 20 s and 40 s after a load both answer from the cache, although the second comes more than 30 s after the load |
| Dashboard.Dashboard.TakeLists | src/pages/BackOfficeDashboard.js:60-120 | a successful stats, inquiry or quotation answer replaces what it lists; a failed one leaves it; nothing else changes |
| Dashboard.Dashboard.TakeOrders | src/pages/BackOfficeDashboard.js:122-151 | a successful order answer replaces the orders; a rejected one empties them and gives the message for its status; roles that may not list orders keep their orders and see no message |
| Dashboard.Dashboard.CreateQuotation | src/pages/BackOfficeDashboard.js:165-168 | the form opens on the chosen inquiry and the lists are untouched |
| Dashboard.Dashboard.CloseQuotationForm | src/pages/BackOfficeDashboard.js:176-179 | the form closes and forgets its inquiry |
| InternalHeader.Navigation | src/components/layout/InternalHeader.js:26-64 | empty without a user. Every role's list ends with Profile then Sign out. The whole menu of each role is given: admin and back office get their dashboard, Order Management and All Inquiries; sub admins their dashboard and All Inquiries; customers Dashboard, New Inquiry, My Inquiries and My Orders |
| InternalHeader.NavigationProperties | src/components/layout/InternalHeader.js:34-47 | Order Management appears exactly for admin and backoffice, and only the last entry signs out |
| InternalHeader.Badge | src/components/layout/InternalHeader.js:109 | Admin, Back Office or Sub Admin for the staff roles, Customer otherwise |
| InternalHeader.Header.constructor | src/components/layout/InternalHeader.js:19-23 | both menus closed |
| InternalHeader.Header.ToggleUserMenu | src/components/layout/InternalHeader.js:102 | the account menu flips |
| InternalHeader.Header.CloseUserMenu | src/components/layout/InternalHeader.js:117-132 | the account menu closes |
| InternalHeader.Header.SetMobileMenu | src/components/layout/InternalHeader.js:149-187 | the mobile menu opens or closes |
| InternalHeader.Header.Logout | src/components/layout/InternalHeader.js:66-70 | the session ends, the menu closes, the home page is shown, and the menu list is then empty |
| Carousel.NextIndex | src/components/ImageSlider.js:24 | one step forward stays in range and wraps from the last slide to the first |
| Carousel.PrevIndex | src/components/ImageSlider.js:33 | one step back stays in range and wraps from the first slide to the last |
| Carousel.StepsUndo | src/components/ImageSlider.js:24-33 | a step back undoes a step forward, and the other way round |
| Carousel.AdvanceIsModular | src/pages/Home.js:44-48 | k steps forward land on (i + k) mod n |
| Carousel.FullTurn | src/pages/Home.js:19-48 | as many steps as there are slides come back to the start |
| ImageSlider.KeyCommand | src/components/ImageSlider.js:163-169 | left arrow goes back, right arrow forward, space toggles autoplay |
| ImageSlider.ImageSlider.constructor | src/components/ImageSlider.js:4-7 | the first image, autoplay as configured, no transition, and an interval that has seen none |
| ImageSlider.ImageSlider.Next | src/components/ImageSlider.js:20-27 | ignored during a transition; otherwise one step forward and a transition starts. When the index changed, the interval is set up again and sees the transition |
| ImageSlider.ImageSlider.Prev | src/components/ImageSlider.js:29-36 | ignored during a transition; otherwise one step back and a transition starts. When the index changed, the interval is set up again and sees the transition |
| ImageSlider.ImageSlider.GoTo | src/components/ImageSlider.js:38-45 | ignored during a transition or on the current image; otherwise that image and a transition, and the interval sees the transition |
| ImageSlider.ImageSlider.TransitionEnd | src/components/ImageSlider.js:26 | only the timeout clears the transition flag; neither the index nor autoplay changes, so the interval keeps what it saw |
| ImageSlider.ImageSlider.TogglePlayPause | src/components/ImageSlider.js:47-49 | autoplay flips, and the interval set up again sees the transition flag of that moment; nothing else changes |
| ImageSlider.ImageSlider.Tick | src/components/ImageSlider.js:10-27 | paused, or with an interval that saw a transition, a firing changes nothing. Otherwise it is one step forward from the current index and a transition; the interval then sees it when the index changed |
| ImageSlider.ImageSlider.TickIntended | src/components/ImageSlider.js:10-27 | the interval as evidently meant: while playing, a firing is nextSlide with the current flag, held during a transition and otherwise one step forward |
| ImageSlider.ImageSlider.HandleKey | src/components/ImageSlider.js:163-169 | the arrows are prevSlide and nextSlide with the current flag: held during a transition, otherwise one step and a transition, autoplay kept. Space only toggles autoplay. Other keys change nothing |
| ImageSlider.ForwardThenBack | src/components/ImageSlider.js:20-36 | forward, the transition's end, then back shows the starting image again |
| ImageSlider.ToggleTwice | src/components/ImageSlider.js:47-49 | toggling twice restores autoplay and keeps the image and the transition flag |
| ImageSlider.AutoplayStalls | src/components/ImageSlider.js:10-27 | with two or more images and no input, autoplay steps once; after the transition ends the next firing does nothing, and the interval keeps seeing a transition |
| ImageSlider.AutoplayAdvances | src/components/ImageSlider.js:10-27 | with the intended interval, two firings with the transition's end between them move two images forward |
| Home.UploadTarget | src/pages/Home.js:10-16 | signed-in users go to /inquiry/new, others to /signup |
| Home.HomeCarousel.constructor | src/pages/Home.js:8 | the first slide |
| Home.HomeCarousel.Next | src/pages/Home.js:44-62 | one step forward around the three slides |
| Home.HomeCarousel.Previous | src/pages/Home.js:56-58 | one step back around the three slides |
| Home.HomeCarousel.GoTo | src/pages/Home.js:52-54 | the clicked indicator's slide |
| Home.FullRotation | src/pages/Home.js:19-48 | three steps forward show the starting slide again |
| Strings.Trim | src/pages/Profile.js:81 | the result is no longer than the input and neither starts nor ends with whitespace |
| Strings.TrimMeaning | src/pages/Profile.js:81 | the result is the input with its leading and its trailing whitespace cut off and nothing in between changed |
| Strings.LeadingSpaceMeaning | src/pages/Profile.js:81 | the leading run that trimming removes is all whitespace and ends at a non-space |
| Strings.TrailingSpaceMeaning | src/pages/Profile.js:81 | the trailing run that trimming removes is all whitespace and starts after a non-space |
| Strings.TrimOfTrimmed | src/pages/Profile.js:81 | a text that neither starts nor ends with whitespace is left as it is |
| Strings.TrimIdempotent | src/components/QuotationForm.js:152-153 | trimming twice equals trimming once |
| Strings.BlankIffAllSpace | src/pages/inquiry/NewInquiry.js:247-250 | a text is blank after trimming exactly when it is all whitespace |
| Strings.Split | src/components/QuotationForm.js:146-151 | at least one piece, and no piece contains the separator |
| Strings.JoinSplit | src/pages/Profile.js:81-83 | joining the pieces of a split with the same separator gives the text back |
| Strings.SplitConcat | src/pages/Profile.js:81-83 | splitting around one separator splits each side |
| Strings.ParseCentsOfNat | src/components/QuotationForm.js:113 | a plain decimal number parses to its value in cents |
| Strings.FilterEmptyIff | src/pages/inquiry/NewInquiry.js:247-260 | nothing passes the filter exactly when no element satisfies it |
| Strings.NonBlank | src/pages/Profile.js:280-281 | exactly the non-blank entries, in order |
| Strings.NonBlankAppend | src/pages/Profile.js:280-281 | the filter keeps order: the non-blank entries of two parts are those of the first, then those of the second |
| Strings.NonBlankSingle | src/pages/Profile.js:280-281 | a single entry is kept exactly when it is not blank |
| Strings.NonBlankIsFilter | src/pages/Profile.js:280-281 | the non-blank filter is the generic filter with the non-blank test |
| Strings.WithoutIndex | src/pages/Profile.js:257-275 | the entry at the index is dropped and the others keep their order |

## Left out

- Network requests, toasts, console output, navigation, local storage and
  file reading are not modelled. Answers become method parameters;
  navigation and shown messages become returned values.
- Timers (`setInterval`, `setTimeout`) and `Promise.allSettled` are not
  modelled. A timer firing is an explicit method call (`Tick`,
  `TransitionEnd`, `Next`), and the dashboard receives its four answers
  together. Of React's effects and closures, only what the slider's
  interval sees of the transition flag is modelled
  (`intervalSawTransition`).
- Floating point is not modelled. Prices are integer cents. Strings.ParseCents
  reads an optional sign, digits and a fraction, cut after two digits; it has
  no exponent and no Infinity. `toFixed`, the progress bar percentage and date
  formatting are left out.
- Upper- and lower-case mapping covers ASCII letters only.
- Profile.BackOfficeSettings.Load: the page loads the contact settings only
  for an administrator. The model has no role here; Load stands for the
  answer of that administrator's request.
- InquiryDetail.RawTotal: a missing quantity is modelled as absent, which
  makes the product NaN. A quantity that the server sends as `null` is not
  modelled; in JavaScript it multiplies to 0 and adds nothing.
- InquiryDetail.Truncate and Profile.LongEnough count characters, while
  JavaScript's `length` counts UTF-16 code units. The two differ only for
  characters outside the Basic Multilingual Plane.
- InternalHeader.Header.Logout models the Sign out of the desktop account
  menu. The mobile panel shows Sign out as a plain link to "#", which never
  calls logout; the model has no operation for it.
- The price-list file is taken as already-read text; the read itself is I/O.
- The PDF extraction of the quotation form (`handleUploadQuotationFile`) is
  not modelled. It calls a server and fills the form from the answer.
- The base-price pass of the quotation form is not modelled. It is commented
  out in the code.
- `removeFile` of the new inquiry page is not modelled. It is not part of the
  file table's update and delete operations.
- Rendering of the pages' tables, icons and colours is not modelled.
- The file name read from a download's Content-Disposition header is not
  modelled. It is a regular expression applied to a foreign header.
- NewInquiry.NewRows: a row id `file_<time>_<index>` is modelled as the pair
  (time, index). Two uploads in the same millisecond could repeat ids; the
  model gives them the same id too. The code reads the clock once per file,
  so the files of one upload can carry different times; the model takes
  one time per upload. The creation timestamp is left out.
- NewInquiry.NewInquiryPage.UpdateRow and NewInquiry.Merged: the file
  table component that sends the updates is not part of this model. Its
  updates are taken to carry only the part reference, material, thickness,
  grade, remarks and quantity. An update carrying `id`, `name` or
  `fileType` would overwrite those fields in the code; the model keeps
  them.
- Quantities typed into number inputs are taken as integers, or as absent
  when the input is empty.
- Profile.FormatAddress: an empty address object `{}` is modelled as a
  structured address with every field empty.
- OrderManagement.StatusLabel: the example `ready_for_dispatch` →
  `Ready for_dispatch` is stated for every two-part status through
  OrderManagement.StatusLabelOfSplit, not stated for that one string.
- ImageSlider.ImageSlider.constructor requires at least one image. With no
  images the component shows an empty placeholder, but autoplay, on by
  default, still starts its interval, and its step computes `(0 + 1) % 0`,
  which is NaN in JavaScript. Nothing shows that index, and the model does
  not cover the empty slider.
- ImageSlider.ImageSlider.GoTo and Home.HomeCarousel.GoTo require an index
  within the slides, because only the indicators, one per slide, call them.
- InquiryDetail.UnquoteQuoted: a field holding a double quote breaks the
  export's quoting. The code does not escape quotes, so the round trip is
  stated only for fields without one.
- InquiryDetail.ExportCsv: the creation date is taken as already formatted
  text.
- Dashboard.Dashboard.FetchData: the rows' formatted dates are left out. An
  exception while transforming a malformed answer is not modelled.
- Dashboard.Dashboard.FetchData: rendering before any user is known is not
  modelled. The role is fixed when the dashboard is built.
- Sending a quotation from the dashboard, which answers by a forced reload,
  is not modelled as its own operation. A forced reload is the `force`
  parameter of FetchData.

## Findings

| source | as written | input that shows it | evidently intended | confidence | as-written member | corrected member |
|---|---|---|---|---|---|---|
| src/components/ImageSlider.js:10-18 | the autoplay interval is set up again only when the index or autoplay changes, and its callback keeps the `nextSlide` of that render, which saw the transition its own step started | three images, autoplay on, no input: a firing, the transition's end after 500 ms, then a firing; the second firing does nothing, and so does every later one | each firing after the transition has ended moves one image forward | not executed | ImageSlider.AutoplayStalls | ImageSlider.ImageSlider.TickIntended |
