# Kaspi order-automation admin dashboard: the logic behind the screens

This project models, in Dafny, the stateful logic of the admin dashboard of a WhatsApp/Kaspi
order-notification service. That logic lives inside its React components and HTTP client.
Rendering, routing and the network are not part of it. What remains is modelled:

- how a form schema's properties are grouped into titled sections, and how each section's fields
  are picked (`SchemaGroups`). The group map is a plain JavaScript object, so `JsObject` models
  the two ways that shows: the names `Object.prototype` already supplies, and the order in which
  `Object.keys` lists keys (array-index keys first, ascending, then the rest in creation order).
  The schema's properties are taken as a sequence already in `Object.entries` order, which puts
  array-index property keys first in the same way;
- the template editor. The shortcut buttons splice a placeholder over the textarea's selection
  and put the caret after it (`TemplateText`). The JSON path picker turns a chosen path into a
  `{{ … }}` placeholder (`JsonPicker`);
- the generic Detail and Create screens:
  - viewing and editing;
  - submit success and failure;
  - caught errors turned into banner lines;
  - delete only after confirmation;
  - inserting text into the template field (`Forms`, `DetailFlow`, `CreateFlow`);
- the "load more" orders and reviews tables (`Paging`, `OrdersPage`, `ReviewsPage`):
  - the page offset;
  - page 1 replaces the list, later pages append;
  - which query each search and filter setting issues;
  - the sort comparators and the rating colour;
- the bulk actions of the client list and the billing-plan list (`BulkSelection`, `ClientList`,
  `BillingPlans`). These are sequential loops over the selected row positions. The first failure
  ends the loop, and each removal redraws the list from the list as it was when the handler
  started. Also the client list's counter badges and flag comparators;
- a WhatsApp instance item (`InstanceBinding`):
  - creating the instance;
  - polling its background task until the task reports SUCCESS or PENDING;
  - which toolbar buttons are shown;
- the HTTP client's session (`ApiSession`): the bearer token, its Authorization header and the
  cached current user. Also the order request paths (`OrderUrls`), whose numbers are rendered
  and read back by `Numbers`.

The model's conventions:

- Backend calls are parameters. A fetch is an `Outcome` (resolved value or rejection), and an
  accept/reject decision is a function from the request to `bool`.
- Each component's React state is a class whose methods are its event handlers and effects.
- `Common` holds JavaScript truthiness for optional strings, numbers and booleans. Its `Option`
  stands for a field that may be `undefined`.

## Model

| member | source | states |
|---|---|---|
| SchemaGroups.TransformSchemaToGroupMap | components/templates/ObjectFieldTemplateWrapper.tsx:50-69 | a schema without `properties` gives an empty map; the build throws exactly when some property's label is a name `Object.prototype` supplies; otherwise the loop builds exactly `GroupMapOf` of the entries: one group per distinct label (`group` or `''`), in key-creation order, each with its keys in schema order |
| SchemaGroups.FindGroup | components/templates/ObjectFieldTemplateWrapper.tsx:60 | the position found holds a group with that title, and "none" means no group has that title |
| SchemaGroups.GroupMapStep | components/templates/ObjectFieldTemplateWrapper.tsx:56-66 | one `forEach` step: an entry whose label already has a group is pushed onto that group; otherwise a new one-member group is created last in key-creation order |
| SchemaGroups.LabelsDistinct | components/templates/ObjectFieldTemplateWrapper.tsx:60-62 | no two groups share a title |
| SchemaGroups.LabelsComplete | components/templates/ObjectFieldTemplateWrapper.tsx:57-62 | a group with a given title exists exactly when some property carries that label |
| SchemaGroups.LabelsOfPrefix | components/templates/ObjectFieldTemplateWrapper.tsx:60-62 | groups are only ever added: the group titles of a prefix of the schema, in key-creation order, are a prefix of the whole schema's titles |
| SchemaGroups.MembersIff | components/templates/ObjectFieldTemplateWrapper.tsx:56-66 | a key is in a group exactly when a property with that key carries that group's label |
| SchemaGroups.MembersAppend | components/templates/ObjectFieldTemplateWrapper.tsx:56-65 | grouping distributes over concatenation, so within a group keys keep the schema's order |
| SchemaGroups.MembersOfUnusedLabel | components/templates/ObjectFieldTemplateWrapper.tsx:60-62 | a label no property carries has no members |
| SchemaGroups.FlattenAppendToGroup | components/templates/ObjectFieldTemplateWrapper.tsx:65 | pushing a key onto one group adds exactly that key to the multiset of all grouped keys |
| SchemaGroups.GroupMapIsPartition | components/templates/ObjectFieldTemplateWrapper.tsx:56-68 | the groups, concatenated, are a permutation of the schema's keys: none lost, none duplicated |
| SchemaGroups.PropsForGroup | components/templates/ObjectFieldTemplateWrapper.tsx:35-43 | the schema and every other prop are unchanged; a field is kept exactly when its name is in the group; nothing is added |
| SchemaGroups.KeepNamedIff | components/templates/ObjectFieldTemplateWrapper.tsx:41 | the filter keeps exactly the fields whose name is in the group |
| SchemaGroups.KeepNamedAppend | components/templates/ObjectFieldTemplateWrapper.tsx:41 | the filter distributes over concatenation, so kept fields stay in their relative order |
| SchemaGroups.KeepNamedLength | components/templates/ObjectFieldTemplateWrapper.tsx:41 | the filter never lengthens the list |
| SchemaGroups.Sections | components/templates/ObjectFieldTemplateWrapper.tsx:71-93 | no `properties` renders no card; the render fails exactly when the group map's build throws; otherwise the card titles are the labels in `Object.keys` order |
| SchemaGroups.SectionOrder | components/templates/ObjectFieldTemplateWrapper.tsx:79 | every label gets exactly one card; cards with an array-index label come first in ascending numeric order, then the others in the order their first member appears |
| SchemaGroups.ElementInSection | components/templates/ObjectFieldTemplateWrapper.tsx:79-80 | a field is drawn in card k exactly when it is a field of the form and the schema gives its name card k's label |
| SchemaGroups.IndexLabelRendersFirst | components/templates/ObjectFieldTemplateWrapper.tsx:79 | fields grouped "b" then "1" render the "1" card first |
| JsObject.InsertCounts | components/templates/ObjectFieldTemplateWrapper.tsx:79 | inserting a key into the ordered index keys adds exactly that key |
| JsObject.InsertAtLeast | components/templates/ObjectFieldTemplateWrapper.tsx:79 | inserting a key no smaller than a bound keeps every key at or above the bound |
| JsObject.InsertAscending | components/templates/ObjectFieldTemplateWrapper.tsx:79 | inserting a key into ascending index keys keeps them ascending |
| JsObject.SortSpec | components/templates/ObjectFieldTemplateWrapper.tsx:79 | the index keys are listed in ascending numeric order, each exactly once |
| JsObject.SplitCounts | components/templates/ObjectFieldTemplateWrapper.tsx:79 | index keys and other keys together are all the keys, none lost or repeated |
| JsObject.KeysOrder | components/templates/ObjectFieldTemplateWrapper.tsx:79 | `Object.keys` lists every own key exactly once: array-index keys first, ascending, then the other keys in creation order |
| JsObject.OtherKeysAppend | components/templates/ObjectFieldTemplateWrapper.tsx:60-61 | creating a key that is not an array index puts it last among the other keys |
| JsObject.IndexKeysComeFirst | components/templates/ObjectFieldTemplateWrapper.tsx:79 | keys created as "b" then "1" are listed as "1", "b" |
| TemplateText.SpliceReplacesSelection | components/ui/fields/template_text_area.tsx:41-43 | over a selection inside the value, the result is `value[..start] + text + value[end..]`; its length is the old length minus the selection's length plus the text's length; prefix, inserted text and suffix sit where expected |
| TemplateText.SpliceUndo | components/ui/fields/template_text_area.tsx:43 | with an empty selection, cutting the inserted text out again gives back the original value |
| TemplateText.TextareaElement.SetSelectionRange | components/ui/fields/template_text_area.tsx:46-48 | the element's selection becomes the given range |
| TemplateText.TemplateTextarea.ControlsState | components/ui/fields/template_text_area.tsx:61-85 | `readonly` disables the textarea and each of the six shortcut buttons, and nothing else does |
| TemplateText.TemplateTextarea.HandleInput | components/ui/fields/template_text_area.tsx:23-26 | the element's value is passed to `onChange` unchanged |
| TemplateText.TemplateTextarea.InsertText | components/ui/fields/template_text_area.tsx:38-50 | without a textarea nothing changes and `onChange` is not called; with one, `onChange` gets the splice over the selection, once, and the caret lands at start plus the text's length, inside the new value |
| TemplateText.TemplateTextarea.ClickShortcut | components/ui/fields/template_text_area.tsx:75-85 | a readonly editor ignores the click, as does one without a textarea; otherwise the shortcut's text is spliced over the selection, the new value is passed to `onChange` once, and the caret is put right after the inserted text |
| JsonPicker.RemoveAll | components/JsonDataPicker.tsx:34 | no quote remains; exactly the quotes are removed, every other character's count is unchanged |
| JsonPicker.RemoveFirst | components/JsonDataPicker.tsx:35 | without a dot the path is unchanged; with one it is exactly one character shorter |
| JsonPicker.RemoveFirstAt | components/JsonDataPicker.tsx:35 | when k is the first occurrence of the dot, the result is the input with position k cut out |
| JsonPicker.RemoveFirstCutsFirstOccurrence | components/JsonDataPicker.tsx:35 | only the first dot is removed; everything before and after it, later dots included, stays |
| JsonPicker.RemoveFirstCounts | components/JsonDataPicker.tsx:35 | exactly one dot is taken away and every other character is kept |
| JsonPicker.Braced | components/JsonDataPicker.tsx:36 | wrapping adds `{{ ` and ` }}`, six characters, none of them a quote or a dot |
| JsonPicker.PlaceholderFrame | components/JsonDataPicker.tsx:34-36 | the placeholder is the stripped path between `{{ ` and ` }}`, and contains no quote |
| JsonPicker.PlaceholderCounts | components/JsonDataPicker.tsx:34-36 | one dot fewer when the path has one; length = path length - quotes - that dot + 6 |
| Forms.ErrorMessages | components/Detail.tsx:160-164 | an array error gives one line per element, in order; anything else gives exactly the one generic message |
| Forms.ItemMessageRoundTrip | components/Detail.tsx:161 | a `location: message` line reads back to its error element when the location holds no `:` |
| Forms.ValidationMessagesReadBack | components/Detail.tsx:160-161 | banner line i of an array error names element i |
| DetailFlow.DetailView.constructor | components/Detail.tsx:82-89 | starts viewing, no picker, dialog closed, spinner on, no messages, schema `{}` |
| DetailFlow.DetailView.SchemaFetched | components/Detail.tsx:119-129 | a fetched schema replaces the old one; a failed fetch leaves it as it was |
| DetailFlow.DetailView.FormDataFetched | components/Detail.tsx:131-148 | the record goes to the page, or the error goes to the banner; the spinner goes off either way |
| DetailFlow.DetailView.View | components/Detail.tsx:186-268 | "not found" exactly without data; a spinner while loading; otherwise Save is shown and the form is editable exactly while editing, the pro-mode button appears exactly when the schema has `template`, and the banner shows the messages |
| DetailFlow.DetailView.ToggleEdit | components/Detail.tsx:212-217 | the Edit button flips editing |
| DetailFlow.DetailView.ToggleJsonPicker | components/Detail.tsx:203-211 | the pro-mode button, which exists only when the schema has `template`, flips the picker |
| DetailFlow.DetailView.ClickRemove | components/Detail.tsx:218-223 | the toolbar's Remove only opens the dialog and makes no delete request |
| DetailFlow.DetailView.RemoveDialogOpenChange | components/Detail.tsx:190-194 | the dialog's own open/close requests set its state |
| DetailFlow.DetailView.ConfirmRemove | components/Detail.tsx:57-62 | only the open dialog's confirm button issues a delete, and exactly one |
| DetailFlow.DetailView.Submit | components/Detail.tsx:151-168 | the data is stored and sent before the outcome is known; success leaves editing and keeps earlier messages; failure keeps the mode and shows the error's lines |
| DetailFlow.DetailView.InsertText | components/Detail.tsx:170-182 | only `template` is spliced at the textarea's selection; every other field and the key set are unchanged; the caret goes after the insertion; without a textarea nothing changes, and without a string `template` neither the data nor the selection changes |
| DetailFlow.DetailView.ChoosePath | components/Detail.tsx:183-198 | in pro mode, a chosen path is inserted into `template` as its placeholder, once, with the caret put right after the placeholder |
| CreateFlow.CreateView.constructor | components/Create.tsx:28-34 | schema `{}` until the fetch lands, no messages, no create calls, no navigation |
| CreateFlow.CreateView.SchemaFetched | components/Create.tsx:59-69 | a failed fetch leaves the schema `{}` |
| CreateFlow.CreateView.Submit | components/Create.tsx:71-87 | invalid data changes nothing; valid data clears the banner, stores the data, calls `onCreate` once, then navigates to the redirect only on success, or shows the error's lines and stays |
| Paging.OffsetsAreContiguous | components/OrdersDashboard.tsx:79-80 | page 1 starts at 0 and each page starts exactly `PageSize` after the previous one |
| Paging.LoadPagesConcatenates | components/OrdersDashboard.tsx:84 | fetching pages 1..n in turn shows all their rows, in page order |
| Paging.NextOffsetFollowsShownRows | components/OrdersDashboard.tsx:79-84 | while every page comes back full, the next request starts right after the rows shown |
| OrdersPage.OrdersDashboard.constructor | components/OrdersDashboard.tsx:36-42 | no orders, spinner on, page 1, empty search and status |
| OrdersPage.OrdersDashboard.Request | components/OrdersDashboard.tsx:74-92 | the list query exactly when the debounced search is empty, with group, customer and status; otherwise the code query with the search text; offset `(page-1)*10` and limit 10 either way |
| OrdersPage.OrdersDashboard.FetchOrders | components/OrdersDashboard.tsx:55-98 | a falsy user id issues nothing and changes nothing; otherwise the current request is issued, rows replace the list on page 1 and are appended later, a failure keeps the list, and the spinner goes off |
| OrdersPage.OrdersDashboard.LoadNextPage | components/OrdersDashboard.tsx:100-102 | the page goes up by exactly one |
| OrdersPage.OrdersDashboard.SetSearchQuery | components/OrdersDashboard.tsx:196 | typing sets the search text and nothing else; the page is not reset |
| OrdersPage.OrdersDashboard.ApplySearch | components/OrdersDashboard.tsx:105-109 | the debounce or Enter makes the typed search the effective one |
| OrdersPage.OrdersDashboard.SetStatusFilter | components/OrdersDashboard.tsx:205 | choosing a status sets only the status; the page is not reset |
| OrdersPage.HasReviewCompare | components/OrdersDashboard.tsx:158 | 0 exactly on equal truthiness of `review_id`; negative exactly when only the second has a review |
| OrdersPage.IsSendedCompare | components/OrdersDashboard.tsx:145 | equal flags give 0; on two set flags, `false` sorts before `true` |
| OrdersPage.IsSendedCompareNotAntisymmetric | components/OrdersDashboard.tsx:145 | absent and `false` each compare as smaller than the other |
| OrdersPage.IsSendedCompareByTruthiness | components/OrdersDashboard.tsx:145 | 0 exactly on equal truthiness; absent/false before true |
| OrdersPage.IsSendedCompareByTruthinessAntisymmetric | components/OrdersDashboard.tsx:145 | compare(a, b) = -compare(b, a) for all orders |
| ReviewsPage.RatingColour | components/ReviewsDashboard.tsx:78-85 | danger exactly below 3, warning exactly from 3 up to 4, success exactly from 4 |
| ReviewsPage.RatingCompare | components/ReviewsDashboard.tsx:75 | the sign of the result is the order of the two ratings |
| ReviewsPage.ReviewsDashboard.constructor | components/ReviewsDashboard.tsx:26-29 | no reviews, spinner on, page 1 |
| ReviewsPage.ReviewsDashboard.Request | components/ReviewsDashboard.tsx:42-47 | user, customer, offset `(page-1)*10` and limit 10 |
| ReviewsPage.ReviewsDashboard.FetchReviews | components/ReviewsDashboard.tsx:32-55 | a falsy user id issues nothing; otherwise page 1 replaces, later pages append, a failure keeps the list, and the spinner goes off |
| ReviewsPage.ReviewsDashboard.LoadNextPage | components/ReviewsDashboard.tsx:57-59 | the page goes up by exactly one |
| BulkSelection.Without | app/client/page.tsx:217 | the rows kept are exactly those whose id differs |
| BulkSelection.DeleteOne | app/client/page.tsx:215-216 | the step succeeds exactly when the position names a row whose id the backend deletes; a request goes out only for a position inside the list |
| BulkSelection.RemoveSelected | app/client/page.tsx:210-223 | the loop gets through exactly the positions before the first failure; the ids sent are those of the attempted positions, in order; the list shown is the starting list without only the last deleted id |
| BulkSelection.EarlierDeletionsStayShown | app/client/page.tsx:217 | with two or more deletions, an earlier-deleted row with a different id is still shown although the backend deleted it |
| BulkSelection.LastDeletionHidden | app/client/page.tsx:217 | after at least one deletion, a row is shown exactly when it was in the list and its id is not the last deleted one |
| ClientList.WithDisable | app/client/page.tsx:199-201 | the user sent back has `disable` set and every other field as fetched |
| ClientList.ToggleOne | app/client/page.tsx:198-201 | one stop/start step: it succeeds exactly when the position names a row, the user is fetched and the update is accepted; it makes the get and update calls that step makes |
| ClientList.ToggleSelected | app/client/page.tsx:197-202 | the loop gets through exactly the positions before the first failure and makes their calls in order, up to and including the failing step |
| ClientList.ClientDashboard.constructor | app/client/page.tsx:36-38 | no users, no selection, spinner on |
| ClientList.ClientDashboard.Mount | app/client/page.tsx:41-47 | one list request; users replaced on success or kept on failure; spinner off either way |
| ClientList.ClientDashboard.FetchUsers | app/client/page.tsx:49-56 | one list request; success replaces the users; failure is swallowed |
| ClientList.ClientDashboard.SelectionChange | app/client/page.tsx:185-190 | the grid's selection is stored as it is |
| ClientList.ClientDashboard.SetDisabledForSelection | app/client/page.tsx:193-208 | stop (and start, lines 225-240): a full run makes every call, refetches and clears the selection even when the refetch fails; a failing run stops after the failing step and keeps the list and the selection |
| ClientList.ClientDashboard.HandleRemove | app/client/page.tsx:210-223 | the shared remove loop on the users; a delete request per attempted row; the selection is cleared exactly when every row was deleted |
| ClientList.BulkButtonsAfterRemove | app/client/page.tsx:264 | after a remove, the bulk buttons disappear exactly when every selected row was deleted |
| ClientList.FlagCompare | app/client/page.tsx:80 | `authorized`, `disable` and `test` (lines 80, 98, 116) as written: equal flags give 0; on two set flags, `true` sorts first |
| ClientList.FlagCompareNotAntisymmetric | app/client/page.tsx:80 | absent and `false` each compare as larger than the other |
| ClientList.FlagCompareByTruthiness | app/client/page.tsx:80 | 0 exactly on equal truthiness; set flags first |
| ClientList.FlagCompareByTruthinessAntisymmetric | app/client/page.tsx:80 | compare(a, b) = -compare(b, a) for all flags |
| ClientList.Counter | app/client/page.tsx:136-143 | the badge is red exactly when the raw count and limit are equal; it shows a `/` exactly when the limit is truthy |
| ClientList.CounterReadsBack | app/client/page.tsx:141 | the badge text shows the count (0 when absent) and the limit exactly when the limit is truthy |
| ClientList.CounterRedWhenBothAbsent | app/client/page.tsx:139 | a user with neither count nor limit gets a red "0" badge |
| BillingPlans.BillingPlanDashboard.constructor | app/billing_plan/page.tsx:30-32 | no plans, no selection, spinner on |
| BillingPlans.BillingPlanDashboard.Mount | app/billing_plan/page.tsx:35-49 | plans replaced on success or kept on failure; spinner off either way |
| BillingPlans.BillingPlanDashboard.SelectionChange | app/billing_plan/page.tsx:81-86 | the grid's selection is stored as it is |
| BillingPlans.BillingPlanDashboard.HandleRemove | app/billing_plan/page.tsx:89-102 | deletes in selection order up to the first failure; the list is the starting list without only the last deleted id; the selection is cleared exactly when all were deleted |
| InstanceBinding.PollStep | components/templates/ArrayFieldItemTemplateCustom.tsx:63-76 | a SUCCESS or PENDING answer closes the dialog and forgets the task; any other status or a failed request changes nothing |
| InstanceBinding.PollStepNeverReopens | components/templates/ArrayFieldItemTemplateCustom.tsx:63-76 | a poll never reopens the dialog nor brings back a task, and it stops the interval exactly when the answer ends the watch or no task was watched |
| InstanceBinding.WatchKeptWithoutEndingAnswer | components/templates/ArrayFieldItemTemplateCustom.tsx:59-84 | while no answer is SUCCESS or PENDING, every tick polls and the watch is unchanged |
| InstanceBinding.WatchClosedAfterEndingAnswer | components/templates/ArrayFieldItemTemplateCustom.tsx:59-84 | once an answer is SUCCESS or PENDING, the dialog stays closed and the task stays forgotten |
| InstanceBinding.RequestsUpToFirstEndingAnswer | components/templates/ArrayFieldItemTemplateCustom.tsx:59-84 | polling makes exactly one request per answer up to and including the first ending one |
| InstanceBinding.WatchEndsAtFirstEndingAnswer | components/templates/ArrayFieldItemTemplateCustom.tsx:59-84 | the watch ends exactly when some answer is SUCCESS or PENDING; with none it never ends and every tick polls; polling stops right after the first ending answer |
| InstanceBinding.InstanceItem.constructor | components/templates/ArrayFieldItemTemplateCustom.tsx:52-57 | all dialogs closed, no task |
| InstanceBinding.InstanceItem.BindWhatsapp | components/templates/ArrayFieldItemTemplateCustom.tsx:86-94 | the dialog opens before the request; the returned task id is stored; a failure leaves the dialog open and the task as it was |
| InstanceBinding.InstanceItem.Tick | components/templates/ArrayFieldItemTemplateCustom.tsx:62-76 | one interval firing, only while a task id is set: one status request for that task, then the poll step |
| InstanceBinding.InstanceItem.SetInstanceDialogOpen | components/templates/ArrayFieldItemTemplateCustom.tsx:101 | the progress dialog's own open/close |
| InstanceBinding.InstanceItem.SetQrDialogOpen | components/templates/ArrayFieldItemTemplateCustom.tsx:102 | the QR dialog's open/close |
| InstanceBinding.InstanceItem.SetCodeDialogOpen | components/templates/ArrayFieldItemTemplateCustom.tsx:103 | the code dialog's open/close |
| InstanceBinding.ToolbarOf | components/templates/ArrayFieldItemTemplateCustom.tsx:112-169 | a GreenApiData item shows exactly one of "create instance" or "code and QR", by whether it has an instance id; the instance buttons are never disabled; readonly or disabled locks move, copy and remove; the two move buttons show together |
| ApiSession.WithAuthorization | services/api/api-manager.ts:22-27 | with a truthy token, Authorization is `Bearer <token>` and every other header is kept; otherwise the headers are untouched |
| ApiSession.AuthorizationCarriesToken | services/api/api-manager.ts:24 | the header the interceptor sets reads back to the session's token |
| ApiSession.ApiManager.constructor | services/api/api-manager.ts:6-28 | no current user; the token comes from storage in the browser only |
| ApiSession.ApiManager.SetToken | services/api/api-manager.ts:32-37 | the token is t, and is stored in the browser |
| ApiSession.ApiManager.RemoveToken | services/api/api-manager.ts:38-43 | no token, and it is removed from browser storage; a second call changes nothing more |
| ApiSession.ApiManager.GetCurrentUser | services/api/api-manager.ts:45-47 | returns the cached user |
| ApiSession.ApiManager.SetCurrentUser | services/api/api-manager.ts:49-51 | caches the user and touches nothing else |
| Numbers.IntTextRoundTrip | services/api/orderManager.ts:12 | an integer rendered into a URL reads back as itself |
| Numbers.IntTextHasNoDelimiter | services/api/orderManager.ts:12 | a rendered integer contains no `&`, `=`, `?` or `/` |
| OrderUrls.OrdersUrlShape | services/api/orderManager.ts:12-13 | the list URL is `/orders/?` followed by its parameters joined with `&` |
| OrderUrls.OrdersUrlParams | services/api/orderManager.ts:11-16 | the path is `/orders/`; the parameters are skip, limit, user_id and, exactly when the group is truthy, group_id |
| OrderUrls.OrderByCodeUrlPath | services/api/orderManager.ts:18-21 | the code, inserted unescaped, is the last path segment, provided it holds no `?` or `/` |
| OrderUrls.OrderByCodeUrlParams | services/api/orderManager.ts:18-21 | a code search carries the same skip, limit and user_id parameters, provided the code holds no `?` |
| OrderUrls.CreateOrderUrlParts | services/api/orderManager.ts:6-9 | the create path is `/users/{id}/orders/`, and its segment 2 reads back as the user id |

## Left out

- Rendering, styling, routing and navigation are left out. Navigation is kept only as `location` in `CreateFlow`.
- The form library's rendering and its AJV validation are left out. Create's validator verdict is a parameter (`valid`).
- Timers are left out: the 300 ms debounce, the 2-second interval and the `setTimeout` caret and focus calls. Each debounce, tick and fetch completion is one discrete step, with no real time and no interleaving of asynchronous React state updates.
- Console logging is left out.
- HTTP requests, local storage and the Axios interceptor chain are left out. Each answer is a parameter, each request is recorded in a log field, and the stored token is a field.
- services/index.ts and services/api-manager.ts are not part of this model. They wire the dashboards to an older client whose `getOrders` takes no customer or status. The dashboards are modelled by the query they ask for.
- The thin endpoint wrappers (user, template, billing plan, order group, task and auth managers) are not part of this model.
- The auth context, the login page and the code and QR dialogs are not part of this model. They fetch and show.
- Locale- and date-based comparators (`localeCompare`, `getTime`) and the numeric id and code comparators are left out.
- The 'chats today' badge (app/client/page.tsx:152-154) applies the same rule as `ClientList.Counter`. Its fields (`count_new_chats`, `limit_new_chats_per_day`) are not declared in types/user.ts, so `Entities.User` does not carry them.
- The selection keys are `string | number` converted with `Number`. They are modelled as integer positions. Keys that convert to NaN or to fractions fall under "out of range", which throws like any other.
- ReviewsPage.RatingColour: a rating is a real number, so NaN, which JavaScript colours "danger", is not modelled.
- TemplateText.Splice, TemplateText.SpliceReplacesSelection, TemplateText.SpliceUndo, TemplateText.TemplateTextarea.InsertText, TemplateText.TemplateTextarea.ClickShortcut, DetailFlow.DetailView.InsertText, DetailFlow.DetailView.ChoosePath: offsets and lengths count characters (code points). The browser's `selectionStart`/`selectionEnd`, `substring` and `.length` count UTF-16 code units, so these hold only for text without characters outside the Basic Multilingual Plane (emoji, for instance). Text that holds such characters, and a selection that splits a surrogate pair, are not modelled.
- ClientList.Counter, ClientList.FlagCompare, OrdersPage.IsSendedCompare: `Option.None` stands for both `undefined` and JSON `null`. The `===` in these comparisons tells the two apart (a `null` count against an `undefined` limit is not equal), and the model does not.
- Integers are unbounded. JavaScript numbers past 2^53 and their exponent notation in template strings are not modelled.
- OrderUrls: no URL encoding is modelled, because the code builds paths unescaped. The lemmas that read a URL back need its values to be free of `&`, `?` or `/`. The defaults (skip 0, limit 100, no group) are the functions' own default parameters, with no separate lemma.
- BulkSelection.DeletedIds: its own contract states only a length bound. What it means is fixed by `RemoveSelected`, whose postcondition ties the ids sent to it.
- Bulk actions stop at the first failure, because one `try` wraps the whole loop. The selection is cleared only after a full run. This follows the code; a continue-on-error reading of these actions is not what the code does.
- Stop/start: a refetch failure is swallowed by `fetchUsers`, so a full run clears the selection even then. This follows the code.
- InstanceBinding: PENDING ends the watch exactly like SUCCESS, and FAILURE polls forever. This follows the code as written. Interval clean-up on unmount is the absence of further ticks.

## Scenario checks

Four methods replay a short sequence of events on the model, and their assertions check the state
at each step: `OrdersPage.StatusChangeOnLaterPageAppends`, `BillingPlans.RemoveOne`,
`InstanceBinding.BindThenPoll` and `ApiSession.SessionLifecycle`. They have no postcondition, so they
have no row in the table above.

## Findings

| source | as written | input that shows it | evidently intended | confidence | as-written member | corrected member |
|---|---|---|---|---|---|---|
| components/OrdersDashboard.tsx:145 | `a.is_sended === b.is_sended ? 0 : a.is_sended ? 1 : -1` compares the raw optional flags | an order with `is_sended` absent and one with `is_sended: false`: each compares as smaller than the other | compare by truthiness, as the `has_review` column does with `!!` | not executed; follows from the comparator's text | OrdersPage.IsSendedCompare, OrdersPage.IsSendedCompareNotAntisymmetric | OrdersPage.IsSendedCompareByTruthiness, OrdersPage.IsSendedCompareByTruthinessAntisymmetric |
| app/client/page.tsx:80 | `a.f === b.f ? 0 : a.f ? -1 : 1` for `authorized`, `disable` and `test` (lines 80, 98, 116) | a user with the flag absent and one with it `false`: each compares as larger than the other | compare by truthiness, set flags first | not executed; follows from the comparator's text | ClientList.FlagCompare, ClientList.FlagCompareNotAntisymmetric | ClientList.FlagCompareByTruthiness, ClientList.FlagCompareByTruthinessAntisymmetric |
