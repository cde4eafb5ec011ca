# Smart form prediction: a verified model of its record tables

This project models the in-memory bookkeeping of the smart form prediction system.
Each part keeps an ordered list or a map of records. It looks records up by id, appends,
replaces at an index, splices, filters, renumbers and counts. The parts are:

- **Backend form registry and submission ledger** (`Forms.FormsService`).
  - Form configurations, created, updated and removed with `NotFound` errors.
  - Field orders derived as "given order, else position + 1".
  - An append-only submission list, with queries by user and by form.
  - A field's value history, and per-user and per-form submission counts.
- **Backend user directory** (`Users.UsersService`). The same create/update/remove pattern, "keep unless provided" merging, and active/inactive totals.
- **Frontend form store** (`FormStores.FormStore`). Selection of a form, and edits of the selected form's field list: append, patch by id, remove and renumber, reorder by id list. Also the entered values, submission, the required-field check and the 2/10 field-count guards.
- **Frontend user store** (`UserStores.UserStore`). A user list with a current-user pointer that stays on a stored user through every edit.
- **Frontend prediction store** (`Predictions.PredictionStore`). A map from field id to prediction result, filled from a fixed candidate table. It also keeps a training flag, a progress value and a model version counter.
- **Frontend app store** (`App.AppStore`). Theme, locale, error, sidebar and page state, and a notification list.
- **WebAssembly predictor** (`MlEngine.FormPredictor`). Training records, a trained flag, and `predict`, which collects a user's values for a field, sorts them, drops repeats and keeps five.

Conventions:

- Ids and timestamps, which the system generates from the clock and a random source, are parameters.
- Ids are never assumed unique: every lookup is first-match, last-match for the `Map` that `reorderFields` builds, or filter-all, as in the source.
- `undefined`/`null` inputs and optional keys are `Option`s.
- Thrown errors and Rust `Err` returns are `Result`/`Outcome` values.
- Confidences are integers in hundredths (0.8 is 80).

The JSON data files of the backend services become class fields: each call works on the whole list, as loading it and saving it back does.
Shared pieces live in `Outcomes` (Option/Result), `Seqs` (order-preserving filter, first-match search, count dictionaries) and `FormTypes` (field, form and submission records, and the submission queries both the backend and the frontend run).

## Model

| member | source | states |
|---|---|---|
| Seqs.Filter | backend/src/modules/forms/forms.service.ts:256-260 | `Array.filter`: the result holds exactly the elements that pass, and is no longer than the input |
| Seqs.FilterAppend | backend/src/modules/forms/forms.service.ts:256-260 | the filter of `a + b` is the filter of `a` followed by the filter of `b`: kept elements stay in their order, with their repeats |
| Seqs.FilterCons | frontend/src/stores/AppStore.ts:127 | the filter of `[x] + s` is `x` (when it passes) followed by the filter of `s` |
| Seqs.FilterMultiset | frontend/src/stores/UserStore.ts:157 | every passing element occurs in the result as often as in the input, every other element not at all |
| Seqs.FilterFilter | backend/src/modules/forms/forms.service.ts:270-274 | filtering by p and then by q equals filtering once by "p and q" |
| Seqs.FilterSplit | backend/src/modules/users/users.service.ts:173-174 | the elements that pass p and the elements that pass not-p add up to the whole list |
| Seqs.FindIndex | backend/src/modules/forms/forms.service.ts:193 | `findIndex`: -1 exactly when nothing matches; otherwise the index of the first match |
| Seqs.Find | frontend/src/stores/UserStore.ts:66 | `find`: absent exactly when nothing matches; otherwise the first match |
| Seqs.FindIndexAfterUpdate | backend/src/modules/forms/forms.service.ts:212 | writing a record that still has the id at the found index leaves the first-match index unchanged |
| Seqs.SpliceFilterLength | backend/src/modules/forms/forms.service.ts:226 | `splice(i, 1)` removes exactly one of the matching records when `s[i]` matches |
| Seqs.Tally | backend/src/modules/forms/forms.service.ts:299-302 | the count dictionary has a key exactly for the values that occur, and holds each value's number of occurrences |
| Seqs.TallySnoc | backend/src/modules/forms/forms.service.ts:300-301 | one more element raises its key's count by one (`(m[k] \|\| 0) + 1`) and changes no other key |
| Seqs.TallySum | backend/src/modules/forms/forms.service.ts:299-309 | the counts of a count dictionary add up to the length of the list |
| Seqs.CountIsFilterLength | backend/src/modules/forms/forms.service.ts:256-260 | a key's count equals the length of the list filtered to that key |
| FormTypes.SubmissionsByUser | backend/src/modules/forms/forms.service.ts:256-261 | exactly the submissions of the user; in submission order and with repeats by Seqs.FilterAppend and Seqs.FilterMultiset |
| FormTypes.SubmissionsByForm | backend/src/modules/forms/forms.service.ts:263-268 | exactly the submissions of the form; in submission order and with repeats by Seqs.FilterAppend and Seqs.FilterMultiset |
| FormTypes.SubmissionsByUserAndForm | backend/src/modules/forms/forms.service.ts:270-275 | exactly the submissions of that user for that form |
| FormTypes.ByUserAndFormNarrowsBoth | backend/src/modules/forms/forms.service.ts:256-275 | the by-user-and-form query is the by-user query narrowed to the form, and also the by-form query narrowed to the user |
| FormTypes.Project | backend/src/modules/forms/forms.service.ts:282 | one value per submission, in order: the submission's value under the name, `undefined` when the key is missing |
| FormTypes.FieldHistory | backend/src/modules/forms/forms.service.ts:278-284 | every value is present (not undefined, null or ''), and there are no more values than the user has submissions |
| FormTypes.FieldHistoryMembers | backend/src/modules/forms/forms.service.ts:278-284 | a value is in the history exactly when it is present and some submission of the user holds it under the field name |
| FormTypes.ProjectAppend | backend/src/modules/forms/forms.service.ts:282 | projection distributes over concatenation |
| FormTypes.FieldHistoryAppend | backend/src/modules/forms/forms.service.ts:245 | a new submission adds its value to the end of its user's history when the value is present, and changes nothing else |
| Forms.DeriveOrders | backend/src/modules/forms/forms.service.ts:177-180 | same length and field sequence, every attribute kept; order is the given one, else position + 1 |
| Forms.DeriveOrdersContiguous | backend/src/modules/forms/forms.service.ts:204-207 | a request in which no field gives an order yields orders 1..N |
| Forms.NewConfig | backend/src/modules/forms/forms.service.ts:173-183 | the new configuration carries the given id, name, description and derived fields, and both timestamps are now |
| Forms.UpdatedConfig | backend/src/modules/forms/forms.service.ts:199-210 | keeps id and createdAt; replaces name, description and fields only when they are provided; updatedAt is now |
| Forms.TallyByUserCounts | backend/src/modules/forms/forms.service.ts:299-300 | the per-user count of a user is the length of that user's submission list |
| Forms.TallyByFormCounts | backend/src/modules/forms/forms.service.ts:299-301 | the per-form count of a form is the length of that form's submission list |
| Forms.FormsService.constructor | backend/src/modules/forms/forms.service.ts:115-142 | the service works on the lists a load returns (empty when the file cannot be read) |
| Forms.FormsService.FindConfigById | backend/src/modules/forms/forms.service.ts:159-168 | NotFound exactly when no configuration has the id; otherwise the first configuration with it |
| Forms.FormsService.CreateConfig | backend/src/modules/forms/forms.service.ts:170-188 | appends exactly one configuration and keeps every earlier one; a fresh id is then found |
| Forms.FormsService.UpdateConfig | backend/src/modules/forms/forms.service.ts:191-215 | NotFound with nothing stored when no configuration has the id; otherwise only the found index changes, and the id then finds the updated configuration |
| Forms.FormsService.RemoveConfig | backend/src/modules/forms/forms.service.ts:218-227 | NotFound with nothing stored when no configuration has the id; otherwise exactly the first match is removed, the rest keep their order, and one fewer configuration has the id |
| Forms.FormsService.SubmitForm | backend/src/modules/forms/forms.service.ts:231-248 | NotFound with nothing stored for an unknown form; otherwise appends one submission carrying the given user, form and data |
| Forms.FormsService.GetFormStats | backend/src/modules/forms/forms.service.ts:287-310 | totals, and the per-user and per-form count dictionaries the loop fills in; each dictionary's counts add up to the number of submissions |
| Users.NewUser | backend/src/modules/users/users.service.ts:107-114 | isActive defaults to true; an empty email is dropped (`email \|\| undefined`) |
| Users.UpdatedUser | backend/src/modules/users/users.service.ts:130-137 | keeps id and createdAt; replaces name, email and isActive only when provided, an empty email included |
| Users.ActiveUsers | backend/src/modules/users/users.service.ts:158-161 | exactly the active users; in stored order by Seqs.FilterAppend |
| Users.Stats | backend/src/modules/users/users.service.ts:163-176 | total = active + inactive, active <= total, inactive is the number of inactive users |
| Users.UsersService.constructor | backend/src/modules/users/users.service.ts:69-77 | the directory works on the list a load returns (empty when the file cannot be read) |
| Users.UsersService.FindOne | backend/src/modules/users/users.service.ts:93-102 | NotFound exactly when no user has the id; otherwise the first user with it |
| Users.UsersService.Create | backend/src/modules/users/users.service.ts:104-119 | appends exactly one user and keeps every earlier one; a fresh id is then found |
| Users.UsersService.Update | backend/src/modules/users/users.service.ts:121-143 | NotFound with nothing stored for an unknown id; otherwise only the found index changes, and the id then finds the updated user |
| Users.UsersService.Remove | backend/src/modules/users/users.service.ts:145-156 | NotFound with nothing stored for an unknown id; otherwise exactly the first match is removed, the rest keep their order, and the length drops by one |
| FormStores.PatchConfig | frontend/src/stores/FormStore.ts:132-136 | every provided key replaces the configuration's, the others are kept, and updatedAt is now |
| FormStores.PatchField | frontend/src/stores/FormStore.ts:179 | every provided key replaces the field's, the others are kept |
| FormStores.ConfigsAfterUpdate | frontend/src/stores/FormStore.ts:130-136 | an unknown id leaves the list unchanged; otherwise only the first match is patched |
| FormStores.CurrentAfterUpdate | frontend/src/stores/FormStore.ts:137-139 | the selection is re-pointed to the patched entry exactly when it had the id and the id was found |
| FormStores.AppendField | frontend/src/stores/FormStore.ts:164-170 | the old fields unchanged, followed by the new field with the new id and order length + 1; orders 1..N become 1..N+1 |
| FormStores.Renumber | frontend/src/stores/FormStore.ts:191 | the same fields in the same sequence, with orders exactly 1..N |
| FormStores.WithoutField | frontend/src/stores/FormStore.ts:189-191 | the fields without the id, renumbered 1..N, the i-th kept field at position i (order of the kept fields by Seqs.FilterAppend); as many fewer fields as had the id |
| FormStores.PatchFields | frontend/src/stores/FormStore.ts:178-180 | same count; only fields with the id change, each by the patch |
| FormStores.LastWithId | frontend/src/stores/FormStore.ts:200 | a lookup in a map built from the fields finds the last field with the id, since later entries overwrite earlier ones |
| FormStores.Resolve | frontend/src/stores/FormStore.ts:200-203 | one field of the form per known id, in the order of the id list; unknown ids are dropped; for an id several fields share, the last of them, as the `Map` keeps it |
| FormStores.Reordered | frontend/src/stores/FormStore.ts:200-204 | the known ids' fields in the given order, at most one per given id, renumbered 1..k; each is the last field with its id |
| FormStores.ReorderedAllKnown | frontend/src/stores/FormStore.ts:197-204 | when every id names a field, the new list follows the id list exactly |
| FormStores.InsertByOrder | frontend/src/stores/FormStore.ts:285 | insertion into a list sorted by order keeps it sorted and adds exactly the one field |
| FormStores.SortByOrder | frontend/src/stores/FormStore.ts:285 | the sort compares `a.order - b.order`: the same fields (as a multiset), ascending by order |
| FormStores.InsertByOrderStable | frontend/src/stores/FormStore.ts:285 | the inserted field goes in front of the fields of equal order, which keep their sequence |
| FormStores.SortByOrderStable | frontend/src/stores/FormStore.ts:285 | the sort is stable: for every order value, the fields with that order come out in the sequence they went in |
| FormStores.RequiredPresentAfterSet | frontend/src/stores/FormStore.ts:288-296 | entering a present value never makes a valid form invalid |
| FormStores.RequiredMissingAfterClear | frontend/src/stores/FormStore.ts:288-296 | clearing a required field's value makes the form invalid |
| FormStores.RequiredPresentOnEmpty | frontend/src/stores/FormStore.ts:288-296 | with no values entered, a form is valid exactly when it has no required field |
| FormStores.DefaultFields | frontend/src/stores/FormStore.ts:25-62 | the four default fields have orders 1..4 |
| FormStores.DefaultForm | frontend/src/stores/FormStore.ts:21-65 | the default form has id `default_form` and the default fields |
| FormStores.FormStore.constructor | frontend/src/stores/FormStore.ts:67-68 | the store starts with the default form, selected, and nothing entered or submitted |
| FormStores.FormStore.CreateFormConfig | frontend/src/stores/FormStore.ts:94-119 | appends the new configuration and selects it |
| FormStores.FormStore.UpdateFormConfig | frontend/src/stores/FormStore.ts:122-149 | the list and the selection become ConfigsAfterUpdate and CurrentAfterUpdate; nothing else changes |
| FormStores.FormStore.SelectFormConfig | frontend/src/stores/FormStore.ts:152-158 | selects the first form with the id and clears the entered values; an unknown id changes nothing |
| FormStores.FormStore.AddField | frontend/src/stores/FormStore.ts:161-172 | a no-op without a selection; otherwise the selected form's fields become AppendField of them |
| FormStores.FormStore.UpdateField | frontend/src/stores/FormStore.ts:175-183 | a no-op without a selection; otherwise the selected form's fields become PatchFields of them |
| FormStores.FormStore.RemoveField | frontend/src/stores/FormStore.ts:186-194 | a no-op without a selection; otherwise the selected form's fields become WithoutField of them |
| FormStores.FormStore.ReorderFields | frontend/src/stores/FormStore.ts:197-207 | a no-op without a selection; otherwise the selected form's fields become Reordered of them |
| FormStores.FormStore.SetFormValue | frontend/src/stores/FormStore.ts:210-212 | sets one entered value and changes no other |
| FormStores.FormStore.ResetFormData | frontend/src/stores/FormStore.ts:215-217 | clears the entered values |
| FormStores.FormStore.SubmitForm | frontend/src/stores/FormStore.ts:220-250 | fails, changing nothing, without a selection; otherwise appends one submission holding a copy of the entered values, then clears them |
| FormStores.FormStore.SortedFields | frontend/src/stores/FormStore.ts:284-286 | the selected form's fields ascending by order, as a permutation, with fields of equal order in their stored sequence (a stable sort); none without a selection |
| FormStores.FormStore.IsFormValid | frontend/src/stores/FormStore.ts:288-296 | true exactly when a form is selected and every required field has a present value |
| FormStores.FormStore.FieldCount | frontend/src/stores/FormStore.ts:298-300 | the selected form's field count, 0 without a selection |
| FormStores.FormStore.CanAddField | frontend/src/stores/FormStore.ts:302-304 | true exactly when there are fewer than 10 fields |
| FormStores.FormStore.CanRemoveField | frontend/src/stores/FormStore.ts:306-308 | true exactly when there are more than 2 fields |
| FormStores.FormStore.GetUserSubmissions | frontend/src/stores/FormStore.ts:310-312 | the same list as the backend's by-user query, so exactly the user's submissions, in submission order |
| FormStores.FormStore.GetFieldSubmissionHistory | frontend/src/stores/FormStore.ts:314-318 | the same field history as the backend's, over the store's submissions |
| UserStores.PatchUser | frontend/src/stores/UserStore.ts:108 | every provided key replaces the user's, the others are kept |
| UserStores.DefaultUsers | frontend/src/stores/UserStore.ts:19-38 | three active users with emails, ids user1..user3 |
| UserStores.FirstOf | frontend/src/stores/UserStore.ts:134 | `users[0] ?? null`: nobody exactly when the list is empty, otherwise its first user |
| UserStores.NameOrPlaceholder | frontend/src/stores/UserStore.ts:160-162 | the user's name, or the fixed placeholder without a user |
| UserStores.WithoutUser | frontend/src/stores/UserStore.ts:132 | exactly the users without the id; as many fewer as had the id |
| UserStores.WithoutUnknownUser | frontend/src/stores/UserStore.ts:132 | deleting an id no user has keeps the list |
| UserStores.UserStore.constructor | frontend/src/stores/UserStore.ts:12-40 | the default users, the first one current, and the current user is a stored one |
| UserStores.UserStore.SelectUser | frontend/src/stores/UserStore.ts:65-70 | current becomes the first user with the id, and stays as it was when there is none |
| UserStores.UserStore.AddUser | frontend/src/stores/UserStore.ts:73-95 | appends exactly one user; the others and the current user are kept |
| UserStores.UserStore.UpdateUser | frontend/src/stores/UserStore.ts:98-121 | patches only the first user with the id and re-points current when it had the id; an unknown id changes nothing; current stays a stored user |
| UserStores.UserStore.DeleteUser | frontend/src/stores/UserStore.ts:124-144 | removes every user with the id; a deleted current user is replaced by the first remaining user or nobody; current stays a stored user |
| UserStores.UserStore.ActiveUsers | frontend/src/stores/UserStore.ts:156-158 | exactly the active users; in stored order by Seqs.FilterAppend |
| UserStores.UserStore.CurrentUserName | frontend/src/stores/UserStore.ts:160-162 | the current user's name or the placeholder |
| UserStores.UserStore.HasUsers | frontend/src/stores/UserStore.ts:164-166 | true exactly when the list is non-empty |
| Predictions.MockCandidates | frontend/src/stores/PredictionStore.ts:61-85 | candidates exactly for username, email, age and gender, none otherwise; at most three, in non-increasing confidence |
| Predictions.LoadingEntry | frontend/src/stores/PredictionStore.ts:158-168 | the loading flag as given, the previous candidates (or none), and the previous error when it is a non-empty message |
| Predictions.SuccessEntry | frontend/src/stores/PredictionStore.ts:42-46 | the table's candidates, not loading, no error |
| Predictions.LoadingOf | frontend/src/stores/PredictionStore.ts:188-190 | false for a field without an entry |
| Predictions.CandidatesOf | frontend/src/stores/PredictionStore.ts:192-194 | the entry's candidates, none without an entry |
| Predictions.HasCandidates | frontend/src/stores/PredictionStore.ts:196-199 | true exactly when an entry exists with at least one candidate |
| Predictions.ActiveKeys | frontend/src/stores/PredictionStore.ts:213-215 | the field ids whose entries have candidates, a subset of all entries |
| Predictions.ActiveAtMostTotal | frontend/src/stores/PredictionStore.ts:209-215 | entries with candidates are at most all entries |
| Predictions.LoadingKeepsCandidates | frontend/src/stores/PredictionStore.ts:158-168 | marking an entry as loading does not change which fields have candidates |
| Predictions.SuccessOutcome | frontend/src/stores/PredictionStore.ts:39-46 | after a prediction the field has candidates exactly for a known field name, and is not loading |
| Predictions.PredictionStore.constructor | frontend/src/stores/PredictionStore.ts:7-11 | no entries, not training, progress 0, version 0 |
| Predictions.PredictionStore.SetPredictionLoading | frontend/src/stores/PredictionStore.ts:158-169 | only the field's entry changes, to LoadingEntry |
| Predictions.PredictionStore.GetPrediction | frontend/src/stores/PredictionStore.ts:18-58 | only the field's entry changes, to the success entry; it has candidates exactly for a known name |
| Predictions.PredictionStore.TrainModel | frontend/src/stores/PredictionStore.ts:88-119 | the progress loop runs; then the version rises by exactly one, training stops, progress is 100 and there is no error |
| Predictions.PredictionStore.ClearPrediction | frontend/src/stores/PredictionStore.ts:122-124 | only that field's entry is removed |
| Predictions.PredictionStore.ClearAllPredictions | frontend/src/stores/PredictionStore.ts:127-129 | no entries remain |
| Predictions.PredictionStore.GetPredictionResult | frontend/src/stores/PredictionStore.ts:184-186 | the entry, absent exactly when there is none |
| Predictions.PredictionStore.IsPredictionLoading | frontend/src/stores/PredictionStore.ts:188-190 | the entry's flag, false without an entry |
| Predictions.PredictionStore.GetPredictionCandidates | frontend/src/stores/PredictionStore.ts:192-194 | the entry's candidates, none without an entry |
| Predictions.PredictionStore.HasPrediction | frontend/src/stores/PredictionStore.ts:196-199 | an entry exists and has candidates |
| Predictions.PredictionStore.TotalPredictions | frontend/src/stores/PredictionStore.ts:209-211 | the number of entries |
| Predictions.PredictionStore.ActivePredictions | frontend/src/stores/PredictionStore.ts:213-215 | the number of entries with candidates, never more than the total |
| App.Toggled | frontend/src/stores/AppStore.ts:70-72 | the other theme |
| App.ToggleTwice | frontend/src/stores/AppStore.ts:70-72 | toggling twice restores the theme |
| App.WithoutNotification | frontend/src/stores/AppStore.ts:126-128 | exactly the notifications without the id |
| App.RemoveUndoesShow | frontend/src/stores/AppStore.ts:98-128 | removing a notification just shown under a fresh id restores the earlier list |
| App.Recent | frontend/src/stores/AppStore.ts:183-185 | `slice(-5)`: the last min(5, n) notifications, in order |
| App.RecentEndsWithNewest | frontend/src/stores/AppStore.ts:183-185 | the newest notification is the last one in the recent window |
| App.AppStore.constructor | frontend/src/stores/AppStore.ts:6-25 | light theme, zh-CN, no error, no notifications, sidebar open, page `/` |
| App.AppStore.SetTheme | frontend/src/stores/AppStore.ts:65-68 | the theme becomes the given one |
| App.AppStore.ToggleTheme | frontend/src/stores/AppStore.ts:70-72 | light and dark swap |
| App.AppStore.SetLocale | frontend/src/stores/AppStore.ts:75-78 | the locale becomes the given one |
| App.AppStore.SetLoading | frontend/src/stores/AppStore.ts:81-83 | the loading flag becomes the given one |
| App.AppStore.SetError | frontend/src/stores/AppStore.ts:86-91 | records the error; appends one error notification exactly for a non-empty message |
| App.AppStore.ClearError | frontend/src/stores/AppStore.ts:93-95 | no error |
| App.AppStore.ShowNotification | frontend/src/stores/AppStore.ts:98-124 | appends exactly one notification with the given type, title, message and duration, and returns its id |
| App.AppStore.ShowError | frontend/src/stores/AppStore.ts:154-156 | an error notification shown for 6000 ms |
| App.AppStore.RemoveNotification | frontend/src/stores/AppStore.ts:126-128 | drops every notification with the id, keeping the rest in order |
| App.AppStore.ClearAllNotifications | frontend/src/stores/AppStore.ts:130-132 | empties the list |
| App.AppStore.SetSidebarCollapsed | frontend/src/stores/AppStore.ts:135-138 | the sidebar flag becomes the given one |
| App.AppStore.ToggleSidebar | frontend/src/stores/AppStore.ts:140-142 | negates the sidebar flag |
| App.AppStore.SetCurrentPage | frontend/src/stores/AppStore.ts:145-147 | the page becomes the given one |
| App.AppStore.IsDarkTheme | frontend/src/stores/AppStore.ts:167-169 | true exactly for the dark theme |
| App.AppStore.HasNotifications | frontend/src/stores/AppStore.ts:175-177 | true exactly when the list is non-empty |
| App.AppStore.UnreadNotifications | frontend/src/stores/AppStore.ts:179-181 | the list's length |
| App.AppStore.RecentNotifications | frontend/src/stores/AppStore.ts:183-185 | at most five, ending with the newest |
| MlEngine.StrLeTotal | ml-engine/src/lib.rs:143 | the string order `sort` uses is total |
| MlEngine.StrLeAntisymmetric | ml-engine/src/lib.rs:143 | the string order is antisymmetric |
| MlEngine.StrLeTransitive | ml-engine/src/lib.rs:143 | the string order is transitive |
| MlEngine.InsertString | ml-engine/src/lib.rs:143 | insertion into a sorted list keeps it sorted and adds exactly the one string |
| MlEngine.SortStrings | ml-engine/src/lib.rs:143 | `sort`: the same strings (as a multiset), ascending |
| MlEngine.Dedup | ml-engine/src/lib.rs:144 | `dedup`: the same set of values; on a sorted list, each value once, strictly ascending |
| MlEngine.FieldMatches | ml-engine/src/lib.rs:133-138 | exactly the non-empty values the record holds for the field |
| MlEngine.Matches | ml-engine/src/lib.rs:131-140 | exactly the values some record of the user holds, non-empty, for the field |
| MlEngine.DistinctMatches | ml-engine/src/lib.rs:143-144 | the stored values, each once, strictly ascending |
| MlEngine.PredictOutput | ml-engine/src/lib.rs:127-156 | the first min(5, distinct) of the distinct stored values in ascending order, so exactly five when more than five are stored: strictly ascending, the smallest ones, all of them when there are at most five; one score per raw match, cut to five only with the candidates |
| MlEngine.ScoresOutnumberCandidates | ml-engine/src/lib.rs:136-149 | a record holding one value twice yields one candidate and two scores |
| MlEngine.FormPredictor.constructor | ml-engine/src/lib.rs:69-77 | no training data, not trained |
| MlEngine.FormPredictor.AddTrainingData | ml-engine/src/lib.rs:81-94 | appends exactly the parsed record; a parse failure is an error and stores nothing |
| MlEngine.FormPredictor.TrainModel | ml-engine/src/lib.rs:98-115 | fails, changing nothing, without data; otherwise the model is trained; a trained model always has data |
| MlEngine.FormPredictor.Predict | ml-engine/src/lib.rs:119-162 | fails before training; otherwise the nested loops, sort, dedup and truncate yield PredictOutput |
| MlEngine.FormPredictor.GetStats | ml-engine/src/lib.rs:166-173 | the record count and the trained flag; a trained predictor reports at least one record |

## Left out

- Persistence is not modelled: the backend's JSON file reads and writes, the data-directory setup, and the default-data seeding its constructors start. Each service works on its lists as class fields.
- `findAll`, `findAllConfigs` and `findAllSubmissions` are not modelled; they return copies of the stored list.
- The frontend `fetchFormConfigs`, `fetchUserSubmissions` and `fetchUsers` are not modelled. They only set the loading flag, reset `error` to null, wait on a timer and clear the loading flag.
- Network calls, MobX wiring, React components and `console` output are not modelled.
- `selectCandidate` and `rejectPrediction` are not modelled: they only log.
- `showSuccess`, `showWarning`, `showInfo`, `isChineseLocale` and `appState` are not modelled separately. The first three are `ShowNotification` with a fixed type and the default duration; the last two read fields.
- Timers are not modelled: the delays in `getPrediction`, `trainModel` and the fetch methods, and the automatic removal of notifications after their duration.
- Asynchronous interleaving is not modelled. Methods are taken as running to completion one at a time, so the intermediate states of `getPrediction` and `trainModel` are only visible inside the methods.
- The `catch` branches of the frontend stores are not modelled. No statement in their `try` blocks can throw, so only the success path is.
- `localStorage` loading and saving of the app settings is not modelled; the store starts from its defaults.
- The ids and timestamps produced from `Date.now()`, `Math.random()` and `new Date().toISOString()` are parameters. A create that the source stamps twice gets one `now` for both timestamps.
- Predictions.MockCandidates: a field name that is also a member of every JavaScript object (such as `constructor`) is treated as unknown. The source's record lookup would return that member instead of the empty list.
- FormTypes.Lookup: the same caveat applies to field names in submission data.
- Forms.FormsService.GetFormStats: the count dictionaries are plain objects counted with `(m[k] || 0) + 1`. A user or form id that names a member every JavaScript object has (such as `constructor` or `toString`) starts from that member instead of 0, so its count becomes a string; a `__proto__` id is never stored as a key. The model counts such ids like any other, so its promise that the counts add up to the number of submissions does not hold for the program when such ids occur.
- FormTypes.Value: submission data is arbitrary JSON, but the model's values are integers, strings, booleans, string lists, `null` and `undefined`. Fractional numbers and nested objects are not represented. No operation of the core computes on these values beyond comparing them with `undefined`, `null` and `''`.
- Confidences are integers in hundredths rather than floating-point numbers.
- A patch key that is present but explicitly `undefined` is treated as absent, although the source's object spread would copy it.
- The frontend field's optional `value` key is not modelled.
- Serde JSON parsing and serialisation in the predictor are not modelled. A record that fails to parse is `None`, and the prediction is returned as a value instead of a JSON string; serialising it cannot fail.
- MlEngine.FormPredictor.GetStats: `get_stats` returns a JSON string built with `format!`. The model returns the record count and the trained flag as a `Stats` value instead of that text.
- The wasm bindings and the panic hook are not modelled.
- The backend DTO validation annotations and the NestJS controllers are not modelled.
