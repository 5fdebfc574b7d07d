# Portfolio site: project list editor and admin gate

A model of the two stateful parts of a game developer's portfolio site.

The first is the admin panel's **project list editor**. It holds an ordered list of
project records and an in-progress draft form. A record is created by prepending
it, updated in place by id with a field merge, and deleted by id. The draft's
tags are added (trimmed) and removed. Two generators write only into the draft:
one for a description and one for an image.

The second is the **application shell**. It holds the current view
(home, portfolio, admin), the login gate (`isAuthenticated`, `loginPassword`,
`loginError`), and the project list. The list is loaded from browser storage,
falls back to the seed list, and is written back after changes.

Layout:

- `types.dfy` (`Types`): the `Project` record, with `link` and `status` as `Option`s. Also its category and status enumerations and the view state.
- `constants.dfy` (`Constants`): the three seed records.
- `js_string.dfy` (`JsString`): JavaScript's `trim`, using the ECMAScript white-space set, and `join`.
- `js_array.dfy` (`JsArray`): JavaScript's `filter` and `map`, and a subsequence predicate for "order kept".
- `project_list.dfy` (`ProjectList`): the draft, the placeholder image, and create / update / delete / tag removal as pure list functions, with their lemmas.
- `admin_panel.dfy` (`AdminPanelState`): class `AdminPanel`, one method per event handler. Each `ensures` gives the whole new state in terms of the `ProjectList` functions. The class invariant is "a record is only edited with the form open".
- `app.dfy` (`App`): the load function, the `renderContent` gate, and class `Site` with the view and login transitions. The class invariant is "logged in implies the secret was entered, and an error implies logged out".

JavaScript truthiness is written out:

- `!title` means the title is `""`.
- A non-null `editingId` takes the update path only when it is non-empty (`AdminPanelState.IsEditing`).
- A generated image counts only when non-null and non-empty.

The model follows the code as written:

- An update of an id with no matching record changes nothing and does not fail.
- A created record's id is whatever the clock gives (the `newId` parameter). Nothing guarantees that it is new.

External effects are parameters:

- The id minted from `Date.now()` is `newId`.
- `JSON.parse` (`None` where it throws) and `JSON.stringify` are function parameters.
- Whether the storage write fits is a boolean.
- The generators are functions from their prompt to their answer.
- The file reader's result is an `Option<string>`: `None` when no file was chosen. A chosen file that fails to read sets the image to a null `reader.result`. The model writes that case as `Some("")`, which behaves the same because null and `""` are both falsy where the image is next read.
- An `alert` is a returned boolean.

## Model

| member | source | states |
|---|---|---|
| `JsString.IsWhiteSpace` | components/AdminPanel.tsx:129 | the characters `trim` strips: the ECMAScript white-space and line-terminator set, space, tab and newline among them; none is a digit or a Latin letter, and all lie in the Basic Multilingual Plane |
| `JsString.LeadingBlanks` | components/AdminPanel.tsx:129 | the count of leading characters that `trim` drops: all of them are white space and the next character is not |
| `JsString.TrailingBlanks` | components/AdminPanel.tsx:129 | the count of trailing characters that `trim` drops: all of them are white space and the character before them is not |
| `JsString.Trim` | components/AdminPanel.tsx:129-132 | result is the contiguous middle of the input with only white space around it; it neither starts nor ends with white space; it is empty exactly when the input is blank |
| `JsString.Join` | components/AdminPanel.tsx:95 | `join` of no parts is ""; otherwise its length is the parts' total plus one separator per gap, and it begins with the first part; with a non-empty separator it is "" exactly for no parts or a single empty part |
| `JsString.JoinSnoc` | components/AdminPanel.tsx:95 | the join seen from its right end: all but the last part joined, then the separator, then the last part |
| `JsArray.Filter` | components/AdminPanel.tsx:85 | every kept element passes the test; every passing element is kept as often as in the input; the input order is kept; when all elements pass, the input comes back unchanged |
| `JsArray.Map` | components/AdminPanel.tsx:48-52 | same length; element i of the result is the function applied to element i of the input |
| `ProjectList.FinalImage` | components/AdminPanel.tsx:44 | the saved image is never empty: the draft's image when non-empty, otherwise the placeholder `https://picsum.photos/800/600` |
| `ProjectList.CanSave` | components/AdminPanel.tsx:41 | an empty title or an empty description blocks the save, so a reset draft never saves |
| `ProjectList.DraftOf` | components/AdminPanel.tsx:71-78 | the draft loaded for editing carries the record's editable fields: merging it back gives the record with only its image defaulted, and exactly the record for a record with an image; the draft can be saved exactly when the record has a title and a description |
| `ProjectList.NewRecord` | components/AdminPanel.tsx:55-63 | the created record has the minted id, no status, and the draft's fields with the image defaulted |
| `ProjectList.Merge` | components/AdminPanel.tsx:50 | the merged record has the edited id, keeps its own status (a key the draft never has), and takes the draft's fields with the image defaulted |
| `ProjectList.Create` | components/AdminPanel.tsx:53-64 | length grows by one; the tail is the old list; the head has the minted id, the draft's title, description, category, technologies and link, the defaulted image, and no status |
| `ProjectList.UpdateById` | components/AdminPanel.tsx:46-52 | length, order and every id are kept; records with another id are untouched; records with the edited id take the draft's fields and keep their own status; with no match the list is unchanged |
| `ProjectList.DeleteById` | components/AdminPanel.tsx:84-85 | no record with the id remains; every other record remains as often as before, in its original relative order; an absent id leaves the list unchanged |
| `ProjectList.DeleteIdempotent` | components/AdminPanel.tsx:85 | deleting the same id twice is the same as deleting it once |
| `ProjectList.DeleteCount` | components/AdminPanel.tsx:85 | delete shortens the list by exactly the number of records carrying the id |
| `ProjectList.RemoveTag` | components/AdminPanel.tsx:276 | every occurrence of the clicked tag is gone; every other tag is kept as often as before and in order; an absent tag changes nothing |
| `ProjectList.EditSaveUnchanged` | components/AdminPanel.tsx:46-78 | loading a record into the form and saving it untouched leaves the list unchanged, when the record has an image and no other record shares its id |
| `ProjectList.EditSaveFillsPlaceholder` | components/AdminPanel.tsx:44-50 | saving an edited record that has no image gives it the placeholder |
| `ProjectList.TechSummary` | components/AdminPanel.tsx:95 | the description generator gets the typed text exactly when there are no tags or a single empty one, and otherwise the non-empty comma-joined tags |
| `ProjectList.ImagePrompt` | components/AdminPanel.tsx:106 | the image prompt is the title, then `. `, then the description, or `A video game scene` when the description is empty; the part after the title is never empty |
| `AdminPanelState.IsEditing` | components/AdminPanel.tsx:46 | a definition without a contract: the JavaScript truthiness of `editingId`, i.e. non-null and non-empty; `SaveProject` takes the update path exactly when it holds |
| `AdminPanelState.AdminPanel.Valid` | components/AdminPanel.tsx:13-87 | invariant kept by every handler: a record is edited only with the form open, so a closed form edits nothing and its save creates |
| `AdminPanelState.AdminPanel.constructor` | components/AdminPanel.tsx:13-26 | on mount: form closed, nothing being edited, default draft (`''`, `''`, `PC`, `[]`, `''`), empty tag box; the list is the one passed in |
| `AdminPanelState.AdminPanel.ResetForm` | components/AdminPanel.tsx:28-38 | draft back to the default, `editingId` null, form closed; list and tag box untouched |
| `AdminPanelState.AdminPanel.OpenForm` | components/AdminPanel.tsx:157 | the form opens; nothing else changes |
| `AdminPanelState.AdminPanel.SaveProject` | components/AdminPanel.tsx:40-68 | empty title or description: nothing changes. Otherwise the edited id's records are updated, or the new record is prepended when none is edited, and the form is reset |
| `AdminPanelState.AdminPanel.Edit` | components/AdminPanel.tsx:70-82 | the draft becomes the record's editable fields, `editingId` its id, and the form opens; the list is untouched |
| `AdminPanelState.AdminPanel.Delete` | components/AdminPanel.tsx:84-87 | the list loses every record with the id; the form is reset exactly when that id is the one being edited, and is otherwise untouched |
| `AdminPanelState.AdminPanel.GenerateDescription` | components/AdminPanel.tsx:89-98 | no title: alert only, nothing changes. Otherwise only the draft's description changes, to the generator's answer for the title and tag summary; the list is never touched |
| `AdminPanelState.AdminPanel.GenerateImage` | components/AdminPanel.tsx:100-115 | no title: alert only. Otherwise a non-null, non-empty answer for the title-and-description prompt becomes the draft's image, and a null answer alerts and leaves the draft as it was; the list is never touched |
| `AdminPanelState.AdminPanel.UploadImage` | components/AdminPanel.tsx:117-126 | when a file was chosen, its data URL becomes the draft's image; otherwise nothing changes |
| `AdminPanelState.AdminPanel.AddTech` | components/AdminPanel.tsx:128-136 | non-blank text is appended trimmed to the draft's tags and the tag box is cleared; blank text changes nothing and the tag box keeps it |
| `AdminPanelState.AdminPanel.RemoveTech` | components/AdminPanel.tsx:276 | the draft's tags become the tags without every occurrence of the clicked one; nothing else changes |
| `AdminPanelState.AdminPanel.SetTitle` | components/AdminPanel.tsx:180 | only the draft's title changes |
| `AdminPanelState.AdminPanel.SetCategory` | components/AdminPanel.tsx:190 | only the draft's category changes |
| `AdminPanelState.AdminPanel.RemoveImage` | components/AdminPanel.tsx:245 | only the draft's image changes, to empty |
| `AdminPanelState.AdminPanel.SetTechInput` | components/AdminPanel.tsx:267 | only the tag box changes |
| `AdminPanelState.AdminPanel.SetDescription` | components/AdminPanel.tsx:299 | only the draft's description changes |
| `App.LoadProjects` | App.tsx:14-26 | result is the seed list or a parse result. A non-empty stored text that parses gives the parsed list, even an empty one. Missing, empty, unreadable or unparsable storage gives the seed list |
| `App.RenderContent` | App.tsx:75-137 | the dashboard, the only place the list can change, is shown exactly when the view is admin and the user is logged in; the admin view shows the login form exactly when logged out; home and portfolio show their pages |
| `App.ReloadAfterPersist` | App.tsx:14-43 | corollary of LoadProjects for the text Persist stores: loading it gives the written list back, the empty list included, whenever parsing undoes serialising and the text is non-empty |
| `App.Site.Valid` | App.tsx:65-73 | invariant kept by every transition: logged in implies the secret was entered, and an error implies logged out; so only the secret opens the dashboard, which never shows the login error |
| `App.Site.constructor` | App.tsx:10-31 | start-up: home view, logged out, empty password, no error; the list is the loaded one |
| `App.Site.Persist` | App.tsx:34-43 | a fitting write stores the serialised list; a rejected write warns and stores nothing; the in-memory list and the login state are never touched |
| `App.Site.TypePassword` | App.tsx:88 | only the entered password changes |
| `App.Site.SubmitLogin` | App.tsx:65-73 | the password `yazid` logs in and clears the error; any other text sets the error and leaves the login state as it was |
| `App.Site.Logout` | App.tsx:131 | logged out, password cleared, home view; the error flag and the list are untouched |
| `App.Site.KeyDown` | App.tsx:55-59 | Ctrl+Shift+`y`/`Y` moves to the admin view from any view; any other key changes nothing |
| `App.Site.FooterClick` | App.tsx:116 | on the home page, a click with `detail == 3` moves to the admin view; any other click count leaves it on home |
| `App.Site.BackToHome` | App.tsx:97 | the login form's button moves to the home view |
| `App.Site.CtaClick` | App.tsx:109 | the landing page's call to action moves to the portfolio view |
| `App.Site.Navigate` | components/Navbar.tsx:38-39 | the navigation bar moves to home or portfolio (it offers nothing else) |
| `App.Site.SetProjects` | App.tsx:128-132 | the list handed to the dashboard is replaced, and only while the dashboard is shown |

All `Site` methods except `SetProjects` leave `projects` unchanged: their `modifies` clauses do not name it.

## Left out

- Rendering, styling and icons. The landing, showcase and navigation components are presentation only. The navigation bar's only effect is modelled as `Navigate`. Its mobile-menu toggle and the scroll-position flag `isScrolled` are cosmetic.
- The generative-AI service wrappers (network calls into a foreign library). They are the `describe` and `generate` parameters. Their fixed fallback strings and the bio generator are not part of this model.
- The development server's save and image-upload endpoints (file writes, HTTP plumbing, request logging). They are not part of this model.
- Browser storage and JSON fidelity. `JSON.parse` and `JSON.stringify` are parameters. A parsed value that is not a list of records (for example the text `null`) is outside the model.
- The storage write-back runs automatically after every change of `projects`, including on mount. Here it is an explicit call of `Site.Persist`.
- `Date.now()` is the `newId` parameter. Id uniqueness is not enforced by the code and is not claimed.
- Asynchrony. Each generator is modelled as one sequential step: the request is built from the draft, then the answer is applied. The `loadingAI`/`loadingImg` flags and edits made while a request is in flight are left out. `alert` becomes a returned flag and `window.scrollTo` is dropped.
- Mounting and unmounting. Leaving the admin view discards the panel's own state, which corresponds to constructing a fresh `AdminPanel`. The link between `AdminPanel.projects` and `Site.projects` (through `SetProjects`) is by convention, not by a shared object.
- Property keys of the partial draft. A key that is present but `undefined` is not told apart from an absent one. Update takes the draft's `link` because `handleEdit` always sets that key, and `technologies` is always a list, so the `|| []` default never applies. The draft never carries `status`, so an update keeps the record's own.
- JavaScript strings are UTF-16 code units, whereas Dafny characters are Unicode scalar values. All white space that `trim` strips is in the Basic Multilingual Plane, so this does not change the result of trimming.
- The user profile constant and the unused admin-context type are read-only data.
- JsString.Join: its contract gives the result's length, first part and emptiness, not the full text. JsString.JoinSnoc, together with the one-part case of this contract, fixes the full text by induction from the right.
