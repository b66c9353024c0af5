# Admin panel UI decisions, modelled in Dafny

This project models the decision logic inside three React components of the
admin panel's UI package. The markup, the hooks and the network are abstracted
away; what remains is stated over plain values.

- **Locale provider** (`locale.dfy`, module `Locale`). The provider chooses
  the active locale code. A URL `locale` parameter that is one of the
  configured codes wins. Otherwise, for a signed-in user, a stored preference
  that is configured wins. Otherwise the default applies: the configured
  `defaultLocale`, or `"en"`. `LocaleChange` states that decision as a pure
  function, including which preference write it issues. The class
  `LocaleProvider` holds the provider's state (`localeCode`, `locale`, the
  stored preference and a log of preference writes). Its
  `LocaleChangeHandler` follows the source step by step, with early returns,
  and is proved to do what `LocaleChange` says.
- **Upload field** (`upload.dfy`, module `Upload`). The field's state is its
  `value` (normally an id or null; a falsy id from the list drawer is kept
  wrapped as `{id: docID}`), the fetched document `file` and the `missingFile`
  flag, plus a log of fetched URLs. `Step` gives the effect of each event:
  - the form sets the value;
  - the fetch effect runs, with its outcome;
  - the document drawer saves a document;
  - the list drawer selects a document;
  - the file details' remove control is used.

  The class `UploadField` has one method per handler. `OnChange` is proved to
  store `IncomingId` of its argument; each of the other methods is proved to
  change the state as `Step` says for its event. `Render` states what is shown. The trace
  lemmas state how `missingFile` can change and what a few typical event
  sequences lead to.
- **List view** (`list_view.dfy`, module `ListView`). `Render` makes a
  three-way choice between the loading shimmer, the table and the no-results
  state. It also decides the two create controls, when the pagination, the
  page information and the per-page selector appear, and the `resetPage`
  flag. The page information ("first–last of total") is proved to be the
  exact range of the current page when the pagination metadata is consistent.
- `js.dfy` (module `Js`) holds the JavaScript notions used throughout:
  - JSON-like values;
  - truthiness;
  - `x?.id`;
  - the text a template literal produces.

Two behaviours of the code are worth knowing:
- A later successful fetch does not lower `missingFile`; only a drawer save
  or select does (`StaleMissingFileHidesFetchedFile`,
  `MissingFileLoweredOnlyByDrawers`). A fetch that rejects changes neither
  `file` nor `missingFile`, so the details keep showing the previous
  value's document (`RejectedFetchKeepsPreviousFile`).
- The initial `localeCode` is the raw URL parameter, unchecked against the
  configured codes. Without a localization config the handler never
  corrects it. With one, every run of the handler that completes yields a
  configured code or the default.

## Model

| member | source | states |
|---|---|---|
| `Locale.DefaultLocale` | packages/ui/src/providers/Locale/index.tsx:22-23 | the default locale is the configured `defaultLocale` when localization exists and sets it, otherwise `"en"`; it is never empty |
| `Locale.InitialLocaleCode` | packages/ui/src/providers/Locale/index.tsx:28-30 | the initial code is the URL parameter when it is a non-empty string, otherwise the default; it is never empty |
| `Locale.LocaleChange` | packages/ui/src/providers/Locale/index.tsx:41-70 | the handler changes nothing exactly when localization is off; otherwise the chosen code is non-empty and is a configured code or the default; a preference is written only for a signed-in user, and what is written is the chosen code |
| `Locale.ParamTakesPrecedence` | packages/ui/src/providers/Locale/index.tsx:47-51 | a configured URL parameter becomes the code whatever the stored preference, and is written as the preference exactly when a user is signed in |
| `Locale.UnconfiguredParamIgnored` | packages/ui/src/providers/Locale/index.tsx:47 | an empty or unconfigured URL parameter leads to the same decision as no parameter at all |
| `Locale.PreferenceTakesPrecedence` | packages/ui/src/providers/Locale/index.tsx:57-65 | with no usable parameter, a signed-in user's configured preference becomes the code and nothing is written |
| `Locale.DefaultOtherwise` | packages/ui/src/providers/Locale/index.tsx:54-69 | with no usable parameter and no usable preference, the code is the default, and a signed-in user's preference is overwritten with it |
| `Locale.AnonymousIgnoresPreference` | packages/ui/src/providers/Locale/index.tsx:57-69 | without a user the decision does not depend on the stored preference and writes nothing |
| `Locale.HandlerSettles` | packages/ui/src/providers/Locale/index.tsx:47-69 | a second run with the preference the first run left chooses the same code; if the parameter is unusable and the default is configured, the second run writes nothing |
| `Locale.LocaleProvider.constructor` | packages/ui/src/providers/Locale/index.tsx:28-34 | the provider starts with the initial code, a locale record looked up only when localization exists, and no preference writes |
| `Locale.LocaleProvider.SetPreference` | packages/ui/src/providers/Locale/index.tsx:50 | a preference write stores the code and is appended to the write log |
| `Locale.LocaleProvider.SetLocale` | packages/ui/src/providers/Locale/index.tsx:48-49 | setting the code also looks up the locale record for that same code |
| `Locale.LocaleProvider.LocaleChangeHandler` | packages/ui/src/providers/Locale/index.tsx:40-73 | the step-by-step handler keeps the provider's invariant (non-empty code; locale record present exactly with localization and for the current code), and its new code, stored preference and write log are exactly those `LocaleChange` decides |
| `Upload.FindCollection` | packages/ui/src/forms/fields/Upload/index.tsx:49 | the result is the first collection whose slug is `relationTo`, and it is absent exactly when no collection has that slug |
| `Upload.IncomingId` | packages/ui/src/forms/fields/Upload/index.tsx:67 | the stored value is the incoming value itself or its `id`; normalising keeps truthiness and keeps whether the value counts as set, so it never turns a set value into an empty one |
| `Upload.IncomingIdCases` | packages/ui/src/forms/fields/Upload/index.tsx:65-70 | `onChange` stores the `id` of a document whose id is truthy; it stores anything that is not an object unchanged, so `null` stays `null` |
| `Upload.IncomingIdIdempotent` | packages/ui/src/forms/fields/Upload/index.tsx:65-70 | normalising an already normalised value changes nothing, provided ids are not themselves objects |
| `Upload.SetIsWeakerThanTruthy` | packages/ui/src/forms/fields/Upload/index.tsx:90 | every truthy value triggers a fetch; the effect's test is weaker than truthiness, since the id 0 is fetched too |
| `Upload.FetchURL` | packages/ui/src/forms/fields/Upload/index.tsx:92 | the fetch URL starts with `serverURL + api + '/' + relationTo + '/'`, is longer than that for a set value, and determines the id: no other string id (or, for a number, no other number) is fetched from the same URL |
| `Js.NatToDecimalInjective` | packages/ui/src/forms/fields/Upload/index.tsx:92 | different numbers interpolate to different decimal texts |
| `Js.ToTextDeterminesId` | packages/ui/src/forms/fields/Upload/index.tsx:92 | two string ids, or two number ids, with the same interpolated text are equal |
| `Upload.Step` | packages/ui/src/forms/fields/Upload/index.tsx:89-131 | the effect never changes the value, and the other events never touch `file` or the request log. On an empty value the effect clears `file` and requests nothing. On a set value it requests exactly that value's URL, then: a success stores the body and keeps `missingFile`; a response that is not ok raises `missingFile` and clears `file`; a rejection keeps both. A save stores `IncomingId` of the document and a select `IncomingId({id: docID})`, both lowering `missingFile`. The form stores its value and removal stores `null`, both keeping `missingFile`. `missingFile` changes only on a save, a select, or a failed fetch of a set value |
| `Upload.Render` | packages/ui/src/forms/fields/Upload/index.tsx:133-204 | an unknown collection throws; nothing is rendered for a collection without `upload`; otherwise exactly one of the file details and the buttons is shown, the details show `file` and offer removal exactly when not read-only, the buttons are disabled exactly when read-only, and the drawers exist exactly when not read-only |
| `Upload.DetailsXorButtons` | packages/ui/src/forms/fields/Upload/index.tsx:163-177 | the details condition (file truthy and not missing) and the buttons condition (file falsy or missing) are complementary in every state |
| `Upload.MissingFileLoweredOnlyByDrawers` | packages/ui/src/forms/fields/Upload/index.tsx:98-131 | over any sequence of events, `missingFile` goes from true to false only if a drawer saved or selected a document |
| `Upload.MissingFileRaisedOnlyByFailedFetch` | packages/ui/src/forms/fields/Upload/index.tsx:89-111 | over any sequence of events, `missingFile` goes from false to true only if a fetch failed |
| `Upload.RequestsOnlyGrow` | packages/ui/src/forms/fields/Upload/index.tsx:89-111 | the log of fetched URLs only grows, keeps its prefix, and gains at most one entry per event |
| `Upload.SaveThenFetchShowsDetails` | packages/ui/src/forms/fields/Upload/index.tsx:89-120 | after the drawer saves a document with a truthy id and the fetch succeeds, the value is that id, the file is the fetched body, exactly one request to that id's URL was made, and the details are shown |
| `Upload.SelectStoresId` | packages/ui/src/forms/fields/Upload/index.tsx:122-131 | selecting stores the selected id when it is truthy and `{id: docID}` when it is falsy, and lowers `missingFile` |
| `Upload.RemoveThenEffectShowsButtons` | packages/ui/src/forms/fields/Upload/index.tsx:167-173 | removing sets the value to null; the effect that follows fetches nothing and clears the file, so the buttons are shown |
| `Upload.RejectedFetchKeepsPreviousFile` | packages/ui/src/forms/fields/Upload/index.tsx:89-107 | when the fetch for a new value rejects, the request is made but the previous document stays in `file` and the details stay shown |
| `Upload.StaleMissingFileHidesFetchedFile` | packages/ui/src/forms/fields/Upload/index.tsx:98-104 | once `missingFile` is set, a value from the form that is fetched successfully is stored in `file`, yet the buttons stay and the details stay hidden |
| `Upload.UploadField.constructor` | packages/ui/src/forms/fields/Upload/index.tsx:75-76 | the field starts with `file` undefined, `missingFile` false and no requests |
| `Upload.UploadField.OnChange` | packages/ui/src/forms/fields/Upload/index.tsx:65-71 | the callback stores the incoming value's `id` when that is truthy, otherwise the incoming value itself |
| `Upload.UploadField.SetValue` | packages/ui/src/forms/fields/Upload/index.tsx:60-63 | the form setting the value changes only the value |
| `Upload.UploadField.FetchFile` | packages/ui/src/forms/fields/Upload/index.tsx:89-111 | the effect makes no request and clears `file` for an empty value; otherwise it requests the value's URL, then stores the body on success, raises `missingFile` and clears `file` on a response that is not ok, and changes nothing else when the request or the parsing rejects |
| `Upload.UploadField.OnSave` | packages/ui/src/forms/fields/Upload/index.tsx:113-120 | saving lowers `missingFile` and stores the saved document's id |
| `Upload.UploadField.OnSelect` | packages/ui/src/forms/fields/Upload/index.tsx:122-131 | selecting lowers `missingFile` and stores the normalised `{id: docID}` |
| `Upload.UploadField.Remove` | packages/ui/src/forms/fields/Upload/index.tsx:167-173 | removal is offered only when not read-only and the details are shown, and it sets the value to null |
| `ListView.Docs` | packages/ui/src/views/List/index.tsx:63-72 | the docs are `data.docs` when present and the empty list otherwise; the upload spread changes neither the length nor any document |
| `ListView.PageInfoOf` | packages/ui/src/views/List/index.tsx:182-186 | the first index is `(page-1)*limit + 1`; the last is `limit*page` when there are several pages and this is not the last one, otherwise `totalDocs` |
| `ListView.Render` | packages/ui/src/views/List/index.tsx:104-194 | exactly one of shimmer (docs absent), table (docs non-empty, rows are the docs) or no-results (docs empty) is rendered; the empty state's create button needs both the permission and a non-empty URL; the header pill needs only the permission and no custom header; pagination appears exactly with the table, and page info and per-page only when additionally `totalDocs > 0`; `resetPage` is `totalDocs <= pagingCounter` |
| `ListView.PageInfoBounds` | packages/ui/src/views/List/index.tsx:182-186 | for consistent metadata with documents, `1 <= first <= last <= totalDocs` and the range holds exactly the documents of the current page |
| `ListView.PagesTile` | packages/ui/src/views/List/index.tsx:182-186 | page 1 starts at 1, each next page starts right after the previous one ends, and the last page ends at `totalDocs` |
| `ListView.ResetPageOnLoneLastRow` | packages/ui/src/views/List/index.tsx:193 | for consistent metadata with documents, `resetPage` holds exactly when the page starts at the last document, that is the last page holds a single document |

## Left out

- Markup, CSS classes, labels, descriptions and translations are not modelled. Neither are the child components (Table, Pagination, PerPage, FileDetails, the drawers, ListControls, SetStepNav) or the custom `BeforeList`, `BeforeListTable`, `AfterListTable` and `AfterList` components. They are presentation, and their code is not part of this model.
- React hooks and effect scheduling are not modelled. The caller of `UploadField.FetchFile` and `LocaleProvider.LocaleChangeHandler` decides when the effect runs. React runs an effect after the component mounts, and after any render in which one of its dependencies changed. A caller of the model therefore runs `FetchFile` (and `LocaleChangeHandler`) once right after the constructor, and again after each change of the value (or of the URL parameter or user).
- `Locale.LocaleProvider.LocaleChangeHandler`: the awaited `getPreference` and `setPreference` calls are taken to succeed. The model does not capture a rejected call. If the default's `setPreference` rejects, the handler stops before setting the code. If `getPreference` rejects, it stops before choosing anything. Either way the provider keeps its previous code, so a run that does not complete need not leave a configured code or the default. If the write of a configured URL parameter rejects, the code is already set but nothing is stored.
- `fetch`, `getPreference` and `setPreference` are I/O. Each fetch outcome is a parameter. The stored preference is a field. The `Accept-Language` header and credentials of the request are not modelled.
- Races between overlapping fetches or preference requests are not modelled. Each effect run and its fetch are one atomic event.
- `findLocaleFromCode` is not part of this model. The `locale` field records the code whose locale record was looked up.
- `buildColumns`, `getInitialColumnState`, `formatFields` and `getTextFieldsToBeSearched` are not part of this model. The same goes for the field's `validate` wrapper and `filterOptions`.
- The router and the effect that copies the URL `locale` into the search-params state are framework plumbing and are left out.
- Commented-out code is left out: GetFilterOptions, ListSelection, the bulk actions and the file-size formatting.
- Closing the drawers after save or select is not modelled, because drawer state lives in the drawer components.
- JavaScript numbers are modelled as unbounded integers. NaN, fractions and floating-point rounding of the page arithmetic are not modelled.
- A URL `locale` parameter is modelled as a string or absent. An array-valued query parameter is not modelled.
- `Upload.UploadField.Remove`: the events are not guarded by the collection having an `upload` config, although nothing (and so no drawer or remove control) is rendered without one.
- `ListView.PageInfoBounds`, `ListView.PagesTile`, `ListView.ResetPageOnLoneLastRow`: these are stated only for metadata that obeys `Consistent`: a positive limit, `totalPages` equal to the ceiling of `totalDocs / limit` (at least 1), a page in range, and `pagingCounter` the position of the page's first document. The view itself does not check this; the server's paginated query provides it.
