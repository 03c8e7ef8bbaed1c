# Dataset dashboard core, modelled in Dafny

This project models the logic at the centre of a browser dashboard. The dashboard uploads small datasets, charts them and offers a mock sign-in. The model covers six source files:

- **Dataset store** (`DataContext`, `data_context.dfy`). The store holds an ordered list of datasets and one chart configuration. A class `DataProvider` holds these two state cells. It has five operations: add, update, delete, update configuration and process. Each operation computes its new value with a pure function (`UpdateMatching`, `Without`, `ProcessMatching`, `Merge`, `MergeConfig`). The lemmas prove frame conditions, undo, idempotence and order preservation.
- **Import** (`DataImport`, `data_import.dfy`). The file extension chooses the parser. Tokenised CSV rows and parsed JSON elements are mapped to points using JavaScript's `||` fallbacks. The dataset name is the file name with the extension cut out by `String.replace`. The model also covers the fixed fields of the new dataset and the 20-point sample generator. Class `ImportPanel` holds the `importing` flag and the error line, and adds to the store.
- **Mock authentication** (`AuthContext`, `auth_context.dfy`). Class `AuthProvider` holds the mutable user list, the `AuthState` and the stored `'user'` record. Its operations are restore at startup, login, logout and register. An object invariant `Valid()` holds throughout: emails are unique, a user is present exactly when authenticated, and after loading the storage mirrors the signed-in user.
- **Chart canvas** (`ChartCanvas`, `chart_canvas.dfy`). The canvas keeps the visible datasets and zips their `y` values by index into rows: each row is one property map that starts as `{ index }` and receives each visible dataset's `y` under the dataset's name. It takes the chart kind from the first visible dataset.
- **Overview figures** (`DashboardOverview`, `dashboard_overview.dfy`). These are the dataset count, the point total, the visible count and the first five datasets.
- **Types** (`Types`, `types.dfy`). The source's records and string unions become datatypes. `DataPoint.label` is named `labelText` and `Dataset.type` is named `chartType`, because `label` and `type` are Dafny keywords.

Helper modules: `Common` (Option, Result) and `JsText`. `JsText` holds the JavaScript string built-ins the import relies on: number-to-text, `toLowerCase`, `split('.').pop()` and `replace`.

Inputs the model takes as parameters:
- fresh ids (`Date.now()`);
- timestamps (`new Date().toISOString()`), one clock reading per index, since the source reads the clock once per CSV row, and once per JSON element that has no non-empty `timestamp`;
- the random colour;
- `parseFloat`;
- the sample's `y` values (`Math.sin`/`Math.random`);
- the CSV tokenizer's rows or error message;
- the JSON reader's outcome.

Behaviour of the code that a reader might not expect, which the model keeps:
- The guard in `deleteDataset` (DataContext.tsx:70) counts datasets, not distinct ids, and the filter on line 71 removes every dataset with the id. Two datasets sharing an id (ids come from a millisecond clock) are therefore removed together, and the store can become empty (`DuplicateIdsCanEmptyStore`).
- The import name is `file.name.replace('.csv', '')` (DataImport.tsx:49) or `replace('.json', '')` (line 89). This removes the first case-sensitive occurrence anywhere in the name, while the extension test on line 19 lower-cases. So `DATA.CSV` is imported as CSV and keeps its full name (`UpperCaseExtensionSelectsCsv`, `UpperCaseExtensionKept`).
- A JSON document that is not an array throws "JSON must contain an array of data points" (DataImport.tsx:85). The `catch` on lines 98-99 replaces that error, so the user sees "Failed to parse JSON data" (`ImportFile`).
- The JSON mapping uses `||` (DataImport.tsx:79-80). An `x` of 0 is replaced by the element's index like a missing `x`, and a `y` of 0 falls through to `value` and then to 0 (`JsonFallbacks`).
- Each chart row is one object `{ index }` to which every visible dataset assigns its y under its own name (ChartCanvas.tsx:37-40). A visible dataset named "index" (an upload of `index.csv` gets that name) overwrites the row's position, which the x axis reads (`IndexNameOverwritesPosition`). A dataset named "__proto__" adds nothing to the row, because assigning a number to that property is ignored (`ProtoNameDropped`).

## Model

| member | source | states |
|---|---|---|
| `DataContext.DataProvider.constructor` | project/src/contexts/DataContext.tsx:16-54 | The store starts with exactly the sample dataset (id "1", "Sample Dataset", 10 points, visible, line) and the default configuration (grid, legend, light theme, animations). |
| `DataContext.DataProvider.AddDataset` | project/src/contexts/DataContext.tsx:56-63 | The new state is the old list plus one dataset at the end. Earlier datasets are unchanged and in order. The new one carries the input's fields with the given id and createdAt. The configuration is untouched. |
| `DataContext.Stamp` | project/src/contexts/DataContext.tsx:57-61 | The added dataset carries the given id and createdAt, and dropping those two gives the caller's input back. |
| `DataContext.DataProvider.UpdateDataset` | project/src/contexts/DataContext.tsx:65-67 | The datasets become `UpdateMatching` of the old list. The configuration is untouched. |
| `DataContext.UpdateMatching` | project/src/contexts/DataContext.tsx:66 | Length is kept. A dataset with another id is unchanged. A dataset with the id becomes the merge with the update. |
| `DataContext.UpdateUnknownId` | project/src/contexts/DataContext.tsx:66 | An id no dataset carries leaves the list unchanged. |
| `DataContext.Merge` | project/src/contexts/DataContext.tsx:66 | `{...ds, ...updates}`: each of the eight fields is the update's value when the update names it and the old value otherwise. |
| `DataContext.MergeUnique` | project/src/contexts/DataContext.tsx:66 | The merged dataset is the only dataset that agrees field by field in that way. An empty update changes nothing. |
| `DataContext.MergeIdempotent` | project/src/contexts/DataContext.tsx:66 | Merging the same update twice equals merging it once. |
| `DataContext.MergeThen` | project/src/contexts/DataContext.tsx:66 | Two successive merges equal one merge of both updates spread together, the later winning. |
| `DataContext.MergeUndo` | project/src/contexts/DataContext.tsx:66 | Updating fields and then writing back their old values restores the dataset exactly. |
| `DataContext.UpdateUndo` | project/src/contexts/DataContext.tsx:65-67 | The same at store level. It needs two conditions: the update does not move datasets to another id, and every dataset with the id held the restored values. |
| `DataContext.ToggleVisibleTwice` | project/src/contexts/DataContext.tsx:66 | Toggling `visible` and toggling it back restores the whole store. |
| `DataContext.DataProvider.DeleteDataset` | project/src/contexts/DataContext.tsx:69-73 | With one dataset or none, nothing changes for any id. Otherwise the datasets become the filter `Without`. |
| `DataContext.Without` | project/src/contexts/DataContext.tsx:71 | A dataset is kept if and only if its id differs. The list never grows. |
| `DataContext.WithoutAppend` | project/src/contexts/DataContext.tsx:71 | The filter distributes over concatenation, so original order is kept. |
| `DataContext.WithoutCount` | project/src/contexts/DataContext.tsx:71 | The kept count plus the number of datasets with the id equals the old length, so every duplicate goes. |
| `DataContext.WithoutUnknownId` | project/src/contexts/DataContext.tsx:71 | An unknown id removes nothing. |
| `DataContext.WithoutIdempotent` | project/src/contexts/DataContext.tsx:71 | Deleting an id twice equals deleting it once. |
| `DataContext.WithoutKeepsOthers` | project/src/contexts/DataContext.tsx:70-71 | If some dataset has another id, the result is not empty. |
| `DataContext.DuplicateIdsCanEmptyStore` | project/src/contexts/DataContext.tsx:70-71 | Two datasets with the same id pass the length guard and are both removed, leaving an empty store. |
| `DataContext.DataProvider.UpdateChartConfig` | project/src/contexts/DataContext.tsx:75-77 | The configuration agrees with the patch on every field it names and with the old configuration on every other field. The datasets are untouched. |
| `DataContext.MergeConfig` | project/src/contexts/DataContext.tsx:76 | `{...prev, ...config}`: each configuration field is the patch's value when the patch names it and the old value otherwise. |
| `DataContext.MergeConfigUnique` | project/src/contexts/DataContext.tsx:76 | The merged configuration is the one and only configuration that agrees field by field in that way. |
| `DataContext.MergeConfigIdempotent` | project/src/contexts/DataContext.tsx:76 | Applying the same configuration patch twice equals applying it once. |
| `DataContext.DataProvider.ProcessData` | project/src/contexts/DataContext.tsx:79-85 | The datasets become `ProcessMatching` of the old list. The configuration is untouched. |
| `DataContext.ProcessMatching` | project/src/contexts/DataContext.tsx:80-84 | Length is kept. Other ids are unchanged. A matching dataset's data becomes f of its data, and each of its other fields is unchanged. |
| `DataContext.ProcessIdentity` | project/src/contexts/DataContext.tsx:80-84 | Processing with the identity function leaves the store unchanged. |
| `DataContext.ProcessIsDataUpdate` | project/src/contexts/DataContext.tsx:80-84 | Processing a dataset equals updating it with `data: f(data)` as the only field. |
| `DataImport.Extension` | project/src/components/data/DataImport.tsx:19 | A name without a dot is its own (lower-cased) extension. The extension is never longer than the name. |
| `JsText.LastSegment` | project/src/components/data/DataImport.tsx:19 | `split('.').pop()` is a dot-free suffix of the name. When shorter than the name, a dot precedes it. |
| `JsText.LastIndexOf` | project/src/components/data/DataImport.tsx:19 | Absent if and only if the character does not occur. Otherwise the position holds the character and no later position does. |
| `DataImport.ExtensionIsLastSegment` | project/src/components/data/DataImport.tsx:19 | The extension is the lower-cased, dot-free text after the name's last dot. |
| `JsText.ToLower` | project/src/components/data/DataImport.tsx:19 | Each upper-case ASCII letter becomes its lower-case letter. Every other character is kept and the length is kept. |
| `DataImport.ParserFor` | project/src/components/data/DataImport.tsx:21-27 | The CSV path is chosen if and only if the extension is `csv`, and the JSON path if and only if it is `json`. Anything else gets no parser. |
| `DataImport.ImportFile` | project/src/components/data/DataImport.tsx:14-105 | An unsupported extension fails with "Unsupported file format…". A JSON non-array fails with "Failed to parse JSON data". A success is a visible line dataset with the given colour and the user's id or "", with one point per input row or element. |
| `DataImport.OwnerId` | project/src/components/data/DataImport.tsx:54 | `user?.id || ''`: the signed-in user's id, or the empty string when nobody is signed in. |
| `DataImport.Finish` | project/src/components/data/DataImport.tsx:48-55 | The imported dataset is a visible line chart owned by `OwnerId`, with the given name, points and colour. |
| `DataImport.ImportSucceedsIff` | project/src/components/data/DataImport.tsx:21-27 | An import succeeds if and only if one of two cases holds. Case 1: a `csv` extension and tokenised rows. Case 2: a `json` extension and an array with no null element. |
| `DataImport.ImportName` | project/src/components/data/DataImport.tsx:49 | The dataset name is the file name with its first `.csv` (CSV path) or `.json` (JSON path) removed. |
| `DataImport.ImportPoints` | project/src/components/data/DataImport.tsx:41-95 | A successful import's points are `CsvPoints` of the tokenised rows on the CSV path, and `JsonPoints` of the array elements on the JSON path, so the point rules carry over to the stored dataset. |
| `JsText.IndexOfFrom` | project/src/components/data/DataImport.tsx:49 | The search finds an occurrence with none before it, or reports that none exists. |
| `JsText.RemoveFirstCutsFirst` | project/src/components/data/DataImport.tsx:49 | `replace` cuts out exactly the first occurrence, shortening the name by the pattern's length. |
| `JsText.RemoveFirst` | project/src/components/data/DataImport.tsx:49 | `replace` with a string pattern: with no occurrence the name is unchanged, and with one it loses exactly the pattern's length. |
| `DataImport.CsvSuffixStripped` | project/src/components/data/DataImport.tsx:49 | A dot-free stem followed by `.csv` is imported under the stem. |
| `DataImport.UpperCaseExtensionSelectsCsv` | project/src/components/data/DataImport.tsx:19-22 | `DATA.CSV` takes the CSV path, because the extension is lower-cased. |
| `DataImport.UpperCaseExtensionKept` | project/src/components/data/DataImport.tsx:49 | The case-sensitive `replace` leaves `DATA.CSV` unchanged as the dataset name. |
| `DataImport.CsvPoint` | project/src/components/data/DataImport.tsx:41-46 | A row's point has x equal to its index, a non-empty label, the row's clock reading as timestamp, and y 0 when neither the second column nor `value` is non-empty. |
| `DataImport.CsvPoints` | project/src/components/data/DataImport.tsx:41-46 | One point per row in row order: x values 0, 1, 2, … strictly increasing, and each point stamped with its own clock reading. |
| `DataImport.CsvPointRules` | project/src/components/data/DataImport.tsx:41-46 | One point per row with x equal to the row index. y is parsed from the second column if non-empty, else from a non-empty `value` column, else it is 0. The label is the first column if non-empty, else `Point {i+1}`. The timestamp is the clock reading taken for that row. |
| `DataImport.CsvUndefinedKey` | project/src/components/data/DataImport.tsx:43 | A missing second key is read as the property "undefined", so a one-column file whose header is "undefined" takes its y from that column. |
| `DataImport.CsvExample` | project/src/components/data/DataImport.tsx:41-46 | The `timestamp,value` example yields three points. Each has x equal to its index, the date as its label, the parsed value as its y and its own clock reading. |
| `DataImport.JsonPoints` | project/src/components/data/DataImport.tsx:78-83 | The mapping fails if and only if some element is null. Otherwise it yields one point per element. |
| `DataImport.JsonPoint` | project/src/components/data/DataImport.tsx:78-83 | An element's point has x 0 only at index 0, a non-empty label, and the element's own timestamp when non-empty, else the clock reading. |
| `DataImport.JsonFallbacks` | project/src/components/data/DataImport.tsx:79-82 | An absent or zero x becomes the index. A truthy y is kept, else a truthy `value`, else 0. An absent or empty label becomes `Point {i+1}`. An absent or empty timestamp becomes the clock reading for that element. |
| `DataImport.JsonExample` | project/src/components/data/DataImport.tsx:78-83 | `[{"x":1,"y":10},…]` keeps x and y, labels the points `Point 1` to `Point 3` and stamps each with its clock reading. |
| `DataImport.DefaultLabelInjective` | project/src/components/data/DataImport.tsx:44 | Different indices get different default labels. |
| `JsText.NatToString` | project/src/components/data/DataImport.tsx:44 | The interpolated number is a non-empty string of decimal digits without a leading zero whose decimal value is the number. |
| `JsText.NatToStringInjective` | project/src/components/data/DataImport.tsx:138 | Different numbers print differently. |
| `DataImport.SampleShape` | project/src/components/data/DataImport.tsx:135-140 | The sample's x values strictly increase and no two labels are equal. |
| `DataImport.SamplePoints` | project/src/components/data/DataImport.tsx:135-140 | Twenty points; point i has x = i, the given y, the label `Point {i+1}` and its own timestamp. |
| `DataImport.ImportPanel.constructor` | project/src/components/data/DataImport.tsx:11-12 | The panel starts not importing and with an empty error line. |
| `DataImport.ImportPanel.HandleFileUpload` | project/src/components/data/DataImport.tsx:14-33 | On success the store gains exactly the imported dataset and the error is empty. On failure the store is unchanged and the error is the message. `importing` ends false. |
| `DataImport.ImportPanel.GenerateSampleData` | project/src/components/data/DataImport.tsx:134-150 | The store gains one line dataset named `Sample Data {millis}` holding the sample points. |
| `AuthContext.AuthProvider.constructor` | project/src/contexts/AuthContext.tsx:13-37 | The list starts as the two demo accounts. The state is no user, unauthenticated and loading. |
| `AuthContext.AuthProvider.Restore` | project/src/contexts/AuthContext.tsx:39-61 | A stored user restores an authenticated session. An unparseable record is removed and leaves the state signed out. With no record only `loading` changes. Loading always ends false. |
| `AuthContext.FindByEmail` | project/src/contexts/AuthContext.tsx:65 | `find` reports absence if and only if no user has the email. A found user is in the list and has that email. |
| `AuthContext.FindByEmailFirst` | project/src/contexts/AuthContext.tsx:65 | `find` returns the first user with the email. |
| `AuthContext.CanLogin` | project/src/contexts/AuthContext.tsx:65-66 | Login accepts if and only if some user has the email and the password is `'password'`. |
| `AuthContext.AuthProvider.Login` | project/src/contexts/AuthContext.tsx:63-77 | Login returns `CanLogin`. On success it stores the found user with `lastLogin` replaced and authenticates as that user. On failure nothing changes. The list is never changed. |
| `AuthContext.AuthProvider.Logout` | project/src/contexts/AuthContext.tsx:79-86 | The record is cleared and the state is no user, unauthenticated, not loading. |
| `AuthContext.NewUser` | project/src/contexts/AuthContext.tsx:94-100 | The registered user has the given id, email, name and creation time, role `user` and no last login. The password is not kept. |
| `AuthContext.AuthProvider.Register` | project/src/contexts/AuthContext.tsx:88-110 | A known email returns false and changes nothing. A new email appends one user (role `user`, the given email and name), stores it and authenticates as it. Emails stay unique. |
| `AuthContext.FindByEmailAppend` | project/src/contexts/AuthContext.tsx:90-102 | After pushing a user with a new email, that email finds the new user and every other email finds what it found before. |
| `AuthContext.RegisteredLoginNeedsDemoPassword` | project/src/contexts/AuthContext.tsx:94-102 | A registered account logs in with `'password'` and with no other password, whatever password was registered. |
| `AuthContext.MockAccountsLogIn` | project/src/contexts/AuthContext.tsx:13-30 | Both demo accounts log in with `'password'`, the admin account has role admin, and their emails differ. |
| `ChartCanvas.Visible` | project/src/components/visualization/ChartCanvas.tsx:22 | A dataset is kept if and only if it is visible. |
| `ChartCanvas.VisibleAppend` | project/src/components/visualization/ChartCanvas.tsx:22 | The filter keeps store order (it distributes over concatenation). |
| `ChartCanvas.FirstVisible` | project/src/components/visualization/ChartCanvas.tsx:22 | The first visible dataset is the earliest visible dataset in store order. |
| `ChartCanvas.Render` | project/src/components/visualization/ChartCanvas.tsx:24-53 | The canvas shows no chart if and only if no dataset is visible. |
| `ChartCanvas.RenderRows` | project/src/components/visualization/ChartCanvas.tsx:36-53 | The chart kind is the first visible dataset's type. The rows number exactly that dataset's points. Row i is `RowValues` of the visible datasets, and its `index` is i unless a visible dataset named "index" has a point at i. |
| `ChartCanvas.RowValues` | project/src/components/visualization/ChartCanvas.tsx:37-42 | A key is in row i if and only if it is `index` or it names a visible dataset, other than "__proto__", with a point at i. |
| `ChartCanvas.RowValueFromLastWriter` | project/src/components/visualization/ChartCanvas.tsx:38-42 | A name other than "__proto__" maps to the y at i of the last visible dataset with that name that has a point at i. |
| `ChartCanvas.RowIndexKept` | project/src/components/visualization/ChartCanvas.tsx:37-42 | If no visible dataset named "index" has a point at i, row i's `index` is i. |
| `ChartCanvas.IndexNameOverwritesPosition` | project/src/components/visualization/ChartCanvas.tsx:37-40 | A visible dataset named "index" with a point at i replaces row i's `index` by its y. |
| `ChartCanvas.ProtoNameDropped` | project/src/components/visualization/ChartCanvas.tsx:37-40 | A visible dataset named "__proto__" adds nothing to the row. |
| `ChartCanvas.CombinedData` | project/src/components/visualization/ChartCanvas.tsx:36-44 | One row per point of the first visible dataset, row i being `RowValues` at i. |
| `DashboardOverview.Overview` | project/src/components/dashboard/DashboardOverview.tsx:24-45 | Total Datasets is the number of datasets. Data Points is `PointTotal`, which covers every dataset's points. Active Charts is the number of visible positions; it never exceeds the total and is 0 if and only if nothing is visible. |
| `DashboardOverview.PointTotalAppend` | project/src/components/dashboard/DashboardOverview.tsx:34 | The point total of a concatenation is the sum of the totals. |
| `DashboardOverview.PointTotal` | project/src/components/dashboard/DashboardOverview.tsx:34 | The `reduce` is 0 for no datasets and is at least each dataset's point count. |
| `DashboardOverview.VisibleCount` | project/src/components/dashboard/DashboardOverview.tsx:41 | The filtered list's length equals the number of positions holding a visible dataset. |
| `DashboardOverview.OverviewAfterAdd` | project/src/components/dashboard/DashboardOverview.tsx:27-41 | Adding a dataset adds one to the total and its length to the points. It adds one to the active count if and only if the dataset is visible. |
| `DashboardOverview.Recent` | project/src/components/dashboard/DashboardOverview.tsx:145 | The recent list is the first min(5, n) datasets in store order. |

## Left out

- Rendering is not modelled: JSX, the charting library, icons, styling and the UI wiring components. The canvas model stops at the chart kind and its rows.
- The chart switch (ChartCanvas.tsx:55-113) is not modelled beyond the kind. It has cases for bar, area and scatter; `'line'` and any value outside the four take the `default:` branch, which draws a line chart. The model keeps the first visible dataset's type and leaves the drawing out.
- React context, hooks, `useEffect` scheduling and the async/Promise plumbing are not modelled. Each operation is one atomic step. `deleteDataset` reads `datasets.length` from the render and filters `prev`; in a sequential model these are the same list.
- `Papa.parse`, `JSON.parse` and `FileReader` are inputs, not modelled code: rows or an error message, a parsed document, or a syntax or read failure. Which malformed CSV reaches the tokenizer's error callback is the tokenizer's business.
- The "Failed to parse CSV data" path (line 59) is not modelled, and its message has no constant in the model. Mapping tokenised rows cannot throw.
- `parseFloat`, `Math.sin`, `Math.random`, the random colour, `Date.now()` and `toISOString()` are parameters. Ids are not proven unique: they come from a millisecond clock.
- JavaScript numbers are reals. NaN, infinities and floating-point rounding are not modelled, so NaN's falsiness under `||` is absent.
- `toLowerCase` is modelled for ASCII letters only.
- `Object.keys` puts integer-like keys first. The model takes the tokenizer's header order.
- JSON element fields are numbers (x, y, value) or strings (label, timestamp). A string or boolean in a numeric field is not modelled. A null element is modelled: reading its field throws and fails the import.
- `Partial<...>` is a record of optional fields. A key present with the value `undefined`, which a spread would copy, is not modelled.
- Local storage holds only a user record or unparseable text. Other JSON (for example `null`, which would authenticate with no user) is not modelled.
- `ProcessingFunction` (types/index.ts:38-43) is declared as a datatype. No code in these files applies it.
- `DataImport.CsvPointRules`: stated only for rows without a header named "undefined". `CsvUndefinedKey` covers that case.
