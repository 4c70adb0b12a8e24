# Book catalog front end: gateway route and list pages

This project models the logic of a small Next.js book-catalog front end and proves properties of the model in Dafny. It covers three parts.

- **The books API route** (`src/pages/api/books/index.js`). This is a stateless handler. It checks the HTTP method, the `id` query value and the `{title, author}` body. It rejects bad requests with 400 or 405. Otherwise it sends one request to the backend and turns the outcome into a JSON envelope. `BooksGateway.Handle` is a total function from the request, the backend's outcome, the backend origin and the `isNaN` classifier to a `Response`. A `Response` holds the status, the `Allow` header, the body and the list of backend requests made.
- **The book list page** (`src/pages/books/index.js`). It shows the books whose lower-cased title or author contains the lower-cased query, and it deletes a book by id. The page's React state is the class `BookList.Page`. Searching and deleting are the pure functions `Search` and `WithoutId`. The filter effect is the method `FilterEffect`. A caller runs it after each change of `books` or `searchQuery`, as React would.
- **The category editor** (`src/pages/categories/index.js`). It appends, deletes and renames categories, and it can start or cancel an edit. The four state variables are the fields of `Categories.Editor`. Each handler is a method whose frame names only the fields it sets. Server replies are method parameters.

Supporting modules:
- `Text`: JavaScript's `toLowerCase`, `includes` and `trim`.
- `JsValues`: parsed JSON values, truthiness, and JavaScript property reads, including the `TypeError` that reading a property of `null` or `undefined` throws.
- `Seqs`: the subsequence relation.
- `Wrappers`: `Option`.

Facts about the route that the model keeps as they are in the code:
- The 500 message is `Terjadi kesalahan server`.
- A successful backend reply of any 2xx status becomes 200; the backend's status is not passed on.
- The 405 message is `Metode <method> tidak diizinkan`.
- The route handles only GET and PUT. There are no POST or DELETE branches.

Some edge cases of the code are modelled as they are:
- An error reply whose body is the JSON `null` yields 500. Reading `null.message` throws inside the `try`.
- A PUT with a valid id and an `undefined` or `null` body throws outside the `try`. The framework's error page then answers with 500 (`FrameworkError`).
- A DELETE on the book page updates the list whatever status it gets back. Only a rejected `fetch` stops the update.

## Model

| member | source | states |
|---|---|---|
| `BooksGateway.Handle` | src/pages/api/books/index.js:4-66 | exactly one backend request is made iff the request is admitted (GET, or PUT with a valid id and valid title and author), otherwise none; an `Allow` header is set iff the method is neither GET nor PUT; a 400 without a backend request only comes from a PUT |
| `BooksGateway.InvalidId` | src/pages/api/books/index.js:8 | the condition `!id` or `isNaN(id)`: an id is invalid iff it is absent, falsy as a JavaScript string (that is, empty), or not numeric |
| `BooksGateway.IsOk` | src/pages/api/books/index.js:16 | `fetchRes.ok` holds iff the status is in the 2xx class (same test at line 48) |
| `BooksGateway.ValidField` | src/pages/api/books/index.js:32 | a field passes iff it is truthy and a string |
| `BooksGateway.ErrorData` | src/pages/api/books/index.js:17 | `errorData` is the backend's JSON error body, or `{}` (which has no `message`) when the body is not JSON (same at line 49) |
| `BooksGateway.ErrorMessage` | src/pages/api/books/index.js:18-20 | the message is the error body's `message` when that is truthy, otherwise the branch's default, so it is truthy whenever the default is non-empty (same at lines 50-52) |
| `BooksGateway.HandlePut` | src/pages/api/books/index.js:29-60 | the PUT branch makes one backend request iff both `title` and `author` are non-empty strings, otherwise none |
| `BooksGateway.Forward` | src/pages/api/books/index.js:14-26 | the shared try block (repeated at lines 36-59): always exactly the one given request and no `Allow`; an ok status with a JSON body gives 200 and that body unchanged; a non-ok status is mirrored with the backend's truthy `message` or the default; a transport failure, an unparseable ok body or a `null` error body gives the fixed 500 envelope |
| `BooksGateway.InvalidIdRejectedFirst` | src/pages/api/books/index.js:7-10 | a PUT whose id is absent, empty or not numeric gets 400 "ID buku tidak valid" with no backend call, and the result does not depend on the body at all (the id check comes before the body check) |
| `BooksGateway.InvalidBodyRejected` | src/pages/api/books/index.js:31-34 | a PUT with a valid id and a missing, empty or non-string `title` or `author` gets 400 with the body-validation message and no backend call |
| `BooksGateway.MissingBodyEscapes` | src/pages/api/books/index.js:31 | a PUT with a valid id and an `undefined` or `null` body throws while destructuring, outside any try: 500 from the framework, no backend call |
| `BooksGateway.OtherMethodNotAllowed` | src/pages/api/books/index.js:62-65 | any method other than GET and PUT gets 405, `Allow` = [GET, PUT], the message `Metode <method> tidak diizinkan`, and no backend call |
| `BooksGateway.UpstreamErrorMirrored` | src/pages/api/books/index.js:48-53 | for an admitted request and a non-ok backend status (error body not `null`), the status is the backend's and the message is the backend's truthy `message`, else "Gagal mengambil daftar buku" for GET and "Gagal memperbarui buku" for PUT (also lines 16-21) |
| `BooksGateway.SuccessPassedThrough` | src/pages/api/books/index.js:55-56 | for an admitted request and any ok backend status with a JSON body, the response is 200 with that body unchanged and no `Allow` (also lines 22-23) |
| `BooksGateway.FailuresHidden` | src/pages/api/books/index.js:57-59 | for an admitted request, a transport failure, an unparseable ok body or a `null` error body gives 500 "Terjadi kesalahan server" and nothing from the backend (also lines 24-26) |
| `BooksGateway.UpdateForwardsTitleAndAuthor` | src/pages/api/books/index.js:37-45 | an admitted PUT sends exactly one PUT to `<origin>/books/<id>` whose body has exactly the keys `title` and `author`, with the request's values; other fields are dropped |
| `BooksGateway.ListForwarded` | src/pages/api/books/index.js:15 | a GET sends exactly one GET to `<origin>/books` with no body |
| `JsValues.Property` | src/pages/api/books/index.js:31 | reading a property throws iff the value is `undefined` or `null`; it finds a value iff the value is an object that has the key, and then it is that key's value |
| `JsValues.Truthy` | src/pages/api/books/index.js:19 | the falsy JSON values are exactly `null`, `false`, `0` and the empty string |
| `Text.LowerChar` | src/pages/books/index.js:25-26 | each upper-case ASCII letter becomes its lower-case letter (looked up in the alphabet 'a'..'z'); the result is never an upper-case ASCII letter, and only upper-case letters are changed |
| `Text.ToLower` | src/pages/books/index.js:25-26 | same length, and each character is lower-cased in place |
| `Text.ToLowerIdempotent` | src/pages/books/index.js:25-26 | lower-casing twice is lower-casing once |
| `Text.Contains` | src/pages/books/index.js:25-26 | `includes` only holds of a substring no longer than the string; what it means is fixed by `Text.ContainsIffOccursAt` |
| `Text.ContainsIffOccursAt` | src/pages/books/index.js:25-26 | `includes` holds iff the substring starts at some offset of the string |
| `Text.ContainsEmpty` | src/pages/books/index.js:24-27 | every string includes the empty string |
| `Text.TrimStart` | src/pages/categories/index.js:20 | the result is a suffix of the input, everything dropped is white space, and the result does not start with white space |
| `Text.TrimEnd` | src/pages/categories/index.js:20 | the result is a prefix of the input, everything dropped is white space, and the result does not end with white space |
| `Text.Trim` | src/pages/categories/index.js:20 | `trim()`: the input is a blank prefix, then the result, then a blank suffix, and the result neither starts nor ends with white space, so exactly the white space at the two ends is removed (same call at line 42) |
| `Text.IsWhiteSpace` | src/pages/categories/index.js:20 | the characters `trim` removes; among ASCII characters these are exactly tab, line feed, vertical tab, form feed, carriage return and space (same set at line 42) |
| `Text.TrimEmptyIffBlank` | src/pages/categories/index.js:42 | `!s.trim()` holds iff every character of `s` is white space (same test at line 20) |
| `Seqs.SubsequenceContained` | src/pages/books/index.js:24-29 | a subsequence is no longer than its source and holds only the source's elements |
| `BookList.Matches` | src/pages/books/index.js:24-27 | the filter callback; the empty query matches every book |
| `BookList.MatchesIgnoresCase` | src/pages/books/index.js:25-26 | the search gives the same answer when the query, or the title and author, are lower-cased first |
| `BookList.Search` | src/pages/books/index.js:24-28 | the result is a subsequence of the books, and a book is in it iff it is in the books and its lower-cased title or author contains the lower-cased query |
| `BookList.SearchAppend` | src/pages/books/index.js:24-29 | searching a concatenation is concatenating the searches, so the original order is kept |
| `BookList.SearchKeepsMatching` | src/pages/books/index.js:24-27 | a list whose every book matches is returned unchanged |
| `BookList.EmptyQueryKeepsAll` | src/pages/books/index.js:24-27 | the empty query keeps every book |
| `BookList.SearchIdempotent` | src/pages/books/index.js:24-29 | searching the filtered list with the same query returns it unchanged |
| `BookList.WithoutId` | src/pages/books/index.js:37 | the result is a subsequence of the books, and a book is in it iff it is in the books and does not have the id |
| `BookList.WithoutIdAppend` | src/pages/books/index.js:37 | removing by id from a concatenation removes from each part; with the one-element case this fixes the result exactly: every other book is kept, as often as it occurs and in order |
| `BookList.WithoutAbsentId` | src/pages/books/index.js:37 | removing an id that no book has returns the list unchanged |
| `BookList.WithoutIdIdempotent` | src/pages/books/index.js:37 | deleting by the same id twice is the same as deleting once |
| `BookList.SearchAfterDelete` | src/pages/books/index.js:23-37 | the list shown after a delete (the filter effect re-run) is the earlier search result with that id removed |
| `BookList.Page.constructor` | src/pages/books/index.js:6-10 | empty lists, empty query and loading; the shown list agrees with the search |
| `BookList.Page.Load` | src/pages/books/index.js:12-21 | on success `books` and `filteredBooks` both become `data.data` and loading ends, which agrees with the search while the query is still empty; on failure nothing changes |
| `BookList.Page.SetSearchQuery` | src/pages/books/index.js:153 | sets the query and nothing else |
| `BookList.Page.FilterEffect` | src/pages/books/index.js:23-30 | `filteredBooks` becomes the search of `books` by the query and nothing else changes |
| `BookList.Page.DeleteBook` | src/pages/books/index.js:32-39 | not confirmed: no request and no change; confirmed: the DELETE for the id is sent, and once `fetch` resolves (whatever the status) every book with the id is removed, keeping the rest in order |
| `Categories.WithoutId` | src/pages/categories/index.js:33 | the result is a subsequence of the categories, and a category is in it iff it is in them and does not have the id |
| `Categories.WithoutIdAppend` | src/pages/categories/index.js:33 | removing by id from a concatenation removes from each part; with the one-element case this fixes the result exactly: every other category is kept, as often as it occurs and in order |
| `Categories.ReplaceById` | src/pages/categories/index.js:49 | same length; each entry with the id becomes the updated record, and every other entry stays where it is |
| `Categories.WithoutAbsentId` | src/pages/categories/index.js:33 | removing an id that no category has returns the list unchanged |
| `Categories.ReplaceIdempotent` | src/pages/categories/index.js:49 | saving the same record for the same id twice gives the same list as saving it once |
| `Categories.ReplaceAbsentId` | src/pages/categories/index.js:49 | replacing an id that no category has returns the list unchanged |
| `Categories.Editor.constructor` | src/pages/categories/index.js:5-8 | no categories, empty names and no edit in progress |
| `Categories.Editor.Load` | src/pages/categories/index.js:11-15 | the list becomes the one returned, if any, and nothing else changes |
| `Categories.Editor.SetNewName` | src/pages/categories/index.js:89 | sets `newName` only |
| `Categories.Editor.SetEditingName` | src/pages/categories/index.js:112 | sets `editingName` only |
| `Categories.Editor.AddCategory` | src/pages/categories/index.js:19-29 | a blank name sends nothing and changes nothing; otherwise the untrimmed name is sent, and once the created record arrives it is appended at the end and `newName` is cleared; `editingId` and `editingName` never change |
| `Categories.Editor.DeleteCategory` | src/pages/categories/index.js:31-34 | once the DELETE is answered, every entry with the id is removed and the rest keep their order; only the list changes |
| `Categories.Editor.StartEditing` | src/pages/categories/index.js:36-39 | sets `editingId` and `editingName` to the given values and changes nothing else |
| `Categories.Editor.SaveEdit` | src/pages/categories/index.js:41-52 | a blank editing name sends nothing and keeps edit mode; otherwise the untrimmed name is sent, and once the updated record arrives it replaces exactly the entries with the id and both editing fields are cleared; `newName` never changes |
| `Categories.Editor.CancelEdit` | src/pages/categories/index.js:123 | only `editingId` is reset; `editingName` keeps its value |

## Left out

- The backend and every `fetch`: their outcomes are parameters (`BackendOutcome`, `DeleteOutcome`, and `Option` replies where `None` means the request or the parsing of its reply threw).
- `BACKEND_URL` (src/pages/api/books/index.js:2): environment configuration; the backend origin is the parameter `origin`.
- `isNaN`: JavaScript's number coercion is not modelled. The parameter `numeric` stands for `!isNaN(id)`, so no property depends on what counts as numeric. Only the `!id` half of the check (absent or empty) is concrete.
- `Text.ToLower`: lower-cases ASCII letters only, because JavaScript's full Unicode case mapping is not modelled.
- The `Content-Type` header of the forwarded PUT and the text of the framework's own 500 page.
- JSON numbers are exact reals. Floating-point precision and `-0` are not modelled.
- A repeated `id` query parameter, which Next.js delivers as an array.
- Books and categories are typed records. A book whose `title` or `author` is not a string would make `toLowerCase` throw in the source. The source puts whatever JSON the server replies with into the category list: `addCategory` appends it (src/pages/categories/index.js:26-27), and `saveEdit` uses it as the replacement for every entry with the id (src/pages/categories/index.js:48-49). So an error object would enter the list. The model types these replies as `Category` records and cannot represent that.
- `window.confirm` is the parameter `confirmed` of `DeleteBook`.
- React's scheduling: state updates and effects run one after another, in the order a caller invokes the methods. Concurrent handlers, including stale closures over `books` and `categories`, are not modelled.
- Rendering, dark mode, the loading skeleton and navigation. The same holds for lib/api/books.js, src/pages/books/add.js, src/pages/books/[id].js, src/components/BookForm.js, src/pages/api/books/dashboard.js and both navbar files, which hold no logic beyond single requests, redirects and markup.
