# auto-broker car store, modelled in Dafny

The auto-broker server keeps a list of car records in one JSON file,
`cars.json`, and adds to it through `POST /add-car`, a multipart form with
the text fields `make`, `model`, `year`, `price` and an optional photo
`carPhoto`. This project models the logic behind that endpoint in
`server.js`:

- `getNextId` (`Records.NextId`): a left fold of `Math.max` over the ids,
  starting from 0, plus 1. A missing or falsy id counts as 0.
- `readCars` and `writeCars` (`Server.CarStore`): the file is a field
  `stored: Option<seq<Car>>`. `None` is a missing or unparsable file, and it
  reads as the empty list. Writing replaces the whole list.
- The add-car handler (`Server.CarStore.AddCar`, specified by the function
  `Server.Handle`). An upload error answers 500 with multer's message. A
  missing or empty required field answers 400. Both leave the file exactly
  as it was. Otherwise the handler reads the list and builds a record with
  the next id. It keeps make and model verbatim and runs year and price
  through `parseInt`. It appends the record and writes the list back. If
  the file was unreadable, a successful add replaces it with a one-record
  list.
- Upload names (`Uploads`): a photo is stored as
  `<Date.now()>-<original name>` and referenced as
  `/public/uploads/<that name>`. `SplitImageUrl` reads such a URL back into
  the timestamp and the original name.

What is proved: the next id exceeds every stored id, so no stored record
has it. Ids are exact integers here; JavaScript computes them as doubles,
which agree with the model while every stored id is below 2^53 (see
"Left out"). It is 1 for an empty list and never drops when the list grows.
Failed requests change nothing. A successful request appends exactly one
record and keeps the earlier ones and their order. Over any series of
requests the added ids strictly increase, and from an empty store they are
1, 2, 3, … An image URL determines its timestamp and original name, and
the URLs `SplitImageUrl` accepts are exactly the image URLs.

`parseInt` is a parameter of type `string -> Option<int>`, where `None`
stands for `NaN`. The clock reading of `Date.now()` and the original file
name are part of the request (`Upload.Saved`). A record field that is
`NaN` or `null` in JavaScript is `None` here. `JSON.stringify` writes `NaN`
as `null`, so writing a list and reading it back gives the same model
value.

## Model

| member | source | states |
|---|---|---|
| `Records.IdOrZero` | server.js:47 | `car.id \|\| 0`: a record's id, or 0 when it is missing or falsy |
| `Records.MaxId` | server.js:47 | the `reduce` with `Math.max` yields a value at least the start value, at least every id (missing ids as 0), and equal to the start value or to one of the ids |
| `Records.NextId` | server.js:46-48 | the next id is at least 1, strictly greater than every id in the list (missing or falsy ids as 0), and is either 1 or one more than some id in the list |
| `Records.NextIdIsExact` | server.js:47 | while every stored id is below 2^53 the next id is at most 2^53, so JavaScript's double `max + 1` equals the exact value of `Records.NextId` |
| `Records.NextIdOfEmpty` | server.js:46-48 | the next id of an empty list is 1 |
| `Records.NextIdIsFresh` | server.js:47 | no record in the list carries the next id |
| `Records.NextIdAppend` | server.js:47 | appending a record makes the next id the larger of the old next id and one past the appended id, so it never decreases |
| `Records.MaxIdAppend` | server.js:47 | folding `Math.max` over a list with one more record gives the larger of the old fold and that record's id |
| `Uploads.FileName` | server.js:27 | the stored name of an upload: the timestamp's decimal form, a dash, then the original name unchanged |
| `Uploads.ImageUrl` | server.js:79 | the image URL of a stored upload: `/public/uploads/` followed by its file name |
| `Uploads.Decimal` | server.js:27 | the string form of the millisecond timestamp is a non-empty decimal numeral without superfluous leading zeros |
| `Uploads.DecimalRoundTrip` | server.js:27 | reading back the numeral of a timestamp gives the timestamp |
| `Uploads.NumeralRoundTrip` | server.js:27 | every numeral without superfluous leading zeros is the numeral of the number it denotes |
| `Uploads.ImageUrlRoundTrip` | server.js:79 | the image URL `/public/uploads/<timestamp>-<original name>` splits back into that timestamp and that original name |
| `Uploads.SplitImageUrlSound` | server.js:79 | every URL that splits is the image URL of the timestamp and name it splits into, so image URLs are exactly `/public/uploads/<numeral>-<name>` |
| `Server.CarStore.ReadCars` | server.js:33-39 | the fail-soft read: the list the file holds, or the empty list when the file is missing or does not parse |
| `Server.CarStore.WriteCars` | server.js:42-44 | the file is overwritten with the whole list, and reading it back gives that list |
| `Server.CarStore.AddCar` | server.js:59-86 | the handler answers as `Handle` on the list read before it; on failure the file is unchanged, on success it holds the old list plus the new record at the end |
| `Server.Truthy` | server.js:67 | JavaScript truthiness of a form field: present and not the empty string |
| `Server.HasRequiredFields` | server.js:67 | the request passes validation when make, model, year and price are all truthy |
| `Server.NewCar` | server.js:72-80 | the record built: id from `Records.NextId` of the list read, make and model verbatim, year and price through `parseInt`, image URL from the saved upload or null |
| `Server.Handle` | server.js:60-85 | the response: 500 on an upload error, else 400 on a failed validation, else 201 with `Server.NewCar` of the list read |
| `Server.Step` | server.js:82-83 | the list after one request keeps the records read in their places and is one longer exactly when the request succeeds |
| `Server.Run` | server.js:82-83 | the list after a series of requests handled one at a time keeps the records read first and grows by at most one record per request |
| `Server.HandleFailsOnlyOnBadInput` | server.js:60-69 | a request fails exactly when the upload failed (500 with `File upload error: ` and multer's message) or a required field is absent or empty (400 with `Missing required car details.`) |
| `Server.CreatedCar` | server.js:71-80 | the created record has an id of at least 1, greater than and different from every stored id; make and model verbatim; year and price as `parseInt` reads them; an image URL exactly when a file was uploaded, from which the upload's timestamp and name read back |
| `Server.FirstCarGetsIdOne` | server.js:33-39 | a store whose file is empty or unreadable reads as the empty list, so a successful add leaves exactly the new record, with id 1 |
| `Server.RunAppendsFreshIds` | server.js:71-83 | over any series of requests the earlier records keep their values and order, and each added record's id exceeds the ids of all records before it |
| `Server.StepKeepsNumbering` | server.js:71-83 | one request keeps a store numbered 1..n numbered, the new record getting n + 1 |
| `Server.RunKeepsNumbering` | server.js:71-83 | a store numbered 1..n stays numbered consecutively over any series of requests; failed requests use no id |
| `Server.IdsFromEmptyStore` | server.js:71-83 | from an empty store, the records added carry ids 1, 2, 3, … in order |
| `Server.ToyotaScenario` | server.js:59-85 | a Toyota Corolla of 2020 at 20000 without a photo, posted to an empty store, is created with id 1 and a null image URL |

## Left out

- Express setup, CORS, static serving under `/public`, the port and `app.listen`: HTTP plumbing with no logic to state.
- `GET /cars`: it only sends `readCars()` as JSON, which `Server.CarStore.ReadCars` covers.
- multer's disk storage and `fs.mkdirSync` of the upload directory: filesystem I/O. An upload is modelled by its outcome (error, no file, or saved under a timestamp and the original name).
- The real `readFileSync`, `writeFileSync`, `JSON.parse` and `JSON.stringify` with its 4-space indent: library code. The file is modelled as the list it parses to, and writing then reading is taken to return the list written.
- A file that parses to something other than a list of records (such as a JSON object): `reduce` would then throw. The model only has lists of records or an unreadable file.
- Ids that are not integers (strings, fractions): the model's ids are optional integers.
- Records.NextId: ids are exact integers here, while getNextId adds 1 to a JavaScript double. Once the largest stored id reaches 2^53, `max + 1` rounds (2^53 + 1 gives 2^53), so the source can hand out a stored id. `Records.NextIdIsExact` bounds where the two agree.
- Records.NextIdIsFresh: freshness of the next id holds in the source only while every stored id is below 2^53, for the rounding reason above.
- Server.CreatedCar: the new id exceeds and differs from every stored id in the source only while every stored id is below 2^53.
- Server.RunAppendsFreshIds: added ids increase strictly in the source only while the ids involved stay below 2^53; from an empty store that takes 2^53 successful adds.
- `Date.now()`: a clock. The timestamp is a parameter of the upload. Its string form is modelled as a plain decimal numeral, which is what JavaScript produces for any millisecond clock reading below 10^21.
- The semantics of `parseInt` (whitespace, partial prefixes, hexadecimal prefixes): a library call, kept as a parameter of type `string -> Option<int>`.
- A request that is not multipart at all, or that repeats a text field (so that multer gives an array): the model's form fields are single optional strings.
- Lost updates between overlapping requests: concurrency, outside a sequential model. `Server.Run` handles requests one at a time.
- Path-traversal characters in the original file name: a filesystem concern. The model only concatenates strings.
