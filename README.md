# Thesis assistant backend: Jake images and nail studios, modelled in Dafny

This project models the core of a small Flask backend with two parts. Each
part is modelled with proofs about its behaviour.

**The Jake image folder** (`routes/jake_routes.py`) stores numbered images
`1.jpg` … `MAX_IMAGE_NUMBER.jpg`. The model covers:
- the extension check;
- the search for the first free number;
- the random pick;
- the single and batch uploads;
- the delete;
- the statistics view.

The folder is a class `JakeRoutes.ImageFolder`. Its state is the set of
occupied slot numbers. Each route is a method proved against a
specification function, for example `UploadOutcome`, `BatchRun` or
`OccupiedSlots`.

**The nail studio directory** (`models/nailstudio.py`,
`routes/nailstudio_routes.py`) is a table of studios. The model covers:
- reading today's opening hours and building the week view;
- the dictionary view of a record;
- the list endpoint: its query string, search and filters, sort order,
  pagination, the `open_today` post-filter and the sorted `desa` options;
- create, read, update, survey-status update and delete;
- the statistics endpoint.

The table is a class `NailStudioRoutes.Directory` holding a
`map<string, Studio>` from id to row. The record and its hours logic are
pure functions in `NailStudioModel`. Query parsing, filters, ordering and
pagination are in `NailStudioQuery`.

**Shared modules:**
- `Text` holds ASCII lower-casing, substring search and `strip()`.
- `Text` also holds Python's `int()` and `float()` of a string (digits,
  sign, underscores, decimal point, exponent), decimal printing and
  code-point string order.
- `Sorting` is an `ORDER BY` modelled as a sort by a total preorder.
- `Wrappers` holds `Option`.

**Parameters instead of the environment.** Things the code gets from its
environment are parameters:
- the current weekday in Asia/Jakarta (`today`);
- `datetime.utcnow()` (`now`);
- the new studio id (`newId`);
- the value drawn by `random.randint` (`guess`), and the index chosen by
  `random.choice` (`pick`);
- the configured `MAX_IMAGE_NUMBER`.

**How errors are modelled.** A request body is a typed payload. Each key is
either absent or given, and a numeric key carries a JSON scalar.
- `float()` or `int()` of a JSON null is a `TypeError`, answered with 500.
- A malformed string is a `ValueError`, answered with 400.
- Every failed write rolls back, so the table is unchanged.

## Model

| member | source | states |
|---|---|---|
| JakeRoutes.AllowedFileIff | routes/jake_routes.py:17-20 | a name is accepted exactly when it has a last '.', and the text after it, lower-cased, is png, jpg, jpeg or gif |
| Text.LastIndexOfIff | routes/jake_routes.py:20 | position k of c is the one `rsplit(c, 1)` splits at exactly when c does not occur after k |
| JakeRoutes.SlotFileNameRoundTrip | routes/jake_routes.py:128 | the name `{n}.jpg` the routes save under passes the extension check, and its stem parses back to n, so the saved name determines its slot |
| JakeRoutes.SlotFileNameInjective | routes/jake_routes.py:128 | different slot numbers are saved under different file names |
| Text.NatToStringInjective | routes/jake_routes.py:128 | decimal printing of a natural number is injective |
| Text.ParseIntOfNatToString | routes/jake_routes.py:108 | `int()` of the decimal form of n gives n back, which is how a requested slot number is read |
| JakeRoutes.UploadRequestedNumber | routes/jake_routes.py:105-130 | a client that asks for a free slot n in 1..max, written in decimal, gets exactly slot n, saved as `{n}.jpg` |
| JakeRoutes.FirstFreeFrom | routes/jake_routes.py:22-28 | the result is the smallest free number in lo..max; it is None exactly when every number in that range is taken |
| JakeRoutes.FirstFreeUnique | routes/jake_routes.py:22-28 | a free n with every lower number in 1..max taken is the number the search returns |
| JakeRoutes.DeleteThenFirstFree | routes/jake_routes.py:22-28 | after slot m is deleted, the next number is the smaller of m and the previous next number |
| JakeRoutes.LaterFreeSlotIsLarger | routes/jake_routes.py:22-28 | once the slot the search returned is filled, the next search returns a larger number |
| JakeRoutes.OccupiedSlots | routes/jake_routes.py:47-50 | the list of present images holds exactly the taken numbers in 1..hi, strictly increasing |
| JakeRoutes.OccupiedSlotsCount | routes/jake_routes.py:255-258 | the number of present images is the size of the set of taken numbers in 1..hi |
| JakeRoutes.PreviewIsSmallest | routes/jake_routes.py:264 | a present image missing from the ten-number preview is larger than every number in it |
| JakeRoutes.Preview | routes/jake_routes.py:264 | the preview is the first min(10, count) present numbers |
| JakeRoutes.UploadTakesFreeSlot | routes/jake_routes.py:75-138 | a successful upload needs an allowed, non-empty file name; it takes a number in 1..max that was free, namely the requested one or else the first free one, and saves under `{n}.jpg` |
| JakeRoutes.UploadRejectionOrder | routes/jake_routes.py:78-126 | the rejections come in the source's order: no file part, empty name, bad type, folder full, unparsable number, number out of range, number taken; an allowed name with no number (absent or empty) and a free slot is uploaded into the first free slot |
| JakeRoutes.DeleteOutcome | routes/jake_routes.py:219-243 | the delete succeeds exactly for a present number in 1..max and then removes exactly that number; otherwise the folder is unchanged |
| JakeRoutes.UploadDeleteReuse | routes/jake_routes.py:98-243 | deleting the number an upload just saved succeeds and restores the folder, where the same upload gives the same answer; after an upload without a number (the field absent or empty) the next number lies above the one taken, and after the delete it is that number again |
| JakeRoutes.BatchStepReports | routes/jake_routes.py:166-201 | each non-empty file name is reported exactly once, as uploaded or as failed; an empty name is skipped |
| JakeRoutes.BatchStepReasons | routes/jake_routes.py:170-183 | one more file keeps the reasons sound: uploads have allowed names, "type not allowed" is given exactly for names that are not allowed, and "maximum reached" only once every slot of 1..max is taken |
| JakeRoutes.BatchAccounting | routes/jake_routes.py:163-210 | the uploaded and failed lists together hold exactly the non-empty names of the batch, as a multiset, and their lengths sum to the count of those names; every upload has an allowed name, a failure is a type failure exactly when its name is not allowed, and "maximum reached" is reported only when every slot of 1..max is taken |
| JakeRoutes.BatchStepAllocation | routes/jake_routes.py:177-195 | one file of a batch keeps the allocation invariant: each saved file took the first free number at its turn |
| JakeRoutes.BatchAllocation | routes/jake_routes.py:166-201 | after a whole batch, every saved file took the first free number at its turn |
| JakeRoutes.AllocatedSlotsFresh | routes/jake_routes.py:177-195 | numbers allocated in that way lie in 1..max, were free before the batch and strictly increase |
| JakeRoutes.BatchSlotsFresh | routes/jake_routes.py:163-210 | after a batch the folder is the old folder plus the new numbers; each new number was free before and lies in 1..max; the numbers strictly increase |
| JakeRoutes.ImageFolder.NextImageNumber | routes/jake_routes.py:22-28 | the probe loop returns the first free number in 1..max, or None |
| JakeRoutes.ImageFolder.AvailableImages | routes/jake_routes.py:47-50 | the scan loop returns the taken numbers of 1..max in increasing order |
| JakeRoutes.ImageFolder.RandomJake | routes/jake_routes.py:31-72 | max < 1 gives an error (randint fails); an empty folder gives 404; a drawn number that is present is served; otherwise the pick from the present list is served; a served image is present and in 1..max |
| JakeRoutes.ImageFolder.UploadJake | routes/jake_routes.py:75-144 | the answer is the upload outcome; the folder gains exactly the saved number on success and is unchanged otherwise |
| JakeRoutes.ImageFolder.UploadMultiple | routes/jake_routes.py:147-216 | the answer is the batch outcome; the folder gains exactly the batch's allocations on success and is unchanged on rejection |
| JakeRoutes.ImageFolder.DeleteJake | routes/jake_routes.py:219-249 | the answer and the new folder are the delete outcome: a number outside 1..max gives 400 and a missing image gives 404, both with the folder unchanged; otherwise exactly that number is removed |
| JakeRoutes.ImageFolder.GetJakeStats | routes/jake_routes.py:252-266 | the total is the number of taken slots in 1..max; max_possible is the configured maximum; the preview is the listing's first ten numbers |
| NailStudioModel.IsOpenTodayDefaults | models/nailstudio.py:70-80 | open today is false without a schedule or without today's entry, and otherwise equals today's isOpen flag (missing means false) |
| NailStudioModel.IsOpenTodayLocal | models/nailstudio.py:70-98 | two non-empty schedules that agree on today's entry give the same open flag and the same today hours |
| NailStudioModel.TodayHoursAgree | models/nailstudio.py:82-98 | today's hours are null exactly when there is no schedule; they report open exactly when open today holds, and then copy that day's open and close times |
| NailStudioModel.WeekEntryAgreesWithToday | models/nailstudio.py:104-111 | a day reads "Tutup" exactly when it is not open; an open day reads "<open> - <close>" from today's hours |
| NailStudioModel.WeekSchedule | models/nailstudio.py:100-113 | seven rows Senin..Minggu, one per day in order, each that day's line; all "Tutup" without a schedule; equal to the original's rows wherever the original succeeds |
| NailStudioModel.WeekLabelsDistinct | models/nailstudio.py:102-103 | the seven day labels are distinct, and so are the seven schedule keys |
| NailStudioModel.NullHoursBreakWeekView | models/nailstudio.py:107 | on a NULL operatingHours the week view as written fails, while the dictionary view shows `{}`, isOpenToday is false and todayHours is null |
| NailStudioModel.ShownHours | models/nailstudio.py:58 | the shown hours are `{}` exactly when the column is NULL or empty, and are the column itself otherwise |
| NailStudioModel.ToDict | models/nailstudio.py:40-68 | the dictionary carries every column, with operatingHours replaced by `operatingHours or {}`; the today fields are present exactly when asked for |
| NailStudioModel.ToDictConsistent | models/nailstudio.py:58-66 | the today fields equal what the shown hours give, so the dictionary is consistent with itself |
| NailStudioQuery.PerPageCapped | routes/nailstudio_routes.py:13-14 | per_page is at most 100, defaults to 20 and is otherwise the given value |
| NailStudioQuery.BuildFilters | routes/nailstudio_routes.py:24-42 | at most four filters; none exactly when no filter argument is active; a row passes them all exactly when the query selects it |
| NailStudioQuery.FiltersMeanSelected | routes/nailstudio_routes.py:26-45 | the conjunction of the built filters is exactly the query's selection predicate |
| NailStudioQuery.PassesAllAppend | routes/nailstudio_routes.py:44-45 | `and_` over a concatenation of filter lists is the conjunction of the two |
| NailStudioQuery.NoFilterSelectsAll | routes/nailstudio_routes.py:44-45 | without active filters every row is selected |
| NailStudioQuery.AscendingTotal | routes/nailstudio_routes.py:47-52 | ascending order by rating, creation time or name is a total preorder |
| NailStudioQuery.OrderTotal | routes/nailstudio_routes.py:47-52 | the chosen sort order, ascending or descending, is a total preorder |
| Sorting.FlipTotalPreorder | routes/nailstudio_routes.py:48 | reversing a total preorder gives a total preorder |
| Sorting.SortBy | routes/nailstudio_routes.py:47-52 | an `ORDER BY` gives a sorted permutation of its rows |
| Sorting.SortByMembers | routes/nailstudio_routes.py:47-52 | sorting keeps the length and the set of rows |
| Text.StrLeTotal | routes/nailstudio_routes.py:52 | code-point string order is total |
| Text.StrLeTransitive | routes/nailstudio_routes.py:52 | code-point string order is transitive |
| Text.StrLeAntisymmetric | routes/nailstudio_routes.py:85 | code-point string order is antisymmetric |
| NailStudioQuery.PageCountBounds | routes/nailstudio_routes.py:54 | the page count is the ceiling of total / per_page, and zero exactly when there are no rows |
| NailStudioQuery.Paginate | routes/nailstudio_routes.py:54 | page < 1 is read as 1 and per_page < 1 as 20; has_prev holds exactly when page > 1, and has_next exactly when page < pages |
| NailStudioQuery.PaginatePages | routes/nailstudio_routes.py:54 | the reported pages count is ceil(total / per_page), and zero exactly when total is zero |
| NailStudioQuery.PageOffsetIsProduct | routes/nailstudio_routes.py:54 | the page offset is (page - 1) * per_page |
| NailStudioQuery.PageItems | routes/nailstudio_routes.py:54-57 | the page holds the rows from offset (page-1)*per_page onwards, at most per_page of them, in order |
| NailStudioQuery.PostFilter | routes/nailstudio_routes.py:56-65 | the loop returns the post-filtered dictionaries |
| NailStudioQuery.PostFilteredSubsequence | routes/nailstudio_routes.py:56-65 | the result is the dictionaries of an increasing subsequence of the page: exactly the rows the open_today mode keeps |
| NailStudioQuery.PostFilterInactive | routes/nailstudio_routes.py:60-63 | an open_today value other than true or false keeps every row of the page |
| NailStudioQuery.InsertDistinct | routes/nailstudio_routes.py:85 | inserting into a strictly increasing list keeps it strictly increasing and adds exactly that value |
| NailStudioQuery.SortedDistinct | routes/nailstudio_routes.py:67-85 | the desa options are strictly increasing and hold exactly the given names |
| NailStudioQuery.StrictlyIncreasingDistinct | routes/nailstudio_routes.py:67 | a strictly increasing list has no duplicate, as `distinct()` promises |
| Text.StripNoSpace | routes/nailstudio_routes.py:15-21 | `strip()` leaves a string without whitespace unchanged |
| Text.Strip | routes/nailstudio_routes.py:15-21 | the result is a slice of the input with only whitespace before and after it, and it neither starts nor ends with whitespace |
| Text.TruncateToInt | routes/nailstudio_routes.py:149 | `int()` of a float truncates toward zero |
| NailStudioRoutes.ToFloat | routes/nailstudio_routes.py:148 | `float()` fails with a TypeError exactly on null; a number is kept; a string converts exactly when it parses as a Python float literal |
| NailStudioRoutes.ToInt | routes/nailstudio_routes.py:149 | `int()` fails with a TypeError exactly on null; a number always converts, truncated toward zero; a string converts exactly when it parses as a Python int literal |
| NailStudioRoutes.ToIntOfInteger | routes/nailstudio_routes.py:149 | `int()` of an integral number is that integer |
| NailStudioRoutes.ToOptionalFloat | routes/nailstudio_routes.py:154-155 | a null latitude or longitude is stored as NULL and never gives a TypeError |
| NailStudioRoutes.FirstFailure | routes/nailstudio_routes.py:148-155 | the record is built exactly when all four conversions succeed; otherwise the first failing conversion, in argument order, decides: a ValueError gives 400 and a TypeError gives 500 |
| NailStudioRoutes.CreateNeedsNama | routes/nailstudio_routes.py:135-139 | a body without a non-empty nama is refused with "nama required", and every created row has one |
| NailStudioRoutes.CreateDefaults | routes/nailstudio_routes.py:140-157 | a body with only nama creates a row with rating 0, no reviews, `{}` hours, not surveyed, the eleven nullable columns (alamat, desa, noTelp, instagram, whatsapp, description, photoUrl, instagramEmbed, mapsEmbed, latitude, longitude) NULL and both timestamps now |
| NailStudioRoutes.CreateCopiesBody | routes/nailstudio_routes.py:140-161 | a created row has the new unused id, the body's nama and all nine other text columns (alamat, desa, noTelp, instagram, whatsapp, description, photoUrl, instagramEmbed, mapsEmbed); rating, totalReviews, latitude and longitude are the body's values converted as the source converts them, or 0.0, 0, NULL, NULL when absent; hours are the body's or `{}`; surveyStatus is the body's truthiness or false; both timestamps are now |
| NailStudioRoutes.CreateConversionErrors | routes/nailstudio_routes.py:169-180 | a malformed rating string gives 400; a null rating or review count gives 500 |
| NailStudioRoutes.UpdateWritesPresentKeys | routes/nailstudio_routes.py:195-229 | an update writes exactly the keys in the body, each converted as the source converts it (a latitude or longitude by `float()` unless null), keeps id and createdAt, and sets updatedAt to now |
| NailStudioRoutes.UpdateEmptyBody | routes/nailstudio_routes.py:228-230 | an empty body changes only updatedAt |
| NailStudioRoutes.UpdateIdempotent | routes/nailstudio_routes.py:195-230 | applying the same body twice gives the same row as applying it once |
| NailStudioRoutes.UpdateFailsIff | routes/nailstudio_routes.py:195-249 | an update fails exactly when a given rating, review count, latitude or longitude does not convert, or nama is set to null |
| NailStudioRoutes.ApplyBody | routes/nailstudio_routes.py:195-230 | the step-by-step writes of the handler give the update outcome |
| NailStudioRoutes.SurveyTouchesOnlyStatus | routes/nailstudio_routes.py:255-274 | the survey update changes only surveyStatus and updatedAt; a missing or null surveyStatus gives 400 (surveyStatus required), a missing body gives 500, and nothing else fails; a boolean is stored as given |
| NailStudioRoutes.OpenIdsAdd | routes/nailstudio_routes.py:327-331 | counting one more row adds one exactly when that row is open today |
| NailStudioRoutes.RatingSumRemove | routes/nailstudio_routes.py:333 | the rating sum splits off any one row |
| NailStudioRoutes.SurveyedSplit | routes/nailstudio_routes.py:324-348 | the unsurveyed count is the total minus the surveyed count |
| NailStudioRoutes.DesaDistribution | routes/nailstudio_routes.py:335-341 | the distribution has one entry per non-empty desa value; its count is the number of rows with that desa, at least one |
| NailStudioRoutes.Directory.CreateNailStudio | routes/nailstudio_routes.py:130-180 | on success exactly the new row is added and its dictionary is returned; on failure the table is unchanged and the failure is returned |
| NailStudioRoutes.Directory.GetNailStudio | routes/nailstudio_routes.py:106-127 | an unknown id gives 404; a known id gives its dictionary with today's fields, and the seven-row week view of its shown hours |
| NailStudioRoutes.Directory.UpdateNailStudio | routes/nailstudio_routes.py:183-249 | an unknown id gives 404 with the table unchanged; on success exactly that row is replaced by the update outcome; on failure the table is unchanged |
| NailStudioRoutes.Directory.UpdateSurveyStatus | routes/nailstudio_routes.py:252-291 | an unknown id gives 404; on success exactly that row is replaced and a summary of id, nama and status is returned; on failure the table is unchanged |
| NailStudioRoutes.Directory.DeleteNailStudio | routes/nailstudio_routes.py:294-318 | an unknown id gives 404 with the table unchanged; otherwise exactly that row is removed and its nama is returned |
| NailStudioRoutes.Directory.PassingKeys | routes/nailstudio_routes.py:44-45 | the scan returns each id whose row passes the filters, once each |
| NailStudioRoutes.Directory.SelectRows | routes/nailstudio_routes.py:44-45 | the rows passing the filters, each once and as stored |
| NailStudioRoutes.Directory.SelectedRows | routes/nailstudio_routes.py:23-45 | the filtered rows are exactly the rows the query selects |
| NailStudioRoutes.Directory.DesaOptions | routes/nailstudio_routes.py:67-85 | the options are strictly increasing and hold exactly the non-empty desa values in the table |
| NailStudioRoutes.Directory.OrderedRows | routes/nailstudio_routes.py:23-52 | the ordered query is sorted by the chosen key and holds exactly the selected rows, each once |
| NailStudioRoutes.Directory.ListPage | routes/nailstudio_routes.py:54-96 | the response gives the pagination of the ordered selection, and the post-filtered dictionaries of that page; the desa options are sorted and distinct; the applied filters are echoed |
| NailStudioRoutes.Directory.ListNailStudios | routes/nailstudio_routes.py:10-103 | the list endpoint: the query string read as Flask reads it, then the filtered, ordered, paginated and post-filtered rows, the sorted desa options and the applied filters |
| NailStudioRoutes.Directory.CountOpenToday | routes/nailstudio_routes.py:327-331 | the loop counts exactly the rows open today |
| NailStudioRoutes.Directory.AverageRating | routes/nailstudio_routes.py:333 | the average rating is the sum of the ratings over the count, and 0 for an empty table |
| NailStudioRoutes.Directory.GetStats | routes/nailstudio_routes.py:321-351 | the statistics: total, surveyed, unsurveyed (equal to total minus surveyed), open today, average rating and the desa distribution |

## Left out

- Flask plumbing is not modelled: blueprints, `jsonify`, the response message strings, the image URLs, CORS, the health check.
- `serve_image` and `send_from_directory` are not modelled.
- `MAX_IMAGE_NUMBER` is a parameter. Reading it from the environment in config.py is not modelled.
- Filesystem errors are left out. A `file.save` that raises in a batch upload, reported with `str(e)`, is not modelled, and neither are the 500 answers from other I/O exceptions.
- JakeRoutes.DeleteOutcome: the image number is any int. The route's `<int:...>` converter (routes/jake_routes.py:218) rejects negative numbers with a routing 404 before the handler runs, so the 400 is reached only for 0 and numbers above max.
- The folder may hold numbers outside 1..max. They are kept in the state but never probed, as in the source.
- JakeRoutes.ImageFolder.RandomJake: the random distribution is not modelled. `randint` and `choice` are the caller-supplied `guess` and `pick`.
- Real JSON bodies are not modelled. A key whose JSON kind is not one the source handles (a list where a number is expected, for example) is left out.
- JSON null and an absent key inside a day's `operatingHours` entry are both read as absent. A null `openTime` rendered as "None", or a non-boolean `isOpen`, is not distinguished.
- SQLAlchemy and the database are not modelled. The table is a map, and ORDER BY ties are left unspecified.
- NailStudioRoutes.Directory.SelectRows: rows are read from the table in an unspecified order.
- `%` and `_` inside a search term are read literally rather than as ILIKE wildcards.
- String order is code-point order and not the database collation.
- Column length limits (`String(255)` and the like) are not modelled.
- Float arithmetic is modelled as exact reals.
- NailStudioRoutes.Directory.GetStats: the average is not rounded to two decimals. It is computed by a loop where the source uses SQL `avg`, and only the count-zero case is handled explicitly.
- `float()` of "inf" or "nan" is not accepted, so a `rating_min=inf` query falls back to its default here.
- NailStudioRoutes.Directory.GetNailStudio: uses the corrected week view (see Findings). The source answers 500 when operatingHours is NULL; the model answers with seven "Tutup" rows.
- NailStudioQuery.Paginate: follows the Flask-SQLAlchemy 3.x rule that per_page < 1 reads as 20. Version 2.x keeps per_page 0 and returns an empty page.
- ILIKE's backslash escape in a search term is not modelled; a backslash is matched literally, like `%` and `_`.
- `totalReviews` is a 32-bit `db.Integer` column (models/nailstudio.py:19). An out-of-range value fails at commit with 500 in the source; the model accepts any integer.
- NailStudioRoutes.CreateOutcome: createdAt and updatedAt are one `now`. The source makes two `utcnow` calls, which may differ by microseconds.
- The source never parses a saved file name back. SlotFileNameRoundTrip is a design property of the naming scheme, not a code path.
- Text.ParseInt: reads a digit string of any length. CPython 3.11 and later raise ValueError from `int()` on more than 4300 digits. So an upload whose number has more digits is a 400 "invalid format" in the source but "out of range" here; a totalReviews of that length is a 400 ValueError in the source's create and update; and `page` or `per_page` of that length falls back to its default.
- Lower-casing and digit recognition are ASCII only: no Unicode casing and no non-ASCII digits.
- The clock and the timestamp-based id are parameters, and so is the Asia/Jakarta conversion of the current day. `isoformat` rendering is not modelled.
- NailStudioRoutes.DesaDistribution: the distribution is a map from desa to count rather than a list of pairs.
- NailStudioModel.WeekSchedule: the week view is a sequence of (label, line) pairs rather than a dict.
- Concurrency and transactions between requests are not modelled. Each request is one atomic step.

## Findings

| source | as written | input that shows it | evidently intended | confidence | as-written member | corrected member |
|---|---|---|---|---|---|---|
| models/nailstudio.py:107 | `get_week_schedule` calls `.get` on `operatingHours` without the `or {}` that `to_dict` and `is_open_today` use, so a NULL column raises AttributeError and the detail endpoint answers 500 | a studio created with `"operatingHours": null`, then fetched by id | a NULL schedule is shown like `{}`: seven days, all "Tutup" | not executed | NailStudioModel.WeekScheduleAsWritten | NailStudioModel.WeekSchedule |
