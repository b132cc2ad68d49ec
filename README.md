# HVAC dispatch core in Dafny

This project models the dispatch back end of a small HVAC business application. Its
requests have a lifecycle: pending, scheduled, in progress, then completed or cancelled.
The modelled parts are:

- **Dispatch board** (`GET /api/dispatch/bookings`): the service requests joined with
  their customer, service type and technician. The board can be filtered on a status, a
  day and a technician. It is sorted by a five-key order:
  1. status rank;
  2. priority, highest first;
  3. scheduled date;
  4. preferred date;
  5. creation time.
- **Technician list** (`GET /technicians`): every technician with the number of active
  jobs they hold, sorted by name.
- **Mutations**: assigning a technician, setting the status, and a partial update of the
  booking details. The partial update builds its `SET` list target by target, with
  numbered placeholders.
- **Dashboard counters** (`GET /stats`).
- **Booking form**: the input handler of the phone field.

Modules follow the program's structure:

- `Base`: the `Option` type, and the counting of matching rows with its lemmas.
- `Ordering`: lexicographic order on sort keys with SQL NULLs, and an insertion sort
  proved sorted and a permutation.
- `Records`: the table rows, statuses, primary keys, row lookup and placeholder values.
- `Board`: the filter placeholder builder, what the `WHERE` clause means, the `ORDER BY`
  cascade, and the `GET /bookings` query.
- `Roster`: `GET /technicians`, and how `active_jobs` moves when a row changes.
- `Stats`: `GET /stats`.
- `UpdateBuilder`: the patch of `PUT /bookings/:id`, the `SET` list builder, and the
  meaning of the statement it builds.
- `Store`: a `DispatchStore` class that owns the tables. Its three mutation methods
  change the `requests` field in place. Its invariant says the request
  ids and tech_ids are distinct, and that the customer and service-type maps are keyed by
  each row's own id.
- `PhoneFormat`: the phone field formatter.
- `Scenarios`: facts that link the mutations to the board, the technician list and the
  counters, and request sequences against the store.

Representation choices:

- Calendar days are day numbers. Timestamps are seconds, and `DayOf` is SQL's `DATE(...)`.
- Times of day are minutes. Prices are cents.
- `now` and `today` are parameters that stand for `CURRENT_TIMESTAMP` and `CURRENT_DATE`.
- A request body field is `Absent` (JSON `undefined`) or `Present` with a value or with
  `null`.
- The board's filter values are optional. An empty status string counts as not supplied,
  as in JavaScript, where it is falsy.
- Request id 0 and technician id 0 are valid values.

## Model

| member | source | states |
|---|---|---|
| Board.BuildFilterClause | server/routes/dispatch.js:44-63 | One condition and one parameter per supplied filter, in the order status, date, technician. The parameters are exactly the status text, the date and the tech_id that were supplied, and each condition's kind matches its parameter. Condition k uses placeholder k+1, and the counter ends one past the last parameter. A row satisfies the built conditions under the bound parameters exactly when it matches the filter. The date filter matches the scheduled date or the preferred date. |
| Board.BoardKeyOrder | server/routes/dispatch.js:65-76 | The lexicographic order on the five-element sort key is exactly the cascade: status rank (in_progress 1, scheduled 2, pending 3, else 4), then priority descending, then scheduled date, then preferred date, then created_at. |
| Board.BoardQuery | server/routes/dispatch.js:10-84 | The bookings are the requests that match the filter and have a customer row (the inner JOIN), each exactly as many times as it occurs. No other row appears. Every pair of bookings is in the five-key order. Each booking carries its customer, its service type (LEFT JOIN) and its technician (LEFT JOIN). `count` is the number of bookings. Each join matches on the right key: the customer's id is the request's customer_id, a service type's id is its service_type_id, and a technician's tech_id is its assigned_tech. The tables are keyed by their own ids, so each join matches at most one row. |
| Ordering.SortByCorrect | server/routes/dispatch.js:65-76 | Sorting by a key gives a sequence sorted by that key, with the same multiset of elements. |
| Ordering.LexLeqTransitive | server/routes/dispatch.js:65-76 | The key order is transitive, so an order that holds between neighbours holds between every pair. |
| Ordering.LexLeqTotal | server/routes/dispatch.js:65-76 | Any two keys are comparable. |
| Roster.TechnicianList | server/routes/dispatch.js:94-108 | Given technician rows with distinct tech_ids (the primary key), exactly one entry per technician row. Each entry's `active_jobs` is the number of requests assigned to that technician whose status is scheduled or in_progress, and zero when there are none. The entries are ordered by name. |
| Roster.NameKeyOrder | server/routes/dispatch.js:107 | The sort key of a name orders names character by character, with a proper prefix first. |
| Roster.ActiveJobsGained | server/routes/dispatch.js:102-105 | A row changed to scheduled with technician T adds one to T's active jobs, unless it was already one of them. |
| Roster.ActiveJobsLost | server/routes/dispatch.js:102-105 | A row no longer assigned to technician U leaves U with one active job fewer if it was one of them, and the same count otherwise. |
| Stats.DashboardCounts | server/routes/dispatch.js:263-273 | Over the non-cancelled rows: pending + scheduled + in_progress + completed adds up to the number of non-cancelled rows, so the first three sum to at most that number. completed_today counts only completed rows. scheduled_today + scheduled_tomorrow is at most the number of non-cancelled rows. |
| Stats.DayCountsDisjoint | server/routes/dispatch.js:269-270 | No row is counted both as scheduled today and as scheduled tomorrow. |
| UpdateBuilder.BuildUpdate | server/routes/dispatch.js:199-241 | No statement (400) exactly when the body supplies no field. Otherwise there is one `column = $k` per supplied field with k = 1, 2, ..., then `updated_at = CURRENT_TIMESTAMP`, and the request id is bound to placeholder FieldCount+1. Running that statement on any row replaces exactly the supplied fields (null included), sets updated_at and keeps every other column. |
| UpdateBuilder.BuildSetList | server/routes/dispatch.js:199-227 | After the five field tests, the SET list has one setter per supplied field, in the order scheduled_date, scheduled_time, priority, notes, service_type_id. The placeholders are numbered 1, 2, ... and the counter is one past the last. Every supplied column is bound to its own value, null included, and no other column appears. |
| UpdateBuilder.PushIfSupplied | server/routes/dispatch.js:203-207 | One field test: a supplied field appends its setter with the current counter value and binds its value. The counter stays one past the last parameter. An absent field changes nothing. |
| UpdateBuilder.ExecuteMeaning | server/routes/dispatch.js:233-241 | A statement that binds exactly the supplied columns and stamps updated_at changes any row exactly as the patch describes. |
| Store.DispatchStore.AssignTech | server/routes/dispatch.js:118-148 | Unknown id: 404 and no change. Otherwise exactly that row gets the technician, date and time (NULL when not given), status scheduled whatever it was, and updated_at = now. The updated row is returned and all other rows are unchanged. Given a clock reading no earlier than any row's created_at, updated_at stays no earlier than created_at on every row. On success, the changed row is the only row with that id. |
| Store.DispatchStore.SetStatus | server/routes/dispatch.js:151-185 | Text outside the five statuses: 400 and no change, whether or not the id exists. Unknown id: 404 and no change. Otherwise only that row's status and updated_at change, and the row is returned. Given a clock reading no earlier than any row's created_at, updated_at stays no earlier than created_at on every row. On success, the changed row is the only row with that id. |
| Store.DispatchStore.UpdateDetails | server/routes/dispatch.js:188-258 | No field supplied: 400 and no change, checked before the lookup. Unknown id: 404 and no change. Otherwise that row becomes the patch applied to it, and all other rows are unchanged. Given a clock reading no earlier than any row's created_at, updated_at stays no earlier than created_at on every row. On success, the changed row is the only row with that id. |
| Records.ParseStatus | server/routes/dispatch.js:155-156 | A text is accepted exactly when it is the name of one of the five statuses, and then it parses to that status. |
| Records.Locate | server/routes/dispatch.js:130 | The row `WHERE request_id = id` touches: present exactly when some row has that id, and then the first such row. |
| Records.FindTech | server/routes/dispatch.js:40 | The LEFT JOIN on tech_id: a technician with that id, or nothing when the id is NULL or matches no row. |
| PhoneFormat.FormatPhoneInput | public/script.js:207-218 | The value is the input's digits cut to ten and laid out as the raw digits (fewer than 3), `(ddd) rest` (3 to 5) or `(ddd) ddd-rest` (6 or more). |
| PhoneFormat.RoundTrip | public/script.js:208-216 | Stripping the non-digits from the formatted value gives back exactly the kept digits. |
| PhoneFormat.Idempotent | public/script.js:208-216 | Formatting an already formatted value leaves it unchanged. |
| PhoneFormat.NoNewDigits | public/script.js:208-216 | The output's digits are a prefix of the input's digits, and no digit appears that was not in the input. |
| PhoneFormat.KeptDigits | public/script.js:209-210 | The kept digits are a prefix of the input's digits, of length exactly ten when the input has more than ten digits and all of them otherwise. |
| PhoneFormat.LengthBound | public/script.js:209-215 | The formatted value is at most fourteen characters, the length of `(ddd) ddd-dddd`. |
| PhoneFormat.DigitsOfMembers | public/script.js:209 | A character survives the strip exactly when it is a digit of the input. |
| Scenarios.StatusFilterOnly | server/routes/dispatch.js:47-51 | With a status filter, the board returns only requests in that status. |
| Scenarios.UnfilteredBoardShowsCancelled | server/routes/dispatch.js:41-76 | With no filter, a cancelled request that has a customer is on the board. |
| Scenarios.AssignedShowsOnBoard | server/routes/dispatch.js:123-133 | After an assignment, the board filtered on "scheduled" lists the request joined with the row of the technician it was given (none when no technician has that id), and with the date it was given. |
| Scenarios.CompletionMovesCounters | server/routes/dispatch.js:164-170 | Completing a scheduled request at a time on today's date raises completed_today by one and lowers scheduled by one, leaving pending and in_progress unchanged. |
| Scenarios.AssignmentAddsActiveJob | server/routes/dispatch.js:123-133 | Assigning a request that was not yet one of a technician's active jobs raises that technician's active_jobs by one. |
| Scenarios.AssignThenView | server/routes/dispatch.js:118-148 | Assign, then read the board filtered on "scheduled". The assignment succeeds for the request with that id and the store stays valid. The returned row has the given technician, the given date and status scheduled. The view is exactly the board query on the new rows, and the assigned row is on it, joined with that technician's row. |
| Scenarios.RejectBogusStatus | server/routes/dispatch.js:155-161 | An unknown status is refused with 400, and the rows and the counters are unchanged. |
| Scenarios.StartWithoutTechnician | server/routes/dispatch.js:155-170 | Nothing requires a technician before a request goes in_progress: an unassigned request with that id moves to in_progress and stays unassigned. |
| Scenarios.EmptyUpdateRefused | server/routes/dispatch.js:229-231 | A body with no updatable field is refused with 400 and nothing changes. |

## Left out

- SQL text, the database driver and connection pool: the queries are modelled by their meaning over sequences and maps of rows, not as strings sent to a server.
- The JSON response envelopes (`success`, `message`) and the 500 paths: a store call that fails is not modelled, because failures of the database transport are outside the model.
- Type conversion of query-string and body values, and what the database does with a value of the wrong type in a placeholder: values arrive already typed (an absent or empty query value counts as not supplied).
- Concurrency between requests: each operation runs on its own.
- A board booking holds the whole request row, not only the columns the SELECT lists. For example, it keeps updated_at and service_type_id, and it has assigned_tech_id where the SELECT returns the joined technician's t.tech_id. Contracts about the technician use the joined row (`Booking.tech`).
- Board.BoardQuery: does not say how rows whose five sort keys are all equal are ordered, because SQL `ORDER BY` promises no order among ties. The contract leaves that order open.
- Board.BoardQuery: NULL priorities and dates follow PostgreSQL's default order, so NULL sorts after every value under ASC and before every value under DESC. The database engine is not part of this model.
- Roster.TechnicianList: names are compared by character code. The database's collation, and how it breaks ties between equal names, are not modelled.
- Stats.DashboardCounts: states the relations between the counters. Each counter is defined as a `Count` of rows that match its condition.
- Status/technician consistency: the source lets a request go in_progress or completed without an assigned technician. The model keeps that permissiveness (`Scenarios.StartWithoutTechnician`).
- Booking intake and the technician portal (`server/routes/bookings.js` and `server/routes/tech.js`, which `server/server.js` mounts next to the dispatch routes), the chat, SMS, appointment and customer routes that root `server.js` mounts, and server start-up: these are outside the dispatch core. `server/routes/bookings.js` and `server/routes/tech.js` are not part of this model.
- The rest of `public/script.js` (form submission, smooth scrolling, DOM access): browser behaviour. Only the phone field's value transformation is modelled; writing it back to the input element is not.
- An unfiltered board lists cancelled requests too. This follows the code, which has no status condition unless a status is supplied (`Scenarios.UnfilteredBoardShowsCancelled`). The filtered-by-pending case excludes them, as expected.
