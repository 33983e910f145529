# Budget tracker ledger, modelled in Dafny

This project models the ledger logic of a small expense-tracking server (an
Express app over MongoDB, in `index.js` with schemas under `models/`).

A user posts amounts to spending categories:
- The server keeps one running-total Data record per (user, category).
- Each record has an append-only history of the posts.
- The user's `data` list names the user's records.
- The user has a `budget`, which can be updated; the server reports whether
  it went up, went down or stayed the same.

Groups work alongside this:
- A group is protected by a password.
- A member is identified within its group by a display name and a password.
- Each member has a `spents` total, plus one running-total record per
  (member, group, category).

The database is a class `Store` with one map per collection, from ids to
records, and one fresh-id counter. Each write handler is a method of the
store:
- It runs as one atomic step.
- It answers with the status tag of its HTTP response.
- It is proved to keep the store's invariants:
  - every record passes its schema;
  - a Data record's `amount` is the sum of its history;
  - there is at most one record per key;
  - every id list is in step with the records it names (for ids written in
    their canonical spelling; see "## Left out").
- Its `ensures` states the whole new state in terms of the old one. On every
  refusal the store is unchanged.

Modules:
- `Crypt` (crypt.dfy): a stand-in for bcrypt. It reads only the first 72
  characters of a password. `Matches(p, Hash(q))` holds exactly when `p` and
  `q` agree on those characters, so in particular `Matches(p, Hash(p))`.
- `Schema` (schema.dfy): the record kinds and the checks `save()` runs on them.
  A `required` string rejects the empty string, and `min: 0` rejects negative
  numbers.
- `Ledger` (ledger.dfy): the per-record arithmetic. It covers adding a post to
  a record, building a new record, classifying a budget change, and removing
  an id from a list.
- `StoreState` (store_state.dfy): the `findOne` queries, the store invariants,
  and one lemma per kind of write showing that the write keeps them.
- `Handlers` (handlers.dfy): the class `Store` and one method per handler.
- `Scenarios` (scenarios.dfy): sequences of requests on a fresh store, stating
  what several calls together promise.

Status tags: `Ok` 200, `Created` 201, `Unauthorized` 401, `NotFound` 404,
`Conflict` 409, `Invalid` 500. `Invalid` is the answer when `save()` rejects a
document and the handler's `catch` reports it.

Points where the code does something one might not expect; the model
follows the code:
- A Data record has no `budget` field, so the budget sent with the first post
  to a category is dropped rather than stored.
- Signup with a taken email answers 409. It does not update the password.
- Deleting a user answers 404 even when a user was deleted. The code tests
  `result.deleteCount`, which is never defined.
- The create path of a member's post answers 200, not 201.
- A duplicate record for a key cannot arise: every handler looks the key up
  before creating. So posting never answers `Conflict`.

## Model

| member | source | states |
|---|---|---|
| Crypt.Significant | index.js:319-322 | the part of a password bcrypt reads is a prefix of it, at most 72 long, and the whole password when it is no longer than that |
| Crypt.Hash | index.js:72-73 | a stored password hash is never empty, so the hashed password always passes the schemas' `required` check |
| Crypt.Matches | index.js:305-308 | a password matches a stored hash when the hash is the one made from the password |
| Crypt.MatchesOwnHash | index.js:305-308 | a password matches the hash made from it |
| Crypt.MatchesIff | index.js:319-323 | a password matches another password's hash if and only if the two agree on their first 72 characters |
| Schema.ValidUser | models/user.models.js:3-22 | a user passes `save()` when name, email and password are non-empty and the budget is at least 0 |
| Schema.ValidData | models/data.models.js:5-31 | a Data record passes `save()` when its category is non-empty and its amount and every history amount are at least 0 |
| Schema.ValidGroup | models/group.models.js:5-13 | a group passes `save()` when its name and password are non-empty |
| Schema.ValidMember | models/groupMembers.js:5-12 | a member passes `save()` when its display name and password are non-empty |
| Schema.ValidMemberData | models/groupMembersData.models.js:15-22 | a member-data record passes `save()` when its category is non-empty; its amount has no lower bound |
| Schema.Total | models/data.models.js:19-30 | the sum of the amounts in a history |
| Schema.Balanced | index.js:145-146 | a record's running amount equals the sum of its history |
| StoreState.HasEmail | index.js:65 | some user has the email |
| StoreState.HasData | index.js:142 | some Data record has the owner and the category |
| StoreState.HasGroupNamed | index.js:300 | some group has the name |
| StoreState.HasMember | index.js:313-316 | some member of the group has the display name |
| StoreState.HasMemberData | index.js:392-396 | some member-data record has the member, the group and the category |
| Schema.TotalAppend | models/data.models.js:19-30 | appending a history entry adds its amount to the history's total |
| Schema.TotalNonNegative | models/data.models.js:14-25 | a history of non-negative amounts has a non-negative total |
| Ledger.Deposit | index.js:144-147 | posting to an existing record keeps its owner and category, adds `amount` to its amount, appends exactly one entry `(amount, now)` after the old history, grows the total by `amount`, and keeps amount equal to the history sum |
| Ledger.NewData | index.js:154-160 | the first post creates a record for the owner and category whose amount is the posted amount, whose history is the single entry `(amount, now)`, and whose amount equals the history sum; no budget is stored |
| Ledger.DepositValidIff | models/data.models.js:14-25 | a valid record stays valid after a post if and only if the posted amount is non-negative |
| Ledger.NewDataValidIff | models/data.models.js:10-25 | a new record passes validation if and only if the category is non-empty and the amount is non-negative |
| Ledger.Classify | index.js:192-209 | the change is Decreased if and only if prev > new, Increased if and only if prev < new, and Unchanged if and only if they are equal |
| Ledger.AppendNoDup | index.js:164 | appending an id not yet listed keeps the list free of duplicates |
| Ledger.Without | index.js:250 | the filtered list holds exactly the ids of the old one other than `x`, stays duplicate-free, and is the old list when `x` was absent |
| StoreState.DropOwner | index.js:117 | the cascade keeps exactly the records of other owners, unchanged |
| StoreState.StoredDataSound | models/data.models.js:5-30 | every stored Data record has an existing owner and a category, a non-negative amount and non-negative history amounts, and an amount equal to its history sum |
| StoreState.OneDataPerKey | models/data.models.js:36 | no two Data records share a (user, category) pair |
| StoreState.UserListInStep | models/user.models.js:29-34 | a user's `data` list names each of the user's records exactly once and nothing else |
| StoreState.OneUserPerEmail | models/user.models.js:8-12 | no two users share an email |
| StoreState.GroupListInStep | index.js:340-350 | a stored group has a non-empty name and password, and its member list names each of its members exactly once and nothing else |
| StoreState.StoredUsersValid | models/user.models.js:3-22 | every stored user has a non-empty name, email and password and a non-negative budget |
| StoreState.OneGroupPerName | models/group.models.js:5-9 | no two groups share a name |
| StoreState.OneMemberPerNameInGroup | index.js:313-350 | within one group no two members share a display name, since a member is created only when the name is not yet taken there |
| StoreState.MembersDataNeverWritten | models/groupMembers.js:21-26 | every member has a non-empty name and password, belongs to an existing group, and has an empty `membersData` list, which no handler writes |
| StoreState.StoredMemberDataOwned | index.js:384-419 | every member-data record has a category and belongs to an existing member of the group it names |
| Handlers.Store.Valid | index.js:61-508 | the store invariant every handler keeps: every id is below the next fresh id, and the user, data, group and member-data invariants hold that the StoreState readout lemmas state one by one |
| StoreState.OneMemberDataPerKey | index.js:392-419 | no two member-data records share a (member, group, category) triple, although no index enforces it |
| StoreState.AddUserKeepsValid | index.js:75-76 | storing a valid user with a new email and an empty list keeps the user and data invariants |
| StoreState.DeleteUserKeepsValid | index.js:117-118 | deleting a user's records and then the user keeps the invariants |
| StoreState.DepositKeepsValid | index.js:144-147 | a non-negative post to an existing record keeps the data invariants |
| StoreState.AddDataKeepsValid | index.js:154-165 | creating the record of a new (user, category) pair and appending its id to the user's list keeps the invariants |
| StoreState.SetBudgetKeepsValid | index.js:188-190 | storing a non-negative budget keeps the invariants |
| StoreState.RemoveDataKeepsValid | index.js:245-251 | deleting one of the user's records and filtering its id from the list keeps the invariants |
| StoreState.AddGroupKeepsValid | index.js:275-280 | storing a valid group with a new name and no members keeps the group invariants |
| StoreState.AddMemberKeepsValid | index.js:340-350 | storing a new member under a display name not yet used in its group, and appending its id to the group's list, keeps the invariants |
| StoreState.ChargeMemberKeepsValid | index.js:402-403 | changing a member's `spents` keeps the invariants |
| StoreState.SetMemberAmountKeepsValid | index.js:399-400 | changing the amount of a member-data record keeps the invariants |
| StoreState.AddMemberDataKeepsValid | index.js:413-419 | storing a record for a new (member, group, category) triple of an existing member keeps the invariants |
| StoreState.RemoveMemberDataKeepsValid | index.js:500 | deleting a member-data record keeps the invariants |
| Handlers.Store.Signup | index.js:61-86 | Conflict if and only if the email is taken. Otherwise Invalid if and only if the name or email is empty, and Created otherwise. Created stores the user with the hashed password, budget 500 and an empty list under a fresh id; every other answer changes nothing |
| Handlers.Store.DeleteUser | index.js:113-129 | always NotFound; the user and exactly that user's Data records are gone; nothing else changes |
| Handlers.Store.PostUserData | index.js:132-176 | NotFound if and only if the user is unknown; Invalid if and only if the amount is negative or the category empty; Ok with the record updated by `Deposit` if and only if the (user, category) record exists; Created with a `NewData` record under a fresh id appended to the user's list otherwise; refusals change nothing |
| Handlers.Store.UpdateBudget | index.js:178-216 | NotFound if and only if the user is unknown, Invalid if and only if the budget is negative, Ok otherwise; Ok stores the budget and reports `Classify(prev, new)` with both values; refusals change nothing |
| Handlers.Store.DeleteUserData | index.js:236-257 | Ok if and only if the user exists and owns the record; Ok deletes exactly that record and filters its id from the user's list; NotFound changes nothing |
| Handlers.Store.CreateGroup | index.js:262-290 | Conflict if and only if the name is taken; otherwise Invalid if and only if the name is empty; Created stores the group with the hashed password and no members under a fresh id; refusals change nothing |
| Handlers.Store.JoinGroup | index.js:293-362 | NotFound if and only if no group has the name. A wrong group password gives Unauthorized. For a known display name: Ok with the member's own `spents` if the member password matches, Unauthorized if not. For an unknown name: Created with `spents` 0 (its id appended once to the group's list), or Invalid for an empty name. Only Created changes the store |
| Handlers.Store.PostMemberData | index.js:375-432 | NotFound if and only if the group is unknown or the member is not in it; Invalid if and only if the category is empty; otherwise Ok, the member's `spents` grows by exactly `amount`, and the (member, group, category) record's amount grows by `amount` or a record with `amount` is created under a fresh id; refusals change nothing |
| Handlers.Store.DeleteMemberData | index.js:474-508 | Ok if and only if the group exists, the member is in it and the record belongs to that member in that group; Ok deletes exactly that record and leaves `spents` and everything else unchanged |
| Handlers.Store.SaveMemberData | index.js:399-400 | sets one member-data record's amount and changes nothing else |
| Handlers.Store.InsertMemberData | index.js:413-419 | stores the record under the next fresh id and changes nothing else |
| Handlers.Store.SaveSpents | index.js:402-403 | sets one member's `spents` and changes nothing else |
| Scenarios.PostsAccumulate | index.js:142-170 | two posts to one category: Created then Ok, amount `a1 + a2`, history `[a1, a2]` in call order |
| Scenarios.NegativePostRefused | models/data.models.js:19-25 | a negative post to an existing record is Invalid and leaves its amount `a1` and its history `[a1]` as they were |
| Scenarios.DeleteThenRepost | index.js:245-251 | a first post is Created and its delete Ok; the category's next post is Created under a different id, with only the new amount in a one-entry history, and the user lists only the new id |
| Scenarios.BudgetTwice | models/user.models.js:17-22 | a new user's budget is 500; setting `b` is Ok and reports `Classify(500, b)`; setting `b` again is Ok, reports Unchanged and stores `b` |
| Scenarios.EmailTaken | index.js:65-71 | a second signup with the same email is Conflict and leaves one account |
| Scenarios.DeleteUserAnswersNotFound | index.js:117-124 | deleting a user who exists and has a record answers NotFound, yet the user and their records are gone |
| Scenarios.JoinTwice | index.js:313-356 | joining twice with the same credentials gives Created then Ok for the same member, with `spents` 0; a member password differing from the right one in its first 72 characters gives Unauthorized |
| Scenarios.MemberPostsAccumulate | index.js:398-422 | two member posts to one category give Ok twice, a record amount of `a1 + a2` and `spents` of `a1 + a2`; deleting the record leaves `spents` at `a1 + a2` |

## Left out

- HTTP routing, CORS, dotenv, response bodies and message strings: only the status is kept.
- The server bootstrap and the database connection (index.js:1-29, db/index.js) and the index-drop script (dropIndex.js): I/O only.
- The GET readers (index.js:32-58, 219-233, 365-372, 435-471) and login (index.js:89-110): they change nothing. The `createdAt` sort in the user reader depends on the JavaScript Date and sort engine.
- bcrypt's salt and cost factor. `Hash` is a fixed-prefix stand-in, and only its non-emptiness and `MatchesIff` are relied on.
- Crypt.Hash: bcrypt's limit is 72 bytes of the UTF-8 encoding; the model counts 72 characters, which agree only for ASCII passwords. bcrypt's output always has 60 characters; the model promises only that it is non-empty.
- Timestamps. `createdAt`/`updatedAt` are not modelled. The history `date` is the clock reading `now`, passed in by the caller.
- The User schema's `remaining` and `spents` fields: no handler writes them.
- Concurrency and failures between the two writes of one handler (index.js:162-165, 400-403, 419-422, 347-350). Each handler is one atomic step, so the orphaned record that a crash between writes can leave is not modelled.
- JavaScript `Number` arithmetic: amounts and budgets are unbounded integers. Float rounding, `NaN`, and string concatenation when `amount` arrives as a string are not modelled.
- Fields missing from a request body (`undefined`) and ids that are not valid ObjectIds (cast errors that reach a `catch`): every input is a present value of its type.
- The spelling of ids. Ids are `nat`s, but index.js:250 compares `id.toString()` (lowercase hex) with the raw `dataId` parameter as strings, while index.js:245 accepts hex digits in either case. So a valid but differently spelled id (for example upper-case hex) deletes the record, answers 200, and leaves its id in the user's `data` list. The model's list-in-step invariant holds only for ids in their canonical spelling.
- The `budget` sent with a user's post: it is a parameter of the handler but is never stored, because the Data schema has no field for it.
