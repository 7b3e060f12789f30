# Task board view derivation

This project models the client-side logic of a single-user task board. The
board page holds the full list of tasks, as the task list endpoint returns it.
It narrows that list in three steps:

- a case-insensitive search over title and description,
- a status drop-down (`ALL` or one status),
- a priority drop-down (`ALL` or one priority).

The page then splits the result into Pending, In Progress and Completed
columns. It shows each column's size, and the unfiltered total in the header.
The model also covers the request body the page builds when the "Add New Task"
form is submitted.

Modules:

- `TaskModel`: the `Task` record, the `Status` and `Priority` enumerations, their
  wire names, and the `All | Only(x)` drop-down value.
- `Text`: ASCII `toLowerCase`, and `includes` as substring occurrence. `includes`
  has an executable search, proved equal to the definition.
- `Sequences`: `filter` over sequences, and order-preserving subsequences witnessed
  by strictly increasing index lists.
- `Board`: the filter chain, the three columns, and the header and column counts.
- `CreateForm`: the create request body and its field defaults.

Modelling choices:

- The page stores `sortBy` (page.tsx:146) but never orders anything by it. So the
  model keeps the order in which tasks were received.
- The page does not check that the title is non-empty. Only the HTML `required`
  attribute on the title input (page.tsx:401) does. So the payload passes the
  title through as it is.
- The `|| 'MEDIUM'` fallback (page.tsx:25) applies only to a missing or empty
  priority field. The page's own priority drop-down (page.tsx:433-445) has no
  empty option, so it always sends `LOW`, `MEDIUM` or `HIGH`, and `LOW` when
  left untouched.
- `FormData.get` is modelled as a lookup in a map from field name to text.
  A missing field reads as `null`.

## Model

| member | source | states |
|---|---|---|
| TaskModel.StatusNameRoundTrip | src/app/page.tsx:330-331 | A status name read back gives the same status, and a text reads as a status exactly when it is that status's name |
| TaskModel.PriorityNameRoundTrip | src/app/page.tsx:342-343 | A priority name read back gives the same priority, and a text reads as a priority exactly when it is that priority's name |
| TaskModel.StatusFilterRoundTrip | src/app/page.tsx:322-333 | Each status drop-down value (`ALL` or a status name) reads back as the setting it stands for, and no other text reads as that setting |
| TaskModel.PriorityFilterRoundTrip | src/app/page.tsx:334-345 | Each priority drop-down value (`ALL` or a priority name) reads back as the setting it stands for, and no other text reads as that setting |
| Text.Lower | src/app/page.tsx:168-169 | Lowering keeps the length, turns each ASCII capital into its small letter, and changes no other character |
| Text.LowerIdempotent | src/app/page.tsx:168-169 | Lowering an already lowered string changes nothing |
| Text.EmptyIsContained | src/app/page.tsx:168 | The empty search term occurs in every string |
| Text.Includes | src/app/page.tsx:168-169 | The left-to-right search answers true exactly when the needle occurs somewhere in the text |
| Sequences.Select | src/app/page.tsx:166-176 | A filter result is no longer than its input; each element is accepted; each accepted input element appears in it; and each element comes from the input |
| Sequences.SelectMembership | src/app/page.tsx:166-176 | A value is in a filter result if and only if it is in the input and accepted |
| Sequences.SelectIsSubsequence | src/app/page.tsx:166-176 | A filter result is an order-preserving subsequence of its input |
| Sequences.SelectFusion | src/app/page.tsx:166-172 | Two filters in a row equal one filter by both predicates together |
| Sequences.SubsequenceTransitive | src/app/page.tsx:166-176 | A subsequence of a subsequence of a list is a subsequence of that list |
| Board.FilteredTasks | src/app/page.tsx:166-172 | Every listed task passes the search, the status filter and the priority filter, and the list is no longer than the task list |
| Board.FilteredIsSinglePass | src/app/page.tsx:166-172 | The three chained filters equal one filter by the conjunction of the three conditions |
| Board.FilteredMembership | src/app/page.tsx:166-172 | A task is listed if and only if it is in the task list and passes all three filters |
| Board.FilteredIsSubsequence | src/app/page.tsx:166-172 | The listed tasks are an order-preserving subsequence of the task list |
| Board.StatusFilterSound | src/app/page.tsx:171 | With a specific status chosen, every listed task has that status |
| Board.StatusAllUnrestricted | src/app/page.tsx:171 | With status `ALL`, the list is what the search and priority filters alone give |
| Board.PriorityFilterSound | src/app/page.tsx:172 | With a specific priority chosen, every listed task has that priority |
| Board.PriorityAllUnrestricted | src/app/page.tsx:172 | With priority `ALL`, the list is what the search and status filters alone give |
| Board.EmptyTermMatchesAll | src/app/page.tsx:168 | The empty search term matches every task, through its title |
| Board.InitialQueryShowsAll | src/app/page.tsx:141-143 | With the initial empty search and both drop-downs on `ALL`, the list is the whole task list, in order |
| Board.AbsentDescriptionSearchesTitle | src/app/page.tsx:169 | A task without a description matches exactly when its title matches |
| Board.SearchCaseInsensitive | src/app/page.tsx:168-169 | Two search terms that differ only in the case of ASCII letters match exactly the same tasks |
| Board.SearchIgnoresTermCase | src/app/page.tsx:168-169 | Lowering the search term first does not change which tasks match |
| Board.SearchIgnoresTaskCase | src/app/page.tsx:168-169 | Lowering a task's title or description does not change whether it matches |
| Board.MatchesSearch | src/app/page.tsx:167-170 | Checking the title first and then a present description agrees exactly with the search condition |
| Board.Bucket | src/app/page.tsx:174-176 | Every task in a status bucket has that status |
| Board.BucketsCoverAll | src/app/page.tsx:174-176 | The three buckets together hold every filtered task exactly as often as the filtered list does |
| Board.Split | src/app/page.tsx:174-176 | Each column holds only tasks of its status; the columns together are the filtered list as a multiset; their lengths sum to the filtered length |
| Board.ColumnsPartition | src/app/page.tsx:557-581 | A task is in a column exactly when it is filtered and has that column's status; each column keeps the filtered order; no task is in two columns |
| Board.ColumnIsSubsequenceOfTasks | src/app/page.tsx:166-176 | Each rendered column is an order-preserving subsequence of the unfiltered task list |
| Board.SpecificStatusEmptiesOthers | src/app/page.tsx:171-176 | With a specific status chosen, the other two columns are empty |
| Board.BucketSize | src/app/page.tsx:174-176 | A status bucket's length is the number of tasks of that status in the list, counted one by one |
| Board.Summarize | src/app/page.tsx:360-379 | The header shows the unfiltered total (line 297); the Pending, In Progress and Completed counts are the numbers of filtered tasks of each status; they sum to the filtered length and never exceed the total |
| Board.ChosenStatusCountsOnly | src/app/page.tsx:171-176 | With a specific status chosen, the counts shown for the two other columns are zero |
| CreateForm.PriorityOrDefault | src/app/page.tsx:25 | The priority sent is never empty: a missing or empty form priority becomes `MEDIUM`, and any other text is kept |
| CreateForm.BuildCreatePayload | src/app/page.tsx:21-28 | Title, description and due date are passed through or sent as null; priority defaults to `MEDIUM`; status is always `PENDING` |
| CreateForm.PayloadEnumerations | src/app/page.tsx:25-27 | The payload status reads as pending; the priority reads as the form's priority, as medium when the form has none, and as no priority when the form text is not a priority name |
| CreateForm.PayloadIgnoresOtherFields | src/app/page.tsx:22-28 | Form fields other than title, description, priority and due date do not change the payload |

## Left out

- The network calls of `api` (`fetch`, the response checks and the thrown errors). `loadTasks`, the mutation handlers, the delete `confirm`, toasts and console logging are left out too. All of these are I/O or UI side effects. Only the create request's body is modelled.
- The server side (`src/app/actions.ts`, `src/app/api/tasks/route.ts`, `src/app/api/tasks/[id]/route.ts`). Each handler makes a single call into the Prisma ORM. The ORM's ordering, defaults and not-found errors live in a schema and library that are not part of this model.
- CreateForm.BuildCreatePayload: describes the request body only, not what is stored. The POST handler (route.ts:21-27) and `addTask` (actions.ts:18-25) copy only title, description, priority and due date. They ignore the `status` field and turn an empty due date (the date input sends `""` when left blank) into `null`. The server side is not modelled.
- Drag and drop (page.tsx:191-204 and 557-581). This is library integration. The drop target's id is cast to a status without a check. Only the split into columns that the drop areas display is modelled.
- The `sortBy` drop-down (page.tsx:146, 346-356). It is stored but never used to order anything.
- `TaskCard` (both copies) and `Column`: these are presentation only (colours, labels, date formatting).
- Dark mode, the loading flag and the error message: view state with no effect on the derived lists.
- Text.Lower: lowers only the ASCII capitals `A`-`Z`. JavaScript's `toLowerCase` uses full Unicode case mapping, which is not modelled.
- `FormData.get`: a form holds at most one text value per field. File entries and repeated field names are not modelled, because the create form has neither.
- Task dates (`dueDate`, `createdAt`) are kept as the JSON strings the page receives. Date parsing and formatting are not modelled.
