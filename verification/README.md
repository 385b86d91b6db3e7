# Monday board email sender, modelled in Dafny

The job reads four settings from the environment, asks the Monday board API
for the items of one board, and for every item whose `email1__1` and
`email_content__1` columns both hold non-empty text sends one plain-text
email through SendGrid. This project models its decision layer:

- `config.dfy` (module `Config`): the start-up check that lists every unset
  or empty required variable, in the order of the required list, and the
  settings read when none is missing.
- `board.dfy` (module `Board`): items and column values, the first-match
  column lookup, the status check of the board query and the staged
  navigation of the reply (`data`, then `boards`, then `items`).
- `dispatch.dfy` (module `Dispatch`): the per-item decision (send or skip),
  the loop over the items as a method `DispatchAll`, and the pure functions
  it is proved against: `Plan` (the outcomes) and `Attempts` (the emails it
  tries to send, failed ones included).
- `job.dfy` (module `Job`): one whole run, `RunJob`, from the environment to
  the report, the query issued and the emails attempted.
- `filtering.dfy` (module `Filtering`): the positions of a sequence picked by
  a test, shared by the two filters above.
- `wrappers.dfy` (module `Wrappers`): `Option` and `Result`.

The environment is a `map<string, string>`. The board API's reply is its
status code, body text and parsed shape. The email provider is an oracle
`sendOk: nat -> bool`: `sendOk(k)` says whether the k-th send attempt of
the run succeeded. An exception from the SendGrid client call
(monday_email_sender.py:65-67) is a `false` answer, because the send
wrapper catches it and returns `False`.

The configuration check runs at module level (monday_email_sender.py:19-23),
outside the `try` of `main` (line 74), so its `ValueError` is never caught.
In the model the run ends at once with the list of missing names
(`Report.MissingConfig`), and no query is issued.

A column value whose `text` is JSON `null` behaves like one whose text is
empty: the first-match lookup yields `None`, the item fails the truthiness
test and is skipped, and later matches stay ignored. The model represents
it by the text `""`, which `FirstText` and `Decide` already cover.

## Model

| member | source | states |
|---|---|---|
| `Config.MissingVars` | monday_email_sender.py:20-21 | a name is reported missing iff it is required and absent or empty; never more names than required |
| `Config.MissingVarsIsOrderedFilter` | monday_email_sender.py:20-21 | the missing list is exactly the required names at a strictly increasing set of positions, and a position is picked iff its name is unset (order kept, nothing extra, nothing dropped) |
| `Config.LoadSettings` | monday_email_sender.py:10-23 | fails iff some required variable is unset, with the full missing list (never empty); otherwise all four are set and the settings hold their values |
| `Board.FirstText` | monday_email_sender.py:98-99 | `None` iff no column value has the id; otherwise the text of a matching column value with no match before it |
| `Board.FirstMatchDecides` | monday_email_sender.py:98-99 | the first column value with the id decides the lookup, whatever comes after it |
| `Board.CheckStatus` | monday_email_sender.py:52-55 | success iff status 200, giving the body; otherwise an error carrying the status code and body text |
| `Board.ItemsOf` | monday_email_sender.py:78-95 | items iff `data` present, `boards` non-empty and `items` present on the first board, and then they are the first board's items; each stop condition matched to its error, checked in order |
| `Board.FetchItems` | monday_email_sender.py:50-95 | a query-failed error iff the status is not 200, carrying status and text; with status 200 the outcome of the navigation |
| `Dispatch.MessageFor` | monday_email_sender.py:57-62 | the email goes from the configured sender, with the fixed subject, to the item's looked-up address with its looked-up body |
| `Dispatch.Decide` | monday_email_sender.py:101-108 | an item is skipped iff its address or body is missing or empty; otherwise it is sent or failed as the provider answers, with its own address and body |
| `Dispatch.EmptyFirstEmailSkips` | monday_email_sender.py:98-101 | an empty first email column skips the item even when a later column with that id has an address |
| `Dispatch.EmptyFirstContentSkips` | monday_email_sender.py:99-101 | an empty first content column skips the item even when a later column with that id has a body |
| `Dispatch.Attempts` | monday_email_sender.py:96-103 | one email per eligible item, never more than there are items |
| `Dispatch.AttemptsAreOrderedFilter` | monday_email_sender.py:96-103 | the k-th email attempted is that of the k-th eligible item, in item order; their number is the number of eligible items |
| `Dispatch.Plan` | monday_email_sender.py:96-110 | one outcome per item |
| `Dispatch.PlanAt` | monday_email_sender.py:96-110 | the outcome of item i depends only on item i and the provider's answer to its own attempt, so an earlier failure or skip never changes or stops a later item |
| `Dispatch.AttemptsIndependentOfReplies` | monday_email_sender.py:64-106 | the emails attempted are the same whatever the provider answers: a failed send stops nothing |
| `Dispatch.AnnSentBoSkipped` | monday_email_sender.py:96-108 | with Ann (address and body) and Bo (empty address), only Ann is sent and Bo is skipped |
| `Dispatch.DispatchAll` | monday_email_sender.py:96-110 | the loop's outcomes are `Plan` of the items and the emails it tries to send, failed ones included, are `Attempts` of the items |
| `Job.RunJob` | monday_email_sender.py:19-113 | missing configuration (lines 19-23) ends the run with every missing name, no query and no send attempt; otherwise (lines 73-113) one query with the configured key and board; a non-200 status stops with the status and text; any stop attempts no send; a completed run processes every item and attempts exactly `Attempts` |

## Left out

- The HTTP POST to the board API, its headers and JSON decoding: a reply is given as status code, body text and parsed shape.
- The SendGrid client and the `Mail` object: each send is the answer of the `sendOk` oracle.
- `load_dotenv` and `os.getenv`: the environment is a map given to the run.
- The text of the GraphQL query and of every printed line, including the error message that joins the missing names: the model carries the names themselves.
- The 500-item page limit: the board API enforces it, not this code.
- Reply shapes that make Python raise `KeyError` or `TypeError` inside `main`, which the catch-all at line 112 turns into the end of the run. `KeyError`: no `boards` key, no `items_page`, an item without `name` or `column_values`, a column value without `id` that a lookup reaches before its first match, or a first matching column value without `text` (the lookups at lines 98-99 stop at their first match, so later column values are never read). `TypeError`: `"data": null` (line 84), a null first board or `"items_page": null` (lines 89-90), `"items": null` (line 96), a null item or `"column_values": null` (lines 97-98), and a null column value that a lookup reaches before its first match (lines 98-99). The model's reply types always have these fields, so these crashes are not represented.
- A `"boards": null` reply is not represented separately: it takes the same "no boards" exit at line 85 as an empty list, which the model covers as `NoBoards`.
- Dispatch.Plan: an exception raised while building the `Mail` object (monday_email_sender.py:58-62, before the `try` at line 64) is not caught by the send wrapper; it reaches the catch-all at line 112 and stops the rest of the batch. The model does not include it: every attempt ends in a `true` or `false` answer and the loop always goes on.
- Dispatch.DispatchAll: for the same reason, the loop never stops early on an exception while building a message.
