# Fake-number bot: a verified model of its core

`main.py` is a Telegram bot that offers phone numbers for sale. The bot has
three parts:

- A fixed catalog, `NUMBERS_DATA`, maps a variant key such as `usa` or
  `ukraine` to a name, a price in roubles, a dialing code, a kind
  (virtual "вирт" or physical "физ"), a country name and a flag.
- `/start` and the "back" button show a menu with one button per variant.
- Pressing a button runs the selection. It generates a random number with the
  variant's dialing code and stores a pending order in `pending_orders` under
  `order_{user_id}_{YYYYmmddHHMMSS}`. It then schedules a payment job.
- The payment job (`process_payment_success`) first activates the number
  for the user in `active_numbers` for one hour and edits the order's
  message. It then sleeps four seconds, sends a random 5-digit login code and
  deletes the order.

The model has seven modules:

- `Wrappers`: `Option`, `Result` and `Outcome`.
- `Decimal`: `str()` of integers, with parsers proved to invert it.
- `Catalog`: the catalog as an ordered table, and dictionary lookup on it.
- `PhoneNumbers`: the number generator and the login code.
- `Menu`: the keyboard loop.
- `Orders`: the two tables and the steps on them, first as functions on a
  `Tables` value, then as a `BotState` class. The class holds both tables as
  fields, and its methods update them in place.
- `Lifecycle`: properties of runs with more than one step.

`random.randint(0, 9)` is replaced by a sequence of digits the caller supplies. `datetime.now()` becomes two parameters: `now`,
in seconds, for `created_at` and `expires_at`, and `stamp`, the
seconds-resolution text that goes into the order id.

The payment step sleeps between its two halves, so it is split there:
`Confirm` is the part before the sleep and `Finish` the part after it.
`PaymentSuccess` is the two halves run back to back. Splitting the step lets
the model state what happens when two jobs for the same order id
interleave. Two jobs share an id only when one user selects twice within one
second. Both jobs then activate the number of the second selection and ask
for the very same edit of the same message. If both edits succeed, both jobs
send a login code and the second job's `del` raises KeyError
(`Lifecycle.OverlappingPaymentJobs`). Telegram, however, refuses an edit that
changes nothing. In the running bot the second job therefore stops at its
edit, after writing the activation: one code goes out and the order is
deleted once (`Lifecycle.OverlappingJobsWithRefusedEdit`).

## Model

| member | source | states |
|---|---|---|
| `Decimal.NatToString` | main.py:59 | the decimal text of a price is non-empty, all digits, without a leading zero |
| `Decimal.ParseNatToString` | main.py:59 | reading the decimal text of a natural number back gives the number |
| `Decimal.DigitsToString` | main.py:226-236 | the joined text of the drawn digits has one character per digit, each the decimal digit drawn at its position |
| `Decimal.IntToString` | main.py:94 | the text of a user id is a '-' exactly for negative ids, followed by digits only |
| `Decimal.ParseIntToString` | main.py:94 | reading the text of any integer back gives the integer |
| `Decimal.IntToStringInjective` | main.py:94 | two user ids have the same text exactly when they are equal |
| `Catalog.Find` | main.py:74 | dictionary subscription finds a record exactly when some entry has the key, and the record it returns is stored under that key |
| `Catalog.Lookup` | main.py:74 | `NUMBERS_DATA[key]` finds a record exactly when the catalog has the key, and the record it returns is the one written under that key |
| `Catalog.CatalogKeysDistinct` | main.py:36-47 | no key is written twice in the catalog, as in any dict |
| `Catalog.FindAt` | main.py:36-47 | in a table with distinct keys, looking up the i-th key yields the i-th record |
| `Catalog.LookupAt` | main.py:36-47 | every key of the catalog looks up its own record |
| `PhoneNumbers.GeneratePhoneNumber` | main.py:222-238 | the number starts with the dialing code and is digits only after it: 10 of them for "+1" and 9 otherwise, beginning with 97, 29, 99 or 98 for +380, +375, +998 or +992 |
| `PhoneNumbers.RandomPart` | main.py:225-236 | the random digits a well-formed number carries, as many as the generator draws for its code |
| `PhoneNumbers.GenerateKeepsRandomDigits` | main.py:225-238 | every digit drawn can be read back from the generated number |
| `PhoneNumbers.EveryWellFormedNumberIsGenerated` | main.py:225-238 | every string of the right format for a code is produced by the generator for some digits |
| `PhoneNumbers.PhysicalVariantsHavePrefix` | main.py:43-46 | the catalog's physical ("физ") variants are exactly those whose codes get a fixed two-digit prefix |
| `PhoneNumbers.VerificationCode` | main.py:187 | the login code is exactly five characters, each the decimal digit drawn at its position |
| `Menu.Label` | main.py:59 | a caption is the name, " - ", the price's decimal digits and "₽"; reading the digits back gives the price |
| `Menu.BuildKeyboard` | main.py:56-59 | one row per catalog entry, in catalog order; row i is a single button labelled name + " - " + price + "₽" whose callback data is the i-th key |
| `Menu.MenuButtonsSelectTheirEntry` | main.py:212-214 | the callback data of every menu button looks up that button's record, and never equals the back button's data |
| `Orders.OrderIdOf` | main.py:94 | an order id starts with "order_", the user id and "_" |
| `Orders.SeparatorAfterLeftPart` | main.py:94 | when the left part has no '_', the first '_' is the one right after it |
| `Orders.OrderIdsCollideExactly` | main.py:94 | two selections build the same order id exactly when they are by the same user with the same timestamp |
| `Orders.Select` | main.py:73-105 | an unknown key fails and stores nothing; otherwise the order is stored under its id, replacing any order already there. The order holds the user, the key, the catalog price, status pending, the generated number, the time and the message. Activations and every other order stay unchanged |
| `Orders.Confirm` | main.py:143-175 | a missing order changes nothing and sends nothing; otherwise the user's activation becomes the order's number and country until now + 3600 s, replacing an earlier one, other users' activations and all orders unchanged, and the order's message is edited once with its number, flag and country |
| `Orders.Finish` | main.py:177-182 | one login code goes to the order's chat; the order is removed and all other orders kept; a missing id fails with KeyError and changes nothing |
| `Orders.PaymentSuccess` | main.py:143-182 | run without interruption: missing order changes nothing and sends nothing; present order is activated (last write wins), confirmed, followed by one login code, and removed, everything else unchanged; the deletion never fails |
| `Orders.SelectKeepsWellFormed` | main.py:94-105 | selection keeps every order with a catalog key, that key's price, a number in that key's format and an id built from its user |
| `Orders.ConfirmKeepsWellFormed` | main.py:149-158 | confirmation keeps every activation with a catalog key and a number in that key's format |
| `Orders.FinishKeepsWellFormed` | main.py:182 | deleting the order keeps the tables well formed |
| `Orders.PendingCountriesAreInCatalog` | main.py:151 | in well-formed tables the catalog lookup of the payment step cannot raise KeyError |
| `Orders.BotState.constructor` | main.py:50-51 | both tables start empty |
| `Orders.BotState.HandleSelection` | main.py:73-105 | the tables after the call are those of `Select`, and the result is the new order id or the error |
| `Orders.BotState.ConfirmPayment` | main.py:143-175 | the tables, the captured record and the edited message are those of `Confirm` |
| `Orders.BotState.FinishPayment` | main.py:177-182 | the tables, the code message and the outcome of `del` are those of `Finish` |
| `Orders.BotState.ProcessPaymentSuccess` | main.py:143-182 | the two halves in sequence give the tables and the messages of `PaymentSuccess` |
| `Lifecycle.SelectReplacesSameId` | main.py:94-96 | whatever is stored under the id a selection builds has no effect on the result of that selection |
| `Lifecycle.SameSecondSelectionOverwrites` | main.py:94-96 | after a successful selection, a second selection by the same user in the same second gives exactly the result the second selection alone would give |
| `Lifecycle.DistinctSecondsKeepBothOrders` | main.py:94-96 | two successful selections in different seconds keep both orders, the first unchanged |
| `Lifecycle.OverlappingPaymentJobs` | main.py:143-182 | if both edits succeed, two interleaved jobs for one id make the same edit twice and send two codes; the later confirmation's activation remains, the order is removed, and the second `del` raises KeyError |
| `Lifecycle.OverlappingJobsWithRefusedEdit` | main.py:154-175 | when the second, identical edit is refused, the second job stops after writing its activation: one code goes out, the order is removed without error, and the later activation remains |
| `Lifecycle.PaymentRemovesOnlyItsOrder` | main.py:182 | a completed payment leaves exactly the other pending orders |
| `Lifecycle.LaterPaymentReplacesActivation` | main.py:154-158 | of two completed payments for one user, the later activation is the one kept; the user is the only new key, and both orders are gone |
| `Lifecycle.SelectThenPay` | main.py:73-182 | from empty tables, one successful selection and its payment leave no pending order and exactly that user's activation, of the generated number until payment time + 3600 s |

## Left out

- Telegram transport is not modelled: `query.answer`, message editing and sending, keyboard objects and the Markdown text of messages. Messages are modelled as `Notice` values that carry the chat, the message and the data interpolated into the text.
- Every Telegram call is assumed to return normally. A call that raises ends `process_payment_success` at that point. If the edit at main.py:170-175 raises, the activation is already written, no code is sent and the order stays pending. If the send at main.py:194-198 raises, the order stays pending. Only the refused duplicate edit of two overlapping jobs is modelled (`Lifecycle.OverlappingJobsWithRefusedEdit`).
- The stale-query `try`/`except` in `handle_back` is left out; it only swallows an error from a foreign call.
- The Flask health endpoints, the bot thread, `main`, logging and `.env` loading are process bootstrap and I/O, so they are not modelled.
- The sleeps and the scheduling are not modelled as time. This covers `asyncio.sleep`, `job_queue.run_once` and the fallback branch without a job queue. Each scheduled job and each resumption after a sleep is an explicit call.
- Concurrency is modelled only at the payment step's sleep, by splitting `process_payment_success` into `Confirm` and `Finish`. The scheduler's choice of order is a parameter of the lemmas, not modelled.
- `random.randint` is replaced by a caller-supplied sequence of digits. The generator uses the first 10, 9 or 7 of them, and the login code uses the first 5.
- `datetime.now()` is replaced by the integer `now` and the text `stamp`. The calendar formatting with `strftime` is not modelled, and neither is `timedelta` on datetimes (one hour is 3600 added to `now`).
- The write of `context.user_data['selected_country']` is left out: it is never read.
- `help_command` is left out: it builds a text it never sends.
- The status field only ever holds `pending`, since the code never changes it. No "confirmed" status and no expiry check on `active_numbers` exist, so none are modelled.
- Orders.Confirm: requires that a present order's key is in the catalog. The code would raise KeyError at `NUMBERS_DATA[order_data['country']]` otherwise. `Orders.PendingCountriesAreInCatalog` shows well-formed tables always meet this, so that error path is not modelled.
- Orders.PaymentSuccess: has the same requirement as `Orders.Confirm`, for the same reason.
