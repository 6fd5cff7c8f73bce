# telegram_libs user-state layer in Dafny

This project models the user-state layer that the `telegram_libs` bots share:

- the record store adapter (`MongoManager`): user profiles created lazily from a template, `$set` updates with a create-and-retry fallback, the orders collection and the subscriptions collection;
- the subscription ledger: the default record, upserts, the payment append that also sets the premium fields, and the entitlement check;
- the daily rate limiter (`RateLimitManager`): a per-user counter of actions on the current calendar day, with premium users bypassing it;
- payment intake: the pre-checkout acknowledgement and the settlement of a completed charge into an order and a subscription payment;
- the support conversation: a per-user waiting flag, its filter, and the ticket it produces;
- translation lookup `t`: dotted keys into nested catalogues, `{name}` placeholders, and fallback to English and then to the key.

The library modules themselves are not part of this model. Their behaviour is reconstructed from the repository's test suite. Every row below cites the test lines that pin the behaviour.

Modules, one file each:

- `documents.dfy` (`Documents`): stored documents as `map<string, Value>`, instants, and `$set`.
- `subscription.dfy` (`Subscription`): the ledger as values.
- `store.dfy` (`Store`): the `MongoManager` class. It has fields `users`, `orders` and `subscriptions`, plus a ghost `log` of every collection call. The log is what lets the model state that no read or no write happened.
- `messages.dfy` (`Messages`): replies, action-log entries and the subscription keyboard.
- `rate_limit.dfy` (`RateLimit`): the limiter as pure decisions (`Limit`, `Admit`, `CheckAndIncrementOutcome`). The `RateLimitManager` class applies those decisions to the store, and its methods are proved against them.
- `support.dfy` (`Support`): the `SupportDesk` class, which holds the waiting flags and the ticket collection.
- `payment.dfy` (`Payment`): the pure settlement `Settle` and the `SuccessfulPayment` handler over the store.
- `translation.dfy` (`Translation`): catalogues, key splitting, formatting and `T`.

Instants are a calendar day number plus a second of the day. "Same day" compares day numbers, and "+30 days" adds 30 to the day number. The current time, the user id and the user's language are parameters.

## Model

| member | source | states |
|---|---|---|
| Documents.AddDays | tests/test_payment.py:124 | adding a positive number of days gives a strictly later instant at the same time of day; adding zero days changes nothing |
| Documents.SetFieldsSemantics | tests/test_mongo.py:109-111 | after a `$set`, the keys are the old ones plus the given ones, every given field holds its new value, and every other field is unchanged |
| Documents.SetFieldsIdempotent | tests/test_mongo.py:133-136 | re-sending a `$set` that already matched changes nothing |
| Subscription.SubscriptionOf | tests/test_subscription.py:32-59 | a stored record is returned as stored; with no record the answer is exactly `{user_id, is_premium: false}` |
| Subscription.IsActive | tests/test_subscription.py:103-153 | an entitled record is flagged premium and carries an expiration instant after the current one; the tests' three cases are `PremiumActiveUntilExpiration`, `ExpiredIsNotActive` and `NotPremiumIsNotActive` |
| Subscription.NoRecordIsNotActive | tests/test_subscription.py:49-59 | a user with no subscription record is never entitled |
| Subscription.PremiumActiveUntilExpiration | tests/test_subscription.py:103-119 | a record flagged premium is entitled exactly while the current instant is before its expiration |
| Subscription.ExpiredIsNotActive | tests/test_subscription.py:121-137 | an expiration that is not after the current instant gives no entitlement |
| Subscription.NotPremiumIsNotActive | tests/test_subscription.py:139-153 | a record not flagged premium gives no entitlement, whatever its expiration |
| Subscription.Upsert | tests/test_subscription.py:61-74 | the upsert creates the record if absent, otherwise merges exactly the given fields; other users' records are untouched |
| Subscription.PushPayment | tests/test_subscription.py:76-101 | one operation appends the payment to `payments`, keeping earlier entries, and sets `is_premium = true`, `premium_expiration` to the payment's expiration and `last_payment` to its date; all other fields are kept; it fails exactly when `payments` is not a list |
| Subscription.TwoPaymentsAppend | tests/test_subscription.py:76-101 | two payments in turn grow the history by both, in order, and leave the later payment's expiration and date |
| Subscription.PaymentGrantsEntitlement | tests/test_subscription.py:94-98 | after a payment the user is entitled at an instant exactly when the payment's expiration is after that instant |
| Store.EffectiveSchema | tests/test_mongo.py:51 | the effective template is the caller's template plus a `user_id` key holding null |
| Store.NewUser | tests/test_mongo.py:53-66 | a created user is the template with `user_id` set and every other template field kept |
| Store.NewUserFromTemplate | tests/test_mongo.py:62 | a created user is the caller's template with `user_id` set to the user's id |
| Store.UserView | tests/test_mongo.py:68-93 | `get_user_data` answers the stored record when there is one, otherwise the record it creates |
| Store.ReadCallsShape | tests/test_mongo.py:68-93 | `get_user_data` makes one find, and inserts the template only when no record exists |
| Store.UpdateCallsShape | tests/test_mongo.py:95-136 | an existing user gets one `$set` of exactly the given fields and no create; a missing user gets update, create, update, each update with exactly the given fields |
| Store.OrdersOf | tests/test_mongo.py:150-163 | `get_orders` answers only orders owned by the user and never more than are stored |
| Store.OrdersOfExactly | tests/test_mongo.py:150-163 | every order of the user is answered as often as it is stored, and no other order is answered |
| Store.OrdersOfAppend | tests/test_mongo.py:138-163 | an order added for a user is answered last among that user's orders, after the earlier ones |
| Store.OrdersOfOtherUser | tests/test_mongo.py:138-163 | an order added for one user never appears among another user's orders |
| Store.FirstMatch | tests/test_mongo.py:165-176 | the order `update_order` changes is the first matching `(user_id, order_id)`; no match means no order matches |
| Store.MongoManager.constructor | tests/test_mongo.py:29-51 | a new adapter has the effective template and empty collections |
| Store.MongoManager.CreateUser | tests/test_mongo.py:53-66 | inserts and returns the template with `user_id` set |
| Store.MongoManager.GetUserData | tests/test_mongo.py:68-93 | returns the stored record unchanged with one find; for a missing user, creates it once and returns the created record |
| Store.MongoManager.UpdateUserData | tests/test_mongo.py:95-136 | the record becomes the old (or newly created) record merged with the fields; the calls are those of `UpdateCalls` |
| Store.MongoManager.AddOrder | tests/test_mongo.py:138-148 | appends the order's fields plus the owner's `user_id` |
| Store.MongoManager.GetOrders | tests/test_mongo.py:150-163 | returns `OrdersOf` the stored orders with one find and no write |
| Store.MongoManager.UpdateOrder | tests/test_mongo.py:165-176 | merges the fields into the first order matching `(user_id, order_id)`; without a match nothing changes |
| Store.MongoManager.GetSubscription | tests/test_subscription.py:32-59 | returns `SubscriptionOf` the ledger with one find and creates nothing |
| Store.MongoManager.UpdateSubscription | tests/test_subscription.py:61-74 | the ledger becomes `Upsert` of the fields, in one call |
| Store.MongoManager.AddSubscriptionPayment | tests/test_subscription.py:76-101 | the user's record (created if absent) becomes `PushPayment` of the payment in one call; on refusal nothing changes |
| Store.MongoManager.CheckSubscriptionStatus | tests/test_subscription.py:103-153 | answers `IsActive` of the user's record at the given instant, with one find |
| Messages.SubscriptionKeyboard | tests/test_utils.py:31-75 | two rows: one-month and three-month plans, then the one-year plan, with callbacks `sub_1month`, `sub_3months`, `sub_1year` in any language |
| Messages.SubscriptionOffer | tests/test_utils.py:31-75 | the offer is the subscription pitch in the user's language, naming the other bots (one fewer than the bot count), together with the subscription keyboard |
| RateLimit.EffectiveCount | tests/test_utils.py:278-353 | the count for today is 0 when there is no recorded action or it was on another day; a non-zero count is the stored one, for an action recorded today; its consequences are `NewDayResets`, `SameDayBelowLimit` and `SameDayAtLimit` |
| RateLimit.CounterFields | tests/test_utils.py:325-333 | the counter write sets exactly `actions_today` and `last_action_date` to the given count and instant |
| RateLimit.Limit | tests/test_utils.py:278-353 | permits exactly when the count for today is below the limit; writes the reset `(0, now)` exactly when the last action was on another calendar day, and hands on the reset record |
| RateLimit.IncrementFields | tests/test_utils.py:356-372 | the increment writes the given user's count plus one and the current instant |
| RateLimit.Admit | tests/test_utils.py:387-431 | a non-premium admission permits exactly when the count for today is below the limit; on a permit the last write is the count plus one at `now`; on a denial the only write is a due reset |
| RateLimit.FirstActionWritesNothing | tests/test_utils.py:278-290 | with no recorded action and count 0, `check_limit` permits and writes nothing |
| RateLimit.SameDayBelowLimit | tests/test_utils.py:293-309 | same day below the limit: `check_limit` permits without writing, and `check_and_increment` writes exactly `old + 1` at `now` |
| RateLimit.SameDayAtLimit | tests/test_utils.py:337-353 | same day at the limit: both checks deny and nothing is written |
| RateLimit.NewDayResets | tests/test_utils.py:312-334 | last action on another day: permitted whatever the stored count, and the reset `(0, now)` is written |
| RateLimit.Decisions | tests/test_utils.py:387-431 | a series of calls gets one decision per call, and the first is the admission of the first call |
| RateLimit.AdmitStep | tests/test_utils.py:387-431 | one admission on a day moves the count from `k` to `k + 1` when it permits and keeps it when it denies |
| RateLimit.DailyQuotaFrom | tests/test_utils.py:387-431 | within one day, starting from `k` counted actions, call `i` is admitted exactly when `k + i` is below the limit |
| RateLimit.DailyQuota | tests/test_utils.py:387-431 | with no counter running today (no date and a count of 0, or a date on another day), exactly the first `rate_limit` calls of the day are admitted |
| RateLimit.UndatedCountResumes | tests/test_utils.py:356-372 | a record with a stored count but no date is admitted on its first call of the day; later calls that day are admitted only while the stored count plus the calls so far is below the limit |
| RateLimit.CheckAndIncrementOutcome | tests/test_utils.py:375-431 | a premium user is admitted after the subscription lookup alone; anyone else is admitted exactly when the count for today is below the limit |
| RateLimit.OutcomeByStages | tests/test_utils.py:387-431 | for a non-premium user, `check_and_increment` is `check_limit` followed, on a permit only, by one increment write on the record `check_limit` handed on |
| RateLimit.PremiumBypass | tests/test_utils.py:375-384 | a premium user is admitted, and the users collection is neither read nor written |
| RateLimit.DenialReplies | tests/test_utils.py:448-468 | a denial sends the "limit exceeded" message first and the plan choice with the subscription keyboard last |
| RateLimit.RateLimitManager.constructor | tests/test_utils.py:272-276 | the manager keeps the given store and limit |
| RateLimit.RateLimitManager.CheckLimit | tests/test_utils.py:278-353 | answers `Limit` on the user's record and performs exactly its reads and reset write |
| RateLimit.RateLimitManager.IncrementActionCount | tests/test_utils.py:356-372 | with user data given, makes no read and one `update_user_data` call setting the count plus one and `now` (a single `$set` on an existing user; update, insert, update on a missing one); without it, reads the user first |
| RateLimit.RateLimitManager.AdmitCounted | tests/test_utils.py:387-431 | after the subscription lookup, performs `check_limit` and, on a permit only, one increment write on the record `check_limit` handed on |
| RateLimit.RateLimitManager.CheckAndIncrement | tests/test_utils.py:375-431 | answers, writes and logs exactly what `CheckAndIncrementOutcome` prescribes |
| RateLimit.RateLimitManager.CheckLimitWithResponse | tests/test_utils.py:434-468 | answers exactly `check_and_increment`'s result, and sends the denial replies only when it is false |
| Support.AwaitingSupport | tests/test_utils.py:220-253 | the filter answers true only for a user with a stored flag; `FilterReturnsFlag` and `NoFlagIsNotWaiting` give its two cases |
| Support.FilterReturnsFlag | tests/test_utils.py:220-241 | the filter answers the stored flag |
| Support.NoFlagIsNotWaiting | tests/test_utils.py:244-253 | the filter answers false when no flag is stored |
| Support.Ticket | tests/test_utils.py:141-148 | a ticket holds the user id, username, message, bot name and timestamp, and is not resolved |
| Support.SupportDesk.HandleSupportCommand | tests/test_utils.py:99-113 | sets the user's flag to true, replies with the support prompt and logs `support_command` |
| Support.SupportDesk.HandleUserResponse | tests/test_utils.py:116-171 | while waiting: stores one unresolved ticket, replies once, logs the message and clears the flag; otherwise nothing is stored, sent or logged |
| Support.SupportRoundTrip | tests/test_utils.py:99-153 | `/support` followed by a message adds exactly one ticket and leaves the user not waiting, with other users' flags unchanged |
| Payment.PrecheckoutAnswers | tests/test_payment.py:69-78 | the query is approved; only when sending the approval fails is a refusal sent, with the fixed error message |
| Payment.OrderDocument | tests/test_payment.py:113-122 | the order is exactly `{order_id, amount, currency, status: "completed", date: now}` |
| Payment.PaymentEvent | tests/test_payment.py:124-137 | the subscription payment is the order's fields plus `expiration_date = now + days`, the plan code and `duration_days` |
| Payment.LogDetails | tests/test_payment.py:145-154 | the log entry carries exactly the payload, amount and currency |
| Payment.Settle | tests/test_payment.py:105-137 | an unknown plan records nothing; a known plan records the order and the payment event, expiring that many days later at the same time of day |
| Payment.SettlementGrantsPremium | tests/test_payment.py:124-137 | after a settled payment for a plan of at least one day, the user is entitled at once, and entitled at any later instant exactly when it is before the expiration |
| Payment.RecordSettlement | tests/test_payment.py:105-137 | records the order and then the subscription payment, in that order, and replies with the expiration date only when the payment was stored |
| Payment.OneMonthPlan | tests/test_payment.py:124-137 | the one-month plan expires 30 days later at the same time of day, and its payment names the plan and 30 days |
| Payment.SuccessfulPayment | tests/test_payment.py:84-203 | logs the payload, amount and currency on both paths; an unknown plan gets the payment-issue reply and no store call; a known plan records the order, then the payment, and replies with the expiration's date |
| Translation.Resolve | tests/test_translation.py:62-67 | a single-part path is found exactly when it names a text, and answers that text; a longer path is found only through a section under its first part |
| Translation.Lookup | tests/test_translation.py:57-67 | nothing is found in a language the table lacks; a plain key naming a text answers that text |
| Translation.Format | tests/test_translation.py:69-72 | with no arguments, a text is returned unchanged |
| Translation.T | tests/test_translation.py:57-85 | a key found in the language is formatted from that text; otherwise from the English text when there is one; otherwise the answer is the key itself; the tests' cases are `PlainKey`, `NestedKey`, `UnknownLanguageIsEnglish`, `MissingTranslationIsEnglish` and `MissingKeyIsKey` |
| Translation.Split | tests/test_translation.py:62-67 | a key splits at its dots into at least one part, none containing a dot |
| Translation.JoinSplit | tests/test_translation.py:62-67 | rejoining the parts of a key with dots gives the key back |
| Translation.SplitJoin | tests/test_translation.py:62-67 | splitting dot-joined, dot-free parts gives the parts back |
| Translation.DottedKeyWalksSection | tests/test_translation.py:62-67 | `section.rest` resolves to `rest` looked up inside that section |
| Translation.FormatPlainText | tests/test_translation.py:57-60 | a text without placeholders is returned unchanged |
| Translation.FormatPlaceholder | tests/test_translation.py:69-72 | a `{name}` placeholder whose name is an argument is replaced by that argument, with the text before it kept |
| Translation.PlainKey | tests/test_translation.py:57-60 | a plain key present in the language is answered with its text |
| Translation.NestedKey | tests/test_translation.py:62-67 | a two-part key is answered with the text stored under the second part inside the first |
| Translation.UnknownLanguageIsEnglish | tests/test_translation.py:83-85 | an unknown language is answered as English is |
| Translation.MissingTranslationIsEnglish | tests/test_translation.py:74-77 | a key missing from the language but present in English is answered in English |
| Translation.MissingKeyIsKey | tests/test_translation.py:74-81 | a key missing from the language and from English is answered by the key itself |
| Translation.SampleWelcomeEnglish | tests/test_translation.py:59 | `welcome` in English is "Welcome" |
| Translation.SampleWelcomeRussian | tests/test_translation.py:60 | `welcome` in Russian is the Russian greeting |
| Translation.SampleUnknownLanguage | tests/test_translation.py:85 | `welcome` in French falls back to "Welcome" |
| Translation.SampleNestedEnglish | tests/test_translation.py:64 | `buttons.start` in English is "Start" |
| Translation.SampleNestedRussian | tests/test_translation.py:67 | `buttons.help` in Russian is the Russian label |
| Translation.SampleFormatted | tests/test_translation.py:71 | `formatted` with `name = John` is "Hello, John!" |
| Translation.SampleMissingKey | tests/test_translation.py:77 | `nonexistent` in Russian is answered as `nonexistent` |

Assumptions where the tests leave behaviour open:

- A stale-day reset followed by an admission writes `(0, now)` and then `(1, now)`. The increment builds on the record that `check_limit` hands on.
- A record with a stored count but no last action date counts 0 for today and is admitted once. The increment then writes the stored count plus one, so the rest of the day's quota is measured from that stored count.
- After a denial, the subscription pitch is sent between the "limit exceeded" message and the plan choice. The tests fix only the first and the last of these replies.
- An expiration equal to the current instant is not an entitlement.
- The plan table is a parameter (`Plans`), constrained by `KnownPlans`: `1month_sub` lasts 30 days and `invalid_plan` is not a plan. Other plan lengths are left open.
- With a limit of 0 or less, a record whose last action was on another day is denied, and the reset `(0, now)` is still written.
- A dotted key that ends at a section, or that continues past a text, counts as missing and falls back to English and then to the key. Python would return the section in the first case and raise in the second.
- A user-data value that is not a number, or not an instant, reads as a count of 0 or as "no recorded action". The stored `None` of a first-time user is one such value.
- `create_user` for a user who already has a record inserts a second document that lookups by user id never reach. The visible record stays as it was.
- `add_order` stores the owner's `user_id` over any `user_id` the order itself carries.
- The effective template's `user_id` is overwritten by the user's id when a user is created.
- The settlement log entry is written before the plan is checked. If the store refuses the payment append, no success reply is sent.

## Left out

- The MongoDB client, the database and collection naming under DEBUG, and the client patching. These are foreign I/O. The collections are in-memory maps and sequences, and `_id` is not modelled.
- Telegram transport: message objects, `reply_text`, inline-keyboard rendering, HTML parse mode and handler registration. Replies are abstract `Reply` values, and the translated text of a reply is not computed.
- `get_user_info`: how the user id and the language are extracted from an update. They are parameters.
- `BotLogger` persistence and `error_handler`. Log entries are returned as `ActionLog` values.
- Validation of the environment constants, and `more_bots_list_command`. The first is process configuration and the second is a static text reply.
- Loading the translation JSON files, and the separate common catalogue selected by `common=True`. The catalogue is a given `Table`.
- ISO-8601 parsing and formatting, and the civil calendar. Instants are day and second numbers, and the success reply carries the expiration's day number rather than a formatted date.
- Translation.Format: a placeholder with no matching argument is kept verbatim, where Python's `str.format` would raise. Positional fields, format specs and `{{` escapes are not modelled.
- Concurrency between bot processes, and async execution. Each operation runs alone.
- A store error raised to the caller is not modelled as an exception. The one store refusal that is modelled (appending to a `payments` field that is not a list) returns `false` and changes nothing.
- `check_limit` and `increment_action_count` each read the clock in the source. The model passes one `now` to the whole `check_and_increment` call.
