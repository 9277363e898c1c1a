# tribute-payments-hook, modelled in Dafny

tribute-payments-hook is a worker that watches a Telegram chat. The chat is
Tribute's notification bot, which announces donations and channel
subscriptions in Russian. The worker turns each announcement into a record
(user id, user name, amount, currency, comment, payment or subscription, and
message id). It posts that record as JSON to a webhook, and it can also forward
the message to another chat. After each message it stores the id of the last
message it has processed, so the next wake-up resumes from there.

This project models the core of that worker and proves properties of it:

- `wrappers.dfy` (module `Wrappers`): `Option` and `Result`.
- `pystr.dfy` (module `PyStr`): the Python `str` behaviour the parser relies on:
  - clamped slicing;
  - `startswith`;
  - `strip`, using Python's whitespace set;
  - `int()` of a digit string;
  - zero-padded rendering.
- `utils.dfy` (module `Utils`): the helpers in `app/utils.py`:
  - `jsonify`, over a model of Python values (`PyValue`);
  - the `DataStorage` class, with its dict and its file;
  - `async_retry`.
- `worker.dfy` (module `Worker`):
  - the currency table and the amount pattern `AMOUNT_RE`;
  - `MessageType`;
  - `ParsedMessage.to_dict`;
  - `parse_message_russian`. It is modelled twice:
    - `ParseMessageRussian`, a loop over the entities as the source writes it;
    - `ParseSpec`, a declarative reading: the first mention gives the user, the
      first blockquote gives the comment, the first bold fragment that
      matches the pattern gives the amount. The loop is proved equal to it.
- `parser_examples.dfy` (module `ParserExamples`): the four messages of the
  repository's parser test, proved to parse to the expected records.
- `fetch.dfy` (module `Fetch`):
  - `handle_message`;
  - the per-message checkpoint and forwarding discipline of `fetch_messages`;
  - one wake-up of `wait_for_messages`. The retried fetch runs inside
    `with DataStorage()`, which saves the file on exit.

Several things the worker talks to become parameters:
- `handle_message` as the world makes it behave (`handle`). Its real form
  `Fetch.Handler` combines the Telegram client's entity lookup (`resolve`) with
  the webhook post (`post`);
- the forward call (`forward`);
- the messages the client yields;
- the storage file's prior contents.

Amounts are exact hundredths (`₽2000.11` is `200011`). The source uses a float
built as `int + int / 100`.

The model follows the code in these places:
- The dot in `AMOUNT_RE` is unescaped, so it matches any character but a
  newline. `"₽100000"` therefore reads as 100.00 (`Worker.DotMatchesAnyCharacter`).
- Commas may appear anywhere in the integer run and are dropped. They are not
  checked to be thousands separators, so `"₽2000,11.11"` is accepted as
  20001111 hundredths rather than rejected (`Worker.CommaInsideRun`).
- A run made only of commas passes the pattern and then `int("")` raises
  `ValueError` (`Worker.CommasOnlyRaise`).
- A mention the client cannot resolve raises. Both errors propagate out of the
  parser; they are not treated as "not a donation".
- Outgoing messages are neither handled nor forwarded, but they still move the
  checkpoint. The `handle_out_messages` setting is never read.
- Telegram counts entity offsets in UTF-16 code units, while the Python slices
  at worker.py:190 and 203 count code points. The model indexes characters as
  the code does, so it shares the defect: after a character outside the Basic
  Multilingual Plane (an emoji in a channel name, say), every later entity
  covers the wrong text.
- `telegram_forward_to` is used as a truth value, so `None`, `0` and `""` all
  disable forwarding.

## Model

| member | source | states |
|---|---|---|
| Worker.Symbol | app/actions/worker.py:18-22 | every currency has a symbol in `CURRENCIES` that maps back to it |
| Worker.ToDict | app/actions/worker.py:41-50 | `to_dict()`: the seven fields under their Python names, the message type still an enum member; its conversion is stated by `Worker.JsonifyToDict` |
| Worker.ToDictEntryConverts | app/actions/worker.py:41-50 | each entry of `to_dict()` has a string key and converts without raising to the corresponding webhook field |
| Worker.ParsedJsonKeys | app/actions/worker.py:41-50 | the converted record has exactly the keys `user_id`, `user_name`, `amount`, `currency`, `comment`, `message_type`, `message_id`, each once |
| Worker.JsonifyToDictEntries | app/actions/worker.py:41-50 | `jsonify(to_dict())` never raises and yields the dict built from the seven converted entries, with the enum replaced by its value |
| Worker.ParsedJsonShape | app/actions/worker.py:26-50 | the converted record is valid JSON with exactly the seven keys of `to_dict`, and `message_type` is `"payment"` or `"subscription"` |
| Worker.JsonifyToDict | app/actions/worker.py:41-50 | `jsonify(to_dict())` is the seven-key JSON dict in source order, is already JSON, and does not raise |
| Worker.FullMatch | app/actions/worker.py:23 | `AMOUNT_RE.fullmatch` and its groups; its soundness and completeness are stated by `Worker.FullMatchSound` and `Worker.FullMatchComplete` |
| Worker.FullMatchSound | app/actions/worker.py:23 | a full match splits the text into a currency symbol, a non-empty run of digits and commas, one non-newline character, and two digits |
| Worker.FullMatchComplete | app/actions/worker.py:23 | every text of that shape is matched, with exactly those groups (the match is unique) |
| Worker.RemoveCommas | app/actions/worker.py:218 | `amount_str.replace(",", "")`: drops every comma and keeps the other characters in order; `Worker.RemoveCommasOfRun`, `RemoveCommasConcat`, `RemoveCommasOfCommas` and `RemoveCommasOfDigits` state what it gives on the regex's run |
| Worker.RemoveCommasOfRun | app/actions/worker.py:218 | dropping commas from a run leaves only digits and never lengthens it |
| Worker.RemoveCommasConcat | app/actions/worker.py:218 | dropping commas works piece by piece over a concatenation |
| Worker.RemoveCommasOfCommas | app/actions/worker.py:218 | dropping commas from a run of commas alone leaves the empty string |
| Worker.RemoveCommasOfDigits | app/actions/worker.py:218 | dropping commas from a digit string leaves it unchanged |
| Worker.ParseAmount | app/actions/worker.py:215-218 | the amount a Bold text gives, or none when the pattern does not match; stated by `Worker.ParseAmountOfGroups` and `Worker.AmountTextRoundTrip` |
| Worker.ParseAmountOfGroups | app/actions/worker.py:215-218 | every text `<symbol><run><any character but newline><two digits>` matches with exactly those groups and is read through their conversion |
| Worker.AmountOf | app/actions/worker.py:216-218 | the integer conversion raises exactly when the run has no digits; otherwise the currency is the symbol's code and the cents are the two decimals |
| Worker.AmountTextRoundTrip | app/actions/worker.py:213-218 | for every amount, the rendering `<symbol><whole>.<cents>` parses back to the same currency and hundredths |
| Worker.InnerComma | app/actions/worker.py:218 | digits, a comma and digits form a run whose commas drop to leave the digits |
| Worker.CommaInsideRun | app/actions/worker.py:215-218 | a comma anywhere inside the run is accepted and dropped (so `"₽2000,11.11"` is 20001111 hundredths), not rejected |
| Worker.DotMatchesAnyCharacter | app/actions/worker.py:23 | the unescaped dot accepts any character but a newline between the run and the decimals (so `"₽100000"` reads as 100.00 roubles) |
| Worker.CommasOnlyRaise | app/actions/worker.py:216-218 | a run of commas alone (such as `"$,,.00"`) matches and then raises `ValueError` for `int("")` |
| Worker.NonAmountDoesNotMatch | app/actions/worker.py:213-215 | a text that does not start with a currency symbol (such as a bold channel name) is not an amount |
| Worker.Identify | app/actions/worker.py:192-200 | a mention gives the text it covers as the user name; only an unresolvable plain mention fails |
| Worker.Part | app/actions/worker.py:190 | the text an entity covers, Python's clamped slice `message[offset : offset + length]`; its length and characters are stated by `PyStr.SliceContents` |
| Worker.TextAfter | app/actions/worker.py:203 | the text after an entity, `message[offset + length :]`, stripped of surrounding whitespace; stated by `PyStr.SliceContents` and `PyStr.StripTrims` |
| Worker.TypeAfter | app/actions/worker.py:202-207 | the message type announced by the stripped text after a mention; used by `Worker.PassIdentity` and `Worker.ParsedRecord` |
| Worker.Read | app/actions/worker.py:189-218 | what one entity can contribute: a user exactly for mentions, a comment exactly for blockquotes (their text), an amount exactly for bold fragments matching the pattern (their parse) |
| Worker.Readings | app/actions/worker.py:189-190 | one reading per entity, in order |
| Worker.First | app/actions/worker.py:192-218 | the index found is the first entity serving that purpose; none is found only when no entity serves it |
| Worker.ScanError | app/actions/worker.py:199-218 | the parse fails exactly when the chosen mention or the chosen amount fails |
| Worker.Complete | app/actions/worker.py:220-239 | a record is produced exactly when user id, name, amount, currency and type are all known, and it carries those values |
| Worker.PassIdentity | app/actions/worker.py:192-207 | a pass with no error keeps the first mention's user and the type announced after it |
| Worker.PassComment | app/actions/worker.py:209-211 | a pass with no error keeps the first blockquote's text |
| Worker.PassAmount | app/actions/worker.py:213-218 | a pass with no error keeps the first matching bold fragment's amount and currency |
| Worker.PassError | app/actions/worker.py:189-218 | the pass fails exactly when the declarative reading reports an error, and with that error |
| Worker.Scan | app/actions/worker.py:189-218 | the reference reading of the loop: the first mention gives user and type, the first matching Bold the amount, the first Blockquote the comment, unless `ScanError` reports the exception the loop would raise; related to the loop by `Worker.PassIsScan` |
| Worker.Absorb | app/actions/worker.py:190-218 | one iteration of the loop on the accumulators: a group of fields already set is left alone, an unresolvable mention or a malformed amount raises; its effect on a prefix is stated by `Worker.PassSnoc` |
| Worker.Pass | app/actions/worker.py:189-218 | the loop itself, entity after entity, stopping at the first exception; `Worker.PassIsScan` proves it equals `Worker.Scan`, and `Worker.PassErrorStays` that an error is final |
| Worker.PassIsScan | app/actions/worker.py:189-218 | the one-pass fold over the entities equals the first-of-each-purpose reading |
| Worker.PassSnoc | app/actions/worker.py:189-218 | one more entity either keeps an earlier error or is absorbed into the fields so far |
| Worker.PassErrorStays | app/actions/worker.py:199-218 | once an entity raised, later entities do not change the outcome |
| Worker.FirstSnoc | app/actions/worker.py:192-218 | the first index in a longer list is the old one, or the new last element if it is the first to serve |
| Worker.NoMatchWithoutEntitiesOrPrefix | app/actions/worker.py:177-180 | with no entities, or a text not starting with `Пользователь`, the result is "no record" |
| Worker.FirstWins | app/actions/worker.py:192-218 | the user comes from the first mention, the comment from the first blockquote and the amount from the first matching bold fragment (both directions) |
| Worker.ParsedRecord | app/actions/worker.py:171-239 | every produced record has the prefix, the first mention's text and id, the type announced after it, the first matching amount, and the first blockquote as comment |
| Worker.UnparsedIffMissing | app/actions/worker.py:220-229 | without errors, "no record" happens exactly when the user, the amount or the type is missing |
| Worker.ReadFails | app/actions/worker.py:213-218 | an entity's amount fails exactly when it is a bold fragment matching the pattern with an all-comma run |
| Worker.ResolverFailurePropagates | app/actions/worker.py:197-218 | an unresolvable first mention raises its lookup error, unless the first matching Bold came before it and held only commas |
| Worker.WhoFailsFirst | app/actions/worker.py:192-218 | a failing chosen mention decides the error unless the chosen amount comes before it and fails |
| Worker.AllCommasPropagates | app/actions/worker.py:192-218 | an all-comma amount as the first matching fragment raises `ValueError`, unless the first mention came before it and failed |
| Worker.SumFailsFirst | app/actions/worker.py:192-218 | a failing chosen amount decides the error unless the chosen mention comes before it and fails |
| Worker.ParseSpec | app/actions/worker.py:171-239 | the declarative reading of `parse_message_russian`; its properties are `Worker.FirstWins`, `Worker.ParsedRecord`, `Worker.UnparsedIffMissing` and the error lemmas |
| Worker.ParseMessageRussian | app/actions/worker.py:171-239 | the entity loop returns exactly the declarative result, errors included |
| ParserExamples.PaymentExample | tests/test_parse_message.py:37-57 | the payment announcement without a comment parses to user 123 `@aaaaaaa`, 2000.11 RUB, payment, message 1111 |
| ParserExamples.CommentedExample | tests/test_parse_message.py:12-36 | the payment announcement with a quoted message carries that quote as comment |
| ParserExamples.RubSubscriptionExample | tests/test_parse_message.py:58-82 | the rouble subscription parses to `@aaaaaaaaa`, 1000.01 RUB, subscription; the channel mention is ignored |
| ParserExamples.UsdSubscriptionExample | tests/test_parse_message.py:83-107 | the dollar subscription parses to 100.00 USD; the bold channel name is skipped |
| PyStr.Slice | app/actions/worker.py:190 | `s[lo:hi]`, never failing; stated by `PyStr.SliceContents` |
| PyStr.SliceBound | app/actions/worker.py:190 | a slice bound is clamped into the string, counting negatives from the end |
| PyStr.SliceContents | app/actions/worker.py:190 | a slice holds exactly the characters between the clamped bounds |
| PyStr.LStripRemovesLeading | app/actions/worker.py:203 | stripping on the left removes only whitespace and stops at a non-space character |
| PyStr.RStripRemovesTrailing | app/actions/worker.py:203 | stripping on the right removes only whitespace and stops at a non-space character |
| PyStr.StartsWith | app/actions/worker.py:179 | `s.startswith(prefix)`: the prefix fits in `s` and equals its first characters; also used for the type words at worker.py:204 and 206 |
| PyStr.Strip | app/actions/worker.py:203 | `s.strip()`; stated by `PyStr.StripTrims` |
| PyStr.StripTrims | app/actions/worker.py:203 | `strip` keeps a contiguous piece of the text that neither starts nor ends with whitespace, and drops only whitespace around it |
| PyStr.DecimalValue | app/actions/worker.py:218 | the value of a digit string is below ten to its length |
| PyStr.DigitsRoundTrip | app/actions/worker.py:218 | `int(str(n)) == n` |
| PyStr.DecimalValueConcat | app/actions/worker.py:218 | the value of concatenated digit strings is the shifted sum of the parts |
| PyStr.PadRoundTrip | app/utils.py:80-81 | a zero-padded number has the width asked for and reads back as itself |
| Utils.KeyIndex | app/utils.py:79 | the key lookup finds the first entry with that key, or the key is absent |
| Utils.DictInsert | app/utils.py:79 | after `d[k] = v`, `k` maps to `v`; an existing key keeps its position and every other entry is unchanged; a new key is appended; the key set grows by `k` and stays distinct |
| Utils.DictBuild | app/utils.py:79 | a dict comprehension has distinct keys: exactly those of its items |
| Utils.DictBuildDistinct | app/utils.py:79 | items with distinct keys build the dict in their own order |
| Utils.DictBuildFrom | app/utils.py:79 | every entry of the built dict is one of the items |
| Utils.DictBuildLastWins | app/utils.py:79 | a later item replaces an earlier one with the same key: the last item of each key is an entry of the built dict |
| Utils.JsonifyChecked | app/utils.py:75-84 | `jsonify` raises exactly when a converted dict key is unhashable, and otherwise returns the conversion |
| Utils.Jsonify | app/utils.py:75-84 | the value `jsonify` returns when it does not raise; its conversions are stated by `Utils.JsonifyShape` |
| Utils.TupleKeyRaises | app/utils.py:78-79 | a dict with a tuple key makes `jsonify` raise: the key is converted to a list, which is unhashable |
| Utils.JsonifyRaises | app/utils.py:75-84 | when `jsonify` raises `TypeError`: a converted dict key somewhere is unhashable; tied to the result by `Utils.JsonifyChecked` |
| Utils.JsonifyShape | app/utils.py:75-84 | lists, tuples and sets become lists of converted items; a dict becomes a dict over the converted keys, each once, whose entries are converted items with the last item of each converted key winning; dates and datetimes become their ISO text; enums become their value; JSON scalars are unchanged |
| Utils.JsonifyDictKeys | app/utils.py:78-79 | a converted dict holds exactly the converted keys, each once |
| Utils.JsonifyDictEntries | app/utils.py:78-79 | every entry of a converted dict is a converted key with its converted value |
| Utils.JsonifyDictLastWins | app/utils.py:78-79 | for each converted key, the value of its last item is the one kept |
| Utils.JsonKeyHashable | app/utils.py:79 | a hashable JSON value is a JSON scalar |
| Utils.JsonifyFixesJson | app/utils.py:75-84 | a value that is already JSON is returned unchanged, without raising |
| Utils.JsonifyFixesJsonDict | app/utils.py:78-79 | a dict that is already JSON is rebuilt unchanged, without raising |
| Utils.JsonifyYieldsJson | app/utils.py:75-84 | when enum values are JSON and nothing raises, the result is JSON |
| Utils.JsonifyItemsYieldJson | app/utils.py:76-77 | the same, item by item |
| Utils.DictBuildJson | app/utils.py:79 | a dict built from JSON keys and values is JSON |
| Utils.JsonifyIdempotent | app/utils.py:75-84 | on values whose enums are plain (an enum value is not itself converted, so an enum of a tuple becomes a tuple, which a second pass turns into a list) and that do not raise, converting twice is converting once |
| Utils.IsoDate | app/utils.py:80-81 | `date.isoformat()`: the year padded to four digits, the month and the day to two, joined by dashes; `Utils.IsoDateRoundTrip` reads the fields back |
| Utils.IsoDateTime | app/utils.py:80-81 | `datetime.isoformat()` of a naive datetime: the date, `T`, the time padded to two digits, and six digits of microseconds only when they are not zero |
| Utils.IsoDateRoundTrip | app/utils.py:80-81 | the ISO text of a date has the `YYYY-MM-DD` shape and reads back as that date |
| Utils.DataStorage.constructor | app/utils.py:20-29 | a new storage holds the file's dict, or an empty dict when there is no file |
| Utils.DataStorage.Read | app/utils.py:26-29 | reading replaces the dict with the file's contents when the file exists |
| Utils.DataStorage.Get | app/utils.py:31-32 | `get` returns the stored value when the key is present and the default otherwise |
| Utils.DataStorage.SetItem | app/utils.py:34-35 | assignment changes only that key, which then reads back the new value |
| Utils.DataStorage.GetItem | app/utils.py:37-38 | indexing gives the stored value, and fails exactly when the key is absent |
| Utils.DataStorage.Save | app/utils.py:40-42 | after saving, the file holds exactly the dict |
| Utils.DataStorage.Exit | app/utils.py:47-48 | leaving the `with` block saves |
| Utils.AsyncRetry | app/utils.py:87-89 | a limit below one is rejected with `ValueError("attempts must be 1 or more")`; any other limit is accepted as is |
| Utils.RetryCalls | app/utils.py:94-99 | the wrapper makes between one and the limit of calls, all before the last raised, and stops before the limit only on a success |
| Utils.RetryCallsFrom | app/utils.py:94-99 | the same, from a given attempt onward |
| Utils.RetryCallsFromIs | app/utils.py:94-99 | the number of calls is fixed by where the wrapper stops: at the first success or at the limit |
| Utils.Retried | app/utils.py:91-99 | the wrapper's loop returns the first success, or re-raises the last failure after exactly the limit of calls |
| Fetch.HandleMessage | app/actions/worker.py:118-130 | `handle_message` over the declarative parser; its cases are stated by `Fetch.HandleMessageCases` |
| Fetch.HandleMessageCases | app/actions/worker.py:118-130 | `handle_message` reports true exactly when a record was parsed and posted, false exactly when there is no record, and raises the parser's error unchanged |
| Fetch.ForwardSet | app/actions/worker.py:104 | the truthiness of `telegram_forward_to`: unset, the id 0 and the empty name all mean "do not forward" |
| Fetch.ShouldForward | app/actions/worker.py:104-106 | forward exactly when `forward_to` is truthy and either `forward_only_parsed` is off or the message was handled; its effect on a message is stated by `Fetch.ForwardRule` |
| Fetch.Process | app/actions/worker.py:99-115 | the loop body on one message: skip outgoing, handle, maybe forward; stated by `Fetch.ForwardRule` |
| Fetch.Processed | app/actions/worker.py:93-115 | the loop gets through every message before the first one that raises, and stops there |
| Fetch.FetchMessages | app/actions/worker.py:87-115 | the loop forwards exactly the forwarded ids of the processed prefix; it reports the first message error, or the client's own failure once all yielded messages are processed; it leaves the checkpoint at the last processed message's id, saved to the file |
| Fetch.ForwardRule | app/actions/worker.py:99-112 | a message is forwarded exactly when it is incoming, handling does not raise, forwarding is set and allowed for the outcome, and the forward succeeds |
| Fetch.ForwardedIds | app/actions/worker.py:104-111 | the ids of the messages the loop forwarded, in order; `Fetch.ForwardedMembers` states that these are exactly the processed messages that were forwarded |
| Fetch.Checkpointed | app/actions/worker.py:114-115 | the dict the loop leaves after `k` messages: unchanged for none, otherwise `recent_message_id` set to the id of the last one; stated by `Fetch.FetchCheckpoint` |
| Fetch.ForwardedMembers | app/actions/worker.py:99-112 | an id is in the forwarded list exactly when some processed message with that id was forwarded |
| Fetch.ForwardedWereParsed | app/actions/worker.py:99-106 | forwarded messages are incoming, forwarding is set, and with `forward_only_parsed` their record was posted |
| Fetch.ForwardedWerePosted | app/actions/worker.py:99-130 | with `forward_only_parsed` and the real handler, a forwarded message parsed to a record and its post succeeded |
| Fetch.CheckpointSplits | app/actions/worker.py:93-98 | with ascending ids, the checkpoint is at or above every processed id and below every unprocessed one |
| Fetch.FetchCheckpoint | app/actions/worker.py:93-115 | after a fetch the stored checkpoint is that of the processed prefix, other keys are untouched, and, within the same list of ascending ids, the ids above it are exactly those of the unprocessed messages (paging by `min_id` is not modelled, so this does not describe a later fetch) |
| Fetch.FailureKeepsPreviousCheckpoint | app/actions/worker.py:99-115 | after messages 5 and 6 (both outgoing), a failure at 7 leaves checkpoint 6, so 7 is fetched again |
| Fetch.FetchAttempt | app/actions/worker.py:87-115 | one attempt of the wrapped fetch returns or raises as the loop does, a client failure included, moves the checkpoint to the end of its processed prefix, and leaves the file as it was when it processed nothing, else saves the new dict to it |
| Fetch.RetryStep | app/actions/worker.py:87-115 | one more attempt moves the dict to the next attempts' checkpoint and saves the file exactly when that attempt processed a message, so the file holds the dict once any attempt did |
| Fetch.FetchWithRetry | app/actions/worker.py:87-115 | the retried fetch makes the retry's number of attempts on one storage, each working on the dict the previous attempt left, returns the last attempt's outcome, and leaves the file as it was when no attempt processed a message, else holding the final dict |
| Fetch.ClientFailureRetried | app/actions/worker.py:87-98 | a client that raises during a fetch makes the attempt raise, so a limit of two or more calls the fetch again, working on the dict the previous attempt left, whose checkpoint is that of the messages already processed |
| Fetch.RunCycle | app/actions/worker.py:83-84 | one wake-up makes the retry's number of fetch attempts, returns the last outcome, and saves the checkpoint all of them reached, whether or not the last one raised |

## Left out

- The Telegram client (`tg_client`, `run`, `run_with_client`, the new-message event, `iter_messages` paging by `min_id` and `offset_date`): the messages each fetch attempt yields, and whether the iterator raises after them, are parameters.
- `post_message_data`'s HTTP request, the HMAC signature, basic auth and `json.dumps`: the post is an opaque success-or-raise parameter. This includes its own `async_retry(webhook_attempts)` wrapper, whose call counting `Utils.Retried` models generally.
- Concurrency and `asyncio`: all calls are sequential.
- Floating point: amounts are exact hundredths, while the source computes `int + int / 100` as a float.
- The file format of `DataStorage` (JSON via `json.load`/`json.dump`, `atomic_write`) and the existence check: the file is an optional dict.
- `__enter__` returns the storage unchanged and is not modelled separately.
- Python's cross-type key equality (`1 == True == 1.0` in a dict): keys of different constructors are different.
- Time zones and `isoformat` of aware datetimes.
- Logging, settings loading, `TelegramSession` and `login.py`.
