# vintasend-celery notification adapter, modelled in Dafny

`CeleryNotificationAdapter` sends notifications through a Celery task queue.
On the sending side, `send` turns a `Notification` into a plain dictionary
(`notification_to_dict`) and submits one `send_notification` task with
`.delay(...)`. That task carries the dictionary and everything the worker needs
to rebuild the adapter. On the worker side, `delayed_send` turns the dictionary
back into a `Notification` (`notification_from_dict`) and calls the parent
adapter's synchronous `send`.

The model has five modules, one per file:

- `Wrappers` (`wrappers.dfy`): `Option` and `Result`. An `Err` result stands for a Python exception.
- `IsoDateTime` (`iso_datetime.dfy`): Python `datetime` values and the `isoformat()`/`fromisoformat()` pair used for `send_after`. Both are written out over zero-padded decimal fields, and they are proved to be inverse in both directions.
- `PyValues` (`py_values.dfy`): the Python objects a notification dictionary holds, and Python truth testing on them.
- `NotificationCodec` (`notification_codec.dfy`): the `Notification` dataclass as a datatype, and two specification functions:
  - `Encoded`: the dictionary `notification_to_dict` returns.
  - `Decode` and `AfterDecode`: what `notification_from_dict` returns or raises, and the caller's dictionary afterwards.

  The module also holds the lemmas about these functions.
- `CeleryAdapter` (`celery_adapter.dfy`): three classes.
  - `CeleryApp`: the Celery application, seen as the log of submitted tasks.
  - `NotificationDict`: a mutable dictionary shared with the caller.
  - `CeleryNotificationAdapter`: the adapter. Its methods are proved against the specification functions:
    - `NotificationToDict`: a loop over the declared fields.
    - `NotificationFromDict`: overwrites `send_after` in place.
    - `Send`: makes exactly one submission.
    - `DelayedSend`: the worker side.

The notification's fields are the eleven that `Notification` is built with in
`vintasend_celery/tests/test_services/test_adapters.py:79-91`. Python does
not check dataclass field types, so every field holds any `Value`,
except `send_after`, which the model restricts to a `datetime` or `None`
(see "## Left out" for what that leaves out). A `Value` is `None`, a boolean, an integer, a string, a
UUID, a datetime, a list or a dictionary; floats, bytes and tuples are not
among them.

## Model

| member | source | states |
|---|---|---|
| `CeleryAdapter.CeleryNotificationAdapter.NotificationToDict` | vintasend_celery/services/notification_adapters/celery_adapter_factory.py:24-36 | The returned dictionary's keys are exactly the declared fields, `send_after` included. Every field other than `send_after` holds the notification's attribute unchanged. `send_after` is `None` when the notification has none, and otherwise the `isoformat()` text of its datetime. The result is `Encoded(n)`. |
| `NotificationCodec.CopiedKeys` | vintasend_celery/services/notification_adapters/celery_adapter_factory.py:25-30 | The keys the copying loop writes are the declared fields other than `send_after`. |
| `NotificationCodec.CompletedCopyIsEncoded` | vintasend_celery/services/notification_adapters/celery_adapter_factory.py:26-34 | The verbatim copies of the other fields, completed with the encoded `send_after`, make up the whole encoding. |
| `CeleryAdapter.CeleryNotificationAdapter.NotificationFromDict` | vintasend_celery/services/notification_adapters/celery_adapter_factory.py:38-44 | Returns, or raises, what `Decode` gives on the dictionary as it was. Leaves the caller's dictionary object as `AfterDecode` of its old contents. |
| `NotificationCodec.DecodeSucceedsIff` | vintasend_celery/services/notification_adapters/celery_adapter_factory.py:38-44 | Decoding succeeds if and only if the keys are exactly the declared fields and `send_after` is falsy or a string `isoformat()` emits. Otherwise it names the exception of the first step that fails: a missing `send_after` is a `KeyError` (`MissingKey`); a truthy non-string is a `TypeError` from `fromisoformat` (`NotAString`); an unparsable string is its `ValueError` (`InvalidIsoFormat`); then, with `send_after` parsed, unknown keys raise `UnexpectedArguments` and missing fields `MissingArguments` from `Notification(**d)`. |
| `NotificationCodec.AfterDecodeFrame` | vintasend_celery/services/notification_adapters/celery_adapter_factory.py:39-43 | Decoding writes only the `send_after` entry. The key set and every other entry are unchanged. Nothing is written when the lookup or the parse raises. After a successful parse, the entry holds the parsed datetime or `None`. |
| `NotificationCodec.DecodedFields` | vintasend_celery/services/notification_adapters/celery_adapter_factory.py:39-44 | On success, every field of the result other than `send_after` equals the dictionary's entry, and afterwards the dictionary equals the notification's attributes. The result's `send_after` is `None` exactly when the entry was falsy. Otherwise the entry was the `isoformat()` text of the result's datetime (for text in that form; see Left out). |
| `NotificationCodec.DecodedSendAfter` | vintasend_celery/services/notification_adapters/celery_adapter_factory.py:39-43 | On success, the decoded `send_after`, encoded again, is the dictionary's entry if that was truthy, and `None` otherwise. |
| `NotificationCodec.ConstructedFields` | vintasend_celery/services/notification_adapters/celery_adapter_factory.py:44 | `Notification(**d)` succeeds only when the keys are exactly the declared fields, and the result holds the given entries. |
| `NotificationCodec.ConstructFromAttributes` | vintasend_celery/services/notification_adapters/celery_adapter_factory.py:44 | Conversely, the entries of a notification's attributes construct that same notification. |
| `NotificationCodec.ConstructIgnoresSendAfterEntry` | vintasend_celery/services/notification_adapters/celery_adapter_factory.py:39-44 | The notification built from the overwritten dictionary is the one built from the original dictionary with the parsed `send_after`. |
| `NotificationCodec.EncodedSendAfterTruthy` | vintasend_celery/services/notification_adapters/celery_adapter_factory.py:32-41 | The encoded `send_after` is truthy exactly when the notification has one, so the decoder parses exactly the values the encoder formatted. |
| `NotificationCodec.SendAfterRoundTrip` | vintasend_celery/services/notification_adapters/celery_adapter_factory.py:32-43 | Parsing the encoded `send_after` gives back the original `Option<DateTime>`. |
| `NotificationCodec.RoundTrip` | vintasend_celery/services/notification_adapters/celery_adapter_factory.py:24-44 | `notification_from_dict(notification_to_dict(n))` returns `n`, and leaves the dictionary holding `n`'s attributes. |
| `NotificationCodec.EncodeAfterDecode` | vintasend_celery/services/notification_adapters/celery_adapter_factory.py:24-44 | Any dictionary whose `send_after` is in `isoformat()`'s form and that decodes to `n` is `Encoded(n)`, except that a falsy `send_after` other than `None` re-encodes as `None`. |
| `NotificationCodec.EncodedInjective` | vintasend_celery/services/notification_adapters/celery_adapter_factory.py:24-36 | Distinct notifications have distinct encodings. |
| `NotificationCodec.DecodeTwice` | vintasend_celery/services/notification_adapters/celery_adapter_factory.py:39-44 | Decoding the same dictionary object a second time raises `TypeError` when the first pass stored a datetime. When `send_after` was falsy, it gives the same notification again. |
| `IsoDateTime.IsoRoundTrip` | vintasend_celery/services/notification_adapters/celery_adapter_factory.py:33-40 | `fromisoformat(d.isoformat()) == d` for every datetime `d`. |
| `IsoDateTime.IsoCanonical` | vintasend_celery/services/notification_adapters/celery_adapter_factory.py:40 | A string `fromisoformat` accepts is exactly the `isoformat()` text of the datetime it returns. |
| `IsoDateTime.IsoInverse` | vintasend_celery/services/notification_adapters/celery_adapter_factory.py:33-40 | Both directions at once: `fromisoformat(s)` is `d` if and only if `s` is `d.isoformat()`. |
| `CeleryAdapter.CeleryApp.Delay` | vintasend_celery/services/notification_adapters/celery_adapter_factory.py:48 | `.delay(...)` appends exactly the given submission to the application's task log. |
| `CeleryAdapter.CeleryNotificationAdapter.Send` | vintasend_celery/services/notification_adapters/celery_adapter_factory.py:46-60 | Exactly one submission is appended to the Celery application's log. It carries `Encoded(n)`, the caller's context unchanged, the backend's locator and keyword arguments, the one-element list `[(adapter locator, renderer locator)]`, and the serialized configuration. Nothing else changes. |
| `CeleryAdapter.CeleryNotificationAdapter.SendSynchronously` | vintasend_celery/services/notification_adapters/celery_adapter_factory.py:22 | A call to the parent's synchronous `send` is recorded once, with its notification and context. |
| `CeleryAdapter.CeleryNotificationAdapter.DelayedSend` | vintasend_celery/services/notification_adapters/celery_adapter_factory.py:19-22 | The given dictionary is decoded in place. On success, the synchronous `send` is called once, with the decoded notification and the context's entries. On a decoding exception, the exception is returned and nothing is sent. |
| `CeleryAdapter.SendEagerly` | vintasend_celery/tests/test_services/test_adapters.py:25-56 | With the adapter's Celery application made eager (`task_always_eager`, line 56), `send` followed by `delayed_send` on the submitted arguments appends exactly one submission to the log, the same one `Send` makes (`Encoded(n)`, the caller's context, the backend's locator and keyword arguments, the adapter list and the serialized configuration), raises nothing, and hands the synchronous `send` the original notification and context. |

## Left out

- Attachments, one-off notifications, the variant discriminator and UUID reinterpretation: the adapter code modelled here has none of them.
- The Celery runtime is not modelled: brokers, workers, retries, and the JSON serialization of task arguments. `.delay` is only an append to a log, and task arguments are assumed to reach the worker unchanged.
- `send_notification_task_factory` (`vintasend_celery/tasks/background_tasks.py`) and `periodic_send_pending_notifications_task_factory` (`vintasend_celery/tasks/periodic_tasks.py`) only wrap functions of the `vintasend` library, which is not part of this model. In particular, the step where `send_notification` re-resolves the backend and adapter from their locators and then reaches `delayed_send` is not part of this model. `SendEagerly` calls `DelayedSend` on the same adapter directly.
- The parent adapter's synchronous `send` (rendering, delivery, logging, backend updates) is only recorded, in `delivered`.
- `serialize_config` is an arbitrary function of the adapter's configuration, given when the adapter is built. `restore_config` is not called by the modelled code.
- `NotificationContextDict(**context_dict)` is modelled as a copy of the dictionary's entries.
- `Notification` has the eleven fields used in the tests, all required. Any further fields of the dataclass, and any defaults, are not part of this model.
- `CeleryAdapter.CeleryNotificationAdapter.NotificationToDict`: the key order of the returned dictionary is not modelled (a map has none); the source appends `send_after` last.
- `NotificationCodec.Construct`: for an unknown keyword, Python's `TypeError` names only the first one; the model reports the whole set of unknown keys.
- `IsoDateTime.FromIsoFormat`: accepts exactly the strings `isoformat()` emits. Python 3.11's `fromisoformat` also accepts other forms: dates alone, a space separator, `Z`, shorter fractions, `-00:00`, and offsets with seconds. `IsoCanonical` and `IsoInverse` hold for this narrower parser. `notification_to_dict` never emits those other forms.
- `IsoDateTime.IsoCanonical`: holds only for `send_after` text in `isoformat()`'s own form; Python's `fromisoformat` also accepts other spellings of the same datetime.
- `IsoDateTime.IsoInverse`: its "only if" half holds only for text in `isoformat()`'s own form, for the same reason.
- `NotificationCodec.DecodeSucceedsIff`: holds for `send_after` text in `isoformat()`'s own form. A dictionary whose `send_after` is another spelling Python accepts (such as `"2024-01-05 03:04:05"`) decodes in Python but fails in the model.
- `NotificationCodec.DecodedFields`: "the entry was the `isoformat()` text of the result's datetime" holds only for `send_after` text in `isoformat()`'s own form; Python also decodes other spellings.
- `NotificationCodec.DecodedSendAfter`: re-encoding gives back the entry only for `send_after` text in `isoformat()`'s own form; another accepted spelling would come back in `isoformat()`'s form.
- `NotificationCodec.EncodeAfterDecode`: holds only for `send_after` text in `isoformat()`'s own form; a dictionary with another accepted spelling re-encodes with `isoformat()`'s spelling instead.
- `NotificationCodec.Notification.sendAfter`: is a `datetime` or `None`. In Python the field is untyped: a falsy non-`None` value such as `""` or `0` encodes as `None`, a truthy value that is not a datetime raises `AttributeError` in `notification_to_dict`, and a `date` encodes as date-only text that Python's `fromisoformat` reads back as a `datetime`. None of these cases is modelled.
- `IsoDateTime.DateTime`: UTC offsets are whole minutes, and an aware datetime is compared by its fields and offset. Python compares aware datetimes by instant. A `tzinfo` other than a fixed offset is not modelled.
