/**
 * `CeleryNotificationAdapter`: the sending side encodes a notification and
 * submits one Celery task; the worker side decodes it and hands it to the
 * synchronous send path of the parent adapter.
 */
module CeleryAdapter {
  import opened Wrappers
  import opened IsoDateTime
  import opened PyValues
  import opened NotificationCodec

  /** A `NotificationContextDict`: a plain dictionary at run time. */
  type ContextDict = map<string, Value>

  /** The keyword arguments of one `send_notification_task.delay(...)` call. */
  datatype TaskSubmission = TaskSubmission(
    notification: map<string, Value>,
    context: ContextDict,
    backend: string,
    adapters: seq<(string, string)>,
    backendKwargs: map<string, Value>,
    config: Value)

  /** The parts of the notification backend the adapter passes on. */
  datatype Backend = Backend(backendImportStr: string, backendKwargs: map<string, Value>)

  datatype TemplateRenderer = TemplateRenderer(templateRendererImportStr: string)

  /** The Celery application, seen only through the tasks submitted to it, oldest first. */
  class CeleryApp {
    var submitted: seq<TaskSubmission>

    constructor ()
      ensures submitted == []
    {
      submitted := [];
    }

    /** `task.delay(...)`: queue one task; running it is Celery's business. */
    method Delay(task: TaskSubmission)
      modifies this
      ensures submitted == old(submitted) + [task]
    {
      submitted := submitted + [task];
    }
  }

  /** A Python `dict` holding a notification's wire form, shared with whoever passed it in. */
  class NotificationDict {
    var entries: map<string, Value>

    constructor (entries: map<string, Value>)
      ensures this.entries == entries
    {
      this.entries := entries;
    }
  }

  class CeleryNotificationAdapter {
    const celeryApp: CeleryApp
    const backend: Backend
    const templateRenderer: TemplateRenderer
    const adapterImportStr: string
    const config: Value
    /** The adapter's `serialize_config` hook, as a function of its configuration. */
    const serializeConfig: Value -> Value
    /** The calls made so far to the parent adapter's synchronous `send`, oldest first. */
    var delivered: seq<(Notification, ContextDict)>

    constructor (celeryApp: CeleryApp, backend: Backend, templateRenderer: TemplateRenderer,
                 adapterImportStr: string, config: Value, serializeConfig: Value -> Value)
      ensures this.celeryApp == celeryApp && this.backend == backend
      ensures this.templateRenderer == templateRenderer && this.adapterImportStr == adapterImportStr
      ensures this.config == config && this.serializeConfig == serializeConfig
      ensures delivered == []
    {
      this.celeryApp := celeryApp;
      this.backend := backend;
      this.templateRenderer := templateRenderer;
      this.adapterImportStr := adapterImportStr;
      this.config := config;
      this.serializeConfig := serializeConfig;
      delivered := [];
    }

    /**
     * `notification_to_dict`: every declared field except `send_after` is
     * copied unchanged, then `send_after` is written as its `isoformat()` text or
     * `None`. The notification is a value and is only read.
     */
    method NotificationToDict(n: Notification) returns (d: map<string, Value>)
      ensures d.Keys == FieldSet
      ensures forall f :: f in d && f != SendAfterKey ==> d[f] == Attribute(n, f)
      ensures n.sendAfter.None? ==> d[SendAfterKey] == PyNone
      ensures n.sendAfter.Some? ==> d[SendAfterKey] == PyStr(IsoFormat(n.sendAfter.value))
      ensures d == Encoded(n)
    {
      d := map[];
      for i := 0 to |FieldNames|
        invariant forall f :: f in d <==> f in FieldNames[..i] && f !in NonSerializableFields
        invariant forall f :: f in d ==> f in FieldSet && d[f] == Attribute(n, f)
      {
        var field := FieldNames[i];
        assert FieldNames[..i + 1] == FieldNames[..i] + [field];
        if field !in NonSerializableFields {
          d := d[field := Attribute(n, field)];
        }
      }
      assert FieldNames[..|FieldNames|] == FieldNames;
      CopiedKeys(d.Keys);
      CompletedCopyIsEncoded(n, d);
      d := d[SendAfterKey := if n.sendAfter.Some? then PyStr(IsoFormat(n.sendAfter.value)) else PyNone];
    }

    /**
     * `notification_from_dict`: overwrites the caller's `send_after` entry in
     * place with the parsed datetime (or `None` when it is falsy), then builds
     * the notification from all entries. `Err` is the exception it raises.
     */
    method NotificationFromDict(notificationDict: NotificationDict) returns (r: Result<Notification, DecodeError>)
      modifies notificationDict
      ensures r == Decode(old(notificationDict.entries))
      ensures notificationDict.entries == AfterDecode(old(notificationDict.entries))
    {
      if SendAfterKey !in notificationDict.entries {
        return Err(MissingKey(SendAfterKey));
      }
      var parsed := ParseSendAfter(notificationDict.entries[SendAfterKey]);
      if parsed.Err? {
        return Err(parsed.error);
      }
      ConstructIgnoresSendAfterEntry(notificationDict.entries, SendAfterAttribute(parsed.value), parsed.value);
      notificationDict.entries := notificationDict.entries[SendAfterKey := SendAfterAttribute(parsed.value)];
      r := Construct(notificationDict.entries, parsed.value);
    }

    /** The parent adapter's synchronous `send`, recorded rather than performed. */
    method SendSynchronously(n: Notification, context: ContextDict)
      modifies this`delivered
      ensures delivered == old(delivered) + [(n, context)]
    {
      delivered := delivered + [(n, context)];
    }

    /**
     * `send`: exactly one task submission carrying the encoded notification,
     * the caller's context unchanged, the backend's locator and keyword
     * arguments, the single (adapter, renderer) locator pair and the
     * serialized configuration.
     */
    method Send(n: Notification, context: ContextDict)
      modifies celeryApp
      ensures celeryApp.submitted == old(celeryApp.submitted) + [TaskSubmission(
        Encoded(n), context, backend.backendImportStr,
        [(adapterImportStr, templateRenderer.templateRendererImportStr)],
        backend.backendKwargs, serializeConfig(config))]
    {
      var notificationDict := NotificationToDict(n);
      celeryApp.Delay(TaskSubmission(
        notification := notificationDict,
        context := context,
        backend := backend.backendImportStr,
        adapters := [(adapterImportStr, templateRenderer.templateRendererImportStr)],
        backendKwargs := backend.backendKwargs,
        config := serializeConfig(config)));
    }

    /**
     * `delayed_send`, run on the worker: decode the dictionary (in place),
     * wrap the context and call the synchronous `send`. A decoding exception
     * propagates and nothing is sent.
     */
    method DelayedSend(notificationDict: NotificationDict, contextDict: ContextDict) returns (raised: Option<DecodeError>)
      modifies this`delivered, notificationDict
      ensures notificationDict.entries == AfterDecode(old(notificationDict.entries))
      ensures match Decode(old(notificationDict.entries))
        case Ok(n) => raised == None && delivered == old(delivered) + [(n, contextDict)]
        case Err(e) => raised == Some(e) && delivered == old(delivered)
    {
      var decoded := NotificationFromDict(notificationDict);
      match decoded
      case Err(e) =>
        raised := Some(e);
      case Ok(notification) =>
        var context: ContextDict := contextDict;
        SendSynchronously(notification, context);
        raised := None;
    }
  }

  /**
   * Celery in eager mode (`task_always_eager`): the submitted task runs at
   * once, and the worker's `delayed_send` receives the submitted keyword
   * arguments. The synchronous send then sees the original notification and
   * context, and nothing is raised.
   */
  method SendEagerly(adapter: CeleryNotificationAdapter, n: Notification, context: ContextDict)
    returns (raised: Option<DecodeError>)
    modifies adapter.celeryApp, adapter`delivered
    ensures adapter.celeryApp.submitted == old(adapter.celeryApp.submitted) + [TaskSubmission(
      Encoded(n), context, adapter.backend.backendImportStr,
      [(adapter.adapterImportStr, adapter.templateRenderer.templateRendererImportStr)],
      adapter.backend.backendKwargs, adapter.serializeConfig(adapter.config))]
    ensures raised == None
    ensures adapter.delivered == old(adapter.delivered) + [(n, context)]
  {
    adapter.Send(n, context);
    var task := adapter.celeryApp.submitted[|adapter.celeryApp.submitted| - 1];
    var workerDict := new NotificationDict(task.notification);
    RoundTrip(n);
    raised := adapter.DelayedSend(workerDict, task.context);
  }
}
