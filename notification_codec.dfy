/**
 * The wire form of a notification, as `CeleryNotificationAdapter` writes it
 * (`notification_to_dict`) and reads it back (`notification_from_dict`).
 *
 * The functions here specify both directions on dictionary values; the
 * methods of `CeleryAdapter.CeleryNotificationAdapter` that run them are
 * proved against these functions.
 */
module NotificationCodec {
  import opened Wrappers
  import opened IsoDateTime
  import opened PyValues

  /**
   * The `Notification` dataclass. Python does not check the types of dataclass
   * fields, so every field holds any `Value` except `send_after`, which the
   * codec calls `isoformat()` on and so must be a `datetime` or `None`.
   */
  datatype Notification = Notification(
    id: Value,
    userId: Value,
    notificationType: Value,
    title: Value,
    bodyTemplate: Value,
    contextName: Value,
    contextKwargs: Value,
    sendAfter: Option<DateTime>,
    subjectTemplate: Value,
    preheaderTemplate: Value,
    status: Value)

  const SendAfterKey: string := "send_after"

  /** The dataclass's declared fields, in declaration order (`__dataclass_fields__.keys()`). */
  const FieldNames: seq<string> := [
    "id", "user_id", "notification_type", "title", "body_template",
    "context_name", "context_kwargs", "send_after",
    "subject_template", "preheader_template", "status"]

  /**
   * The same fields as a set. It is written out rather than derived from
   * `FieldNames` because membership in a set display is far cheaper for the
   * verifier; `FieldSetIsFieldNames` proves the two agree.
   */
  const FieldSet: set<string> := {
    "id", "user_id", "notification_type", "title", "body_template",
    "context_name", "context_kwargs", "send_after",
    "subject_template", "preheader_template", "status"}

  lemma FieldSetIsFieldNames()
    ensures forall f :: f in FieldNames <==> f in FieldSet
  {
  }

  /** The fields `notification_to_dict` does not copy verbatim. */
  const NonSerializableFields: seq<string> := [SendAfterKey]

  /** `send_after` as the attribute holds it: a `datetime` or `None`. */
  function SendAfterAttribute(sendAfter: Option<DateTime>): Value {
    match sendAfter
    case None => PyNone
    case Some(d) => PyDateTime(d)
  }

  /** `getattr(notification, name)` for a declared field. */
  function Attribute(n: Notification, name: string): Value
    requires name in FieldSet
  {
    if name == "id" then n.id
    else if name == "user_id" then n.userId
    else if name == "notification_type" then n.notificationType
    else if name == "title" then n.title
    else if name == "body_template" then n.bodyTemplate
    else if name == "context_name" then n.contextName
    else if name == "context_kwargs" then n.contextKwargs
    else if name == "send_after" then SendAfterAttribute(n.sendAfter)
    else if name == "subject_template" then n.subjectTemplate
    else if name == "preheader_template" then n.preheaderTemplate
    else n.status
  }

  /** Every declared field with its attribute value. */
  function Attributes(n: Notification): map<string, Value> {
    map f | f in FieldSet :: Attribute(n, f)
  }

  // ---------------------------------------------------------------------------
  // Encoding

  /** The wire form of `send_after`: its `isoformat()` text, or `None`. */
  function EncodedSendAfter(sendAfter: Option<DateTime>): Value {
    match sendAfter
    case None => PyNone
    case Some(d) => PyStr(IsoFormat(d))
  }

  /** The dictionary `notification_to_dict` returns. */
  function Encoded(n: Notification): map<string, Value> {
    map f | f in FieldSet :: if f == SendAfterKey then EncodedSendAfter(n.sendAfter) else Attribute(n, f)
  }

  /** The keys the copying loop writes are the declared fields other than `send_after`. */
  lemma CopiedKeys(keys: set<string>)
    requires forall f :: f in keys <==> f in FieldNames && f !in NonSerializableFields
    ensures forall f :: f in keys <==> f in FieldSet && f != SendAfterKey
  {
    FieldSetIsFieldNames();
  }

  /**
   * A dictionary holding exactly the verbatim-copied fields, completed with
   * the encoded `send_after`, is the encoding.
   */
  lemma CompletedCopyIsEncoded(n: Notification, copied: map<string, Value>)
    requires forall f :: f in copied <==> f in FieldSet && f != SendAfterKey
    requires forall f :: f in copied ==> copied[f] == Attribute(n, f)
    ensures copied[SendAfterKey := EncodedSendAfter(n.sendAfter)] == Encoded(n)
  {
    var d, e := copied[SendAfterKey := EncodedSendAfter(n.sendAfter)], Encoded(n);
    assert d.Keys == e.Keys;
    forall f | f in d ensures d[f] == e[f] {
    }
  }

  // ---------------------------------------------------------------------------
  // Decoding

  /** The exceptions `notification_from_dict` can raise. */
  datatype DecodeError =
    | MissingKey(key: string)                 // KeyError on `notification_dict["send_after"]`
    | NotAString(value: Value)                // TypeError from `fromisoformat` on a truthy non-string
    | InvalidIsoFormat(text: string)          // ValueError from `fromisoformat`
    | UnexpectedArguments(names: set<string>) // TypeError from `Notification(**d)`: unknown keywords
    | MissingArguments(names: set<string>)    // TypeError from `Notification(**d)`: fields not given

  /** The new value of `send_after`: falsy becomes `None`, anything else goes through `fromisoformat`. */
  function ParseSendAfter(v: Value): Result<Option<DateTime>, DecodeError> {
    if !Truthy(v) then Ok(None)
    else
      match v
      case PyStr(s) =>
        (match FromIsoFormat(s)
         case Some(d) => Ok(Some(d))
         case None => Err(InvalidIsoFormat(s)))
      case _ => Err(NotAString(v))
  }

  /**
   * `Notification(**kwargs)`, where the `send_after` entry of `kwargs` has
   * already been replaced by the attribute value of `sendAfter`. Python
   * rejects unknown keywords before it reports missing ones.
   */
  function Construct(kwargs: map<string, Value>, sendAfter: Option<DateTime>): Result<Notification, DecodeError> {
    if !(kwargs.Keys <= FieldSet) then Err(UnexpectedArguments(kwargs.Keys - FieldSet))
    else if !(FieldSet <= kwargs.Keys) then Err(MissingArguments(FieldSet - kwargs.Keys))
    else
      Ok(Notification(
        kwargs["id"], kwargs["user_id"], kwargs["notification_type"], kwargs["title"],
        kwargs["body_template"], kwargs["context_name"], kwargs["context_kwargs"], sendAfter,
        kwargs["subject_template"], kwargs["preheader_template"], kwargs["status"]))
  }

  /** `Notification(**kwargs)` reads the given `sendAfter`, not the `send_after` entry of `kwargs`. */
  lemma ConstructIgnoresSendAfterEntry(kwargs: map<string, Value>, v: Value, sendAfter: Option<DateTime>)
    requires SendAfterKey in kwargs
    ensures Construct(kwargs[SendAfterKey := v], sendAfter) == Construct(kwargs, sendAfter)
  {
    assert kwargs[SendAfterKey := v].Keys == kwargs.Keys;
  }

  /** A constructed notification holds the given entries, and needs exactly the declared fields. */
  lemma ConstructedFields(kwargs: map<string, Value>, sendAfter: Option<DateTime>, n: Notification)
    requires Construct(kwargs, sendAfter) == Ok(n)
    ensures kwargs.Keys == FieldSet && n.sendAfter == sendAfter
    ensures forall f :: f in kwargs && f != SendAfterKey ==> Attribute(n, f) == kwargs[f]
  {
  }

  /** Conversely, the entries of a notification's attributes construct that notification. */
  lemma ConstructFromAttributes(kwargs: map<string, Value>, n: Notification)
    requires kwargs.Keys == FieldSet
    requires forall f :: f in kwargs && f != SendAfterKey ==> kwargs[f] == Attribute(n, f)
    ensures Construct(kwargs, n.sendAfter) == Ok(n)
  {
  }

  /** What `notification_from_dict(d)` returns or raises. */
  function Decode(d: map<string, Value>): Result<Notification, DecodeError> {
    if SendAfterKey !in d then Err(MissingKey(SendAfterKey))
    else
      match ParseSendAfter(d[SendAfterKey])
      case Err(e) => Err(e)
      case Ok(sendAfter) => Construct(d, sendAfter)
  }

  /**
   * The caller's dictionary after `notification_from_dict(d)`: its `send_after`
   * entry is overwritten before `Notification(**d)` runs, so also when that
   * constructor raises; nothing is written when the lookup or the parse raises.
   */
  function AfterDecode(d: map<string, Value>): map<string, Value> {
    if SendAfterKey !in d then d
    else
      match ParseSendAfter(d[SendAfterKey])
      case Err(_) => d
      case Ok(sendAfter) => d[SendAfterKey := SendAfterAttribute(sendAfter)]
  }

  // ---------------------------------------------------------------------------
  // Properties of the codec

  /** The `isoformat()` text of a datetime is never empty, so it is truthy on the way back. */
  lemma EncodedSendAfterTruthy(sendAfter: Option<DateTime>)
    ensures Truthy(EncodedSendAfter(sendAfter)) <==> sendAfter.Some?
  {
  }

  /**
   * Decoding succeeds exactly when the dictionary holds every declared field
   * and no other key, and its `send_after` is falsy or `isoformat()` text.
   * Otherwise the first failing step decides the exception: the lookup, then
   * `fromisoformat`, then `Notification(**d)`.
   */
  lemma DecodeSucceedsIff(d: map<string, Value>)
    ensures Decode(d).Ok? <==>
      && d.Keys == FieldSet
      && (!Truthy(d[SendAfterKey]) || (d[SendAfterKey].PyStr? && FromIsoFormat(d[SendAfterKey].s).Some?))
    ensures SendAfterKey !in d ==> Decode(d) == Err(MissingKey(SendAfterKey))
    ensures SendAfterKey in d && Truthy(d[SendAfterKey]) && !d[SendAfterKey].PyStr? ==>
              Decode(d) == Err(NotAString(d[SendAfterKey]))
    ensures SendAfterKey in d && Truthy(d[SendAfterKey]) && d[SendAfterKey].PyStr? && FromIsoFormat(d[SendAfterKey].s).None? ==>
              Decode(d) == Err(InvalidIsoFormat(d[SendAfterKey].s))
    ensures SendAfterKey in d && ParseSendAfter(d[SendAfterKey]).Ok? && !(d.Keys <= FieldSet) ==>
              Decode(d) == Err(UnexpectedArguments(d.Keys - FieldSet))
    ensures SendAfterKey in d && ParseSendAfter(d[SendAfterKey]).Ok? && d.Keys < FieldSet ==>
              Decode(d) == Err(MissingArguments(FieldSet - d.Keys))
  {
  }

  /**
   * Decoding writes only the `send_after` entry, and writes it only once the
   * lookup and the parse have succeeded: the key set and every other entry stay.
   */
  lemma AfterDecodeFrame(d: map<string, Value>)
    ensures AfterDecode(d).Keys == d.Keys
    ensures forall k :: k in d && k != SendAfterKey ==> AfterDecode(d)[k] == d[k]
    ensures (Decode(d).Err? && !Decode(d).error.UnexpectedArguments? && !Decode(d).error.MissingArguments?)
              ==> AfterDecode(d) == d
    ensures SendAfterKey in d && ParseSendAfter(d[SendAfterKey]).Ok? ==>
              AfterDecode(d)[SendAfterKey] == SendAfterAttribute(ParseSendAfter(d[SendAfterKey]).value)
  {
  }

  /**
   * A decoded notification's fields are the dictionary's entries: after the
   * call the dictionary is exactly the notification's attributes, and its
   * `send_after` is `None` for a falsy entry and otherwise the datetime whose
   * `isoformat()` text the entry was.
   */
  lemma {:induction false} DecodedFields(d: map<string, Value>, n: Notification)
    requires Decode(d) == Ok(n)
    ensures d.Keys == FieldSet
    ensures forall f :: f in d && f != SendAfterKey ==> Attribute(n, f) == d[f]
    ensures AfterDecode(d) == Attributes(n)
    ensures n.sendAfter.None? <==> !Truthy(d[SendAfterKey])
    ensures n.sendAfter.Some? ==> d[SendAfterKey] == PyStr(IsoFormat(n.sendAfter.value))
  {
    var v := d[SendAfterKey];
    ConstructedFields(d, n.sendAfter, n);
    if n.sendAfter.Some? {
      IsoCanonical(v.s, n.sendAfter.value);
    }
    var after, attributes := AfterDecode(d), Attributes(n);
    assert after.Keys == attributes.Keys;
    forall f | f in after ensures after[f] == attributes[f] {
    }
  }

  /** The wire form of `send_after` parses back to the same value. */
  lemma SendAfterRoundTrip(sendAfter: Option<DateTime>)
    ensures ParseSendAfter(EncodedSendAfter(sendAfter)) == Ok(sendAfter)
  {
    if sendAfter.Some? {
      IsoRoundTrip(sendAfter.value);
    }
  }

  /** `notification_from_dict(notification_to_dict(n))` gives back `n`, and leaves the dictionary holding `n`'s attributes. */
  lemma {:induction false} RoundTrip(n: Notification)
    ensures Decode(Encoded(n)) == Ok(n)
    ensures AfterDecode(Encoded(n)) == Attributes(n)
  {
    var d := Encoded(n);
    assert d.Keys == FieldSet;
    SendAfterRoundTrip(n.sendAfter);
    ConstructFromAttributes(d, n);
    DecodedFields(d, n);
  }

  /** On success, re-encoding the decoded `send_after` gives the entry back, with falsy values as `None`. */
  lemma DecodedSendAfter(d: map<string, Value>, n: Notification)
    requires Decode(d) == Ok(n)
    ensures SendAfterKey in d
    ensures EncodedSendAfter(n.sendAfter) == if Truthy(d[SendAfterKey]) then d[SendAfterKey] else PyNone
  {
    var v := d[SendAfterKey];
    var sendAfter := ParseSendAfter(v).value;
    ConstructedFields(d, sendAfter, n);
    if sendAfter.Some? {
      IsoCanonical(v.s, sendAfter.value);
    }
  }

  /**
   * The other direction: a dictionary that decodes re-encodes to itself, except
   * that a falsy `send_after` other than `None` comes back as `None`.
   */
  lemma {:induction false} EncodeAfterDecode(d: map<string, Value>, n: Notification)
    requires Decode(d) == Ok(n)
    ensures Encoded(n) == d[SendAfterKey := if Truthy(d[SendAfterKey]) then d[SendAfterKey] else PyNone]
  {
    DecodedSendAfter(d, n);
    var sendAfter := ParseSendAfter(d[SendAfterKey]).value;
    ConstructedFields(d, sendAfter, n);
    var e, expected := Encoded(n), d[SendAfterKey := if Truthy(d[SendAfterKey]) then d[SendAfterKey] else PyNone];
    assert e.Keys == expected.Keys;
    forall f | f in e ensures e[f] == expected[f] {
    }
  }

  /** Distinct notifications have distinct encodings. */
  lemma EncodedInjective(n1: Notification, n2: Notification)
    requires Encoded(n1) == Encoded(n2)
    ensures n1 == n2
  {
    RoundTrip(n1);
    RoundTrip(n2);
  }

  /**
   * Because decoding overwrites `send_after` in place, decoding the same
   * dictionary a second time raises a `TypeError` as soon as the first pass
   * stored a datetime there; with no `send_after` it decodes again to the same
   * notification.
   */
  lemma DecodeTwice(d: map<string, Value>, n: Notification)
    requires Decode(d) == Ok(n)
    ensures n.sendAfter.Some? ==> Decode(AfterDecode(d)) == Err(NotAString(PyDateTime(n.sendAfter.value)))
    ensures n.sendAfter.None? ==> Decode(AfterDecode(d)) == Ok(n)
  {
  }
}
