/**
 * JSONLayout: renders a logging event as one JSON object. `WriteBasic` and
 * `WriteThrowable` fill a `JsonObject` in place, as the layout's helpers do;
 * `FormatObject` is the object they build, and the lemmas below state its shape
 * and that `DecodeEvent` reads every rendered field back.
 */
module JsonLayout {
  import opened Wrappers
  import opened Events
  import opened Json

  // ---------------------------------------------------------------------------
  // The object the layout builds
  // ---------------------------------------------------------------------------

  /** The three puts made before the message, on top of whatever `m` holds. */
  function PutLeading(m: map<string, Json>, e: LoggingEvent): map<string, Json>
  {
    m["threadName" := JString(e.threadName)]["level" := JString(e.level.name)]["timestamp" := JNumber(e.timeStamp)]
  }

  /** The five basic puts, for an event whose message org.json accepts. */
  function PutBasic(m: map<string, Json>, e: LoggingEvent): map<string, Json>
    requires e.message.Text?
  {
    PutLeading(m, e)["message" := JString(e.message.text)]["logger" := JString(e.loggerName)]
  }

  /** The three keys written before the message. */
  function LeadingFields(e: LoggingEvent): map<string, Json>
  {
    PutLeading(map[], e)
  }

  /** The five basic keys. */
  function BasicFields(e: LoggingEvent): map<string, Json>
    requires e.message.Text?
  {
    PutBasic(map[], e)
  }

  function FrameObject(f: StackFrame): Json
  {
    JObject(map["class" := JString(f.className),
                "method" := JString(f.methodName),
                "line" := JNumber(f.lineNumber),
                "file" := JString(f.fileName)])
  }

  function FrameObjects(frames: seq<StackFrame>): seq<Json>
  {
    seq(|frames|, k requires 0 <= k < |frames| => FrameObject(frames[k]))
  }

  function ThrowableObject(t: ThrowableInfo): Json
  {
    JObject(map["message" := JString(t.message), "className" := JString(t.className)])
  }

  /** The puts `writeThrowable` makes: none without a throwable. */
  function PutThrowable(m: map<string, Json>, throwable: Option<ThrowableInfo>): map<string, Json>
  {
    match throwable
    case None => m
    case Some(t) => m["stackTrace" := JArray(FrameObjects(t.stackTrace))]["throwable" := ThrowableObject(t)]
  }

  /**
   * The top-level object `format` serialises. A message org.json refuses stops
   * `writeBasic` at the "message" key; the exception is swallowed and the object
   * built so far is what is returned.
   */
  function FormatObject(e: LoggingEvent): map<string, Json>
  {
    if e.message.Text? then PutThrowable(BasicFields(e), e.throwable) else LeadingFields(e)
  }

  // ---------------------------------------------------------------------------
  // The layout's operations
  // ---------------------------------------------------------------------------

  /** `ignoresThrowable`: this layout renders the throwable itself. */
  predicate IgnoresThrowable()
  {
    false
  }

  /**
   * `writeBasic`: the five basic keys in order. `ok` is false when the message
   * put raised `JSONException`; the keys put before it stay.
   */
  method WriteBasic(json: JsonObject, e: LoggingEvent) returns (ok: bool)
    modifies json
    ensures ok <==> e.message.Text?
    ensures ok ==> json.fields == PutBasic(old(json.fields), e)
    ensures !ok ==> json.fields == PutLeading(old(json.fields), e)
  {
    json.Put("threadName", JString(e.threadName));
    json.Put("level", JString(e.level.name));
    json.Put("timestamp", JNumber(e.timeStamp));
    if e.message.NonFiniteNumber? {
      return false;
    }
    json.Put("message", JString(e.message.text));
    json.Put("logger", JString(e.loggerName));
    ok := true;
  }

  /**
   * `writeThrowable`: with a throwable, a `throwable` object and, beside it at
   * the top level, a `stackTrace` list built frame by frame.
   */
  method WriteThrowable(json: JsonObject, e: LoggingEvent)
    modifies json
    ensures json.fields == PutThrowable(old(json.fields), e.throwable)
  {
    if e.throwable.Some? {
      var t := e.throwable.value;
      var throwable := new JsonObject();
      throwable.Put("message", JString(t.message));
      throwable.Put("className", JString(t.className));
      var traceObjects: seq<Json> := [];
      for i := 0 to |t.stackTrace|
        invariant json.fields == old(json.fields)
        invariant throwable.Value() == ThrowableObject(t)
        invariant |traceObjects| == i
        invariant forall k :: 0 <= k < i ==> traceObjects[k] == FrameObject(t.stackTrace[k])
      {
        var ste := t.stackTrace[i];
        var element := new JsonObject();
        element.Put("class", JString(ste.className));
        element.Put("method", JString(ste.methodName));
        element.Put("line", JNumber(ste.lineNumber));
        element.Put("file", JString(ste.fileName));
        traceObjects := traceObjects + [element.Value()];
      }
      assert traceObjects == FrameObjects(t.stackTrace);
      json.Put("stackTrace", JArray(traceObjects));
      json.Put("throwable", throwable.Value());
    }
  }

  /** `format`: never throws, and serialises exactly `FormatObject(e)`. */
  method Format(e: LoggingEvent, ser: Json -> string) returns (s: string)
    ensures s == ser(JObject(FormatObject(e)))
  {
    var root := new JsonObject();
    var ok := WriteBasic(root, e);
    if ok {
      WriteThrowable(root, e);
    }
    s := ser(root.Value());
  }

  // ---------------------------------------------------------------------------
  // Shape of the output
  // ---------------------------------------------------------------------------

  const BasicKeys: set<string> := {"threadName", "level", "timestamp", "message", "logger"}

  /** The five basic keys always carry the event's fields. */
  lemma BasicKeysFromEvent(e: LoggingEvent)
    requires e.message.Text?
    ensures BasicKeys <= FormatObject(e).Keys
    ensures FormatObject(e)["threadName"] == JString(e.threadName)
    ensures FormatObject(e)["level"] == JString(e.level.name)
    ensures FormatObject(e)["timestamp"] == JNumber(e.timeStamp)
    ensures FormatObject(e)["message"] == JString(e.message.text)
    ensures FormatObject(e)["logger"] == JString(e.loggerName)
  {
  }

  /** Without throwable information, no `throwable` or `stackTrace` key: the five basic keys only. */
  lemma NoThrowableNoExtraKeys(e: LoggingEvent)
    requires e.message.Text? && e.throwable.None?
    ensures FormatObject(e).Keys == BasicKeys
    ensures "throwable" !in FormatObject(e) && "stackTrace" !in FormatObject(e)
  {
  }

  /**
   * With a throwable: the `throwable` object holds exactly `message` and
   * `className`, and `stackTrace` sits beside it at the top level, one element
   * per frame in frame order, each with the four frame keys.
   */
  lemma ThrowableShape(e: LoggingEvent)
    requires e.message.Text? && e.throwable.Some?
    ensures var m := FormatObject(e); var t := e.throwable.value;
      && m.Keys == BasicKeys + {"throwable", "stackTrace"}
      && m["throwable"].JObject?
      && m["throwable"].fields.Keys == {"message", "className"}
      && m["throwable"].fields["message"] == JString(t.message)
      && m["throwable"].fields["className"] == JString(t.className)
      && "stackTrace" !in m["throwable"].fields
      && m["stackTrace"].JArray?
      && |m["stackTrace"].items| == |t.stackTrace|
      && forall k :: 0 <= k < |t.stackTrace| ==>
           && m["stackTrace"].items[k] == FrameObject(t.stackTrace[k])
           && m["stackTrace"].items[k].fields.Keys == {"class", "method", "line", "file"}
  {
  }

  /** A refused message: `format` still returns, with the keys put before the failure. */
  lemma RefusedMessageKeepsPrefix(e: LoggingEvent)
    requires e.message.NonFiniteNumber?
    ensures FormatObject(e).Keys == {"threadName", "level", "timestamp"}
  {
  }

  /**
   * `IgnoresThrowable()` is false, so log4j leaves the throwable to the layout:
   * once the message is accepted, the output carries `throwable` and
   * `stackTrace` exactly when the event has throwable information.
   */
  lemma ThrowableRenderedIffPresent(e: LoggingEvent)
    requires e.message.Text?
    ensures !IgnoresThrowable()
    ensures "throwable" in FormatObject(e) <==> e.throwable.Some?
    ensures "stackTrace" in FormatObject(e) <==> e.throwable.Some?
  {
  }

  // ---------------------------------------------------------------------------
  // Reading the object back
  // ---------------------------------------------------------------------------

  /** What the rendered object preserves of an event (the level's priority is not rendered). */
  datatype Rendering = Rendering(
    threadName: string,
    level: string,
    timeStamp: int,
    message: string,
    loggerName: string,
    throwable: Option<ThrowableInfo>)

  function RenderingOf(e: LoggingEvent): Rendering
    requires e.message.Text?
  {
    Rendering(e.threadName, e.level.name, e.timeStamp, e.message.text, e.loggerName, e.throwable)
  }

  function StringAt(m: map<string, Json>, key: string): Option<string>
  {
    if key in m && m[key].JString? then Some(m[key].text) else None
  }

  function NumberAt(m: map<string, Json>, key: string): Option<int>
  {
    if key in m && m[key].JNumber? then Some(m[key].number) else None
  }

  function DecodeFrame(j: Json): Option<StackFrame>
  {
    if !j.JObject? then None
    else
      var c := StringAt(j.fields, "class");
      var m := StringAt(j.fields, "method");
      var l := NumberAt(j.fields, "line");
      var f := StringAt(j.fields, "file");
      if c.Some? && m.Some? && l.Some? && f.Some? then Some(StackFrame(c.value, m.value, l.value, f.value))
      else None
  }

  function DecodeFrames(items: seq<Json>): Option<seq<StackFrame>>
    decreases |items|
  {
    if items == [] then Some([])
    else
      var head := DecodeFrame(items[0]);
      var tail := DecodeFrames(items[1..]);
      if head.Some? && tail.Some? then Some([head.value] + tail.value) else None
  }

  function DecodeThrowable(m: map<string, Json>): Option<Option<ThrowableInfo>>
  {
    if "throwable" !in m && "stackTrace" !in m then Some(None)
    else if "throwable" in m && m["throwable"].JObject? && "stackTrace" in m && m["stackTrace"].JArray? then
      var msg := StringAt(m["throwable"].fields, "message");
      var cls := StringAt(m["throwable"].fields, "className");
      var frames := DecodeFrames(m["stackTrace"].items);
      if msg.Some? && cls.Some? && frames.Some? then Some(Some(ThrowableInfo(msg.value, cls.value, frames.value)))
      else None
    else None
  }

  /** Reads a rendered event back from the layout's top-level object. */
  function DecodeEvent(j: Json): Option<Rendering>
  {
    if !j.JObject? then None
    else
      var m := j.fields;
      var thread := StringAt(m, "threadName");
      var level := StringAt(m, "level");
      var time := NumberAt(m, "timestamp");
      var message := StringAt(m, "message");
      var logger := StringAt(m, "logger");
      var throwable := DecodeThrowable(m);
      if thread.Some? && level.Some? && time.Some? && message.Some? && logger.Some? && throwable.Some? then
        Some(Rendering(thread.value, level.value, time.value, message.value, logger.value, throwable.value))
      else None
  }

  lemma {:induction false} DecodeFramesInvertsFrameObjects(frames: seq<StackFrame>)
    ensures DecodeFrames(FrameObjects(frames)) == Some(frames)
  {
    if frames != [] {
      assert FrameObjects(frames)[1..] == FrameObjects(frames[1..]);
      DecodeFramesInvertsFrameObjects(frames[1..]);
      assert [frames[0]] + frames[1..] == frames;
    }
  }

  /** The throwable part reads back: none without a throwable, and the same throwable with one. */
  lemma DecodeThrowableOfFormat(e: LoggingEvent)
    requires e.message.Text?
    ensures DecodeThrowable(FormatObject(e)) == Some(e.throwable)
  {
    var m := FormatObject(e);
    if e.throwable.Some? {
      var t := e.throwable.value;
      DecodeFramesInvertsFrameObjects(t.stackTrace);
      assert m["throwable"] == ThrowableObject(t);
      assert m["stackTrace"] == JArray(FrameObjects(t.stackTrace));
    } else {
      assert m == BasicFields(e);
    }
  }

  /** Every field the layout writes can be read back: the rendering loses nothing but the level's priority. */
  lemma DecodeInvertsFormat(e: LoggingEvent)
    requires e.message.Text?
    ensures DecodeEvent(JObject(FormatObject(e))) == Some(RenderingOf(e))
  {
    var m := FormatObject(e);
    DecodeThrowableOfFormat(e);
    BasicKeysFromEvent(e);
    assert StringAt(m, "threadName") == Some(e.threadName);
    assert StringAt(m, "level") == Some(e.level.name);
    assert NumberAt(m, "timestamp") == Some(e.timeStamp);
    assert StringAt(m, "message") == Some(e.message.text);
    assert StringAt(m, "logger") == Some(e.loggerName);
  }
}
