/**
 * ElasticSearchJSONLayout: one entry of the Elasticsearch bulk format, an action
 * line naming the index and mapping type, then a source line holding the same
 * object JSONLayout builds, wrapped under the mapping type.
 */
module ElasticSearchLayout {
  import opened Events
  import opened Json
  import JavaText
  import JsonLayout

  const DefaultIndex := "json-index"
  const DefaultType := "json"

  /** `{"index": {"_index": index, "_type": type}}`. */
  function BulkAction(index: string, typeName: string): Json
  {
    JObject(map["index" := JObject(map["_index" := JString(index), "_type" := JString(typeName)])])
  }

  /**
   * The source object: the parent layout's fields under the single key `typeName`.
   * When `writeBasic` fails the wrapping put is skipped and the source stays empty.
   */
  function BulkSource(typeName: string, e: LoggingEvent): Json
  {
    if e.message.Text? then JObject(map[typeName := JObject(JsonLayout.FormatObject(e))]) else JObject(map[])
  }

  /** What `format` returns: the two serialised objects, each followed by a newline. */
  function BulkEntry(index: string, typeName: string, e: LoggingEvent, ser: Json -> string): string
  {
    ser(BulkAction(index, typeName)) + "\n" + ser(BulkSource(typeName, e)) + "\n"
  }

  class ElasticSearchJsonLayout {
    var index: string
    var typeName: string

    constructor ()
      ensures index == DefaultIndex && typeName == DefaultType
    {
      index := DefaultIndex;
      typeName := DefaultType;
    }

    method SetIndex(index': string)
      modifies this`index
      ensures index == index' && typeName == old(typeName)
    {
      index := index';
    }

    method SetType(typeName': string)
      modifies this`typeName
      ensures typeName == typeName' && index == old(index)
    {
      typeName := typeName';
    }

    /** `ignoresThrowable`: the throwable is rendered, as in the parent layout. */
    predicate IgnoresThrowable()
    {
      false
    }

    /** The action object of `format`, built from the current index and type. */
    method ActionObject() returns (action: JsonObject)
      ensures fresh(action) && action.Value() == BulkAction(index, typeName)
    {
      action := new JsonObject();
      var actionContent := new JsonObject();
      actionContent.Put("_index", JString(index));
      actionContent.Put("_type", JString(typeName));
      action.Put("index", actionContent.Value());
    }

    /** The source object of `format`: the parent layout's fields under the type, unless `writeBasic` threw. */
    method SourceObject(e: LoggingEvent) returns (source: JsonObject)
      ensures fresh(source) && source.Value() == BulkSource(typeName, e)
    {
      source := new JsonObject();
      var sourceContent := new JsonObject();
      var ok := JsonLayout.WriteBasic(sourceContent, e);
      if ok {
        JsonLayout.WriteThrowable(sourceContent, e);
        assert sourceContent.fields == JsonLayout.FormatObject(e);
        source.Put(typeName, sourceContent.Value());
      }
    }

    /** `format`: fills the action and source objects by successive puts and joins them. */
    method Format(e: LoggingEvent, ser: Json -> string) returns (s: string)
      ensures s == BulkEntry(index, typeName, e, ser)
    {
      var action := ActionObject();
      var source := SourceObject(e);
      var sb := "";
      sb := sb + ser(action.Value());
      sb := sb + "\n";
      sb := sb + ser(source.Value());
      sb := sb + "\n";
      s := sb;
    }
  }

  // ---------------------------------------------------------------------------
  // Shape of the output
  // ---------------------------------------------------------------------------

  /** The newline-terminated lines of a text; a final line without newline counts too. */
  function Lines(s: string): seq<string>
    decreases |s|
  {
    if s == [] then []
    else if '\n' in s then
      var i := JavaText.IndexOf(s, '\n');
      [s[..i]] + Lines(s[i + 1..])
    else [s]
  }

  lemma LinesOfLine(line: string, rest: string)
    requires '\n' !in line
    ensures Lines(line + "\n" + rest) == [line] + Lines(rest)
  {
    var s := line + "\n" + rest;
    assert s[|line|] == '\n';
    var i := JavaText.IndexOf(s, '\n');
    assert i == |line|;
    assert s[..i] == line;
    assert s[i + 1..] == rest;
  }

  /**
   * The entry is exactly two lines, the serialised action and the serialised
   * source, and it ends with a newline, provided the serialiser does not emit
   * newlines itself.
   */
  lemma BulkEntryIsTwoLines(index: string, typeName: string, e: LoggingEvent, ser: Json -> string)
    requires '\n' !in ser(BulkAction(index, typeName))
    requires '\n' !in ser(BulkSource(typeName, e))
    ensures Lines(BulkEntry(index, typeName, e, ser)) == [ser(BulkAction(index, typeName)), ser(BulkSource(typeName, e))]
    ensures var s := BulkEntry(index, typeName, e, ser); |s| > 0 && s[|s| - 1] == '\n'
  {
    TwoLines(ser(BulkAction(index, typeName)), ser(BulkSource(typeName, e)));
  }

  lemma TwoLines(a: string, b: string)
    requires '\n' !in a && '\n' !in b
    ensures Lines(a + "\n" + b + "\n") == [a, b]
  {
    var tail := b + "\n";
    assert tail == b + "\n" + "";
    LinesOfLine(b, "");
    assert Lines(tail) == [b];
    LinesOfLine(a, tail);
    assert a + "\n" + b + "\n" == a + "\n" + tail;
  }

  /** The action names the configured index and type, and nothing else. */
  lemma ActionShape(index: string, typeName: string)
    ensures BulkAction(index, typeName).fields.Keys == {"index"}
    ensures BulkAction(index, typeName).fields["index"].fields.Keys == {"_index", "_type"}
    ensures BulkAction(index, typeName).fields["index"].fields["_index"] == JString(index)
    ensures BulkAction(index, typeName).fields["index"].fields["_type"] == JString(typeName)
  {
  }

  /** The source has the one key `typeName`, holding exactly what JSONLayout writes. */
  lemma SourceWrapsParentFields(typeName: string, e: LoggingEvent)
    requires e.message.Text?
    ensures BulkSource(typeName, e).fields.Keys == {typeName}
    ensures BulkSource(typeName, e).fields[typeName] == JObject(JsonLayout.FormatObject(e))
  {
  }

  /**
   * The layout does not ignore throwables either: once the message is accepted,
   * the object under the type carries `throwable` and `stackTrace` exactly when
   * the event has throwable information.
   */
  lemma SourceRendersThrowableIffPresent(layout: ElasticSearchJsonLayout, e: LoggingEvent)
    requires e.message.Text?
    ensures !layout.IgnoresThrowable()
    ensures var inner := BulkSource(layout.typeName, e).fields[layout.typeName].fields;
      && ("throwable" in inner <==> e.throwable.Some?)
      && ("stackTrace" in inner <==> e.throwable.Some?)
  {
    JsonLayout.ThrowableRenderedIffPresent(e);
  }

  /** When the message put fails, the action line is still complete and the source is empty. */
  lemma RefusedMessageEmptySource(index: string, typeName: string, e: LoggingEvent)
    requires e.message.NonFiniteNumber?
    ensures BulkSource(typeName, e) == JObject(map[])
  {
  }
}
