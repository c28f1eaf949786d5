/**
 * The collaborators the classification stage talks to: the job configuration
 * (a string-to-string map with typed getters), the Behemoth document, the
 * output collector and the counter reporter of the map-reduce framework.
 * Only the parts the stage uses are modelled.
 */
module Framework {
  import opened Wrappers

  /** A job configuration: property name to property value. */
  type JobConf = map<string, string>

  /** `JobConf.get(name, default)`: the configured value, or the default when unset. */
  function Get(conf: JobConf, name: string, default: string): (v: string)
    ensures name in conf ==> v == conf[name]
    ensures name !in conf ==> v == default
  {
    if name in conf then conf[name] else default
  }

  /** `JobConf.get(name)`: the configured value, or null when unset. */
  function GetOrNull(conf: JobConf, name: string): (v: Option<string>)
    ensures v.Some? <==> name in conf
    ensures v.Some? ==> v.value == conf[name]
  {
    if name in conf then Some(conf[name]) else None
  }

  /**
   * `JobConf.getBoolean(name, default)`: exactly "true" reads as true,
   * exactly "false" as false; an unset or any other value gives the default.
   */
  function GetBoolean(conf: JobConf, name: string, default: bool): (b: bool)
    ensures name in conf && conf[name] == "true" ==> b
    ensures name in conf && conf[name] == "false" ==> !b
    ensures name !in conf ==> b == default
    ensures name in conf && conf[name] != "true" && conf[name] != "false" ==> b == default
  {
    var v := GetOrNull(conf, name);
    if v == Some("true") then true
    else if v == Some("false") then false
    else default
  }

  /** The state of a document as seen by anyone reading it: its text and metadata. */
  datatype DocValue = DocValue(text: Option<string>, metadata: map<string, string>)

  /** One (key, document) record as written out by the collector. */
  datatype Record = Record(key: string, doc: DocValue)

  /**
   * A Behemoth document. Only the text and the metadata are modelled; a
   * metadata map that was never created is the same here as an empty one.
   */
  class BehemothDocument {
    var text: Option<string>
    var metadata: map<string, string>

    constructor (text: Option<string>, metadata: map<string, string>)
      ensures this.text == text && this.metadata == metadata
    {
      this.text := text;
      this.metadata := metadata;
    }

    /** The document's current value. */
    function Value(): DocValue
      reads this
    {
      DocValue(text, metadata)
    }

    /** `getMetadata(true).put(name, value)`: adds or overwrites one entry. */
    method PutMetadata(name: string, value: string)
      modifies this
      ensures text == old(text)
      ensures name in metadata && metadata[name] == value
      ensures forall k :: k != name ==> (k in metadata <==> k in old(metadata))
      ensures forall k :: k != name && k in old(metadata) ==> metadata[k] == old(metadata)[k]
    {
      metadata := metadata[name := value];
    }
  }

  /**
   * The map output collector. The framework serialises a record when it is
   * collected, so a record keeps the document's value at that moment.
   */
  class OutputCollector {
    var records: seq<Record>

    constructor ()
      ensures records == []
    {
      records := [];
    }

    /** `collect(key, doc)`: appends one record, the document as it is now. */
    method Collect(key: string, doc: BehemothDocument)
      modifies this
      ensures records == old(records) + [Record(key, doc.Value())]
    {
      records := records + [Record(key, doc.Value())];
    }
  }

  /** A counter is named by its group and its name. */
  type CounterKey = (string, string)

  /** The value of a counter; a counter never incremented reads as zero. */
  function Count(counters: map<CounterKey, int>, k: CounterKey): int
  {
    if k in counters then counters[k] else 0
  }

  /** The counters after adding `amount` to the counter `k`. */
  function Increment(counters: map<CounterKey, int>, k: CounterKey, amount: int): (c: map<CounterKey, int>)
    ensures Count(c, k) == Count(counters, k) + amount
    ensures forall j :: j != k ==> Count(c, j) == Count(counters, j)
    ensures c.Keys == counters.Keys + {k}
  {
    counters[k := Count(counters, k) + amount]
  }

  /** The task reporter: holds the job's counters. */
  class Reporter {
    var counters: map<CounterKey, int>

    constructor ()
      ensures counters == map[]
    {
      counters := map[];
    }

    /** `incrCounter(group, name, amount)`: creates the counter at zero if needed, then adds. */
    method IncrCounter(group: string, name: string, amount: int)
      modifies this
      ensures counters == Increment(old(counters), (group, name), amount)
    {
      counters := Increment(counters, (group, name), amount);
    }
  }
}
