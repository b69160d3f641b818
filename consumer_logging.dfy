// The consumer application's logrus adapter: an entry that accumulates fields, and log calls that
// add the call's own key/value arguments on top.
module ConsumerLogging {
  import opened LogFields

  /** LogrusAdapter: the base logger, identified by a number, and the fields of its entry. */
  datatype Adapter = Adapter(logger: nat, fields: map<string, Value>)

  /** NewLogrusAdapter: an entry of the logger with no fields. */
  function NewAdapter(logger: nat): (a: Adapter)
    ensures a.logger == logger && a.fields == map[]
  {
    Adapter(logger, map[])
  }

  /** WithField: a new adapter over the same logger whose entry also carries key = value. */
  function WithField(a: Adapter, key: string, value: Value): (r: Adapter)
    ensures r.logger == a.logger
    ensures key in r.fields && r.fields[key] == value
    ensures forall k :: k != key ==> (k in r.fields <==> k in a.fields)
    ensures forall k :: k in a.fields && k != key ==> r.fields[k] == a.fields[k]
  {
    Adapter(a.logger, a.fields[key := value])
  }

  /** WithFields: a new adapter whose entry carries the union, the given fields taking precedence. */
  function WithFields(a: Adapter, fs: map<string, Value>): (r: Adapter)
    ensures r.logger == a.logger
    ensures forall k :: k in r.fields <==> k in a.fields || k in fs
    ensures forall k :: k in fs ==> r.fields[k] == fs[k]
    ensures forall k :: k in a.fields && k !in fs ==> r.fields[k] == a.fields[k]
  {
    Adapter(a.logger, a.fields + fs)
  }

  /**
   * Debug, Info, Warn and Error: the line logged for a call with key/value arguments `args`. The
   * arguments' fields are laid over the entry's.
   */
  function Emitted(a: Adapter, level: Level, msg: string, args: seq<Value>): (r: Record)
    ensures r.level == level && r.msg == msg
    ensures forall k :: k in r.fields <==> k in a.fields || k in Parsed(args)
    ensures forall k :: k in Parsed(args) ==> r.fields[k] == Parsed(args)[k]
    ensures forall k :: k in a.fields && k !in Parsed(args) ==> r.fields[k] == a.fields[k]
  {
    Record(level, msg, a.fields + Parsed(args))
  }

  /** A field added with WithField shows up on every later line that does not pass the same key. */
  lemma WithFieldIsLogged(a: Adapter, key: string, value: Value, level: Level, msg: string, args: seq<Value>)
    requires key !in Parsed(args)
    ensures key in Emitted(WithField(a, key, value), level, msg, args).fields
    ensures Emitted(WithField(a, key, value), level, msg, args).fields[key] == value
  {
  }
}
