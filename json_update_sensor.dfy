/** The sensor that waits for a key of a JSON file to change: each poke
    reads the file afresh and succeeds once the key's value differs from
    the value the sensor was configured with. */
module JsonUpdateSensor {
  import opened Values

  /** What a poke finds at the sensor's path: nothing, a file that cannot
      be read or parsed, or the decoded document. */
  datatype FileState = NoFile | Unreadable | Parsed(doc: Value)

  /** The sensor's configuration, fixed when it is built. */
  datatype Sensor = Sensor(filepath: string, key: string, expectedValue: Value)

  /** A poke succeeds, keeps waiting, or raises (reading `.get` on a
      document that is not an object). */
  datatype PokeResult = Done(changed: bool) | Raised(message: string)

  /** `poke`: False while the file is missing or unreadable; otherwise
      whether the key's current value (None when absent) differs from the
      expected value. */
  function Poke(s: Sensor, file: FileState): (r: PokeResult)
    ensures file.NoFile? || file.Unreadable? ==> r == Done(false)
    ensures file.Parsed? && !file.doc.VDict? ==> r.Raised?
    ensures file.Parsed? && file.doc.VDict? ==>
      r.Done? && (r.changed <==> Get(file.doc.entries, s.key) != s.expectedValue)
  {
    match file
    case NoFile => Done(false)
    case Unreadable => Done(false)
    case Parsed(doc) =>
      if doc.VDict? then Done(Get(doc.entries, s.key) != s.expectedValue)
      else Raised("AttributeError: object has no attribute 'get'")
  }

  /** A key the file does not hold reads as None: it counts as changed
      unless None is the expected value. */
  lemma MissingKeyCountsAsChanged(s: Sensor, entries: map<string, Value>)
    requires s.key !in entries
    ensures Poke(s, Parsed(VDict(entries))) == Done(s.expectedValue != VNone)
  {
  }

  /** The file holding the expected value keeps the sensor waiting, and
      any other value under the key ends the wait. */
  lemma WaitsExactlyWhileUnchanged(s: Sensor, entries: map<string, Value>, v: Value)
    ensures Poke(s, Parsed(VDict(entries[s.key := v]))) == Done(v != s.expectedValue)
  {
  }
}
