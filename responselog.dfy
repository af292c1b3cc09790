/**
 * The persisted list of LLM responses (main.py, `load_llm_responses` and
 * `save_llm_response`): a JSON file read as a list, defaulting to [], to
 * which each save appends one entry.
 */
module ResponseLog {
  import opened Wrappers
  import opened JsonValues

  /** state/llm_responses.json: absent, not parseable as JSON, or the document it holds. */
  datatype StoredJson = Missing | Unparseable | Parsed(doc: Value)

  datatype SaveError =
    | NotAList       // AttributeError: the loaded document has no `append`
    | NotSerializable  // TypeError from `json.dump`, raised after the file was opened for writing

  /** A value `json.dump` can write: nothing datetime-like anywhere in it. */
  predicate Dumpable(v: Value)
    decreases v
  {
    match v
    case Tuple(elems) => forall i :: 0 <= i < |elems| ==> Dumpable(elems[i])
    case List(elems) => forall i :: 0 <= i < |elems| ==> Dumpable(elems[i])
    case Dict(items) => forall i :: 0 <= i < |items| ==> Dumpable(items[i].1)
    case DateLike(_) => false
    case _ => true
  }

  /** A value JSON can hold as it is: no tuple and nothing datetime-like. */
  predicate Native(v: Value)
    decreases v
  {
    match v
    case Tuple(_) => false
    case List(elems) => forall i :: 0 <= i < |elems| ==> Native(elems[i])
    case Dict(items) => forall i :: 0 <= i < |items| ==> Native(items[i].1)
    case DateLike(_) => false
    case _ => true
  }

  /**
   * What `json.load` gives back for a dumpable value that `json.dump` wrote:
   * tuples come back as lists, everything else (NaN and infinities included,
   * which Python's json writes and reads) as it was.
   */
  function Persisted(v: Value): (r: Value)
    requires Dumpable(v)
    decreases v
    ensures Native(r)
  {
    match v
    case Tuple(elems) => List(seq(|elems|, i requires 0 <= i < |elems| => Persisted(elems[i])))
    case List(elems) => List(seq(|elems|, i requires 0 <= i < |elems| => Persisted(elems[i])))
    case Dict(items) => Dict(seq(|items|, i requires 0 <= i < |items| => (items[i].0, Persisted(items[i].1))))
    case _ => v
  }

  /** A value JSON holds as it is survives the round trip through the file. */
  lemma {:induction false} PersistedNative(v: Value)
    requires Native(v)
    ensures Dumpable(v) && Persisted(v) == v
    decreases v
  {
    match v
    case List(elems) =>
      forall i | 0 <= i < |elems| {
        PersistedNative(elems[i]);
      }
      assert Persisted(v).elems == elems;
    case Dict(items) =>
      forall i | 0 <= i < |items| {
        PersistedNative(items[i].1);
      }
      assert Persisted(v).items == items;
    case _ =>
  }

  /** `load_llm_responses`: the parsed document, or [] when the file is missing or unparseable. */
  function Load(file: StoredJson): (r: Value)
    ensures file.Parsed? ==> r == file.doc
    ensures !file.Parsed? ==> r == List([])
  {
    match file
    case Parsed(doc) => doc
    case _ => List([])
  }

  /** `save_llm_response(entry)`: the outcome and the file afterwards. */
  function Save(file: StoredJson, entry: Value): (r: (Result<(), SaveError>, StoredJson))
    ensures !Load(file).List? ==> r == (Err(NotAList), file)
    ensures Load(file).List? && !Dumpable(List(Load(file).elems + [entry])) ==> r == (Err(NotSerializable), Unparseable)
    ensures r.0.Ok? <==> Load(file).List? && Dumpable(List(Load(file).elems + [entry]))
    ensures r.0.Ok? ==> r.1 == Parsed(Persisted(List(Load(file).elems + [entry])))
  {
    match Load(file)
    case List(responses) =>
      var appended := List(responses + [entry]);
      if Dumpable(appended) then (Ok(()), Parsed(Persisted(appended)))
      else (Err(NotSerializable), Unparseable)
    case _ => (Err(NotAList), file)
  }

  /** A stored file whose document JSON can hold as it is, as every file `json.dump` wrote. */
  predicate NativeFile(file: StoredJson) {
    file.Parsed? ==> Native(file.doc)
  }

  /**
   * Appending: after a save of a dumpable entry, loading gives the list
   * loaded before with the entry (tuples as lists) at its end; from a missing
   * or unparseable file that is the one-element list.
   */
  lemma SaveThenLoad(file: StoredJson, entry: Value)
    requires NativeFile(file) && Load(file).List? && Dumpable(entry)
    ensures var (outcome, after) := Save(file, entry);
      && outcome.Ok?
      && Load(after) == List(Load(file).elems + [Persisted(entry)])
      && (!file.Parsed? ==> Load(after) == List([Persisted(entry)]))
  {
    var before := Load(file).elems;
    var appended := List(before + [entry]);
    forall i | 0 <= i < |before|
      ensures Native(before[i])
    {
      if file.Parsed? {
        assert before[i] in file.doc.elems;
      }
    }
    forall i | 0 <= i < |before + [entry]|
      ensures Dumpable((before + [entry])[i])
    {
      if i < |before| {
        PersistedNative(before[i]);
      }
    }
    var p := Persisted(appended);
    forall i | 0 <= i < |before|
      ensures p.elems[i] == before[i]
    {
      PersistedNative(before[i]);
    }
    assert p.elems == before + [Persisted(entry)];
  }

  /** The file the service writes to, as `save_llm_response` leaves it. */
  class ResponseFile {
    var stored: StoredJson

    constructor(existing: StoredJson)
      ensures stored == existing
    {
      stored := existing;
    }

    /** `save_llm_response`: loads the list, appends the entry, writes the list back. */
    method SaveLlmResponse(entry: Value) returns (outcome: Result<(), SaveError>)
      modifies this
      ensures (outcome, stored) == Save(old(stored), entry)
    {
      var responses := Load(stored);
      if !responses.List? {
        return Err(NotAList);
      }
      var appended := List(responses.elems + [entry]);
      if !Dumpable(appended) {
        stored := Unparseable;
        return Err(NotSerializable);
      }
      stored := Parsed(Persisted(appended));
      return Ok(());
    }
  }
}
