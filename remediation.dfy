/**
 * The remediation history (agents/remediator.py): a JSON list in
 * state/remediation_history.json to which suggestions are appended, and to
 * which a status change appends a modified copy of the entry it concerns.
 * The LLM that writes the suggestion is not modelled: its text is a parameter.
 */
module Remediation {
  import opened Wrappers
  import opened JsonValues
  import opened ResponseLog

  datatype RemediationError =
    | FileNotFound          // the history file does not exist
    | InvalidJson           // json.load raises
    | NoAppend              // the document is not a list
    | Unwritable            // json.dump raises after the file was opened for writing
    | MissingKey(key: string)  // KeyError
    | NotSubscriptable      // TypeError: indexing a value that is not a dict by a string
    | NotIterable           // TypeError: iterating a number, a boolean or None
    | NoGet                 // AttributeError: `.get` on a value that is not a dict
    | NotAwaitable          // TypeError: `await` on the string the LLM client returns

  /** `d.get(key)` on a dict's items: the value of the key, if present. */
  function Lookup(items: seq<(string, Value)>, key: string): (r: Option<Value>)
    ensures r.None? <==> forall i :: 0 <= i < |items| ==> items[i].0 != key
    ensures r.Some? ==> exists i :: 0 <= i < |items| && items[i] == (key, r.value)
  {
    if items == [] then None
    else if items[0].0 == key then Some(items[0].1)
    else
      var rest := Lookup(items[1..], key);
      assert forall i :: 0 < i < |items| ==> items[1..][i - 1] == items[i];
      rest
  }

  /** `_initialize_history`: only a missing file is created, holding []. */
  function InitializeHistory(file: StoredJson): (r: StoredJson)
    ensures file.Missing? ==> r == Parsed(List([]))
    ensures !file.Missing? ==> r == file
  {
    if file.Missing? then Parsed(List([])) else file
  }

  /** `get_history`: the document the file holds. */
  function GetHistory(file: StoredJson): (r: Result<Value, RemediationError>)
    ensures r.Ok? <==> file.Parsed?
    ensures r.Ok? ==> r.value == file.doc
  {
    match file
    case Missing => Err(FileNotFound)
    case Unparseable => Err(InvalidJson)
    case Parsed(doc) => Ok(doc)
  }

  /** `_save_to_history(entry)`: the outcome and the file afterwards. */
  function SaveToHistory(file: StoredJson, entry: Value): (r: (Result<(), RemediationError>, StoredJson))
    ensures r.0.Ok? <==> file.Parsed? && file.doc.List? && Dumpable(List(file.doc.elems + [entry]))
    ensures r.0.Ok? ==> r.1 == Parsed(Persisted(List(file.doc.elems + [entry])))
    ensures r.0.Err? && r.0.error != Unwritable ==> r.1 == file
    ensures r.0 == Err(Unwritable) ==> r.1 == Unparseable
  {
    match GetHistory(file)
    case Err(e) => (Err(e), file)
    case Ok(doc) =>
      if !doc.List? then (Err(NoAppend), file)
      else
        var appended := List(doc.elems + [entry]);
        if Dumpable(appended) then (Ok(()), Parsed(Persisted(appended)))
        else (Err(Unwritable), Unparseable)
  }

  /** A dumpable entry saved to a history written by `json.dump` lands at the end, earlier entries as they were. */
  lemma SaveAppendsOne(file: StoredJson, entry: Value)
    requires file.Parsed? && file.doc.List? && Native(file.doc) && Dumpable(entry)
    ensures var (outcome, after) := SaveToHistory(file, entry);
      && outcome.Ok? && after.Parsed? && after.doc.List?
      && after.doc.elems == file.doc.elems + [Persisted(entry)]
  {
    var before := file.doc.elems;
    forall i | 0 <= i < |before|
      ensures Native(before[i])
    {
      assert before[i] in file.doc.elems;
    }
    forall i | 0 <= i < |before + [entry]|
      ensures Dumpable((before + [entry])[i])
    {
      if i < |before| {
        PersistedNative(before[i]);
      }
    }
    var p := Persisted(List(before + [entry]));
    forall i | 0 <= i < |before|
      ensures p.elems[i] == before[i]
    {
      PersistedNative(before[i]);
    }
    assert p.elems == before + [Persisted(entry)];
  }

  /** The record `suggest_remediation` builds. */
  function Suggestion(anomaly: seq<(string, Value)>, suggestion: string): Value {
    Dict([("anomaly", Dict(anomaly)), ("suggested_action", Str(suggestion)), ("status", Str("pending"))])
  }

  /** The anomaly has the three keys the prompt reads. */
  predicate HasPromptKeys(anomaly: seq<(string, Value)>) {
    Lookup(anomaly, "service").Some? && Lookup(anomaly, "level").Some? && Lookup(anomaly, "message").Some?
  }

  /**
   * `suggest_remediation` as written: after reading the three keys it awaits
   * the string the synchronous LLM client returns, which raises TypeError, so
   * nothing is ever recorded.
   */
  function SuggestRemediationAsWritten(file: StoredJson, anomaly: seq<(string, Value)>)
    : (r: (Result<Value, RemediationError>, StoredJson))
    ensures r.0.Err? && r.1 == file
    ensures Lookup(anomaly, "service").None? ==> r.0 == Err(MissingKey("service"))
    ensures Lookup(anomaly, "service").Some? && Lookup(anomaly, "level").None? ==> r.0 == Err(MissingKey("level"))
    ensures Lookup(anomaly, "service").Some? && Lookup(anomaly, "level").Some? && Lookup(anomaly, "message").None? ==>
      r.0 == Err(MissingKey("message"))
    ensures HasPromptKeys(anomaly) ==> r.0 == Err(NotAwaitable)
  {
    if Lookup(anomaly, "service").None? then (Err(MissingKey("service")), file)
    else if Lookup(anomaly, "level").None? then (Err(MissingKey("level")), file)
    else if Lookup(anomaly, "message").None? then (Err(MissingKey("message")), file)
    else (Err(NotAwaitable), file)
  }

  /**
   * `suggest_remediation` with an awaitable client: the anomaly must have a
   * service, a level and a message (the prompt reads them, in that order);
   * the record, pending, is appended to the history and returned.
   */
  function SuggestRemediation(file: StoredJson, anomaly: seq<(string, Value)>, suggestion: string)
    : (r: (Result<Value, RemediationError>, StoredJson))
    ensures Lookup(anomaly, "service").None? ==> r == (Err(MissingKey("service")), file)
    ensures Lookup(anomaly, "service").Some? && Lookup(anomaly, "level").None? ==>
      r == (Err(MissingKey("level")), file)
    ensures Lookup(anomaly, "service").Some? && Lookup(anomaly, "level").Some? && Lookup(anomaly, "message").None? ==>
      r == (Err(MissingKey("message")), file)
    ensures HasPromptKeys(anomaly) ==>
      var (saved, after) := SaveToHistory(file, Suggestion(anomaly, suggestion));
      && r.1 == after
      && (r.0.Ok? <==> saved.Ok?)
      && (saved.Err? ==> r.0 == Err(saved.error))
    ensures r.0.Ok? ==>
      && r.0.value == Suggestion(anomaly, suggestion)
      && SaveToHistory(file, Suggestion(anomaly, suggestion)) == (Ok(()), r.1)
  {
    if Lookup(anomaly, "service").None? then (Err(MissingKey("service")), file)
    else if Lookup(anomaly, "level").None? then (Err(MissingKey("level")), file)
    else if Lookup(anomaly, "message").None? then (Err(MissingKey("message")), file)
    else
      var remediation := Suggestion(anomaly, suggestion);
      match SaveToHistory(file, remediation)
      case (Err(e), after) => (Err(e), after)
      case (Ok(_), after) => (Ok(remediation), after)
  }

  /**
   * On a history written by `json.dump`, a suggestion for an anomaly that has
   * the prompt's keys and holds nothing datetime-like is returned and recorded:
   * the list grows by exactly that record, pending, at its end.
   */
  lemma SuggestAppends(file: StoredJson, anomaly: seq<(string, Value)>, suggestion: string)
    requires file.Parsed? && file.doc.List? && Native(file.doc)
    requires HasPromptKeys(anomaly) && Dumpable(Dict(anomaly))
    ensures var (outcome, after) := SuggestRemediation(file, anomaly, suggestion);
      && outcome == Ok(Suggestion(anomaly, suggestion))
      && after.Parsed? && after.doc.List?
      && after.doc.elems == file.doc.elems + [Persisted(Suggestion(anomaly, suggestion))]
      && Lookup(after.doc.elems[|file.doc.elems|].items, "status") == Some(Str("pending"))
  {
    var record := Suggestion(anomaly, suggestion);
    assert Dumpable(record);
    SaveAppendsOne(file, record);
    assert Persisted(record).items[2] == ("status", Str("pending"));
  }

  /** Where the intended service records a suggestion, the code as written records nothing. */
  lemma SuggestionNeverRecorded(file: StoredJson, anomaly: seq<(string, Value)>, suggestion: string)
    requires file.Parsed? && file.doc.List? && Native(file.doc)
    requires HasPromptKeys(anomaly) && Dumpable(Dict(anomaly))
    ensures SuggestRemediation(file, anomaly, suggestion).0.Ok?
    ensures SuggestRemediationAsWritten(file, anomaly) == (Err(NotAwaitable), file)
  {
    SuggestAppends(file, anomaly, suggestion);
  }

  /** `item["anomaly"].get("timestamp") == anomaly_timestamp` for one history entry, or the error it raises. */
  function EntryMatches(item: Value, ts: string): (r: Result<bool, RemediationError>)
    ensures r == Ok(true) <==>
      && item.Dict? && Lookup(item.items, "anomaly").Some?
      && Lookup(item.items, "anomaly").value.Dict?
      && Lookup(Lookup(item.items, "anomaly").value.items, "timestamp") == Some(Str(ts))
    ensures r.Ok? <==>
      item.Dict? && Lookup(item.items, "anomaly").Some? && Lookup(item.items, "anomaly").value.Dict?
    ensures !item.Dict? ==> r == Err(NotSubscriptable)
    ensures item.Dict? && Lookup(item.items, "anomaly").None? ==> r == Err(MissingKey("anomaly"))
    ensures item.Dict? && Lookup(item.items, "anomaly").Some? && !Lookup(item.items, "anomaly").value.Dict? ==>
      r == Err(NoGet)
  {
    if !item.Dict? then Err(NotSubscriptable)
    else match Lookup(item.items, "anomaly")
      case None => Err(MissingKey("anomaly"))
      case Some(a) =>
        if !a.Dict? then Err(NoGet)
        else Ok(Lookup(a.items, "timestamp") == Some(Str(ts)))
  }

  /** Entry `p` is the first from `i` on that does not compare false, and it raises `e`. */
  predicate RaisesFirstAt(entries: seq<Value>, ts: string, i: nat, p: nat, e: RemediationError) {
    && i <= p < |entries| && EntryMatches(entries[p], ts) == Err(e)
    && forall j :: i <= j < p ==> EntryMatches(entries[j], ts) == Ok(false)
  }

  /** The loop from entry `i` on: the first matching position, or the error an entry raises first. */
  function FirstMatchFrom(entries: seq<Value>, ts: string, i: nat): (r: Result<Option<nat>, RemediationError>)
    requires i <= |entries|
    decreases |entries| - i
    ensures r.Ok? && r.value.Some? ==>
      && i <= r.value.value < |entries| && EntryMatches(entries[r.value.value], ts) == Ok(true)
      && forall j :: i <= j < r.value.value ==> EntryMatches(entries[j], ts) == Ok(false)
    ensures r == Ok(None) <==> forall j :: i <= j < |entries| ==> EntryMatches(entries[j], ts) == Ok(false)
    ensures r.Err? ==> exists p :: RaisesFirstAt(entries, ts, i, p, r.error)
  {
    if i == |entries| then Ok(None)
    else match EntryMatches(entries[i], ts)
      case Err(e) =>
        assert RaisesFirstAt(entries, ts, i, i, e);
        Err(e)
      case Ok(true) => Ok(Some(i))
      case Ok(false) =>
        var rest := FirstMatchFrom(entries, ts, i + 1);
        assert rest.Err? ==> exists p :: RaisesFirstAt(entries, ts, i, p, rest.error) by {
          if rest.Err? {
            var p :| RaisesFirstAt(entries, ts, i + 1, p, rest.error);
            assert RaisesFirstAt(entries, ts, i, p, rest.error);
          }
        }
        rest
  }

  /** `item["status"] = status`: the key is overwritten where it stands, or added at the end. */
  function WithStatus(items: seq<(string, Value)>, status: string): (r: seq<(string, Value)>)
    ensures Lookup(r, "status") == Some(Str(status))
    ensures forall k :: k != "status" ==> Lookup(r, k) == Lookup(items, k)
  {
    if items == [] then [("status", Str(status))]
    else if items[0].0 == "status" then [("status", Str(status))] + items[1..]
    else
      var rest := WithStatus(items[1..], status);
      assert ([items[0]] + rest)[1..] == rest;
      [items[0]] + rest
  }

  /**
   * `mark_remediation_status(ts, status)`: iterating the history raises on a
   * document that is not a list (except an empty dict or string, which iterate
   * nothing); on a list, the first entry whose anomaly has timestamp `ts` is
   * copied with the new status and saved, and nothing changes without a match.
   */
  function MarkStatus(file: StoredJson, ts: string, status: string): (r: (Result<(), RemediationError>, StoredJson))
    ensures !file.Parsed? ==> r.1 == file && r.0.Err?
    ensures file.Parsed? && !file.doc.List? ==> r.1 == file
    ensures file.Parsed? && file.doc.List? && FirstMatchFrom(file.doc.elems, ts, 0) == Ok(None) ==> r == (Ok(()), file)
    ensures file.Parsed? && file.doc.List? && FirstMatchFrom(file.doc.elems, ts, 0).Err? ==>
      r == (Err(FirstMatchFrom(file.doc.elems, ts, 0).error), file)
    ensures (file.Parsed? && file.doc.List? && FirstMatchFrom(file.doc.elems, ts, 0).Ok?
             && FirstMatchFrom(file.doc.elems, ts, 0).value.Some?) ==>
      var i := FirstMatchFrom(file.doc.elems, ts, 0).value.value;
      && file.doc.elems[i].Dict?
      && r == SaveToHistory(file, Dict(WithStatus(file.doc.elems[i].items, status)))
  {
    match GetHistory(file)
    case Err(e) => (Err(e), file)
    case Ok(doc) =>
      match doc
      case List(entries) =>
        (match FirstMatchFrom(entries, ts, 0)
         case Err(e) => (Err(e), file)
         case Ok(None) => (Ok(()), file)
         case Ok(Some(i)) => SaveToHistory(file, Dict(WithStatus(entries[i].items, status))))
      case Dict(items) => if items == [] then (Ok(()), file) else (Err(NotSubscriptable), file)
      case Str(s) => if s == "" then (Ok(()), file) else (Err(NotSubscriptable), file)
      case Tuple(elems) => (Err(NotSubscriptable), file)
      case _ => (Err(NotIterable), file)
  }

  /**
   * On a history written by `json.dump`, a status change grows the list by
   * exactly one entry, the first matching entry copied with its new status,
   * and leaves every earlier entry (the original included) as it was; without
   * a match the file is unchanged.
   */
  lemma MarkAppendsCopy(file: StoredJson, ts: string, status: string)
    requires file.Parsed? && file.doc.List? && Native(file.doc)
    ensures var entries, (outcome, after) := file.doc.elems, MarkStatus(file, ts, status);
      && (FirstMatchFrom(entries, ts, 0) == Ok(None) ==> outcome.Ok? && after == file)
      && (FirstMatchFrom(entries, ts, 0).Err? ==> outcome.Err? && after == file)
      && (FirstMatchFrom(entries, ts, 0).Ok? && FirstMatchFrom(entries, ts, 0).value.Some? ==>
            var i := FirstMatchFrom(entries, ts, 0).value.value;
            && outcome.Ok? && after.Parsed? && after.doc.List?
            && after.doc.elems == entries + [Dict(WithStatus(entries[i].items, status))]
            && Lookup(after.doc.elems[|entries|].items, "status") == Some(Str(status))
            && (forall k :: k != "status" ==>
                  Lookup(after.doc.elems[|entries|].items, k) == Lookup(entries[i].items, k)))
  {
    var entries := file.doc.elems;
    var m := FirstMatchFrom(entries, ts, 0);
    if m.Ok? && m.value.Some? {
      var i := m.value.value;
      var copy := Dict(WithStatus(entries[i].items, status));
      assert entries[i] in entries;
      NativeCopy(entries[i].items, status);
      PersistedNative(copy);
      SaveAppendsOne(file, copy);
    }
  }

  /** The copy of an entry read from the file can be written back as it is. */
  lemma {:induction false} NativeCopy(items: seq<(string, Value)>, status: string)
    requires Native(Dict(items))
    ensures Native(Dict(WithStatus(items, status)))
  {
    if items != [] && items[0].0 != "status" {
      assert Native(Dict(items[1..])) by {
        forall i | 0 <= i < |items[1..]|
          ensures Native(items[1..][i].1)
        {
          assert items[1..][i] == items[i + 1];
        }
      }
      NativeCopy(items[1..], status);
      var r := WithStatus(items, status);
      forall i | 0 <= i < |r|
        ensures Native(r[i].1)
      {
        if i > 0 {
          assert r[i] == WithStatus(items[1..], status)[i - 1];
        }
      }
    } else if items != [] {
      var r := WithStatus(items, status);
      forall i | 0 <= i < |r|
        ensures Native(r[i].1)
      {
        if i > 0 {
          assert r[i] == items[i];
        }
      }
    }
  }

  class RemediationAgent {
    var history: StoredJson

    constructor(existing: StoredJson)
      ensures history == InitializeHistory(existing)
    {
      history := InitializeHistory(existing);
    }

    /** `_save_to_history`: reads the list, appends the entry, writes the list back. */
    method SaveEntry(entry: Value) returns (outcome: Result<(), RemediationError>)
      modifies this
      ensures (outcome, history) == SaveToHistory(old(history), entry)
    {
      var loaded := GetHistory(history);
      if loaded.Err? {
        return Err(loaded.error);
      }
      var doc := loaded.value;
      if !doc.List? {
        return Err(NoAppend);
      }
      var appended := List(doc.elems + [entry]);
      if !Dumpable(appended) {
        history := Unparseable;
        return Err(Unwritable);
      }
      history := Parsed(Persisted(appended));
      return Ok(());
    }

    /** `suggest_remediation`, with the LLM's text given. */
    method Suggest(anomaly: seq<(string, Value)>, suggestion: string) returns (r: Result<Value, RemediationError>)
      modifies this
      ensures (r, history) == SuggestRemediation(old(history), anomaly, suggestion)
    {
      if Lookup(anomaly, "service").None? {
        return Err(MissingKey("service"));
      }
      if Lookup(anomaly, "level").None? {
        return Err(MissingKey("level"));
      }
      if Lookup(anomaly, "message").None? {
        return Err(MissingKey("message"));
      }
      var remediation := Suggestion(anomaly, suggestion);
      var saved := SaveEntry(remediation);
      if saved.Err? {
        return Err(saved.error);
      }
      return Ok(remediation);
    }

    /** `mark_remediation_status`: the loop over the history, then one save of the modified copy. */
    method MarkRemediationStatus(ts: string, status: string) returns (outcome: Result<(), RemediationError>)
      modifies this
      ensures (outcome, history) == MarkStatus(old(history), ts, status)
    {
      var loaded := GetHistory(history);
      if loaded.Err? {
        return Err(loaded.error);
      }
      match loaded.value
      case List(entries) =>
        for i := 0 to |entries|
          invariant FirstMatchFrom(entries, ts, 0) == FirstMatchFrom(entries, ts, i)
          invariant history == old(history)
        {
          var matches := EntryMatches(entries[i], ts);
          if matches.Err? {
            return Err(matches.error);
          }
          if matches.value {
            outcome := SaveEntry(Dict(WithStatus(entries[i].items, status)));
            return;
          }
        }
        return Ok(());
      case Dict(items) =>
        return if items == [] then Ok(()) else Err(NotSubscriptable);
      case Str(s) =>
        return if s == "" then Ok(()) else Err(NotSubscriptable);
      case Tuple(_) =>
        return Err(NotSubscriptable);
      case _ =>
        return Err(NotIterable);
    }
  }
}
