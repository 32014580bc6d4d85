/**
 * 418 validation responses. A result's content is a JSON object mapping property names to
 * `{"ErrorCode": code}`; the model keeps that object as its ordered list of entries and
 * writes the JSON text with `Content`. Unifying several results merges their first entries
 * the way a Dictionary's indexer does: a new key goes to the end, a repeated key keeps its
 * position and takes the later code.
 */
module ValidationResults {
  import opened Wrappers
  import opened Strings
  import opened ApiOffences

  /** One property of the response object and its error code. */
  datatype Entry = Entry(key: string, code: string)

  datatype ValidationResult = ValidationResult(entries: seq<Entry>, statusCode: int)

  const TeapotStatus := 418

  // ---------------------------------------------------------------------------------------
  // The JSON text of a result
  // ---------------------------------------------------------------------------------------

  function EntryJson(e: Entry): string {
    "\"" + e.key + "\":{\"ErrorCode\":\"" + e.code + "\"}"
  }

  function EntriesJson(es: seq<Entry>): (r: seq<string>)
    ensures |r| == |es| && forall i | 0 <= i < |es| :: r[i] == EntryJson(es[i])
  {
    seq(|es|, i requires 0 <= i < |es| => EntryJson(es[i]))
  }

  /** JSON serialisation of the dictionary, without string escaping. */
  function ObjectJson(es: seq<Entry>): string {
    "{" + Join(EntriesJson(es), ',') + "}"
  }

  function Content(r: ValidationResult): string {
    ObjectJson(r.entries)
  }

  predicate QuoteFree(s: string) {
    '"' !in s
  }

  /**
   * Reading a content back as the unifier does (deserialise, take the first key and its value):
   * the pieces between double quotes of `{"key":{"ErrorCode":"code"}...`.
   */
  function FirstEntry(json: string): Option<Entry> {
    var p := Split(json, '"');
    if |p| >= 7 && p[0] == "{" && p[2] == ":{" && p[3] == "ErrorCode" && p[4] == ":" then
      Some(Entry(p[1], p[5]))
    else None
  }

  /** The first entry of a serialised object reads back as it was written. */
  lemma FirstEntryOfObjectJson(es: seq<Entry>)
    requires |es| >= 1 && QuoteFree(es[0].key) && QuoteFree(es[0].code)
    ensures FirstEntry(ObjectJson(es)) == Some(es[0])
  {
    var x := if |es| == 1 then "" else [','] + Join(EntriesJson(es)[1..], ',');
    assert Join(EntriesJson(es), ',') == EntryJson(es[0]) + x;
    assert ObjectJson(es) == "{" + EntryJson(es[0]) + (x + "}");
    EntryPieces(es[0], x + "}");
  }

  /** The pieces between the quotes of `{"key":{"ErrorCode":"code"}` followed by anything. */
  lemma EntryPieces(e: Entry, tail: string)
    requires QuoteFree(e.key) && QuoteFree(e.code)
    ensures Split("{" + EntryJson(e) + tail, '"') == ["{", e.key, ":{", "ErrorCode", ":", e.code] + Split("}" + tail, '"')
  {
    var parts := ["{", e.key, ":{", "ErrorCode", ":", e.code];
    EntryJsonAsJoin(e, tail);
    assert forall i | 0 <= i < |parts| :: '"' !in parts[i] by {
      assert '"' !in "{" && '"' !in ":{" && '"' !in "ErrorCode" && '"' !in ":";
    }
    SplitJoinPrefix(parts, "}" + tail, '"');
  }

  /** An entry's text, preceded by `{`, is its six quote-free pieces joined by quotes and closed with a quote. */
  lemma EntryJsonAsJoin(e: Entry, tail: string)
    ensures "{" + EntryJson(e) + tail == Join(["{", e.key, ":{", "ErrorCode", ":", e.code], '"') + ['"'] + ("}" + tail)
  {
    var q := '"';
    var joined := "{" + [q] + e.key + [q] + ":{" + [q] + "ErrorCode" + [q] + ":" + [q] + e.code;
    JoinEntryParts(e);
    assert "{" + EntryJson(e) == joined + [q] + "}";
  }

  lemma JoinEntryParts(e: Entry)
    ensures Join(["{", e.key, ":{", "ErrorCode", ":", e.code], '"')
              == "{" + ['"'] + e.key + ['"'] + ":{" + ['"'] + "ErrorCode" + ['"'] + ":" + ['"'] + e.code
  {
    var parts := ["{", e.key, ":{", "ErrorCode", ":", e.code];
    var q := '"';
    assert Join(parts[5..], q) == e.code;
    assert Join(parts[4..], q) == ":" + [q] + e.code by { assert parts[4..][1..] == parts[5..]; }
    assert Join(parts[3..], q) == "ErrorCode" + [q] + Join(parts[4..], q) by { assert parts[3..][1..] == parts[4..]; }
    assert Join(parts[2..], q) == ":{" + [q] + Join(parts[3..], q) by { assert parts[2..][1..] == parts[3..]; }
    assert Join(parts[1..], q) == e.key + [q] + Join(parts[2..], q) by { assert parts[1..][1..] == parts[2..]; }
    assert Join(parts, q) == "{" + [q] + Join(parts[1..], q);
  }

  // ---------------------------------------------------------------------------------------
  // ToTeapotResult and getContent
  // ---------------------------------------------------------------------------------------

  /** A 418 result for one property, or null when the offence is the default one or the name is null or empty. */
  function ToTeapotResult(offense: ApiOffence, propertyName: Option<string>): (r: Option<ValidationResult>)
    ensures r.None? <==> offense == Default || propertyName.None? || propertyName.value == ""
    ensures r.Some? ==> r.value.statusCode == TeapotStatus
    ensures r.Some? ==> r.value.entries == [Entry(propertyName.value, offense.errorCode.value)]
  {
    if offense == Default || propertyName.None? || |propertyName.value| == 0 then None
    else Some(ValidationResult([Entry(propertyName.value, offense.errorCode.value)], TeapotStatus))
  }

  /** The content of a single-property result is exactly `{"name":{"ErrorCode":"code"}}`. */
  lemma TeapotContent(name: string, code: string)
    requires name != ""
    ensures ToTeapotResult(ApiOffence(Some(code)), Some(name)).Some?
    ensures Content(ToTeapotResult(ApiOffence(Some(code)), Some(name)).value)
              == "{\"" + name + "\":{\"ErrorCode\":\"" + code + "\"}}"
    ensures |Content(ToTeapotResult(ApiOffence(Some(code)), Some(name)).value)| == |name| + |code| + 21
  {
    var r := ToTeapotResult(ApiOffence(Some(code)), Some(name)).value;
    assert EntriesJson(r.entries) == [EntryJson(Entry(name, code))];
  }

  /** The content lengths the controller tests compare against. */
  lemma TeapotContentLengths()
    ensures |Content(ToTeapotResult(Missing, Some("Test")).value)| == 32
    ensures |Content(ToTeapotResult(InvalidUsernameOrPassword, Some("Username_Password")).value)| == 66
    ensures |Content(ToTeapotResult(NameAlreadyExists, Some("Username")).value)| == 48
  {
    TeapotContent("Test", "missing");
    TeapotContent("Username_Password", "invalid_username_or_password");
    TeapotContent("Username", "name_already_exists");
  }

  // ---------------------------------------------------------------------------------------
  // GetUnifiedTeapotValidationResults
  // ---------------------------------------------------------------------------------------

  function Keys(es: seq<Entry>): (r: seq<string>)
    ensures |r| == |es| && forall i | 0 <= i < |es| :: r[i] == es[i].key
  {
    seq(|es|, i requires 0 <= i < |es| => es[i].key)
  }

  /** `obj[e.key] = e.code` on a Dictionary: replace in place when the key exists, else append. */
  function Put(obj: seq<Entry>, e: Entry): seq<Entry> {
    if obj == [] then [e]
    else if obj[0].key == e.key then [e] + obj[1..]
    else [obj[0]] + Put(obj[1..], e)
  }

  /** The dictionary after putting every entry of `es` in turn. */
  function Merge(es: seq<Entry>): seq<Entry> {
    if es == [] then [] else Put(Merge(es[..|es| - 1]), es[|es| - 1])
  }

  /** The first entry of each result: what `ElementAt(0)` takes from each deserialised content. */
  function Heads(results: seq<ValidationResult>): (r: seq<Entry>)
    requires forall i | 0 <= i < |results| :: |results[i].entries| >= 1
    ensures |r| == |results| && forall i | 0 <= i < |results| :: r[i] == results[i].entries[0]
  {
    seq(|results|, i requires 0 <= i < |results| => results[i].entries[0])
  }

  /**
   * Null for a null or empty sequence; otherwise one 418 result holding the merged first
   * entries. Each element must hold content, as deserialising an empty one throws.
   */
  method GetUnifiedTeapotValidationResults(validationResults: Option<seq<ValidationResult>>)
    returns (res: Option<ValidationResult>)
    requires validationResults.Some? ==>
               forall i | 0 <= i < |validationResults.value| :: |validationResults.value[i].entries| >= 1
    ensures validationResults.None? || validationResults.value == [] ==> res.None?
    ensures validationResults.Some? && validationResults.value != [] ==>
              res == Some(ValidationResult(Merge(Heads(validationResults.value)), TeapotStatus))
  {
    if validationResults.None? || |validationResults.value| == 0 {
      return None;
    }
    var results := validationResults.value;
    var obj: seq<Entry> := [];
    for i := 0 to |results|
      invariant obj == Merge(Heads(results[..i]))
    {
      var validationResult := results[i].entries;
      assert Heads(results[..i + 1])[..i] == Heads(results[..i]);
      obj := Put(obj, validationResult[0]);
    }
    assert results[..|results|] == results;
    res := Some(ValidationResult(obj, TeapotStatus));
  }

  // ---------------------------------------------------------------------------------------
  // Properties of the merge
  // ---------------------------------------------------------------------------------------

  predicate Distinct(ks: seq<string>) {
    forall i, j | 0 <= i < j < |ks| :: ks[i] != ks[j]
  }

  /** The keys of `ks` in order of first occurrence. */
  function Dedup(ks: seq<string>): seq<string> {
    if ks == [] then []
    else
      var d := Dedup(ks[..|ks| - 1]);
      if ks[|ks| - 1] in d then d else d + [ks[|ks| - 1]]
  }

  /** The code of the last entry with key `k`, if any. */
  function LastCode(es: seq<Entry>, k: string): Option<string> {
    if es == [] then None
    else if es[|es| - 1].key == k then Some(es[|es| - 1].code)
    else LastCode(es[..|es| - 1], k)
  }

  /** Dictionary lookup: the code stored under `k`. */
  function Lookup(obj: seq<Entry>, k: string): Option<string> {
    if obj == [] then None
    else if obj[0].key == k then Some(obj[0].code)
    else Lookup(obj[1..], k)
  }

  lemma {:induction false} PutKeys(obj: seq<Entry>, e: Entry)
    ensures Keys(Put(obj, e)) == if e.key in Keys(obj) then Keys(obj) else Keys(obj) + [e.key]
  {
    if obj == [] {
    } else if obj[0].key == e.key {
      assert Keys(obj)[0] == e.key;
      assert Keys(Put(obj, e)) == Keys(obj);
    } else {
      var rest := obj[1..];
      PutKeys(rest, e);
      assert Keys(obj) == [obj[0].key] + Keys(rest);
      assert Keys(Put(obj, e)) == [obj[0].key] + Keys(Put(rest, e));
      assert e.key in Keys(obj) <==> e.key in Keys(rest);
    }
  }

  lemma {:induction false} PutLookup(obj: seq<Entry>, e: Entry, k: string)
    ensures Lookup(Put(obj, e), k) == if k == e.key then Some(e.code) else Lookup(obj, k)
  {
    if obj != [] && obj[0].key != e.key {
      PutLookup(obj[1..], e, k);
      assert Put(obj, e)[1..] == Put(obj[1..], e);
    }
  }

  lemma {:induction false} PutNewKey(obj: seq<Entry>, e: Entry)
    requires e.key !in Keys(obj)
    ensures Put(obj, e) == obj + [e]
  {
    if obj != [] {
      assert obj[0].key == Keys(obj)[0];
      assert Keys(obj[1..]) == Keys(obj)[1..];
      PutNewKey(obj[1..], e);
      assert obj == [obj[0]] + obj[1..];
    }
  }

  /** The merged keys follow the input: each key once, at its first occurrence. */
  lemma {:induction false} MergeKeys(es: seq<Entry>)
    ensures Keys(Merge(es)) == Dedup(Keys(es))
  {
    if es != [] {
      var init := es[..|es| - 1];
      MergeKeys(init);
      PutKeys(Merge(init), es[|es| - 1]);
      assert Keys(es)[..|es| - 1] == Keys(init);
    }
  }

  /** Each key holds the code of its last occurrence in the input. */
  lemma {:induction false} MergeLookup(es: seq<Entry>, k: string)
    ensures Lookup(Merge(es), k) == LastCode(es, k)
  {
    if es != [] {
      MergeLookup(es[..|es| - 1], k);
      PutLookup(Merge(es[..|es| - 1]), es[|es| - 1], k);
    }
  }

  lemma {:induction false} DedupProperties(ks: seq<string>)
    ensures Distinct(Dedup(ks))
    ensures forall k :: k in Dedup(ks) <==> k in ks
  {
    if ks != [] {
      DedupProperties(ks[..|ks| - 1]);
      assert ks == ks[..|ks| - 1] + [ks[|ks| - 1]];
    }
  }

  lemma {:induction false} DistinctCardinality(ks: seq<string>)
    requires Distinct(ks)
    ensures |set k | k in ks| == |ks|
  {
    if ks != [] {
      var init := ks[..|ks| - 1];
      DistinctCardinality(init);
      assert (set k | k in ks) == (set k | k in init) + {ks[|ks| - 1]};
    }
  }

  /** No key is repeated, and there are as many entries as distinct keys in the input. */
  lemma MergeDistinctKeys(es: seq<Entry>)
    ensures Distinct(Keys(Merge(es)))
    ensures |Merge(es)| == |set i | 0 <= i < |es| :: es[i].key|
  {
    MergeKeys(es);
    DedupProperties(Keys(es));
    DistinctCardinality(Dedup(Keys(es)));
    assert (set k | k in Dedup(Keys(es))) == (set i | 0 <= i < |es| :: es[i].key) by {
      forall k | k in Keys(es) ensures k in (set i | 0 <= i < |es| :: es[i].key) {
        var i :| 0 <= i < |es| && Keys(es)[i] == k;
      }
    }
  }

  /** With distinct keys the merge changes nothing. */
  lemma {:induction false} MergeOfDistinct(es: seq<Entry>)
    requires Distinct(Keys(es))
    ensures Merge(es) == es
  {
    if es != [] {
      var init := es[..|es| - 1];
      assert Keys(init) == Keys(es)[..|es| - 1];
      MergeOfDistinct(init);
      assert es[|es| - 1].key !in Keys(init);
      PutNewKey(init, es[|es| - 1]);
    }
  }

  /**
   * The unifier's example: two properties stay in order, each written once, and the text is
   * as long as the expected `{"Amount":{...},"CardNumber":{...}}` (91 characters).
   */
  lemma UnifiedExample()
    ensures var es := [Entry("Amount", "amount_too_high"), Entry("CardNumber", "invalid_card_number")];
            && Merge(es) == es
            && ObjectJson(Merge(es)) == "{" + EntryJson(es[0]) + "," + EntryJson(es[1]) + "}"
            && |ObjectJson(Merge(es))| == 91
  {
    var es := [Entry("Amount", "amount_too_high"), Entry("CardNumber", "invalid_card_number")];
    assert Keys(es) == ["Amount", "CardNumber"];
    MergeOfDistinct(es);
    TwoEntryJson(es[0], es[1]);
  }

  lemma TwoEntryJson(a: Entry, b: Entry)
    ensures ObjectJson([a, b]) == "{" + EntryJson(a) + "," + EntryJson(b) + "}"
  {
    var parts := EntriesJson([a, b]);
    assert parts == [EntryJson(a), EntryJson(b)];
    assert parts[1..] == [EntryJson(b)];
    assert Join(parts, ',') == EntryJson(a) + [','] + EntryJson(b);
  }

  /** The queue of single-entry 418 results for a list of entries. */
  function Teapots(es: seq<Entry>): (r: seq<ValidationResult>)
    ensures |r| == |es| && forall i | 0 <= i < |es| :: r[i] == ValidationResult([es[i]], TeapotStatus)
  {
    seq(|es|, i requires 0 <= i < |es| => ValidationResult([es[i]], TeapotStatus))
  }

  lemma HeadsOfTeapots(es: seq<Entry>)
    ensures Heads(Teapots(es)) == es
  {
  }

  /** `validationResults.Enqueue(ValidationResult.ToTeapotResult(offence, name))`, with the entries queued so far. */
  method Enqueue(queue: seq<ValidationResult>, ghost es: seq<Entry>, offence: ApiOffence, name: string)
    returns (queue': seq<ValidationResult>, ghost es': seq<Entry>)
    requires queue == Teapots(es) && offence.errorCode.Some? && name != ""
    ensures queue' == queue + [ValidationResult([Entry(name, offence.errorCode.value)], TeapotStatus)]
    ensures es' == es + [Entry(name, offence.errorCode.value)] && queue' == Teapots(es')
  {
    var r := ToTeapotResult(offence, Some(name));
    queue' := queue + [r.value];
    es' := es + [Entry(name, offence.errorCode.value)];
  }

  /** The queue of a concatenation is the concatenation of the queues. */
  lemma TeapotsAppend(a: seq<Entry>, b: seq<Entry>)
    ensures Teapots(a + b) == Teapots(a) + Teapots(b)
  {
    assert |Teapots(a + b)| == |Teapots(a) + Teapots(b)|;
    forall i | 0 <= i < |a + b| ensures Teapots(a + b)[i] == (Teapots(a) + Teapots(b))[i] {
      if i < |a| { assert (a + b)[i] == a[i]; } else { assert (a + b)[i] == b[i - |a|]; }
    }
  }
}
