/** The `tx:to-sign` entry format: the flat field/value list the API and the
    watcher append, and the decoding the sender applies to it. */
module Queue {
  import opened Wrappers
  import opened Json
  import opened Entity

  /** The field names, in the order both writers put them. */
  const FieldNames: seq<string> := ["transactionId", "chainId", "contractAddress", "method", "args", "userAddress"]

  /** `xadd('tx:to-sign', '*', 'transactionId', t.id, ..., 'args', JSON.stringify(t.args), 'userAddress', t.userAddress)`. */
  function QueueFields(t: Transaction): (f: seq<string>)
    ensures |f| == 2 * |FieldNames|
    ensures forall i :: 0 <= i < |FieldNames| ==> f[2 * i] == FieldNames[i]
  {
    ["transactionId", t.id, "chainId", t.chainId, "contractAddress", t.contractAddress,
     "method", t.methodName, "args", StringifyStrings(t.args), "userAddress", t.userAddress]
  }

  /** The object the decoding loop builds: `data[fields[i]] = fields[i + 1]`
      for i = 0, 2, 4, ...; a key with no value after it is set to
      `undefined` (`None`). */
  function PairsMap(fields: seq<string>): map<string, Option<string>>
  {
    if fields == [] then map[]
    else if |fields| % 2 == 1 then PairsMap(fields[..|fields| - 1])[fields[|fields| - 1] := None]
    else PairsMap(fields[..|fields| - 2])[fields[|fields| - 2] := Some(fields[|fields| - 1])]
  }

  /** Position `i` holds a key: even and in range. */
  predicate KeyAt(fields: seq<string>, i: int) {
    0 <= i < |fields| && i % 2 == 0
  }

  /** No later key position repeats the key at `i`. */
  predicate LastKeyAt(fields: seq<string>, i: int) {
    KeyAt(fields, i) && forall j :: i < j < |fields| && KeyAt(fields, j) ==> fields[j] != fields[i]
  }

  /** Where the loop's last step starts: the final key position. */
  function LastStep(n: nat): nat
    requires 0 < n
  {
    if n % 2 == 1 then n - 1 else n - 2
  }

  /** One unfolding of `PairsMap`: the last step writes the last key. */
  lemma PairsMapStep(fields: seq<string>)
    requires fields != []
    ensures var c := LastStep(|fields|);
            PairsMap(fields)
            == PairsMap(fields[..c])[fields[c] := if c + 1 < |fields| then Some(fields[c + 1]) else None]
  {
  }

  /** The keys are exactly the elements at even positions. */
  lemma {:induction false} PairsMapKeys(fields: seq<string>)
    ensures forall k :: k in PairsMap(fields) <==> exists i :: KeyAt(fields, i) && fields[i] == k
    decreases |fields|
  {
    if fields != [] {
      var c := LastStep(|fields|);
      var init := fields[..c];
      PairsMapKeys(init);
      PairsMapStep(fields);
      forall k | k in PairsMap(fields) ensures exists i :: KeyAt(fields, i) && fields[i] == k {
        if k == fields[c] {
          assert KeyAt(fields, c);
        } else {
          var i :| KeyAt(init, i) && init[i] == k;
          assert KeyAt(fields, i) && fields[i] == k;
        }
      }
      forall k, i | KeyAt(fields, i) && fields[i] == k ensures k in PairsMap(fields) {
        if i != c {
          assert i < c;
          assert KeyAt(init, i) && init[i] == k;
        }
      }
    }
  }

  /** Each key maps to the element after its last occurrence (`undefined`
      when that occurrence ends the list): the last write wins. */
  lemma {:induction false} PairsMapLastWins(fields: seq<string>, i: int)
    requires LastKeyAt(fields, i)
    ensures fields[i] in PairsMap(fields)
    ensures PairsMap(fields)[fields[i]] == if i + 1 < |fields| then Some(fields[i + 1]) else None
    decreases |fields|
  {
    var c := LastStep(|fields|);
    PairsMapStep(fields);
    if i != c {
      var init := fields[..c];
      assert i < c;
      assert fields[c] != fields[i];
      assert LastKeyAt(init, i) by {
        forall j | i < j < |init| && KeyAt(init, j) ensures init[j] != init[i] {
          assert KeyAt(fields, j);
        }
      }
      PairsMapLastWins(init, i);
    }
  }

  /** The sender's view of an entry: each field as it was read (`None` is
      `undefined`) and the arguments decoded from JSON. */
  datatype ParsedFields = ParsedFields(
    transactionId: Option<string>,
    chainId: Option<string>,
    contractAddress: Option<string>,
    methodName: Option<string>,
    args: seq<string>,
    userAddress: Option<string>)

  /** `data.key`: `undefined` when the key was never set. */
  function Value(data: map<string, Option<string>>, key: string): Option<string> {
    if key in data then data[key] else None
  }

  /** `parseTransactionFields`: build the object, then `JSON.parse(data.args)`,
      which throws on `undefined` and on text that is not JSON. */
  function DecodeFields(fields: seq<string>): (r: Call<ParsedFields>)
    ensures r.Returned? <==>
              Value(PairsMap(fields), "args").Some? && ParseStrings(Value(PairsMap(fields), "args").value).Some?
    ensures r.Returned? ==>
              r.value.transactionId == Value(PairsMap(fields), "transactionId")
              && r.value.chainId == Value(PairsMap(fields), "chainId")
              && r.value.contractAddress == Value(PairsMap(fields), "contractAddress")
              && r.value.methodName == Value(PairsMap(fields), "method")
              && r.value.userAddress == Value(PairsMap(fields), "userAddress")
              && Some(r.value.args) == ParseStrings(Value(PairsMap(fields), "args").value)
  {
    var data := PairsMap(fields);
    match Value(data, "args")
    case None => Threw
    case Some(text) =>
      match ParseStrings(text)
      case None => Threw
      case Some(args) =>
        Returned(ParsedFields(Value(data, "transactionId"), Value(data, "chainId"), Value(data, "contractAddress"),
                              Value(data, "method"), args, Value(data, "userAddress")))
  }

  lemma FieldValue(f: seq<string>, i: int, v: string)
    requires LastKeyAt(f, i) && i + 1 < |f| && f[i + 1] == v
    ensures Value(PairsMap(f), f[i]) == Some(v)
  {
    PairsMapLastWins(f, i);
  }

  /** What an entry written for `t` decodes to. */
  function Expected(t: Transaction): ParsedFields {
    ParsedFields(Some(t.id), Some(t.chainId), Some(t.contractAddress), Some(t.methodName), t.args, Some(t.userAddress))
  }

  /** Each of the six field names occurs once, at its key position. */
  lemma QueueFieldsKeys(t: Transaction)
    ensures var f := QueueFields(t);
            LastKeyAt(f, 0) && LastKeyAt(f, 2) && LastKeyAt(f, 4) && LastKeyAt(f, 6) && LastKeyAt(f, 8) && LastKeyAt(f, 10)
  {
    var f := QueueFields(t);
    forall j | 0 <= j < |f| && KeyAt(f, j) ensures f[j] == FieldNames[j / 2] {
    }
  }

  /** Decoding the list either writer appends gives back the record's six fields. */
  lemma QueueRoundTrip(t: Transaction)
    ensures DecodeFields(QueueFields(t)) == Returned(Expected(t))
  {
    var f := QueueFields(t);
    QueueFieldsKeys(t);
    FieldValue(f, 0, t.id);
    FieldValue(f, 2, t.chainId);
    FieldValue(f, 4, t.contractAddress);
    FieldValue(f, 6, t.methodName);
    FieldValue(f, 8, StringifyStrings(t.args));
    FieldValue(f, 10, t.userAddress);
    StringifyRoundTrip(t.args);
  }
}
