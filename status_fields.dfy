/** Field resolution and the idempotence check: which candidate field holds a
    record's status when it is read (`getStatusValue`), which field an update
    writes (`getStatusFieldName`), and whether the record already has the target
    status (`hasTargetStatus`). */
module StatusFields {
  import opened JsValues
  import Configuration

  /** `field in rec`, without the prototype chain. */
  predicate Present(rec: Record, field: string) {
    field in rec
  }

  /** `field in rec && rec[field] !== undefined` */
  predicate Defined(rec: Record, field: string) {
    field in rec && rec[field] != Undefined
  }

  /** The position of the earliest candidate holding a value other than `undefined`. */
  function FirstDefined(rec: Record, fields: seq<string>): (k: nat)
    ensures k <= |fields|
  {
    FirstWhere(fields, f => Defined(rec, f))
  }

  /** The position of the earliest candidate that is a key of the record at all. */
  function FirstPresent(rec: Record, fields: seq<string>): (k: nat)
    ensures k <= |fields|
  {
    FirstWhere(fields, f => Present(rec, f))
  }

  /** `getStatusValue`: scan the candidates in order and return the first value
      that is present and not `undefined`; `null` when there is none. */
  function StatusValue(rec: Record, fields: seq<string>): (v: Value)
    ensures v != Undefined
  {
    if |fields| == 0 then Null
    else if fields[0] in rec && rec[fields[0]] != Undefined then rec[fields[0]]
    else StatusValue(rec, fields[1..])
  }

  /** `getStatusFieldName`: scan the candidates in order and return the first one
      that is merely a key of the record; `"status"` when there is none. */
  function StatusFieldName(rec: Record, fields: seq<string>): (f: string)
    ensures f in fields || f == "status"
  {
    if |fields| == 0 then "status"
    else if fields[0] in rec then fields[0]
    else StatusFieldName(rec, fields[1..])
  }

  /** `getStatusValue` reads the earliest candidate that is a key with a
      non-`undefined` value (however falsy that value is) and returns `null`
      exactly when there is no such candidate or that candidate holds `null`. */
  lemma {:induction false} StatusValueReadsFirstDefined(rec: Record, fields: seq<string>)
    ensures var k := FirstDefined(rec, fields);
      StatusValue(rec, fields) == if k < |fields| then rec[fields[k]] else Null
    decreases |fields|
  {
    if |fields| > 0 && !Defined(rec, fields[0]) {
      StatusValueReadsFirstDefined(rec, fields[1..]);
    }
  }

  /** `getStatusFieldName` names the earliest candidate that is a key, even one
      whose value is `undefined`, and falls back to `"status"`. */
  lemma {:induction false} StatusFieldNameIsFirstPresent(rec: Record, fields: seq<string>)
    ensures var k := FirstPresent(rec, fields);
      StatusFieldName(rec, fields) == if k < |fields| then fields[k] else "status"
    decreases |fields|
  {
    if |fields| > 0 && !Present(rec, fields[0]) {
      StatusFieldNameIsFirstPresent(rec, fields[1..]);
    }
  }

  /** A value that is defined but falsy (`false`, `0`, `""`, `null`) still stops
      the scan: the earliest defined candidate is what is read. */
  lemma StatusValueAt(rec: Record, fields: seq<string>, i: nat)
    requires i < |fields| && Defined(rec, fields[i])
    requires forall j :: 0 <= j < i ==> !Defined(rec, fields[j])
    ensures StatusValue(rec, fields) == rec[fields[i]]
  {
    FirstWhereIsUnique(fields, f => Defined(rec, f), i);
    StatusValueReadsFirstDefined(rec, fields);
  }

  /** How the read path and the write path relate. The field written is never
      later than the field read; when it is earlier, it is a key whose value is
      `undefined`. When no candidate is a key, the read gives `null` while the
      write falls back to `"status"`. When no candidate holds `undefined` (as in
      any record decoded from JSON), both name the same field. */
  lemma {:induction false} FieldNameVersusValue(rec: Record, fields: seq<string>)
    ensures FirstPresent(rec, fields) <= FirstDefined(rec, fields)
    ensures var kp := FirstPresent(rec, fields);
      FirstDefined(rec, fields) < |fields| ==> StatusFieldName(rec, fields) == fields[kp]
    ensures var kp := FirstPresent(rec, fields);
      kp < FirstDefined(rec, fields) ==> rec[fields[kp]] == Undefined && StatusFieldName(rec, fields) == fields[kp]
    ensures FirstPresent(rec, fields) == |fields| ==>
      StatusValue(rec, fields) == Null && StatusFieldName(rec, fields) == "status"
    ensures (forall j :: 0 <= j < |fields| && fields[j] in rec ==> rec[fields[j]] != Undefined) ==>
      FirstPresent(rec, fields) == FirstDefined(rec, fields)
  {
    var kp, kd := FirstPresent(rec, fields), FirstDefined(rec, fields);
    StatusValueReadsFirstDefined(rec, fields);
    StatusFieldNameIsFirstPresent(rec, fields);
    if kd < |fields| {
      assert Present(rec, fields[kd]);
    }
    if (forall j :: 0 <= j < |fields| && fields[j] in rec ==> rec[fields[j]] != Undefined) {
      if kp < |fields| {
        assert Defined(rec, fields[kp]);
      }
    }
  }

  /** `hasTargetStatus`: false on any falsy status; membership when the status is
      an array; strict equality with the target string otherwise, so no number,
      boolean or object ever matches. */
  function HasTargetStatus(rec: Record, fields: seq<string>, target: string): (r: bool)
    ensures var v := StatusValue(rec, fields);
      && (r ==> Truthy(v))
      && (v.Arr? ==> (r <==> Str(target) in v.elems))
      && (!v.Arr? ==> (r <==> target != "" && v == Str(target)))
  {
    var v := StatusValue(rec, fields);
    if !Truthy(v) then false
    else if v.Arr? then Str(target) in v.elems
    else v == Str(target)
  }

  /** A record without any candidate field is never taken to be at the target,
      although an update of it would write the default `"status"` field. */
  lemma MissingStatusIsNotTarget(rec: Record, fields: seq<string>, target: string)
    requires forall j :: 0 <= j < |fields| ==> fields[j] !in rec
    ensures !HasTargetStatus(rec, fields, target)
    ensures StatusFieldName(rec, fields) == "status"
  {
    FirstWhereIsUnique(fields, f => Present(rec, f), |fields|);
    FieldNameVersusValue(rec, fields);
  }

  /** Status fields whose earliest defined candidate holds a string equal to the
      target, or an array containing it, are exactly the ones at the target. */
  lemma HasTargetStatusAt(rec: Record, fields: seq<string>, target: string)
    requires target != ""
    ensures var k := FirstDefined(rec, fields);
      HasTargetStatus(rec, fields, target) <==>
        k < |fields| &&
        (rec[fields[k]] == Str(target) || (rec[fields[k]].Arr? && Str(target) in rec[fields[k]].elems))
  {
    StatusValueReadsFirstDefined(rec, fields);
  }

  /** An array record (the first element of the response list may be one) has no
      property of any default candidate name, so its status reads as `null`. */
  lemma {:induction false} ArrayRecordHasNoStatus(elems: seq<Value>)
    ensures StatusValue(RecordView(Arr(elems)).value, Configuration.DEFAULT_CANDIDATES) == Null
    ensures StatusFieldName(RecordView(Arr(elems)).value, Configuration.DEFAULT_CANDIDATES) == "status"
  {
    var rec := RecordView(Arr(elems)).value;
    var fields := Configuration.DEFAULT_CANDIDATES;
    forall j | 0 <= j < |fields| ensures fields[j] !in rec {
      assert fields[j][0] !in "0123456789";
      assert !IsDigits(fields[j]);
    }
    MissingStatusIsNotTarget(rec, fields, "");
    FieldNameVersusValue(rec, fields);
  }
}
