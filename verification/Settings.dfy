/** How a saved form becomes the headers of a per-user credential (settings.go). */
module Settings {
  import opened Wrappers
  import opened Bytes
  import opened Stamps
  import opened Targets
  import opened Registries

  // What was posted for each header, with the surrounding white space cut.
  type Values = map<Text, Text>

  datatype FieldError = Empty | TooLong | NotAHeaderValue

  const MAX_CREDENTIAL_VALUE: nat := 4096

  function Posted(values: Values, header: Text): Text { if header in values then values[header] else [] }

  // httpguts.ValidHeaderFieldValue: no control character but tab.
  predicate ValidHeaderValue(v: Text) {
    forall i :: 0 <= i < |v| ==> v[i] == 0x09 || (v[i] >= 0x20 && v[i] != 0x7f)
  }

  // One field: its header with its prefix, as a stamp encodes it.
  function FieldValue(field: (Text, Text), values: Values): Result<Text, FieldError> {
    var v := Posted(values, field.0);
    if v == [] then Err(Empty)
    else if |v| > MAX_CREDENTIAL_VALUE then Err(TooLong)
    else if !ValidHeaderValue(field.1 + v) then Err(NotAHeaderValue)
    else Ok(field.1 + v)
  }

  function Filled(fields: seq<(Text, Text)>, values: Values): Result<Headers, FieldError> {
    if fields == [] then Ok(map[])
    else
      var last := fields[|fields| - 1];
      match Filled(fields[..|fields| - 1], values)
      case Err(e) => Err(e)
      case Ok(headers) =>
        match FieldValue(last, values)
        case Err(e) => Err(e)
        case Ok(v) => Ok(headers[last.0 := v])
  }

  // The last served per_user target of that name.
  function PerUserTarget(entries: seq<Entry>, name: Text): (t: Option<Target>)
    ensures t.Some? ==> t.value.name == name && t.value.mode == PER_USER && exists e :: e in entries && e.target == t.value
  {
    if entries == [] then None
    else
      var last := entries[|entries| - 1];
      if last.target.name == name && last.target.mode == PER_USER then Some(last.target)
      else PerUserTarget(entries[..|entries| - 1], name)
  }

  method FindPerUserTarget(entries: seq<Entry>, name: Text) returns (t: Option<Target>)
    ensures t == PerUserTarget(entries, name)
  {
    t := None;
    for i := 0 to |entries|
      invariant t == PerUserTarget(entries[..i], name)
    {
      assert entries[..i + 1][..i] == entries[..i];
      if entries[i].target.name == name && entries[i].target.mode == PER_USER {
        t := Some(entries[i].target);
      }
    }
    assert entries[..|entries|] == entries;
  }

  method FillHeaders(fields: seq<(Text, Text)>, values: Values) returns (r: Result<Headers, FieldError>)
    ensures r == Filled(fields, values)
  {
    var headers: Headers := map[];
    for i := 0 to |fields|
      invariant Filled(fields[..i], values) == Ok(headers)
    {
      assert fields[..i + 1][..i] == fields[..i];
      var v := FieldValue(fields[i], values);
      if v.Err? {
        FirstErrorStands(fields, values, i + 1, v.error);
        return Err(v.error);
      }
      headers := headers[fields[i].0 := v.value];
    }
    assert fields[..|fields|] == fields;
    return Ok(headers);
  }

  lemma {:induction false} FirstErrorStands(fields: seq<(Text, Text)>, values: Values, n: nat, e: FieldError)
    requires n <= |fields| && Filled(fields[..n], values) == Err(e)
    ensures Filled(fields, values) == Err(e)
  {
    if n == |fields| {
      assert fields[..n] == fields;
    } else {
      var front := fields[..|fields| - 1];
      assert front[..n] == fields[..n];
      FirstErrorStands(front, values, n, e);
    }
  }

  // The header's value is what was typed for it behind the prefix of its last field.
  ghost predicate TypedBehindItsPrefix(fields: seq<(Text, Text)>, values: Values, header: Text, value: Text) {
    Posted(values, header) != []
    && exists i :: IsLastField(fields, i, header) && value == fields[i].1 + Posted(values, header)
  }

  predicate IsLastField(fields: seq<(Text, Text)>, i: int, header: Text) {
    0 <= i < |fields| && fields[i].0 == header && forall j :: i < j < |fields| ==> fields[j].0 != header
  }

  /** A credential holds a value for exactly the headers of its definition, each what was
      typed for that header behind the prefix of its last field. */
  lemma {:induction false} FilledSendsOnlyWhatWasTyped(fields: seq<(Text, Text)>, values: Values, header: Text)
    requires Filled(fields, values).Ok?
    ensures var headers := Filled(fields, values).value;
            && (header in headers <==> exists i :: 0 <= i < |fields| && fields[i].0 == header)
            && (header in headers ==> TypedBehindItsPrefix(fields, values, header, headers[header]))
  {
    if fields != [] {
      var n := |fields| - 1;
      FilledSendsOnlyWhatWasTyped(fields[..n], values, header);
      if header == fields[n].0 {
        assert IsLastField(fields, n, header);
      } else if header in Filled(fields[..n], values).value {
        var i :| IsLastField(fields[..n], i, header)
          && Filled(fields[..n], values).value[header] == fields[..n][i].1 + Posted(values, header);
        assert forall j :: i < j < n ==> fields[..n][j] == fields[j];
        assert IsLastField(fields, i, header);
      }
    }
  }

  // What was posted for the field is there, is not too long, and can be sent in a header.
  predicate Fits(field: (Text, Text), values: Values) {
    && field.0 in values && values[field.0] != [] && |values[field.0]| <= 4096
    && (forall b :: b in field.1 ==> IsSendable(b)) && (forall b :: b in values[field.0] ==> IsSendable(b))
  }

  predicate IsSendable(b: Byte) { b == 0x09 || 0x20 <= b < 0x7f || 0x7f < b }

  lemma FieldsFit(field: (Text, Text), values: Values)
    ensures FieldValue(field, values).Ok? <==> Fits(field, values)
    ensures Fits(field, values) ==> FieldValue(field, values).value == field.1 + values[field.0]
  {
    var (p, v) := (field.1, Posted(values, field.0));
    if ValidHeaderValue(p + v) {
      forall b | b in p ensures IsSendable(b) { var i :| 0 <= i < |p| && p[i] == b; assert (p + v)[i] == b; }
      forall b | b in v ensures IsSendable(b) { var i :| 0 <= i < |v| && v[i] == b; assert (p + v)[|p| + i] == b; }
    }
    if (forall b :: b in p ==> IsSendable(b)) && (forall b :: b in v ==> IsSendable(b)) {
      forall i | 0 <= i < |p + v| ensures IsSendable((p + v)[i]) {
        assert (p + v)[i] == if i < |p| then p[i] else v[i - |p|];
      }
    }
  }

  /** A form is accepted exactly when every field fits. */
  lemma {:induction false} FilledExactlyWhenAllFit(fields: seq<(Text, Text)>, values: Values)
    ensures Filled(fields, values).Ok? <==> forall i :: 0 <= i < |fields| ==> Fits(fields[i], values)
  {
    if fields != [] {
      var n := |fields| - 1;
      FilledExactlyWhenAllFit(fields[..n], values);
      FieldsFit(fields[n], values);
      assert forall i :: 0 <= i < n ==> fields[..n][i] == fields[i];
    }
  }

  // The last of the per_user targets of the name.
  predicate IsPerUser(entries: seq<Entry>, i: int, name: Text) {
    0 <= i < |entries| && entries[i].target.name == name && entries[i].target.mode == Ascii("per_user")
  }

  predicate IsLastPerUser(entries: seq<Entry>, i: int, name: Text) {
    IsPerUser(entries, i, name) && forall j :: i < j < |entries| ==> !IsPerUser(entries, j, name)
  }

  lemma {:induction false} PerUserTargetIsTheLast(entries: seq<Entry>, name: Text)
    ensures PerUserTarget(entries, name).None? <==> forall i :: !IsPerUser(entries, i, name)
    ensures forall i :: IsLastPerUser(entries, i, name) ==> PerUserTarget(entries, name) == Some(entries[i].target)
  {
    if entries != [] {
      var n := |entries| - 1;
      if !IsPerUser(entries, n, name) {
        PerUserTargetIsTheLast(entries[..n], name);
        forall i ensures IsPerUser(entries, i, name) <==> IsPerUser(entries[..n], i, name) {
        }
        forall i | IsLastPerUser(entries, i, name)
          ensures PerUserTarget(entries, name) == Some(entries[i].target)
        {
          assert IsLastPerUser(entries[..n], i, name);
        }
      }
    }
  }
}
