/** The measured-data selection of runCalc: the measured backend answers with
    every property it has, and runCalc keeps only the requested one. */
module Measured {
  import opened PyValues

  /** `MeasuredCalc().propMap[request_dict['prop']]['result_key']`: the
      backend's name for the requested CTS property. The table is keyed by
      strings, so a key of another kind is missing, and a list or dict key is
      unhashable. */
  function MeasuredPropName(req: Request, propMap: map<string, Value>): Result<Value> {
    var prop :- Index(req, "prop");
    match prop
    case Str(p) => if p in propMap then Subscript(propMap[p], "result_key") else Failure(KeyError(p))
    case Arr(_) => Failure(TypeError)
    case Obj(_) => Failure(TypeError)
    case _ => Failure(KeyError(""))
  }

  /** The entry `d` is the one for the property the backend calls `name`. */
  predicate Matches(d: Value, name: Value) {
    Subscript(d, "prop") == Success(name)
  }

  /** The loop over the data entries `items`, from payload `fields`: each
      entry whose `prop` is `name` puts its `data` and the requested CTS
      property `prop` into the payload. */
  function SelectFrom(items: seq<Value>, name: Value, prop: Value, fields: map<string, Value>)
    : Result<map<string, Value>>
    decreases |items|
  {
    if items == [] then Success(fields)
    else
      var p :- Subscript(items[0], "prop");
      if p == name then
        var data :- Subscript(items[0], "data");
        SelectFrom(items[1..], name, prop, fields["data" := data]["prop" := prop])
      else SelectFrom(items[1..], name, prop, fields)
  }

  /** The payload after the selection, or the exception raised. The names are
      looked up only when there is something to iterate over; iterating over a
      string or a dict gives strings, which have no `prop`. */
  function MeasuredSelection(pchem: Value, req: Request, propMap: map<string, Value>): Result<Value> {
    match pchem
    case Obj(fields) =>
      var data := MapGet(fields, "data");
      if !(data.Arr? || data.Str? || data.Obj?) then Failure(TypeError)
      else if !Truthy(data) then Success(pchem)
      else
        var name :- MeasuredPropName(req, propMap);
        if data.Arr? then
          var selected :- SelectFrom(data.items, name, Index(req, "prop").value, fields);
          Success(Obj(selected))
        else Failure(TypeError)
    case _ => Failure(AttributeError)
  }

  /** The index of the last entry for `name`. */
  function LastMatch(items: seq<Value>, name: Value): Option<nat>
    decreases |items|
  {
    if items == [] then None
    else match LastMatch(items[1..], name)
      case Some(j) => Some(j + 1)
      case None => if Matches(items[0], name) then Some(0) else None
  }

  lemma {:induction false} LastMatchBounds(items: seq<Value>, name: Value)
    ensures LastMatch(items, name).Some? ==>
              var j := LastMatch(items, name).value;
              j < |items| && Matches(items[j], name)
              && forall k :: j < k < |items| ==> !Matches(items[k], name)
    ensures LastMatch(items, name).None? ==> forall k :: 0 <= k < |items| ==> !Matches(items[k], name)
    decreases |items|
  {
    if items != [] {
      LastMatchBounds(items[1..], name);
      var r := LastMatch(items[1..], name);
      if r.Some? {
        forall k | r.value + 1 < k < |items| ensures !Matches(items[k], name) {
          assert items[k] == items[1..][k - 1];
        }
      } else {
        forall k | 0 < k < |items| ensures !Matches(items[k], name) {
          assert items[k] == items[1..][k - 1];
        }
      }
    }
  }

  /** Every entry has a `prop`, and every entry for `name` has `data`. */
  predicate Selectable(items: seq<Value>, name: Value) {
    forall i :: 0 <= i < |items| ==>
      Subscript(items[i], "prop").Success? && (Matches(items[i], name) ==> Subscript(items[i], "data").Success?)
  }

  /** A list of entries is selectable when its first entry is and the
      rest are. */
  lemma SelectableCons(items: seq<Value>, name: Value)
    requires items != []
    ensures Selectable(items, name) <==>
              (Subscript(items[0], "prop").Success? && (Matches(items[0], name) ==> Subscript(items[0], "data").Success?)
               && Selectable(items[1..], name))
  {
    var rest := items[1..];
    if Selectable(rest, name) && Subscript(items[0], "prop").Success?
       && (Matches(items[0], name) ==> Subscript(items[0], "data").Success?) {
      forall i | 0 <= i < |items|
        ensures Subscript(items[i], "prop").Success? && (Matches(items[i], name) ==> Subscript(items[i], "data").Success?)
      {
        if i > 0 { assert items[i] == rest[i - 1]; }
      }
    }
    if Selectable(items, name) {
      forall i | 0 <= i < |rest|
        ensures Subscript(rest[i], "prop").Success? && (Matches(rest[i], name) ==> Subscript(rest[i], "data").Success?)
      {
        assert items[i + 1] == rest[i];
      }
    }
  }

  /** What the selection loop does: it succeeds exactly on selectable entries;
      then, if no entry is for `name`, the payload is unchanged, and otherwise
      its `data` is the last such entry's `data`, its `prop` the requested CTS
      property, and every other field is unchanged. */
  lemma {:induction false} SelectFromEffect(items: seq<Value>, name: Value, prop: Value, fields: map<string, Value>)
    ensures SelectFrom(items, name, prop, fields).Success? <==> Selectable(items, name)
    ensures SelectFrom(items, name, prop, fields).Success? && LastMatch(items, name).None? ==>
              SelectFrom(items, name, prop, fields).value == fields
    ensures SelectFrom(items, name, prop, fields).Success? && LastMatch(items, name).Some? ==>
              var j := LastMatch(items, name).value;
              j < |items| && Subscript(items[j], "data").Success?
              && SelectFrom(items, name, prop, fields).value
                 == fields["data" := Subscript(items[j], "data").value]["prop" := prop]
    decreases |items|
  {
    if items != [] {
      var d := items[0];
      var rest := items[1..];
      SelectableCons(items, name);
      LastMatchBounds(rest, name);
      if Subscript(d, "prop").Success? {
        if Matches(d, name) && Subscript(d, "data").Success? {
          var f' := fields["data" := Subscript(d, "data").value]["prop" := prop];
          SelectFromEffect(rest, name, prop, f');
          var r := LastMatch(rest, name);
          if r.Some? && Subscript(rest[r.value], "data").Success? {
            var v := Subscript(rest[r.value], "data").value;
            assert f'["data" := v]["prop" := prop] == fields["data" := v]["prop" := prop];
          }
        } else if !Matches(d, name) {
          SelectFromEffect(rest, name, prop, fields);
        }
      }
    }
  }

  /** When no entry is for the requested property, the payload is returned
      as it came, with the full list in `data` and no `prop` added. */
  lemma NoMatchUnchanged(fields: map<string, Value>, items: seq<Value>, req: Request, propMap: map<string, Value>)
    requires "data" in fields && fields["data"] == Arr(items)
    requires MeasuredPropName(req, propMap).Success?
    requires Selectable(items, MeasuredPropName(req, propMap).value)
    requires forall i :: 0 <= i < |items| ==> !Matches(items[i], MeasuredPropName(req, propMap).value)
    ensures MeasuredSelection(Obj(fields), req, propMap) == Success(Obj(fields))
  {
    var name := MeasuredPropName(req, propMap).value;
    SelectFromEffect(items, name, Index(req, "prop").value, fields);
    LastMatchBounds(items, name);
  }

  /** When several entries are for the requested property, the last one wins:
      the payload's `data` is its `data` and `prop` is the requested CTS name. */
  lemma LastMatchWins(fields: map<string, Value>, items: seq<Value>, req: Request, propMap: map<string, Value>, j: nat)
    requires "data" in fields && fields["data"] == Arr(items)
    requires MeasuredPropName(req, propMap).Success?
    requires Selectable(items, MeasuredPropName(req, propMap).value)
    requires j < |items| && Matches(items[j], MeasuredPropName(req, propMap).value)
    requires forall k :: j < k < |items| ==> !Matches(items[k], MeasuredPropName(req, propMap).value)
    ensures Subscript(items[j], "data").Success?
    ensures MeasuredSelection(Obj(fields), req, propMap)
         == Success(Obj(fields["data" := Subscript(items[j], "data").value]["prop" := Index(req, "prop").value]))
  {
    var name := MeasuredPropName(req, propMap).value;
    SelectFromEffect(items, name, Index(req, "prop").value, fields);
    LastMatchBounds(items, name);
  }

  /** The selection loop as runCalc runs it, over the payload `pchem` the
      measured backend returned. */
  method SelectMeasured(pchem: Value, req: Request, propMap: map<string, Value>) returns (r: Result<Value>)
    ensures r == MeasuredSelection(pchem, req, propMap)
  {
    if !pchem.Obj? {
      return Failure(AttributeError);
    }
    var fields := pchem.fields;
    var data := MapGet(fields, "data");
    if data.Arr? {
      var items := data.items;
      ghost var name0 := MeasuredPropName(req, propMap);
      var i := 0;
      while i < |items|
        invariant 0 <= i <= |items|
        invariant i > 0 ==> name0.Success?
        invariant i == 0 ==> fields == pchem.fields
        invariant name0.Success? ==>
          SelectFrom(items, name0.value, Index(req, "prop").value, pchem.fields)
          == SelectFrom(items[i..], name0.value, Index(req, "prop").value, fields)
      {
        var name := MeasuredPropName(req, propMap);
        if name.Failure? {
          return Failure(name.error);
        }
        assert items[i..][0] == items[i] && items[i..][1..] == items[i + 1..];
        var p := Subscript(items[i], "prop");
        if p.Failure? {
          return Failure(p.error);
        }
        if p.value == name.value {
          var d := Subscript(items[i], "data");
          if d.Failure? {
            return Failure(d.error);
          }
          fields := fields["data" := d.value];
          fields := fields["prop" := Index(req, "prop").value];
        }
        i := i + 1;
      }
      return Success(Obj(fields));
    } else if data.Str? || data.Obj? {
      if Truthy(data) {
        var name := MeasuredPropName(req, propMap);
        if name.Failure? {
          return Failure(name.error);
        }
        return Failure(TypeError);
      }
      return Success(pchem);
    } else {
      return Failure(TypeError);
    }
  }
}
