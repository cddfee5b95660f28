/** The parser as it is written: nested functions that pop tokens off one shared list, each given the
    token that was popped last. */
module LvmParser {
  import opened LvmText
  import opened Options

  datatype Result<T> = Done(value: T) | Failed(error: Error)

  /** A method did what the function says with the tokens it found, and left the same tokens. */
  ghost predicate Did<T>(r: Result<T>, spec: Parsed<T>, left: seq<string>) {
    if spec.Err? then r == Failed(spec.error) else r == Done(spec.value) && left == spec.rest
  }

  /** The tokens left together with the one just popped. */
  function Pushed(val: Option<string>, data: seq<string>): (ts: seq<string>) {
    if val.None? then data else [val.value] + data
  }

  class Decoder {
    var data: seq<string>

    constructor (raw: string)
      ensures data == Tokens(raw)
    {
      data := Tokens(raw);
    }

    method NextToken() returns (t: Option<string>)
      modifies this
      ensures Pushed(t, data) == old(data)
      ensures t.None? <==> old(data) == []
    {
      if data == [] { return None; }
      t, data := Some(data[0]), data[1..];
    }

    /** Where the source would go on for ever, the result is `NeverEnds`. */
    method ParseStr(first: Option<string>) returns (r: Result<Value>)
      requires first.None? ==> data == []
      modifies this
      ensures Did(r, LvmText.ParseStr(Pushed(first, old(data)), ""), data)
    {
      hide Strip;
      ghost var ts := Pushed(first, data);
      var val, result := first, "";
      while val != Some("\"")
        invariant val.None? ==> data == []
        invariant LvmText.ParseStr(ts, "") == LvmText.ParseStr(Pushed(val, data), result)
        decreases |Pushed(val, data)|
      {
        if val.None? { return Failed(NeverEnds); }
        assert Pushed(val, data)[1..] == data;
        result := result + " " + val.value;
        val := NextToken();
      }
      assert Pushed(val, data)[1..] == data;
      r := Done(Str(Strip(result)));
    }

    method ParseType(val: Option<string>) returns (r: Result<Value>)
      requires val.None? ==> data == []
      modifies this
      ensures Did(r, LvmText.ParseType(Pushed(val, old(data))), data)
    {
      hide IntValue, Strip;
      if val.None? { return Failed(NoToken); }
      assert Pushed(val, data)[1..] == data;
      if val.value == "\"" {
        var first := NextToken();
        r := ParseStr(first);
      } else if '.' in val.value {
        r := Done(Float(val.value));
      } else {
        var n := IntValue(val.value);
        r := if n.None? then Failed(NotAnInt) else Done(Int(n.value));
      }
    }

    method ParseArray(first: Option<string>) returns (r: Result<Value>)
      requires first.None? ==> data == []
      modifies this
      ensures Did(r, LvmText.ParseArray(Pushed(first, old(data)), []), data)
    {
      hide LvmText.ParseType;
      ghost var ts := Pushed(first, data);
      var val, result := first, [];
      while val != Some("]")
        invariant val.None? ==> data == []
        invariant LvmText.ParseArray(ts, []) == LvmText.ParseArray(Pushed(val, data), result)
        decreases |Pushed(val, data)|
      {
        ghost var now := Pushed(val, data);
        NoTypeNoArray(now, result);
        var v := ParseType(val);
        if v.Failed? { return v; }
        result := result + [v.value];
        val := NextToken();
      }
      assert Pushed(val, data)[1..] == data;
      r := Done(List(result));
    }

    method ParseSection(first: Option<string>) returns (r: Result<Tree>)
      requires first.None? ==> data == []
      modifies this
      ensures Did(r, LvmText.ParseSection(Pushed(first, old(data)), []), data)
      decreases |Pushed(first, data)|
    {
      hide LvmText.ParseValue, SetItem;
      ghost var ts := Pushed(first, data);
      var val, result := first, [];
      while val.Some? && val.value != "}"
        invariant val.None? ==> data == []
        invariant |Pushed(val, data)| <= |ts|
        invariant LvmText.ParseSection(ts, []) == LvmText.ParseSection(Pushed(val, data), result)
        decreases |Pushed(val, data)|
      {
        assert Pushed(val, data)[1..] == data;
        var v := ParseValue();
        if v.Failed? { return Failed(v.error); }
        result := SetItem(result, val.value, v.value);
        val := NextToken();
      }
      if val.Some? { assert Pushed(val, data)[1..] == data; }
      r := Done(result);
    }

    method ParseValue() returns (r: Result<Value>)
      modifies this
      ensures Did(r, LvmText.ParseValue(old(data)), data)
      decreases |data|
    {
      hide LvmText.ParseType, LvmText.ParseArray, LvmText.ParseSection;
      ghost var ts := data;
      var val := NextToken();
      if val == Some("{") {
        var first := NextToken();
        var d := ParseSection(first);
        r := if d.Failed? then Failed(d.error) else Done(Section(d.value));
      } else if val == Some("[") {
        var first := NextToken();
        r := ParseArray(first);
      } else {
        r := ParseType(val);
      }
    }

    /** The whole text: the first token is the name, and also the first key. */
    method Decode() returns (r: Result<Named>)
      modifies this
      ensures Did(r, DecodeTokens(old(data)), data)
    {
      hide LvmText.ParseSection;
      var name := NextToken();
      var d := ParseSection(name);
      r := if d.Failed? then Failed(d.error) else Done(Named(name, d.value));
    }
  }

  lemma NoTypeNoArray(ts: seq<string>, result: seq<Value>)
    requires ts == [] || ts[0] != "]"
    ensures LvmText.ParseArray(ts, result) ==
      (var v := LvmText.ParseType(ts); if v.Err? then v else LvmText.ParseArray(v.rest, result + [v.value]))
  {}
}
