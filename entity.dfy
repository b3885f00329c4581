/** What every La Marzocco entity derives from its description and the
    client: its name, its unique id and its extra state attributes. */
module Entity {
  import opened Values
  import opened Consts

  /** A key of an attribute map: a status key, or a tuple of parts that the
      status dictionary stores under the parts joined by "_". */
  datatype AttrKey = Key(name: string) | TupleKey(parts: seq<string>)

  /** `extra_attributes`: per model, an attribute map or None. */
  type ExtraAttributes = map<ModelName, Option<seq<AttrKey>>>

  /** The total length of some strings. */
  function TotalLength(parts: seq<string>): nat
    decreases |parts|
  {
    if |parts| == 0 then 0 else |parts[0]| + TotalLength(parts[1..])
  }

  /** `"_".join(parts)`: the parts in order, one "_" between each two. */
  function JoinUnderscore(parts: seq<string>): (r: string)
    ensures |parts| == 0 ==> r == ""
    ensures |parts| >= 1 ==> |r| == TotalLength(parts) + |parts| - 1
    ensures |parts| >= 1 ==> |parts[0]| <= |r| && |parts[|parts| - 1]| <= |r|
    ensures |parts| >= 1 ==> r[..|parts[0]|] == parts[0]
    ensures |parts| >= 2 ==> r[|parts[0]|] == '_'
    ensures |parts| >= 1 ==> var last := parts[|parts| - 1]; r[|r| - |last|..] == last
    decreases |parts|
  {
    if |parts| == 0 then ""
    else if |parts| == 1 then parts[0]
    else
      var tail := JoinUnderscore(parts[1..]);
      var last := parts[|parts| - 1];
      assert parts[1..][|parts| - 2] == last;
      var r := parts[0] + "_" + tail;
      assert r[..|parts[0]|] == parts[0] && r[|parts[0]|] == '_';
      assert r[|r| - |last|..] == tail[|tail| - |last|..];
      r
  }

  /** `s.split("_")`, the inverse of JoinUnderscore. */
  function SplitUnderscore(s: string): (r: seq<string>)
    ensures |r| >= 1
    ensures forall i :: 0 <= i < |r| ==> '_' !in r[i]
    decreases |s|
  {
    if |s| == 0 then [""]
    else
      var rest := SplitUnderscore(s[1..]);
      if s[0] == '_' then [""] + rest
      else [[s[0]] + rest[0]] + rest[1..]
  }

  lemma {:induction false} SplitPart(a: string, rest: string)
    requires '_' !in a
    ensures SplitUnderscore(a + rest) ==
              var r := SplitUnderscore(rest); [a + r[0]] + r[1..]
    decreases |a|
  {
    if |a| > 0 {
      assert (a + rest)[1..] == a[1..] + rest;
      SplitPart(a[1..], rest);
      assert [a[0]] + (a[1..] + SplitUnderscore(rest)[0]) == a + SplitUnderscore(rest)[0];
    } else {
      var r := SplitUnderscore(rest);
      assert a + rest == rest && a + r[0] == r[0];
      assert [r[0]] + r[1..] == r;
    }
  }

  /** Splitting a part with no "_", a "_" and a tail gives the part, then
      the tail's pieces. */
  lemma SplitSeparator(a: string, tail: string)
    requires '_' !in a
    ensures SplitUnderscore(a + "_" + tail) == [a] + SplitUnderscore(tail)
  {
    assert a + "_" + tail == a + ("_" + tail);
    SplitPart(a, "_" + tail);
    assert ("_" + tail)[0] == '_' && ("_" + tail)[1..] == tail;
    var r := SplitUnderscore("_" + tail);
    assert r == [""] + SplitUnderscore(tail);
    assert a + r[0] == a;
  }

  /** Joining parts that contain no "_" can be undone by splitting. */
  lemma {:induction false} SplitJoin(parts: seq<string>)
    requires |parts| >= 1
    requires forall i :: 0 <= i < |parts| ==> '_' !in parts[i]
    ensures SplitUnderscore(JoinUnderscore(parts)) == parts
    decreases |parts|
  {
    if |parts| == 1 {
      SplitPart(parts[0], "");
      assert parts[0] + "" == parts[0];
    } else {
      var tail := JoinUnderscore(parts[1..]);
      SplitJoin(parts[1..]);
      SplitSeparator(parts[0], tail);
      assert parts == [parts[0]] + parts[1..];
    }
  }

  /** `tuple_to_str`: a tuple key becomes its parts joined by "_"; a plain
      key is returned unchanged. */
  function TupleToStr(k: AttrKey): (r: string)
    ensures k.Key? ==> r == k.name
    ensures k.TupleKey? && |k.parts| == 1 ==> r == k.parts[0]
    ensures k.TupleKey? && |k.parts| >= 1 ==> |k.parts[0]| <= |r| && r[..|k.parts[0]|] == k.parts[0]
  {
    match k
    case Key(name) => name
    case TupleKey(parts) => JoinUnderscore(parts)
  }

  /** Tuple keys whose parts contain no "_" never collide: distinct tuples
      give distinct status keys. */
  lemma TupleToStrInjective(a: seq<string>, b: seq<string>)
    requires |a| >= 1 && |b| >= 1
    requires forall i :: 0 <= i < |a| ==> '_' !in a[i]
    requires forall i :: 0 <= i < |b| ==> '_' !in b[i]
    ensures TupleToStr(TupleKey(a)) == TupleToStr(TupleKey(b)) ==> a == b
  {
    SplitJoin(a);
    SplitJoin(b);
  }

  /** `bool_to_str`: booleans become "True" or "False", anything else is
      returned as it is. */
  function BoolToStr(v: Value): (r: Value)
    ensures !r.Bool?
    ensures v.Bool? ==> r == Str(if v.b then "True" else "False")
    ensures !v.Bool? ==> r == v
  {
    match v
    case Bool(b) => Str(if b then "True" else "False")
    case _ => v
  }

  function ConvertedKeys(attr: seq<AttrKey>): (keys: seq<string>)
    ensures |keys| == |attr|
    ensures forall i :: 0 <= i < |attr| ==> keys[i] == TupleToStr(attr[i])
  {
    seq(|attr|, i requires 0 <= i < |attr| => TupleToStr(attr[i]))
  }

  /** `extra_state_attributes`. Looking the model up in `extra` raises
      KeyError when it is missing; the platforms only create entities whose
      model is there. */
  function ExtraStateAttributes(extra: ExtraAttributes, model: ModelName, status: Status): (r: Status)
    requires model in extra
    ensures extra[model].None? ==> r == map[]
    ensures extra[model].Some? ==>
              forall k :: k in r <==> k in status && exists a :: a in extra[model].value && TupleToStr(a) == k
    ensures forall k :: k in r ==> k in status && r[k] == BoolToStr(status[k])
  {
    match extra[model]
    case None => map[]
    case Some(attr) =>
      var keys := ConvertedKeys(attr);
      assert forall a :: a in attr ==> TupleToStr(a) in keys by {
        forall a | a in attr ensures TupleToStr(a) in keys {
          var i :| 0 <= i < |attr| && attr[i] == a;
          assert keys[i] == TupleToStr(a);
        }
      }
      map k | k in keys && k in status :: BoolToStr(status[k])
  }

  /** `name`: the machine name, a space, and the description's name. */
  function Name(machineName: string, descriptionName: string): (r: string)
    ensures |r| == |machineName| + 1 + |descriptionName|
    ensures r[..|machineName|] == machineName && r[|machineName|] == ' '
    ensures r[|machineName| + 1..] == descriptionName
  {
    machineName + " " + descriptionName
  }

  /** `unique_id`: the serial number, "_", and the description's key. */
  function UniqueId(serialNumber: string, key: string): (r: string)
    ensures |r| == |serialNumber| + 1 + |key|
    ensures r[..|serialNumber|] == serialNumber && r[|serialNumber|] == '_'
    ensures r[|serialNumber| + 1..] == key
  {
    serialNumber + "_" + key
  }

  /** Entities of one machine with distinct keys get distinct unique ids. */
  lemma UniqueIdsDistinct(serialNumber: string, key1: string, key2: string)
    requires key1 != key2
    ensures UniqueId(serialNumber, key1) != UniqueId(serialNumber, key2)
  {
    var n := |serialNumber| + 1;
    assert UniqueId(serialNumber, key1)[n..] == key1;
    assert UniqueId(serialNumber, key2)[n..] == key2;
  }
}
