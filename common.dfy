/** Values held in a machine status dictionary, with Python's truthiness and
    dict.get. */
module Values {

  datatype Option<+T> = None | Some(value: T)

  /** A status value as the Python code sees it: None, a bool, an int, a float,
      a str or a datetime (microseconds since the epoch). */
  datatype Value =
    | Null
    | Bool(b: bool)
    | Int(i: int)
    | Float(f: real)
    | Str(s: string)
    | Time(micros: int)

  type Status = map<string, Value>

  /** Python's truth value of a status value (`not v` is `!Truthy(v)`). */
  predicate Truthy(v: Value)
    // the falsy values: None, False, zero, and the empty string
    ensures !Truthy(v) <==> v == Null || v == Bool(false) || v == Int(0) || v == Float(0.0) || v == Str("")
  {
    match v
    case Null => false
    case Bool(b) => b
    case Int(i) => i != 0
    case Float(f) => f != 0.0
    case Str(s) => s != ""
    case Time(_) => true
  }

  /** `status.get(key)`: the stored value, or None when the key is missing. */
  function Get(status: Status, key: string): (v: Value)
    ensures key !in status ==> v == Null
    ensures key in status ==> v == status[key]
  {
    if key in status then status[key] else Null
  }

  /** `status[key]`: the stored value, or a KeyError naming the key. */
  datatype Lookup = Found(value: Value) | KeyError(key: string)

  function Index(status: Status, key: string): (r: Lookup)
    ensures r.KeyError? <==> key !in status
    ensures r.KeyError? ==> r.key == key
    ensures r.Found? ==> r.value == status[key]
  {
    if key in status then Found(status[key]) else KeyError(key)
  }

  /** `options.get(key, default)` on a config entry's boolean options. */
  function OptionOr(options: map<string, bool>, key: string, default: bool): (b: bool)
    ensures key in options ==> b == options[key]
    ensures key !in options ==> b == default
  {
    if key in options then options[key] else default
  }
}

/** What an awaited call into the device library did: returned normally, or
    raised one of the exceptions the integration distinguishes. */
module Outcomes {

  datatype Outcome =
    | Ok                        // the call returned
    | AuthFail                  // lmcloud.exceptions.AuthFail
    | RequestNotSuccessful      // lmcloud.exceptions.RequestNotSuccessful
    | SocketErr(errno: int)     // socket.error with its errno
    | OtherErr                  // any other Exception
}

/** Names the integration imports from its const module. That module is not
    part of this model: the strings below stand in for its values, and only
    their being pairwise distinct matters to the proofs. */
module Consts {

  /** The machine models the entity tables are keyed by; any other
      configured model name is OtherModel. */
  datatype ModelName = GS3_AV | GS3_MP | LM | LMU | OtherModel(name: string)

  const BREW_ACTIVE: string := "brew_active"
  const CONF_USE_WEBSOCKET: string := "use_websocket"
  const DATE_RECEIVED: string := "date_received"

  const MON: string := "mon"
  const TUE: string := "tue"
  const WED: string := "wed"
  const THU: string := "thu"
  const FRI: string := "fri"
  const SAT: string := "sat"
  const SUN: string := "sun"
}

/** Order preservation for the entity selections. */
module Seqs {

  /** a is b with some elements left out and the rest in their order. */
  predicate SubsequenceOf<T(==)>(a: seq<T>, b: seq<T>)
    decreases |b|
  {
    if |a| == 0 then true
    else if |b| == 0 then false
    else if a[0] == b[0] then SubsequenceOf(a[1..], b[1..])
    else SubsequenceOf(a, b[1..])
  }

  /** A subsequence of xs is a subsequence of [x] + xs. */
  lemma {:induction false} SubsequenceOfCons<T>(a: seq<T>, xs: seq<T>, x: T)
    requires SubsequenceOf(a, xs)
    ensures SubsequenceOf(a, [x] + xs)
    decreases |xs|, 1
  {
    assert ([x] + xs)[1..] == xs;
    if |a| > 0 && a[0] == x {
      SubsequenceDropFirst(a, xs);
    }
  }

  /** Dropping the first element of a subsequence keeps it a subsequence. */
  lemma {:induction false} SubsequenceDropFirst<T>(a: seq<T>, b: seq<T>)
    requires |a| > 0 && SubsequenceOf(a, b)
    ensures SubsequenceOf(a[1..], b)
    decreases |b|, 0
  {
    assert [b[0]] + b[1..] == b;
    if a[0] == b[0] {
      SubsequenceOfCons(a[1..], b[1..], b[0]);
    } else {
      SubsequenceDropFirst(a, b[1..]);
      SubsequenceOfCons(a[1..], b[1..], b[0]);
    }
  }
}
