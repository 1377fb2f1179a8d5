/**
 * Decoded configuration trees, PHP-style array access on them, and the
 * failure type shared by every builder.
 *
 * A configuration arrives as the result of decoding JSON into PHP arrays.
 * Lists and objects are both PHP arrays; a builder reads keys guarded by
 * `isset` (absent or null means "use the default") or unguarded, in which
 * case a missing key raises (the framework turns PHP notices and warnings
 * into exceptions).
 */
module Values {

  /** A decoded configuration node. */
  datatype Json =
    | JNull
    | JBool(b: bool)
    | JInt(n: int)
    | JString(s: string)
    | JList(items: seq<Json>)
    | JObject(fields: map<string, Json>)
  {
    /** PHP's is_array: decoded lists and decoded objects are both arrays. */
    predicate IsArray() { JList? || JObject? }
  }

  /** Why a build was aborted. */
  datatype Error =
    | Invalid(attribute: seq<string>)  // a field rule failed; the first failing attribute in rule order
    | NotAnArray                       // the validator was handed something that is not an array
    | UndefinedIndex(key: string)      // an unguarded read of a key that is not there
    | NotIterable                      // foreach over something that is not an array
    | UnorderedIteration               // foreach over a non-empty decoded object (order not modelled)
    | InvalidMessageType               // the top-level dispatcher met an unknown message type
    | TypeError                        // a string function was handed an array

  datatype Option<+T> = None | Some(value: T)

  datatype Result<+T> = Ok(value: T) | Err(error: Error)
  {
    predicate IsFailure() { Err? }

    /** The failure, retyped. `:-` calls it on failures only; it is total so that no check lands on a branch validation has ruled out. */
    function PropagateFailure<U>(): Result<U>
    {
      match this
      case Err(e) => Err(e)
      case Ok(_) => Err(TypeError)
    }

    function Extract(): T
      requires Ok?
    {
      value
    }
  }

  /** The outcome of a check that yields no value. */
  datatype Outcome = Pass | Fail(error: Error)
  {
    predicate IsFailure() { Fail? }

    function PropagateFailure<U>(): Result<U>
    {
      match this
      case Fail(e) => Err(e)
      case Pass => Err(TypeError)
    }

    /** The outcome as a result carrying no value, for use with `:-` in expressions. */
    function Checked(): Result<()>
    {
      if Pass? then Ok(()) else Err(error)
    }
  }

  /** Wraps a successful value in Some, keeping a failure. */
  function Lift<T>(r: Result<T>): Result<Option<T>>
  {
    match r
    case Ok(v) => Ok(Some(v))
    case Err(e) => Err(e)
  }

  /** isset($j[$key]): the key is there and its value is not null. */
  predicate IsSet(j: Json, key: string)
  {
    j.JObject? && key in j.fields && j.fields[key] != JNull
  }

  /** The key holds exactly the given string. */
  predicate HasString(j: Json, key: string, s: string)
  {
    j.JObject? && key in j.fields && j.fields[key] == JString(s)
  }

  /** `$x = default; if (isset($j[$key])) { $x = $j[$key]; }` */
  function FieldOr(j: Json, key: string, default: Json): Json
  {
    if IsSet(j, key) then j.fields[key] else default
  }

  /** `$x = NULL; if (isset($j[$key])) { $x = $j[$key]; }` */
  function Optional(j: Json, key: string): Json
  {
    FieldOr(j, key, JNull)
  }

  /** `$j[$key]` read without a guard. */
  function Index(j: Json, key: string): Result<Json>
  {
    if j.JObject? && key in j.fields then Ok(j.fields[key]) else Err(UndefinedIndex(key))
  }

  /** `$j[0]`: the first element of a list (decoding turns an object key "0" into 0). */
  function IndexFirst(j: Json): Result<Json>
  {
    if j.JList? && |j.items| > 0 then Ok(j.items[0])
    else if j.JObject? && "0" in j.fields then Ok(j.fields["0"])
    else Err(UndefinedIndex("0"))
  }

  /** The values `foreach ($j as $v)` visits, in order. */
  function Elements(j: Json): Result<seq<Json>>
  {
    match j
    case JList(items) => Ok(items)
    case JObject(fields) => if |fields| == 0 then Ok([]) else Err(UnorderedIteration)
    case _ => Err(NotIterable)
  }

  /** Every element foreach visits lies below the node it came from. */
  lemma ElementsBelow(j: Json)
    requires Elements(j).Ok?
    ensures forall k :: 0 <= k < |Elements(j).value| ==> Elements(j).value[k] < j
  {
  }

  /**
   * `switch ($j) { case 'label': ... }` under PHP 8 loose comparison, for a
   * label that is a non-empty, non-numeric string: a string matches only
   * itself, `true` matches every such label, and nothing else matches.
   */
  predicate Matches(j: Json, name: string)
  {
    j == JString(name) || j == JBool(true)
  }

  /** The decimal digits of a natural number. */
  function Digits(n: nat): (r: string)
    ensures |r| > 0
    ensures forall k :: 0 <= k < |r| ==> '0' <= r[k] <= '9'
  {
    var d := ['0' + (n % 10) as char];
    if n < 10 then d else Digits(n / 10) + d
  }

  /** PHP's (string) cast of an integer. */
  function DecimalString(n: int): (r: string)
    ensures |r| > 0
    ensures forall k :: 0 <= k < |r| ==> r[k] == '-' || '0' <= r[k] <= '9'
  {
    if n < 0 then "-" + Digits(-n) else Digits(n)
  }

  /**
   * Builds every element in order; the first failure aborts the whole
   * sequence. This is the shape of each `foreach ... $out[] = build(...)`.
   */
  function Traverse<T>(items: seq<Json>, build: Json -> Result<T>): Result<seq<T>>
  {
    if items == [] then Ok([])
    else
      match build(items[0])
      case Err(e) => Err(e)
      case Ok(head) =>
        match Traverse(items[1..], build)
        case Err(e) => Err(e)
        case Ok(tail) => Ok([head] + tail)
  }

  /** Building a concatenation builds the first part, then the second. */
  lemma {:induction false} TraverseAppend<T>(s: seq<Json>, t: seq<Json>, build: Json -> Result<T>)
    ensures Traverse(s + t, build) ==
      if Traverse(s, build).Err? then Traverse(s, build)
      else if Traverse(t, build).Err? then Traverse(t, build)
      else Ok(Traverse(s, build).value + Traverse(t, build).value)
  {
    if s == [] {
      assert s + t == t;
      assert Traverse(s, build) == Ok([]);
      if Traverse(t, build).Ok? {
        assert [] + Traverse(t, build).value == Traverse(t, build).value;
      }
    } else {
      assert (s + t)[0] == s[0];
      assert (s + t)[1..] == s[1..] + t;
      TraverseAppend(s[1..], t, build);
      if build(s[0]).Ok? && Traverse(s[1..], build).Ok? && Traverse(t, build).Ok? {
        var h := build(s[0]).value;
        assert Traverse(s, build).value == [h] + Traverse(s[1..], build).value;
        var a, b := Traverse(s[1..], build).value, Traverse(t, build).value;
        assert Traverse(s + t, build).value == [h] + (a + b);
        assert [h] + (a + b) == ([h] + a) + b;
      }
    }
  }

  /** One step of a building loop: the prefix grows by one built element, or the whole build fails. */
  lemma TraverseStep<T>(items: seq<Json>, i: nat, acc: seq<T>, build: Json -> Result<T>)
    requires i < |items|
    requires Traverse(items[..i], build) == Ok(acc)
    ensures build(items[i]).Ok? ==> Traverse(items[..i + 1], build) == Ok(acc + [build(items[i]).value])
    ensures build(items[i]).Err? ==> Traverse(items, build) == Err(build(items[i]).error)
  {
    assert items[..i + 1] == items[..i] + [items[i]];
    TraverseAppend(items[..i], [items[i]], build);
    assert [items[i]][1..] == [];
    assert Traverse([items[i]][1..], build) == Ok([]);
    if build(items[i]).Ok? {
      var v := build(items[i]).value;
      assert [items[i]][0] == items[i];
      assert [v] + [] == [v];
      assert Traverse([items[i]], build) == Ok([v]);
    }
    if build(items[i]).Err? {
      assert items == items[..i + 1] + items[i + 1..];
      TraverseAppend(items[..i + 1], items[i + 1..], build);
    }
  }

  /** A built sequence has one element per input, each built from the input at the same position. */
  ghost predicate BuiltPointwise<T>(items: seq<Json>, build: Json -> Result<T>, out: seq<T>)
  {
    |out| == |items| && forall k :: 0 <= k < |items| ==> build(items[k]) == Ok(out[k])
  }

  /** foreach over the value visits elements that all build. */
  ghost predicate AllBuild<T>(list: Json, build: Json -> Result<T>)
  {
    Elements(list).Ok? && forall k :: 0 <= k < |Elements(list).value| ==> build(Elements(list).value[k]).Ok?
  }

  /** Traverse succeeds exactly when every element builds, and then yields exactly those results in order. */
  lemma {:induction false} TraverseOk<T>(items: seq<Json>, build: Json -> Result<T>)
    ensures Traverse(items, build).Ok? <==> forall k :: 0 <= k < |items| ==> build(items[k]).Ok?
    ensures Traverse(items, build).Ok? ==> BuiltPointwise(items, build, Traverse(items, build).value)
  {
    if items != [] {
      TraverseOk(items[1..], build);
      if Traverse(items, build).Ok? {
        var out := Traverse(items, build).value;
        assert out == [build(items[0]).value] + Traverse(items[1..], build).value;
        forall k | 0 <= k < |items|
          ensures build(items[k]) == Ok(out[k])
        {
          if k > 0 {
            assert items[k] == items[1..][k - 1];
          }
        }
      } else if build(items[0]).Ok? {
        var k :| 0 <= k < |items[1..]| && build(items[1..][k]).Err?;
        assert items[k + 1] == items[1..][k];
      }
      if forall k :: 0 <= k < |items| ==> build(items[k]).Ok? {
        forall k | 0 <= k < |items[1..]|
          ensures build(items[1..][k]).Ok?
        {
          assert items[1..][k] == items[k + 1];
        }
      }
    }
  }

  /** A failed Traverse reports the error of the first element that failed to build. */
  lemma {:induction false} TraverseErr<T>(items: seq<Json>, build: Json -> Result<T>)
    requires Traverse(items, build).Err?
    ensures exists k :: 0 <= k < |items| && build(items[k]) == Err(Traverse(items, build).error)
                        && forall j :: 0 <= j < k ==> build(items[j]).Ok?
  {
    if build(items[0]).Err? {
      assert build(items[0]) == Err(Traverse(items, build).error);
    } else {
      TraverseErr(items[1..], build);
      var k :| 0 <= k < |items[1..]| && build(items[1..][k]) == Err(Traverse(items[1..], build).error)
               && forall j :: 0 <= j < k ==> build(items[1..][j]).Ok?;
      assert items[k + 1] == items[1..][k];
      forall j | 0 <= j < k + 1
        ensures build(items[j]).Ok?
      {
        if j > 0 {
          assert items[j] == items[1..][j - 1];
        }
      }
    }
  }
}
