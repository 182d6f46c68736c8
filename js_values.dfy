/** The JavaScript values that make up a declarative layer-options object, the
    pieces of JavaScript semantics the component relies on (truthiness, `||`,
    string conversion), and the option normalisation `makeOptions`. */
module JsValues {

  /** A serialisable JavaScript value. Numbers are modelled as integers. */
  datatype Value =
    | Undefined
    | Null
    | Bool(b: bool)
    | Num(n: int)
    | Str(s: string)
    | List(elems: seq<Value>)
    | Obj(fields: map<string, Value>)

  /** JavaScript truthiness: `undefined`, `null`, `false`, `0` and `""` are falsy. */
  predicate Truthy(v: Value) {
    match v
    case Undefined => false
    case Null => false
    case Bool(b) => b
    case Num(n) => n != 0
    case Str(s) => s != ""
    case List(_) => true
    case Obj(_) => true
  }

  /** `a || b`: the first operand when it is truthy, otherwise the second. */
  function Or(a: Value, b: Value): Value {
    if Truthy(a) then a else b
  }

  /** Reference reading of `c0 || c1 || ... || otherwise`: the first truthy
      candidate, or `otherwise` when there is none. */
  function FirstTruthy(cs: seq<Value>, otherwise: Value): (r: Value)
    ensures (forall i :: 0 <= i < |cs| ==> !Truthy(cs[i])) ==> r == otherwise
    ensures forall i :: 0 <= i < |cs| && Truthy(cs[i]) && (forall j :: 0 <= j < i ==> !Truthy(cs[j])) ==> r == cs[i]
  {
    if cs == [] then otherwise
    else if Truthy(cs[0]) then cs[0]
    else
      assert forall i :: 1 <= i < |cs| ==> cs[i] == cs[1..][i - 1];
      FirstTruthy(cs[1..], otherwise)
  }

  /** The `||` chain `a || b || c || d` picks what FirstTruthy picks. */
  lemma OrChainIsFirstTruthy(a: Value, b: Value, c: Value, d: Value)
    ensures Or(Or(Or(a, b), c), d) == FirstTruthy([a, b, c], d)
  {
    var cs := [a, b, c];
    if Truthy(a) {
    } else if Truthy(b) {
      assert forall j :: 0 <= j < 1 ==> !Truthy(cs[j]);
    } else if Truthy(c) {
      assert forall j :: 0 <= j < 2 ==> !Truthy(cs[j]);
      assert Truthy(cs[2]);
    } else {
      assert forall i :: 0 <= i < |cs| ==> !Truthy(cs[i]);
    }
  }

  function DigitChar(d: nat): char
    requires d < 10
  {
    "0123456789"[d]
  }

  /** Decimal digits of a natural number. */
  function Digits(n: nat): string
    decreases n
  {
    (if n < 10 then "" else Digits(n / 10)) + [DigitChar(n % 10)]
  }

  /** `Array.prototype.join` with the default separator. */
  function Join(parts: seq<string>): string
    decreases |parts|
  {
    if |parts| == 0 then ""
    else if |parts| == 1 then parts[0]
    else parts[0] + "," + Join(parts[1..])
  }

  /** JavaScript's `String(v)`, which is also how `v` becomes a property key and
      how `+` joins it to a string. */
  function JsString(v: Value): string {
    match v
    case Undefined => "undefined"
    case Null => "null"
    case Bool(b) => if b then "true" else "false"
    case Num(n) => if n < 0 then "-" + Digits(-n) else Digits(n)
    case Str(s) => s
    case List(es) =>
      Join(seq(|es|, i requires 0 <= i < |es| => if es[i].Undefined? || es[i].Null? then "" else JsString(es[i])))
    case Obj(_) => "[object Object]"
  }

  /** A layer-options object. */
  type Options = map<string, Value>

  /** Property read: a missing key reads as `undefined`. */
  function Get(o: Options, key: string): Value {
    if key in o then o[key] else Undefined
  }

  /** `makeOptions`: every field of `o` is kept, `projection` is resolved from
      `srs`, `crs`, `projection` and the component's default projection, and a
      missing `opacity` becomes 255. */
  function Normalize(o: Options, fallback: Value): (r: Options)
    ensures r.Keys == o.Keys + {"projection", "opacity"}
    ensures Get(o, "opacity") != Undefined ==> r["opacity"] == o["opacity"]
    ensures Get(o, "opacity") == Undefined ==> r["opacity"] == Num(255)
  {
    o["projection" := Or(Or(Or(Get(o, "srs"), Get(o, "crs")), Get(o, "projection")), fallback)]
     ["opacity" := if Get(o, "opacity") != Undefined then Get(o, "opacity") else Num(255)]
  }

  /** Normalisation copies every other field unchanged and resolves the
      projection as the first truthy of `srs`, `crs`, `projection`, falling
      back to the default. */
  lemma NormalizeFields(o: Options, fallback: Value)
    ensures forall k :: k in o && k != "projection" && k != "opacity" ==> Normalize(o, fallback)[k] == o[k]
    ensures Normalize(o, fallback)["projection"] ==
            FirstTruthy([Get(o, "srs"), Get(o, "crs"), Get(o, "projection")], fallback)
  {
    OrChainIsFirstTruthy(Get(o, "srs"), Get(o, "crs"), Get(o, "projection"), fallback);
  }

  /** lodash `isEqual(omit(a, ["loading"]), omit(b, ["loading"]))`: deep value
      equality of the two objects once the `loading` key is removed. */
  predicate SameIgnoringLoading(a: Options, b: Options): (r: bool)
    ensures r ==> forall k :: k in a && k != "loading" ==> k in b && a[k] == b[k]
  {
    var same := a - {"loading"} == b - {"loading"};
    assert same ==> forall k :: k in a && k != "loading" ==> k in b && a[k] == b[k] by {
      if same {
        forall k | k in a && k != "loading" ensures k in b && a[k] == b[k] {
          assert k in a - {"loading"};
          assert (a - {"loading"})[k] == a[k];
        }
      }
    }
    same
  }

  /** The skip test holds exactly when both objects have the same keys and the
      same values everywhere except possibly at `loading`. */
  lemma SameIgnoringLoadingPointwise(a: Options, b: Options)
    ensures SameIgnoringLoading(a, b) <==>
            forall k :: k != "loading" ==> (k in a <==> k in b) && Get(a, k) == Get(b, k)
  {
    if forall k :: k != "loading" ==> (k in a <==> k in b) && Get(a, k) == Get(b, k) {
      var a', b' := a - {"loading"}, b - {"loading"};
      assert a'.Keys == b'.Keys;
      forall k | k in a' ensures a'[k] == b'[k] {
        assert Get(a, k) == Get(b, k);
      }
    }
    if SameIgnoringLoading(a, b) {
      forall k | k != "loading" ensures (k in a <==> k in b) && Get(a, k) == Get(b, k) {
        assert k in a <==> k in a - {"loading"};
        assert k in b <==> k in b - {"loading"};
      }
    }
  }

  /** Normalising twice gives the same options as normalising once. */
  lemma NormalizeIdempotent(o: Options, fallback: Value)
    ensures Normalize(Normalize(o, fallback), fallback) == Normalize(o, fallback)
  {
    var n := Normalize(o, fallback);
    var nn := Normalize(n, fallback);
    assert nn.Keys == n.Keys;
    assert Get(n, "srs") == Get(o, "srs") && Get(n, "crs") == Get(o, "crs");
    assert nn["projection"] == n["projection"];
    forall k | k in nn ensures nn[k] == n[k] {
    }
  }

  /** A change of the `loading` field alone never passes the skip test's
      "changed" branch: the normalised options agree once `loading` is removed. */
  lemma LoadingOnlyChangeIsSkipped(o: Options, v: Value, fallback: Value)
    ensures SameIgnoringLoading(Normalize(o["loading" := v], fallback), Normalize(o, fallback))
  {
    var a := Normalize(o["loading" := v], fallback);
    var b := Normalize(o, fallback);
    assert Get(o["loading" := v], "srs") == Get(o, "srs");
    assert Get(o["loading" := v], "crs") == Get(o, "crs");
    assert Get(o["loading" := v], "projection") == Get(o, "projection");
    assert Get(o["loading" := v], "opacity") == Get(o, "opacity");
    SameIgnoringLoadingPointwise(a, b);
  }

  /** The `||` chain yields one of its operands, and a truthy one whenever
      some candidate is truthy. */
  lemma {:induction false} FirstTruthyPicksCandidate(cs: seq<Value>, otherwise: Value)
    ensures FirstTruthy(cs, otherwise) in cs || FirstTruthy(cs, otherwise) == otherwise
    ensures (exists i :: 0 <= i < |cs| && Truthy(cs[i])) ==> Truthy(FirstTruthy(cs, otherwise))
    decreases |cs|
  {
    if cs != [] && !Truthy(cs[0]) {
      FirstTruthyPicksCandidate(cs[1..], otherwise);
      assert forall i :: 1 <= i < |cs| ==> cs[i] == cs[1..][i - 1];
    }
  }
}
