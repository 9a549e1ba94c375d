/**
 * The dynamic values the dispatcher carries around: request bodies, query
 * parameters, configured `shouldReturn` payloads and decoded responses. A list
 * is `List`. An `Obj` is a PHP associative array where it comes from a declared
 * configuration, and a `stdClass` object where it comes from `json_decode` or
 * a cast; the two differ only in how they interpolate into a string.
 */
module Json {
  import opened Wrappers

  datatype Value =
    | Null
    | Bool(b: bool)
    | Num(n: int)
    | Str(s: string)
    | List(items: seq<Value>)
    | Obj(fields: map<string, Value>)

  /** `$v->name`: reading a property that is missing, or of something that is not an object, gives null. */
  function Field(v: Value, name: string): Value
  {
    if v.Obj? && name in v.fields then v.fields[name] else Null
  }

  function DigitChar(d: nat): char
    requires d < 10
  {
    ('0' as int + d) as char
  }

  /** Decimal digits of a natural number, most significant first. */
  function Digits(n: nat): (r: string)
    decreases n
  {
    if n < 10 then [DigitChar(n)] else Digits(n / 10) + [DigitChar(n % 10)]
  }

  /** A single digit is the rendering of exactly the numbers below ten. */
  lemma {:induction false} DigitsSingle(n: nat)
    ensures |Digits(n)| >= 1
    ensures |Digits(n)| == 1 <==> n < 10
    decreases n
  {
    if n >= 10 {
      DigitsSingle(n / 10);
    }
  }

  /** Distinct numbers have distinct renderings. */
  lemma {:induction false} DigitsInjective(m: nat, n: nat)
    requires Digits(m) == Digits(n)
    ensures m == n
    decreases m
  {
    DigitsSingle(m);
    DigitsSingle(n);
    if m < 10 {
      assert DigitChar(m) == Digits(m)[0] == DigitChar(n);
    } else {
      var dm, dn := Digits(m), Digits(n);
      assert dm[..|dm| - 1] == Digits(m / 10) && dn[..|dn| - 1] == Digits(n / 10);
      assert DigitChar(m % 10) == dm[|dm| - 1] == DigitChar(n % 10);
      DigitsInjective(m / 10, n / 10);
    }
  }

  /** PHP's rendering of an integer as a string. */
  function Decimal(n: int): string
  {
    if n < 0 then "-" + Digits(-n) else Digits(n)
  }

  /**
   * String interpolation of a value (`"{$v}"`): null and false give the empty
   * string, true gives "1", a list gives "Array"; an object cannot be converted
   * and PHP raises an Error, which is None here.
   */
  function ToText(v: Value): (r: Option<string>)
    ensures r.None? <==> v.Obj?
    ensures v.Str? ==> r == Some(v.s)
    ensures v.Null? || v == Bool(false) ==> r == Some("")
    ensures v.List? ==> r == Some("Array")
  {
    match v
    case Null => Some("")
    case Bool(b) => Some(if b then "1" else "")
    case Num(n) => Some(Decimal(n))
    case Str(s) => Some(s)
    case List(_) => Some("Array")
    case Obj(_) => None
  }

  /**
   * String interpolation of a value read from a declared configuration array,
   * where a nested array, associative or not, converts to "Array".
   */
  function ArrayText(v: Value): (r: string)
    ensures !v.Obj? ==> ToText(v) == Some(r)
    ensures v.Obj? ==> r == "Array"
  {
    match v
    case Obj(_) => "Array"
    case _ => ToText(v).value
  }

  /** The properties "0", "1", ... of a list cast to an object, from index `from` on. */
  function IndexedFields(items: seq<Value>, from: nat): map<string, Value>
    decreases |items| - from
  {
    if from >= |items| then map[] else IndexedFields(items, from + 1)[Digits(from) := items[from]]
  }

  lemma {:induction false} IndexedFieldsKeys(items: seq<Value>, from: nat)
    ensures IndexedFields(items, from).Keys == set i: nat | from <= i < |items| :: Digits(i)
    decreases |items| - from
  {
    if from < |items| {
      IndexedFieldsKeys(items, from + 1);
      assert IndexedFields(items, from).Keys == IndexedFields(items, from + 1).Keys + {Digits(from)};
      assert (set i: nat | from <= i < |items| :: Digits(i)) == (set i: nat | from + 1 <= i < |items| :: Digits(i)) + {Digits(from)};
    }
  }

  /**
   * The cast `(object) $v`: an object stays itself, null becomes the empty
   * object, a list becomes an object keyed by its indices and any other scalar
   * becomes an object with the single property "scalar".
   */
  lemma {:induction false} IndexedFieldsValues(items: seq<Value>, from: nat)
    ensures forall i :: from <= i < |items| ==> Digits(i) in IndexedFields(items, from) && IndexedFields(items, from)[Digits(i)] == items[i]
    decreases |items| - from
  {
    if from < |items| {
      IndexedFieldsValues(items, from + 1);
      forall i | from < i < |items|
        ensures Digits(i) != Digits(from)
      {
        if Digits(i) == Digits(from) {
          DigitsInjective(i, from);
        }
      }
    }
  }

  function AsObject(v: Value): (r: Value)
    ensures r.Obj?
    ensures v.Obj? ==> r == v
    ensures v == Null ==> r.fields == map[]
    ensures !v.Obj? && !v.Null? && !v.List? ==> r.fields.Keys == {"scalar"} && r.fields["scalar"] == v
    ensures v.List? ==> r.fields.Keys == set i: nat | i < |v.items| :: Digits(i)
    ensures v.List? ==> forall i :: 0 <= i < |v.items| ==> r.fields[Digits(i)] == v.items[i]
  {
    match v
    case Obj(_) => v
    case Null => Obj(map[])
    case List(items) =>
      IndexedFieldsKeys(items, 0);
      IndexedFieldsValues(items, 0);
      Obj(IndexedFields(items, 0))
    case _ => Obj(map["scalar" := v])
  }
}
