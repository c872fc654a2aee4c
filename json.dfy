/** Parsed JSON values and the dictionaries (records) the client works on. */
module Json {

  /** A value held by a parsed JSON document, plus the one non-JSON value the client
      stores into records: a reference to the account dictionary that owns a record,
      represented by that account's position in the account list. */
  datatype Value =
    | Null
    | Bool(b: bool)
    | Num(x: real)
    | Str(s: string)
    | List(items: seq<Value>)
    | Obj(fields: map<string, Value>)
    | AccountRef(index: nat)

  /** A Python dictionary with string keys, as returned by `.json()`. */
  type Record = map<string, Value>

  /** The Python exceptions the modelled code can raise. */
  datatype Error =
    | KeyError(key: string)          // `d[key]` on a dictionary without that key
    | AttributeError(attribute: string) // a string method called on a value that is not a string
    | TypeError(what: string)        // item assignment on a JSON value that is not an object

  datatype Option<T> = None | Some(value: T)

  /** The outcome of a Python expression: a value, or the exception it raises. */
  datatype Result<T> = Ok(value: T) | Err(error: Error)

  /** A value Python compares as a number: `bool` is a subclass of `int`. */
  predicate IsNumeric(v: Value) {
    v.Bool? || v.Num?
  }

  function NumericValue(v: Value): real
    requires IsNumeric(v)
  {
    if v.Bool? then (if v.b then 1.0 else 0.0) else v.x
  }

  /** Python's `a == b` on these values: numbers and booleans compare by numeric value
      (`True == 1`, `False == 0.0`), lists element by element, dictionaries by keys and
      then value by value, everything else only with its own kind. */
  predicate PyEq(a: Value, b: Value)
    decreases a
  {
    if IsNumeric(a) || IsNumeric(b) then
      IsNumeric(a) && IsNumeric(b) && NumericValue(a) == NumericValue(b)
    else match a
      case Null => b.Null?
      case Str(s) => b.Str? && b.s == s
      case List(items) =>
        b.List? && |items| == |b.items| && forall k :: 0 <= k < |items| ==> PyEq(items[k], b.items[k])
      case Obj(fields) =>
        b.Obj? && fields.Keys == b.fields.Keys && forall key :: key in fields ==> PyEq(fields[key], b.fields[key])
      case AccountRef(i) => b.AccountRef? && b.index == i
      case _ => false
  }

  /** Every value equals itself. */
  lemma {:induction false} PyEqReflexive(a: Value)
    ensures PyEq(a, a)
    decreases a
  {
    match a
    case List(items) =>
      forall k | 0 <= k < |items| ensures PyEq(items[k], items[k]) {
        PyEqReflexive(items[k]);
      }
    case Obj(fields) =>
      forall key | key in fields ensures PyEq(fields[key], fields[key]) {
        PyEqReflexive(fields[key]);
      }
    case _ =>
  }

  /** Equality is not structural: `True == 1` and `[False] == [0.0]`, while two strings
      are equal only when they are the same string. */
  lemma PyEqExamples()
    ensures PyEq(Bool(true), Num(1.0)) && Bool(true) != Num(1.0)
    ensures PyEq(List([Bool(false)]), List([Num(0.0)]))
    ensures forall s, t :: PyEq(Str(s), Str(t)) <==> s == t
  {
    assert List([Bool(false)]).items[0] == Bool(false);
  }

  /** The JSON list holding the given records, in order: the value of an account's
      `Transactions` key. */
  function TxList(txs: seq<Record>): (v: Value)
    ensures v.List? && |v.items| == |txs|
    ensures forall k :: 0 <= k < |txs| ==> v.items[k] == Obj(txs[k])
  {
    List(seq(|txs|, k requires 0 <= k < |txs| => Obj(txs[k])))
  }

  /** Appending a record to the list is appending its object to the JSON list. */
  lemma TxListAppend(txs: seq<Record>, r: Record)
    ensures TxList(txs + [r]) == List(TxList(txs).items + [Obj(r)])
  {
    assert TxList(txs + [r]).items == TxList(txs).items + [Obj(r)];
  }
}
