/** Python values as the drivers see them: decoded JSON bodies, header
    dictionaries and `extra` dictionaries, with the subscripting, membership,
    truthiness and `int()`/`str()` rules the drivers depend on, and the
    exceptions those rules and the drivers raise. */
module PyValues {
  import opened Wrappers
  import opened Strings

  /** A Python value built from JSON-like parts; dictionary keys are strings. */
  datatype Value =
    | Null
    | Bool(b: bool)
    | Int(i: int)
    | Str(s: string)
    | List(items: seq<Value>)
    | Dict(entries: map<string, Value>)

  /** The exceptions raised by the modelled code, and by Python on its behalf. */
  datatype Error =
    | KeyError(key: string)
    | IndexError
    | TypeError
    | ValueError(reason: string)
    | AttributeError(attribute: string)
    | UnboundLocalError(variable: string)
    | StopIteration
    | IOError(path: string)
    | SslError(reason: string)
    | LibcloudError(message: Value)
    | InvalidCredsError
    | MalformedResponseError
    | ContainerAlreadyExistsError(container: string)
    | ContainerDoesNotExistError(container: string)
    | ContainerIsNotEmptyError(container: string)
    | ObjectDoesNotExistError(objectName: string)
    | ZoneDoesNotExistError(zoneId: Value)
    | RecordDoesNotExistError(recordId: Value)

  type Outcome<T> = Result<T, Error>

  /** Python truthiness (`if x:`). */
  predicate Truthy(v: Value) {
    match v
    case Null => false
    case Bool(b) => b
    case Int(i) => i != 0
    case Str(s) => s != ""
    case List(items) => items != []
    case Dict(entries) => entries != map[]
  }

  /** `v[key]` with a string key. */
  function Lookup(v: Value, key: string): (r: Outcome<Value>)
    ensures r.Success? <==> v.Dict? && key in v.entries
    ensures r.Success? ==> r.value == v.entries[key]
    ensures v.Dict? && key !in v.entries ==> r == Failure(KeyError(key))
  {
    match v
    case Dict(entries) => if key in entries then Success(entries[key]) else Failure(KeyError(key))
    case _ => Failure(TypeError)
  }

  /** `v[index]` with an integer index (non-negative, as the drivers use it):
      an element of a list, a one-character string of a string. */
  function Index(v: Value, index: nat): (r: Outcome<Value>)
    ensures r.Success? <==> (v.List? && index < |v.items|) || (v.Str? && index < |v.s|)
    ensures r.Success? && v.List? ==> r.value == v.items[index]
    ensures r.Success? && v.Str? ==> r.value == Str([v.s[index]])
    ensures (v.List? || v.Str?) && r.Failure? ==> r.error == IndexError
  {
    match v
    case List(items) => if index < |items| then Success(items[index]) else Failure(IndexError)
    case Str(s) => if index < |s| then Success(Str([s[index]])) else Failure(IndexError)
    case Dict(_) => Failure(KeyError(IntToString(index)))
    case _ => Failure(TypeError)
  }

  /** `key in v`: dictionary membership, list membership, substring test. */
  function Has(v: Value, key: string): (r: Outcome<bool>)
    ensures v.Dict? ==> r == Success(key in v.entries)
  {
    match v
    case Dict(entries) => Success(key in entries)
    case List(items) => Success(Str(key) in items)
    case Str(s) => Success(Contains(s, key))
    case _ => Failure(TypeError)
  }

  /** `extra or {}` (also written `extra if extra else {}`): a missing dictionary is an empty one. */
  function OrEmpty(d: Option<map<string, Value>>): (r: map<string, Value>)
    ensures d.Some? ==> r == d.value
    ensures d.None? ==> r == map[]
  {
    if d.Some? then d.value else map[]
  }

  /** `d.get(key, default)` on a dictionary. */
  function GetOr(d: map<string, Value>, key: string, default: Value): Value {
    if key in d then d[key] else default
  }

  /** `int(v)`. */
  function PyInt(v: Value): (r: Outcome<int>)
    ensures v.Int? ==> r == Success(v.i)
    ensures v.Str? ==> (r.Success? <==> ParseInt(v.s).Some?)
  {
    match v
    case Int(i) => Success(i)
    case Bool(b) => Success(if b then 1 else 0)
    case Str(s) =>
      (match ParseInt(s)
       case Some(i) => Success(i)
       case None => Failure(ValueError("invalid literal for int()")))
    case _ => Failure(TypeError)
  }

  /** `str(v)`; lists and dictionaries are rendered only schematically. */
  function PyStr(v: Value): string {
    match v
    case Null => "None"
    case Bool(b) => if b then "True" else "False"
    case Int(i) => IntToString(i)
    case Str(s) => s
    case List(_) => "[...]"
    case Dict(_) => "{...}"
  }

  /** The elements a `for` loop visits when each element is then subscripted
      with a string key: a list gives its items; an empty dictionary or string
      gives none; a non-empty dictionary or string yields strings, whose
      subscripting raises TypeError, as does iterating anything else. */
  function SubscriptableElements(v: Value): (r: Outcome<seq<Value>>)
    ensures r.Success? <==> v.List? || v == Dict(map[]) || v == Str("")
    ensures v.List? ==> r == Success(v.items)
  {
    match v
    case List(items) => Success(items)
    case Dict(entries) => if entries == map[] then Success([]) else Failure(TypeError)
    case Str(s) => if s == "" then Success([]) else Failure(TypeError)
    case _ => Failure(TypeError)
  }

  /** `outcome` with `prefix` put in front of a successful list. */
  function Prepend<T>(prefix: seq<T>, outcome: Outcome<seq<T>>): Outcome<seq<T>> {
    match outcome
    case Success(rest) => Success(prefix + rest)
    case Failure(e) => Failure(e)
  }

  lemma PrependNothing<T>(outcome: Outcome<seq<T>>)
    ensures Prepend([], outcome) == outcome
  {
    if outcome.Success? {
      assert [] + outcome.value == outcome.value;
    }
  }

  /** The `for x in items: result.append(f(x))` loop: the converted items in
      order, or the exception of the first item that fails. */
  function MapAll<A, B>(f: A -> Outcome<B>, items: seq<A>): Outcome<seq<B>> {
    if items == [] then Success([])
    else
      match f(items[0])
      case Failure(e) => Failure(e)
      case Success(b) => Prepend([b], MapAll(f, items[1..]))
  }

  /** The list conversion succeeds exactly when every item converts, and
      then has one result per item, in order. */
  lemma {:induction false} MapAllSpec<A, B>(f: A -> Outcome<B>, items: seq<A>)
    ensures MapAll(f, items).Success? <==> forall i :: 0 <= i < |items| ==> f(items[i]).Success?
    ensures MapAll(f, items).Success? ==>
      |MapAll(f, items).value| == |items| &&
      forall i :: 0 <= i < |items| ==> MapAll(f, items).value[i] == f(items[i]).value
  {
    if items != [] {
      MapAllSpec(f, items[1..]);
      assert forall i :: 1 <= i < |items| ==> items[i] == items[1..][i - 1];
      if f(items[0]).Success? && MapAll(f, items[1..]).Success? {
        var r := MapAll(f, items).value;
        assert r == [f(items[0]).value] + MapAll(f, items[1..]).value;
        assert forall i :: 1 <= i < |items| ==> r[i] == MapAll(f, items[1..]).value[i - 1];
      }
      if forall i :: 0 <= i < |items| ==> f(items[i]).Success? {
        assert forall i :: 0 <= i < |items| - 1 ==> f(items[1..][i]).Success? by {
          forall i | 0 <= i < |items| - 1 ensures f(items[1..][i]).Success? { assert items[1..][i] == items[i + 1]; }
        }
      }
    }
  }

  /** On failure, the exception is the one of the first item that fails. */
  lemma {:induction false} MapAllFirstFailure<A, B>(f: A -> Outcome<B>, items: seq<A>, k: nat)
    requires k < |items| && f(items[k]).Failure?
    requires forall i :: 0 <= i < k ==> f(items[i]).Success?
    ensures MapAll(f, items) == Failure(f(items[k]).error)
  {
    if k > 0 {
      assert forall i :: 0 <= i < k - 1 ==> items[1..][i] == items[i + 1];
      MapAllFirstFailure(f, items[1..], k - 1);
    }
  }

  /** The step a loop building `MapAll` takes over one more item. */
  lemma MapAllStep<A, B>(f: A -> Outcome<B>, items: seq<A>, i: nat, done: seq<B>)
    requires i < |items|
    ensures Prepend(done, MapAll(f, items[i..])) ==
      match f(items[i])
      case Failure(e) => Failure(e)
      case Success(b) => Prepend(done + [b], MapAll(f, items[i + 1..]))
  {
    assert items[i..][0] == items[i] && items[i..][1..] == items[i + 1..];
    if f(items[i]).Success? && MapAll(f, items[i + 1..]).Success? {
      var b, rest := f(items[i]).value, MapAll(f, items[i + 1..]).value;
      assert done + ([b] + rest) == done + [b] + rest;
    }
  }
}
