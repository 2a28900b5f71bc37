/** The slice of JavaScript semantics the relay relies on: the values
    `JSON.parse` can produce, truthiness of a property read, and the two
    string/array methods the message handlers call. */
module Js {
  import opened Wrappers

  /** A value decoded by `JSON.parse`. Of an object only one thing matters to
      the handlers: whether it has an own `toString` key, which shadows the
      inherited method with a value that cannot be called. */
  datatype JsValue =
    | JNull
    | JBool(b: bool)
    | JNum(n: real)
    | JStr(s: string)
    | JArr(elems: seq<JsValue>)
    | JObj(ownToString: bool)

  /** Truthiness of a property read; `None` is a missing property (`undefined`).
      `NaN` cannot come out of `JSON.parse`, so a number is falsy only when zero. */
  predicate Truthy(v: Option<JsValue>)
  {
    match v
    case None => false
    case Some(JNull) => false
    case Some(JBool(b)) => b
    case Some(JNum(n)) => n != 0.0
    case Some(JStr(s)) => s != ""
    case Some(JArr(_)) => true
    case Some(JObj(_)) => true
  }

  /** Whether converting `v` to a primitive (for `parseFloat`, `Number` or a
      template literal) throws a TypeError. Only objects can fail: neither an
      own `toString` that is not callable nor the inherited `valueOf`, which
      returns the object itself, yields a primitive, so an object with an own
      `toString` key throws, while any other object becomes "[object Object]".
      An array converts through `join`, which converts every element that is
      not `null`, so it throws exactly when one of its elements does. */
  function ToPrimitiveThrows(v: JsValue): (r: bool)
    ensures r ==> v.JObj? || v.JArr?
    ensures v.JObj? ==> (r <==> v.ownToString)
    ensures v.JArr? ==> (r <==> exists i :: 0 <= i < |v.elems| && ToPrimitiveThrows(v.elems[i]))
  {
    match v
    case JObj(own) => own
    case JArr(es) => exists i :: 0 <= i < |es| && ToPrimitiveThrows(es[i])
    case _ => false
  }

  /** Upper-casing of one character; only ASCII letters are mapped. */
  function UpperChar(c: char): (u: char)
    ensures !('a' <= u <= 'z')
    ensures 'a' <= c <= 'z' ==> u as int == c as int - 32
    ensures !('a' <= c <= 'z') ==> u == c
  {
    if 'a' <= c <= 'z' then (c as int - 32) as char else c
  }

  /** `String.prototype.toUpperCase`, character by character. */
  function ToUpper(s: string): (r: string)
    ensures |r| == |s|
    ensures forall i :: 0 <= i < |s| ==> r[i] == UpperChar(s[i])
  {
    if s == [] then [] else [UpperChar(s[0])] + ToUpper(s[1..])
  }

  /** Upper-casing twice is upper-casing once; `addTransaction` upper-cases a
      type the message handler has already upper-cased. */
  lemma ToUpperIdempotent(s: string)
    ensures ToUpper(ToUpper(s)) == ToUpper(s)
  {
  }

  /** An upper-case ASCII word `w` is matched by exactly the strings of its
      length that spell it in any mix of cases. */
  lemma {:induction false} CaseInsensitiveMatch(s: string, w: string)
    requires forall i :: 0 <= i < |w| ==> 'A' <= w[i] <= 'Z'
    ensures ToUpper(s) == w <==>
            |s| == |w| && forall i :: 0 <= i < |s| ==> s[i] == w[i] || s[i] as int == w[i] as int + 32
  {
    if ToUpper(s) == w {
      forall i | 0 <= i < |s|
        ensures s[i] == w[i] || s[i] as int == w[i] as int + 32
      {
        assert UpperChar(s[i]) == w[i];
      }
    }
    if |s| == |w| && forall i :: 0 <= i < |s| ==> s[i] == w[i] || s[i] as int == w[i] as int + 32 {
      forall i | 0 <= i < |s|
        ensures ToUpper(s)[i] == w[i]
      {
        assert s[i] == w[i] || s[i] as int == w[i] as int + 32;
      }
    }
  }

  /** `slice(-4)`: the last four elements, or all of them when there are fewer. */
  function Last4<T>(s: seq<T>): (r: seq<T>)
    ensures |r| == if |s| < 4 then |s| else 4
    ensures s == s[..|s| - |r|] + r
  {
    if |s| <= 4 then s else s[|s| - 4..]
  }

  /** An array's last four elements throw on conversion exactly when one of the
      source array's last four does: elements that `slice(-4)` drops cannot make
      the conversion fail. */
  lemma {:induction false} Last4Throws(es: seq<JsValue>)
    ensures ToPrimitiveThrows(JArr(Last4(es))) <==>
            exists i :: |es| - |Last4(es)| <= i < |es| && ToPrimitiveThrows(es[i])
  {
    var r := Last4(es);
    var d := |es| - |r|;
    assert forall j :: 0 <= j < |r| ==> r[j] == es[d + j];
    if ToPrimitiveThrows(JArr(r)) {
      var j :| 0 <= j < |r| && ToPrimitiveThrows(r[j]);
      assert ToPrimitiveThrows(es[d + j]);
    }
    if exists i :: d <= i < |es| && ToPrimitiveThrows(es[i]) {
      var i :| d <= i < |es| && ToPrimitiveThrows(es[i]);
      assert r[i - d] == es[i];
    }
  }

  /** `v.slice(-4)`: strings and arrays have the method; applying it to any
      other value throws a TypeError, which is `None` here. */
  function SliceLast4(v: JsValue): (r: Option<JsValue>)
    ensures r.Some? <==> v.JStr? || v.JArr?
    ensures v.JStr? ==> r == Some(JStr(Last4(v.s)))
    ensures v.JArr? ==> r == Some(JArr(Last4(v.elems)))
  {
    match v
    case JStr(s) => Some(JStr(Last4(s)))
    case JArr(a) => Some(JArr(Last4(a)))
    case _ => None
  }

  /** `v.toUpperCase()`: only strings have the method; on any other value it
      throws a TypeError, which is `None` here. */
  function UpperCase(v: JsValue): (r: Option<string>)
    ensures r.Some? <==> v.JStr?
    ensures v.JStr? ==> r == Some(ToUpper(v.s))
  {
    match v
    case JStr(s) => Some(ToUpper(s))
    case _ => None
  }
}
