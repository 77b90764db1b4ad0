/**
  The few JavaScript built-ins the handlers rely on, written out with the
  semantics ECMAScript gives them: truthiness and `||`, property access on an
  untyped argument record, `toUpperCase`, `Array.prototype.slice(0, end)`,
  `Math.round`, `String.prototype.trim`, and own-property lookup in an object
  literal.
 */
module JsBuiltins {
  import opened Wrappers

  /** A value that can arrive in an untyped argument record. Arrays, objects and
      functions are collapsed into JsObject: all of them are truthy. */
  datatype JsValue =
    | JsUndefined
    | JsNull
    | JsBool(b: bool)
    | JsNumber(n: real)
    | JsNaN
    | JsString(s: string)
    | JsObject

  /** The values `||` skips: undefined, null, false, 0, NaN and the empty string. */
  predicate Falsy(v: JsValue)
    ensures Falsy(v) <==> v in {JsUndefined, JsNull, JsBool(false), JsNumber(0.0), JsNaN, JsString("")}
  {
    match v
    case JsUndefined => true
    case JsNull => true
    case JsNaN => true
    case JsBool(b) => !b
    case JsNumber(n) => n == 0.0
    case JsString(s) => s == ""
    case JsObject => false
  }

  /** `v || fallback` */
  function Or(v: JsValue, fallback: JsValue): (r: JsValue)
    ensures Falsy(v) ==> r == fallback
    ensures !Falsy(v) ==> r == v
    ensures Falsy(r) ==> Falsy(v) && Falsy(fallback)
  {
    if Falsy(v) then fallback else v
  }

  /** `args.key` on a `Record<string, unknown>`: undefined when the key is absent. */
  function Arg(args: map<string, JsValue>, key: string): JsValue {
    if key in args then args[key] else JsUndefined
  }

  /** The upper-case mapping of one character, as far as it can matter here:
      ASCII letters, plus the two non-ASCII letters whose upper case is an ASCII
      letter (dotless i and long s). Every other character is left as it is. */
  function UpperChar(c: char): char {
    if 'a' <= c <= 'z' then (c as int - 32) as char
    else if c == '\U{0131}' then 'I'
    else if c == '\U{017F}' then 'S'
    else c
  }

  predicate IsLowerAscii(c: char) {
    'a' <= c <= 'z'
  }

  /** `s.toUpperCase()` */
  function ToUpper(s: string): (r: string)
    ensures |r| == |s|
    ensures forall i :: 0 <= i < |s| ==> r[i] == UpperChar(s[i])
    ensures forall i :: 0 <= i < |r| ==> !IsLowerAscii(r[i])
  {
    if s == [] then [] else [UpperChar(s[0])] + ToUpper(s[1..])
  }

  /** Upper-casing twice is upper-casing once. */
  lemma ToUpperIdempotent(s: string)
    ensures ToUpper(ToUpper(s)) == ToUpper(s)
  {
    var u := ToUpper(s);
    assert forall i :: 0 <= i < |u| ==> UpperChar(u[i]) == u[i];
  }

  /** ToIntegerOrInfinity on a finite number: truncation toward zero. */
  function Trunc(n: real): (k: int)
    ensures n >= 0.0 ==> k >= 0 && k as real <= n < k as real + 1.0
    ensures n < 0.0 ==> k <= 0 && k as real - 1.0 < n <= k as real
  {
    if n >= 0.0 then n.Floor else -((-n).Floor)
  }

  /** How many leading elements `a.slice(0, end)` keeps of an array of length len:
      a non-negative end is truncated and capped at len, a negative one counts
      back from the end of the array. */
  function SliceCount(len: nat, end: real): (k: nat)
    ensures k <= len
    ensures Trunc(end) >= 0 ==> k == if Trunc(end) < len then Trunc(end) else len
    ensures Trunc(end) < 0 ==> k == if len + Trunc(end) > 0 then len + Trunc(end) else 0
  {
    var e := Trunc(end);
    if e < 0 then (if len + e > 0 then len + e else 0)
    else if e < len then e
    else len
  }

  /** `Math.round(x)`: the nearest integer, halves rounded toward +infinity. */
  function Round(x: real): (k: int)
    ensures x - 0.5 < k as real <= x + 0.5
  {
    (x + 0.5).Floor
  }

  /** Math.round never reverses the order of its arguments. */
  lemma RoundMonotone(x: real, y: real)
    requires x <= y
    ensures Round(x) <= Round(y)
  {
  }

  /** The code points `trim` removes: ECMAScript's WhiteSpace (tab, vertical tab,
      form feed, space, no-break space, the byte order mark and the space
      separators) and LineTerminator (line feed, carriage return, line and
      paragraph separators). */
  predicate IsWhitespace(c: char) {
    || c == '\t' || c == '\U{000B}' || c == '\U{000C}' || c == ' '
    || c == '\U{00A0}' || c == '\U{FEFF}' || c == '\U{1680}'
    || ('\U{2000}' <= c <= '\U{200A}')
    || c == '\U{202F}' || c == '\U{205F}' || c == '\U{3000}'
    || c == '\n' || c == '\r' || c == '\U{2028}' || c == '\U{2029}'
  }

  predicate AllWhitespace(s: string) {
    forall i :: 0 <= i < |s| ==> IsWhitespace(s[i])
  }

  /** `s.trimStart()`: the suffix left after the leading white space. */
  function TrimStart(s: string): (r: string)
    ensures |r| <= |s| && r == s[|s| - |r|..]
    ensures forall i :: 0 <= i < |s| - |r| ==> IsWhitespace(s[i])
    ensures r != [] ==> !IsWhitespace(r[0])
  {
    if s != [] && IsWhitespace(s[0]) then
      var r := TrimStart(s[1..]);
      assert forall i :: 1 <= i < |s| ==> s[i] == s[1..][i - 1];
      r
    else s
  }

  /** `s.trimEnd()`: the prefix left before the trailing white space. */
  function TrimEnd(s: string): (r: string)
    ensures |r| <= |s| && r == s[..|r|]
    ensures forall i :: |r| <= i < |s| ==> IsWhitespace(s[i])
    ensures r != [] ==> !IsWhitespace(r[|r| - 1])
  {
    if s != [] && IsWhitespace(s[|s| - 1]) then
      var r := TrimEnd(s[..|s| - 1]);
      assert forall i :: 0 <= i < |s| - 1 ==> s[i] == s[..|s| - 1][i];
      r
    else s
  }

  /** `s.trim()`: s with its leading and trailing white space removed, so that
      what remains neither starts nor ends with white space. */
  function Trim(s: string): (r: string)
    ensures |r| <= |s|
    ensures exists i :: 0 <= i <= |s| - |r| && r == s[i..][..|r|] && AllWhitespace(s[..i]) && AllWhitespace(s[i..][|r|..])
    ensures r != [] ==> !IsWhitespace(r[0]) && !IsWhitespace(r[|r| - 1])
  {
    var t := TrimStart(s);
    var r := TrimEnd(t);
    var i := |s| - |t|;
    assert s[i..] == t && s[i..][..|r|] == r;
    assert AllWhitespace(s[..i]) by {
      assert forall k :: 0 <= k < i ==> s[..i][k] == s[k];
    }
    assert AllWhitespace(s[i..][|r|..]) by {
      assert forall k :: 0 <= k < |t| - |r| ==> t[|r|..][k] == t[|r| + k];
    }
    r
  }

  lemma {:induction false} TrimStartEmpty(s: string)
    ensures TrimStart(s) == [] <==> AllWhitespace(s)
  {
    if s != [] && IsWhitespace(s[0]) {
      TrimStartEmpty(s[1..]);
      assert AllWhitespace(s) <==> AllWhitespace(s[1..]) by {
        assert forall i :: 0 < i < |s| ==> s[i] == s[1..][i - 1];
      }
    }
  }

  lemma {:induction false} TrimEndEmpty(s: string)
    ensures TrimEnd(s) == [] <==> AllWhitespace(s)
  {
    if s != [] && IsWhitespace(s[|s| - 1]) {
      var p := s[..|s| - 1];
      TrimEndEmpty(p);
      assert AllWhitespace(s) <==> AllWhitespace(p) by {
        assert forall i :: 0 <= i < |p| ==> s[i] == p[i];
      }
    }
  }

  lemma {:induction false} TrimStartKeepsRest(s: string)
    ensures AllWhitespace(TrimStart(s)) ==> AllWhitespace(s)
  {
    if s != [] && IsWhitespace(s[0]) {
      TrimStartKeepsRest(s[1..]);
      assert forall i :: 0 < i < |s| ==> s[i] == s[1..][i - 1];
    }
  }

  /** The trimmed string is empty exactly when every character is white space. */
  lemma TrimEmpty(s: string)
    ensures Trim(s) == [] <==> AllWhitespace(s)
  {
    TrimEndEmpty(TrimStart(s));
    TrimStartEmpty(s);
    TrimStartKeepsRest(s);
  }

  /** The keys of an object literal given as its (key, value) entries, in order. */
  function KeysOf<V>(record: seq<(string, V)>): (ks: seq<string>)
    ensures |ks| == |record|
    ensures forall i :: 0 <= i < |record| ==> ks[i] == record[i].0
  {
    if record == [] then [] else [record[0].0] + KeysOf(record[1..])
  }

  predicate DistinctKeys<V>(record: seq<(string, V)>) {
    forall i, j :: 0 <= i < j < |record| ==> record[i].0 != record[j].0
  }

  /** `record[key]` restricted to own properties: the value of the entry with
      that key (the keys of every table are distinct), None when there is none. */
  function Get<V>(record: seq<(string, V)>, key: string): (r: Option<V>)
    ensures r.None? <==> forall i :: 0 <= i < |record| ==> record[i].0 != key
    ensures r.Some? ==> exists i :: 0 <= i < |record| && record[i] == (key, r.value)
  {
    if record == [] then None
    else if record[0].0 == key then Some(record[0].1)
    else
      var r := Get(record[1..], key);
      assert r.Some? ==> exists i :: 1 <= i < |record| && record[i] == (key, r.value) by {
        if r.Some? {
          var j :| 0 <= j < |record[1..]| && record[1..][j] == (key, r.value);
          assert record[j + 1] == (key, r.value);
        }
      }
      r
  }

  /** In a record whose keys are distinct, Get finds the value stored under a key. */
  lemma GetIsTheEntry<V>(record: seq<(string, V)>, i: nat)
    requires DistinctKeys(record)
    requires i < |record|
    ensures Get(record, record[i].0) == Some(record[i].1)
  {
    var r := Get(record, record[i].0);
    var j :| 0 <= j < |record| && record[j] == (record[i].0, r.value);
  }

  /** Two records with the same keys in the same order, whose values correspond
      under f, answer every lookup correspondingly. */
  lemma {:induction false} GetCorresponds<V, W>(a: seq<(string, V)>, b: seq<(string, W)>, key: string, f: V -> W)
    requires |a| == |b|
    requires forall i :: 0 <= i < |a| ==> a[i].0 == b[i].0 && f(a[i].1) == b[i].1
    ensures Get(a, key).None? <==> Get(b, key).None?
    ensures Get(a, key).Some? ==> Get(b, key) == Some(f(Get(a, key).value))
  {
    if a != [] && a[0].0 != key {
      GetCorresponds(a[1..], b[1..], key, f);
    }
  }

  /** Looking a key up in a prefix finds, when it finds anything, what the whole
      record holds under that key. */
  lemma {:induction false} GetPrefix<V>(record: seq<(string, V)>, n: nat, key: string)
    requires n <= |record|
    requires Get(record[..n], key).Some?
    ensures Get(record, key) == Get(record[..n], key)
  {
    if record[0].0 != key {
      assert record[..n][1..] == record[1..][..n - 1];
      GetPrefix(record[1..], n - 1, key);
    }
  }

  /** Two records with the same keys, distinct, find a key at the same position. */
  lemma SameKeysSameEntry<V, W>(a: seq<(string, V)>, b: seq<(string, W)>, i: nat)
    requires KeysOf(a) == KeysOf(b) && DistinctKeys(a)
    requires i < |a|
    ensures Get(a, a[i].0) == Some(a[i].1) && Get(b, a[i].0) == Some(b[i].1)
  {
    GetIsTheEntry(a, i);
    assert forall k :: 0 <= k < |a| ==> a[k].0 == KeysOf(a)[k] == KeysOf(b)[k] == b[k].0;
    GetIsTheEntry(b, i);
  }

  /** Two records with the same keys both miss a key that is not among them. */
  lemma SameKeysSameMiss<V, W>(a: seq<(string, V)>, b: seq<(string, W)>, key: string)
    requires KeysOf(a) == KeysOf(b)
    requires key !in KeysOf(a)
    ensures Get(a, key).None? && Get(b, key).None?
  {
    assert forall k :: 0 <= k < |a| ==> a[k].0 == KeysOf(a)[k];
    assert forall k :: 0 <= k < |b| ==> b[k].0 == KeysOf(b)[k];
  }

  /** `searchParams.get(name)?.toUpperCase() || fallback`: the upper-cased
      parameter, or the fallback when it is absent or empty. */
  function UpperCasedParam(q: Option<string>, fallback: string): (s: string)
    ensures q.None? || q.value == "" ==> s == fallback
    ensures q.Some? && q.value != "" ==> s == ToUpper(q.value) && s != ""
  {
    match q
    case None => fallback
    case Some(v) => if ToUpper(v) == "" then fallback else ToUpper(v)
  }
}
