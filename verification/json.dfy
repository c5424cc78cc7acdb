/** Decoded JSON values, as `json.load` hands them to the application, and
    Python's `str()` of the ones the application displays. */
module JsonValues {
  import opened Strings

  /** A decoded JSON value. Objects are dictionaries keyed by member name. */
  datatype Json =
    | Null
    | Bool(b: bool)
    | Number(n: int)
    | String(s: string)
    | Array(items: seq<Json>)
    | Object(members: map<string, Json>)

  /** `d.get(key, default)` on a decoded object. */
  function GetOr(members: map<string, Json>, key: string, default: Json): Json {
    if key in members then members[key] else default
  }

  function DigitChar(d: nat): (c: char)
    requires d < 10
    ensures IsDigit(c)
  {
    ('0' as int + d) as char
  }

  /** The number a string of decimal digits denotes, as `int(s)` reads it. */
  function DigitsValue(s: string): nat
    requires forall c | c in s :: IsDigit(c)
  {
    if s == [] then 0
    else
      var c := s[|s| - 1];
      assert c in s;
      assert IsDigit(c);
      10 * DigitsValue(s[..|s| - 1]) + (c as int - '0' as int)
  }

  /** The decimal numeral of a natural number: digits that denote it, with no
      leading zero. */
  function NatToString(n: nat): (r: string)
    ensures r != []
    ensures forall c | c in r :: IsDigit(c)
    ensures DigitsValue(r) == n
    ensures r[0] == '0' ==> r == "0"
  {
    if n < 10 then [DigitChar(n)]
    else
      var r := NatToString(n / 10) + [DigitChar(n % 10)];
      assert r[..|r| - 1] == NatToString(n / 10);
      r
  }

  /** The integer a number or a boolean counts as in Python arithmetic and comparison. */
  function PyNumber(j: Json): int
    requires j.Number? || j.Bool?
  {
    if j.Bool? then (if j.b then 1 else 0) else j.n
  }

  /** Python's `==` between two decoded values: equal values, and also a boolean
      and the number it counts as (`True == 1`, `False == 0`). */
  predicate PyEq(a: Json, b: Json)
    ensures a == b ==> PyEq(a, b)
    ensures a.String? || b.String? || a.Null? || b.Null? ==> (PyEq(a, b) <==> a == b)
    ensures a.Bool? && b.Number? ==> (PyEq(a, b) <==> b.n == (if a.b then 1 else 0))
  {
    || a == b
    || ((a.Bool? || a.Number?) && (b.Bool? || b.Number?) && PyNumber(a) == PyNumber(b))
  }

  /** Python's `str(v)` for the values a record field can hold. Arrays and objects
      (whose `str()` is their Python `repr`) render as the empty string here. */
  function Display(j: Json): (r: string)
    ensures j.String? ==> r == j.s
    ensures j.Number? ==> r != [] && (r[0] == '-' <==> j.n < 0)
    ensures j.Number? && 0 <= j.n ==> (forall c | c in r :: IsDigit(c)) && DigitsValue(r) == j.n
    ensures j.Number? && j.n < 0 ==> (forall c | c in r[1..] :: IsDigit(c)) && DigitsValue(r[1..]) == -j.n
    ensures j.Number? ==> (r[0] == '0' ==> r == "0") && (j.n < 0 ==> r[1] != '0')
    ensures j.Null? ==> r == "None"
    ensures j.Bool? ==> r == (if j.b then "True" else "False")
  {
    match j
    case Null => "None"
    case Bool(b) => if b then "True" else "False"
    case Number(n) =>
      if n < 0 then
        var d := NatToString(-n);
        var r := "-" + d;
        assert r[1..] == d;
        assert "0"[..0] == [];
        assert DigitsValue("0") == 0;
        r
      else
        var r := NatToString(n);
        assert r[0] in r;
        r
    case String(s) => s
    case Array(_) => ""
    case Object(_) => ""
  }

  /** Two numbers display alike only if they are equal. */
  lemma DisplayNumberInjective(m: int, n: int)
    requires Display(Number(m)) == Display(Number(n))
    ensures m == n
  {
    var r := Display(Number(m));
    if m < 0 {
      assert DigitsValue(r[1..]) == -m == -n;
    } else {
      assert DigitsValue(r) == m == n;
    }
  }
}
