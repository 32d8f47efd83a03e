/** Python values and the string helpers the rest of the model builds on. */
module Values {

  datatype Option<+T> = None | Some(value: T)

  datatype Result<+T, +E> = Ok(value: T) | Err(error: E)

  /** A Python value as the blog core sees one (instance attributes, query
      arguments, limits, configuration leaves).  `Opaque` stands for any other
      object that is not a container (a float, a timestamp); `text` is what
      `str()` gives for it.  Lists, sets and dictionaries are not leaf values. */
  datatype Value =
    | Null
    | Bool(b: bool)
    | Int(i: int)
    | Str(s: string)
    | Tuple(items: seq<Value>)
    | Opaque(text: string)

  /** `sep.join(parts)` on a list of strings. */
  function Join(parts: seq<string>, sep: string): (r: string)
    ensures parts == [] ==> r == ""
    ensures |parts| == 1 ==> r == parts[0]
  {
    if parts == [] then ""
    else if |parts| == 1 then parts[0]
    else parts[0] + sep + Join(parts[1..], sep)
  }

  /** Appending one more part to a non-empty list adds the separator and the part. */
  lemma {:induction false} JoinSnoc(parts: seq<string>, p: string, sep: string)
    requires parts != []
    ensures Join(parts + [p], sep) == Join(parts, sep) + sep + p
  {
    if |parts| == 1 {
      assert (parts + [p])[1..] == [p];
    } else {
      assert (parts + [p])[1..] == parts[1..] + [p];
      JoinSnoc(parts[1..], p, sep);
    }
  }

  /** Number of occurrences of `c` in `s`. */
  function Count(s: string, c: char): nat
  {
    if s == [] then 0 else (if s[0] == c then 1 else 0) + Count(s[1..], c)
  }

  lemma {:induction false} CountConcat(a: string, b: string, c: char)
    ensures Count(a + b, c) == Count(a, c) + Count(b, c)
  {
    if a != [] {
      assert (a + b)[1..] == a[1..] + b;
      CountConcat(a[1..], b, c);
    } else {
      assert a + b == b;
    }
  }

  /** Total number of occurrences of `c` in all the parts. */
  function CountAll(parts: seq<string>, c: char): nat
  {
    if parts == [] then 0 else Count(parts[0], c) + CountAll(parts[1..], c)
  }

  /** Joining with a separator free of `c` adds no occurrence of `c`. */
  lemma {:induction false} CountJoin(parts: seq<string>, sep: string, c: char)
    requires Count(sep, c) == 0
    ensures Count(Join(parts, sep), c) == CountAll(parts, c)
  {
    if |parts| > 1 {
      CountJoin(parts[1..], sep, c);
      CountConcat(parts[0], sep, c);
      CountConcat(parts[0] + sep, Join(parts[1..], sep), c);
    }
  }

  /** `n` copies of `s`. */
  function Repeat(s: string, n: nat): (r: seq<string>)
    ensures |r| == n && forall i :: 0 <= i < n ==> r[i] == s
  {
    seq(n, _ => s)
  }

  lemma {:induction false} CountAllRepeat(s: string, n: nat, c: char)
    ensures CountAll(Repeat(s, n), c) == n * Count(s, c)
  {
    if n > 0 {
      assert Repeat(s, n)[1..] == Repeat(s, n - 1);
      CountAllRepeat(s, n - 1, c);
    }
  }

  predicate StartsWith(s: string, prefix: string)
  {
    |prefix| <= |s| && s[..|prefix|] == prefix
  }

  /** `str.lower()` restricted to ASCII letters. */
  function Lower(s: string): (r: string)
    ensures |r| == |s|
    ensures forall i :: 0 <= i < |s| ==> r[i] == LowerChar(s[i])
  {
    seq(|s|, i requires 0 <= i < |s| => LowerChar(s[i]))
  }

  function LowerChar(c: char): char
  {
    if 'A' <= c <= 'Z' then (c as int + 32) as char else c
  }

  /** Decimal text of an integer, as `str(int)` prints it. */
  function DecimalString(n: int): (r: string)
    ensures r != []
    decreases if n < 0 then 1 - n else n
  {
    if n < 0 then "-" + DecimalString(-n)
    else if n < 10 then [DigitChar(n)]
    else DecimalString(n / 10) + [DigitChar(n % 10)]
  }

  function DigitChar(d: int): char
    requires 0 <= d < 10
  {
    (48 + d) as char
  }

  /** `str(v)`.  Strings inside a tuple print with single quotes; the escaping
      Python's `repr` applies to quotes and backslashes is not modelled. */
  function PyStr(v: Value): string
    decreases v, 1
  {
    match v
    case Null => "None"
    case Bool(b) => if b then "True" else "False"
    case Int(i) => DecimalString(i)
    case Str(s) => s
    case Opaque(t) => t
    case Tuple(items) =>
      "(" + Join(seq(|items|, k requires 0 <= k < |items| => PyRepr(items[k])), ", ")
      + (if |items| == 1 then ",)" else ")")
  }

  /** `repr(v)` as it appears inside a tuple's text. */
  function PyRepr(v: Value): string
    decreases v, 2
  {
    match v
    case Str(s) => "'" + s + "'"
    case _ => PyStr(v)
  }

  /** `sep.join(parts)` on a Python list: every item must be a string, else a
      `TypeError` is raised. */
  function PyJoin(parts: seq<Value>, sep: string): (r: Option<string>)
    ensures r.Some? <==> forall i :: 0 <= i < |parts| ==> parts[i].Str?
    ensures r.Some? ==> r.value == Join(StrParts(parts), sep)
  {
    if forall i :: 0 <= i < |parts| ==> parts[i].Str? then Some(Join(StrParts(parts), sep)) else None
  }

  /** The text of each string item; a non-string item gives "". */
  function StrParts(parts: seq<Value>): (r: seq<string>)
    ensures |r| == |parts|
    ensures forall i :: 0 <= i < |parts| && parts[i].Str? ==> r[i] == parts[i].s
  {
    seq(|parts|, i requires 0 <= i < |parts| => if parts[i].Str? then parts[i].s else "")
  }

  /** A list of Python strings. */
  function Strs(parts: seq<string>): (r: seq<Value>)
    ensures |r| == |parts|
    ensures forall i :: 0 <= i < |r| ==> r[i] == Str(parts[i])
    ensures StrParts(r) == parts
  {
    seq(|parts|, i requires 0 <= i < |parts| => Str(parts[i]))
  }

  /** `s` does not contain `c`; used for "no placeholder inside a name". */
  predicate NoChar(s: string, c: char)
  {
    forall i :: 0 <= i < |s| ==> s[i] != c
  }

  lemma {:induction false} NoCharCount(s: string, c: char)
    requires NoChar(s, c)
    ensures Count(s, c) == 0
  {
    if s != [] {
      NoCharCount(s[1..], c);
    }
  }

  /** The same fact stated with sequence membership, which the verifier
      decides on a string literal without searching over its indices. */
  lemma {:induction false} AbsentCount(s: string, c: char)
    requires c !in s
    ensures Count(s, c) == 0
  {
    if s != [] {
      assert s == [s[0]] + s[1..];
      AbsentCount(s[1..], c);
    }
  }
  /** `zip(a, b)`: pairs up to the shorter of the two. */
  function Zip<A, B>(a: seq<A>, b: seq<B>): (r: seq<(A, B)>)
    ensures |r| == if |a| < |b| then |a| else |b|
    ensures forall i :: 0 <= i < |r| ==> r[i] == (a[i], b[i])
  {
    var n := if |a| < |b| then |a| else |b|;
    seq(n, i requires 0 <= i < n => (a[i], b[i]))
  }

  /** `m` after `m[k] = v` for each pair in order: a later pair overwrites an
      earlier one and an entry of `m` with the same key. */
  function Overlay<V>(m: map<string, V>, pairs: seq<(string, V)>): map<string, V>
  {
    if pairs == [] then m
    else Overlay(m, pairs[..|pairs| - 1])[pairs[|pairs| - 1].0 := pairs[|pairs| - 1].1]
  }

  /** The keys of the overlay are those of `m` and of the pairs. */
  lemma {:induction false} OverlayKeys<V>(m: map<string, V>, pairs: seq<(string, V)>)
    ensures forall k :: k in Overlay(m, pairs) <==> k in m || exists i :: 0 <= i < |pairs| && pairs[i].0 == k
  {
    if pairs != [] {
      var init := pairs[..|pairs| - 1];
      OverlayKeys(m, init);
      forall k ensures k in Overlay(m, pairs) <==> k in m || exists i :: 0 <= i < |pairs| && pairs[i].0 == k
      {
        if exists i :: 0 <= i < |pairs| && pairs[i].0 == k {
          var i :| 0 <= i < |pairs| && pairs[i].0 == k;
          if i < |init| { assert init[i] == pairs[i]; }
        }
        if exists i :: 0 <= i < |init| && init[i].0 == k {
          var i :| 0 <= i < |init| && init[i].0 == k;
          assert pairs[i] == init[i];
        }
      }
    }
  }

  /** A key takes the value of its last pair. */
  lemma {:induction false} OverlayLast<V>(m: map<string, V>, pairs: seq<(string, V)>)
    ensures forall i :: 0 <= i < |pairs| && (forall j :: i < j < |pairs| ==> pairs[j].0 != pairs[i].0) ==>
      pairs[i].0 in Overlay(m, pairs) && Overlay(m, pairs)[pairs[i].0] == pairs[i].1
  {
    if pairs != [] {
      var init := pairs[..|pairs| - 1];
      OverlayLast(m, init);
      forall i | 0 <= i < |pairs| && (forall j :: i < j < |pairs| ==> pairs[j].0 != pairs[i].0)
        ensures pairs[i].0 in Overlay(m, pairs) && Overlay(m, pairs)[pairs[i].0] == pairs[i].1
      {
        if i < |init| {
          assert init[i] == pairs[i];
          assert forall j :: i < j < |init| ==> init[j] == pairs[j];
        }
      }
    }
  }

  /** A key of `m` that no pair names keeps its value. */
  lemma {:induction false} OverlayKept<V>(m: map<string, V>, pairs: seq<(string, V)>)
    ensures forall k :: k in m && (forall i :: 0 <= i < |pairs| ==> pairs[i].0 != k) ==>
      k in Overlay(m, pairs) && Overlay(m, pairs)[k] == m[k]
  {
    if pairs != [] {
      var init := pairs[..|pairs| - 1];
      OverlayKept(m, init);
      forall k | k in m && (forall i :: 0 <= i < |pairs| ==> pairs[i].0 != k)
        ensures k in Overlay(m, pairs) && Overlay(m, pairs)[k] == m[k]
      {
        assert forall i :: 0 <= i < |init| ==> init[i] == pairs[i];
      }
    }
  }
}
