/** Shared vocabulary for the credit-management front end: JavaScript-level
    helpers (truthiness of inputs, case folding, `includes`, `trim`,
    `filter`, `Math.max`, `reduce`) and the calendar abstraction. */
module Common {

  datatype Option<+T> = None | Some(value: T)

  // ---------------------------------------------------------------------------
  // Dates. A date is a month index (year * 12 + month) and a day within it;
  // adding months moves the month index, adding days moves the day. Calendar
  // normalisation (day 0, month overflow) is not modelled.

  datatype Fecha = Fecha(mes: int, dia: int)

  predicate FechaLeq(a: Fecha, b: Fecha) {
    a.mes < b.mes || (a.mes == b.mes && a.dia <= b.dia)
  }

  predicate FechaLt(a: Fecha, b: Fecha) {
    FechaLeq(a, b) && a != b
  }

  /** The date written `anio-mes-dia`. */
  function FechaDe(anio: int, mes: int, dia: int): Fecha {
    Fecha(anio * 12 + mes - 1, dia)
  }

  function AddMonths(f: Fecha, k: int): Fecha {
    Fecha(f.mes + k, f.dia)
  }

  function AddDays(f: Fecha, k: int): Fecha {
    Fecha(f.mes, f.dia + k)
  }

  /** A filter bound taken from a form field: left empty, a value, or text
      that `new Date` / `parseFloat` cannot read (every comparison with it
      is false, so it rejects every record). */
  datatype Bound<+T> = Unset | At(v: T) | Unreadable

  predicate FromDate(b: Bound<Fecha>, f: Fecha) {
    match b
    case Unset => true
    case At(d) => FechaLeq(d, f)
    case Unreadable => false
  }

  predicate UntilDate(b: Bound<Fecha>, f: Fecha) {
    match b
    case Unset => true
    case At(d) => FechaLeq(f, d)
    case Unreadable => false
  }

  predicate AtLeast(b: Bound<real>, x: real) {
    match b
    case Unset => true
    case At(v) => x >= v
    case Unreadable => false
  }

  predicate AtMost(b: Bound<real>, x: real) {
    match b
    case Unset => true
    case At(v) => x <= v
    case Unreadable => false
  }

  // ---------------------------------------------------------------------------
  // Identifiers read from a route or a select with parseInt: absent / NaN is
  // None, and 0 is falsy in JavaScript as well.

  predicate Truthy(id: Option<int>) {
    id.Some? && id.value != 0
  }

  // ---------------------------------------------------------------------------
  // Number inputs.

  /** A number field: blank (`''`), text the user typed (truthy, even "0"),
      or a number the component stored (falsy when 0). */
  datatype Campo = Vacio | Escrito(v: real) | Fijado(v: real)

  predicate CampoVerdadero(c: Campo) {
    match c
    case Vacio => false
    case Escrito(_) => true
    case Fijado(v) => v != 0.0
  }

  /** `parseFloat` of the field: `None` for NaN. */
  function ParseFloat(c: Campo): Option<real> {
    match c
    case Vacio => None
    case Escrito(v) => Some(v)
    case Fijado(v) => Some(v)
  }

  // ---------------------------------------------------------------------------
  // Case folding (`toLowerCase`) on ASCII and Latin-1 capitals.

  function LowerChar(c: char): (r: char)
    ensures 'A' <= c <= 'Z' ==> r as int == c as int + 32
    ensures !('A' <= c <= 'Z') && !('\U{00C0}' <= c <= '\U{00DE}' && c != '\U{00D7}') ==> r == c
  {
    if 'A' <= c <= 'Z' || ('\U{00C0}' <= c <= '\U{00DE}' && c != '\U{00D7}')
    then (c as int + 32) as char
    else c
  }

  function Lower(s: string): (r: string)
    ensures |r| == |s|
    ensures forall i :: 0 <= i < |s| ==> r[i] == LowerChar(s[i])
  {
    seq(|s|, i requires 0 <= i < |s| => LowerChar(s[i]))
  }

  lemma LowerIdempotent(s: string)
    ensures Lower(Lower(s)) == Lower(s)
  {
  }

  // ---------------------------------------------------------------------------
  // `String.prototype.includes`.

  predicate IsPrefix(p: string, s: string) {
    |p| <= |s| && s[..|p|] == p
  }

  predicate Contains(s: string, sub: string)
    decreases |s|
  {
    IsPrefix(sub, s) || (|s| > 0 && Contains(s[1..], sub))
  }

  predicate OccursAt(s: string, sub: string, i: int) {
    0 <= i <= |s| - |sub| && s[i..i + |sub|] == sub
  }

  /** An occurrence after the first character is one in the tail. */
  lemma OccursAtTail(s: string, sub: string, i: int)
    requires |s| > 0 && i >= 1
    ensures OccursAt(s, sub, i) <==> OccursAt(s[1..], sub, i - 1)
  {
    if 0 <= i <= |s| - |sub| {
      var a, b := s[i..i + |sub|], s[1..][i - 1..i - 1 + |sub|];
      assert forall k :: 0 <= k < |sub| ==> a[k] == b[k];
      assert a == b;
    }
  }

  /** `includes` is a search for an occurrence at some index. */
  lemma {:induction false} ContainsAt(s: string, sub: string)
    ensures Contains(s, sub) <==> exists i :: OccursAt(s, sub, i)
    decreases |s|
  {
    if IsPrefix(sub, s) {
      assert OccursAt(s, sub, 0);
    } else if |s| > 0 {
      ContainsAt(s[1..], sub);
      if Contains(s[1..], sub) {
        var i :| OccursAt(s[1..], sub, i);
        OccursAtTail(s, sub, i + 1);
      } else {
        forall i | OccursAt(s, sub, i)
          ensures false
        {
          if i > 0 {
            OccursAtTail(s, sub, i);
          }
        }
      }
    }
  }

  /** The three characters of an occurrence of a three-character text. */
  lemma OccursAtTres(s: string, sub: string, i: int)
    requires |sub| == 3 && OccursAt(s, sub, i)
    ensures s[i] == sub[0] && s[i + 1] == sub[1] && s[i + 2] == sub[2]
  {
    assert s[i..i + 3][0] == s[i] && s[i..i + 3][1] == s[i + 1] && s[i..i + 3][2] == s[i + 2];
  }

  /** A three-character text is not contained where its characters never
      appear in a row. */
  lemma NoContieneTres(s: string, sub: string)
    requires |sub| == 3
    requires forall i :: 0 <= i <= |s| - 3 ==> s[i] != sub[0] || s[i + 1] != sub[1] || s[i + 2] != sub[2]
    ensures !Contains(s, sub)
  {
    ContainsAt(s, sub);
    forall i | OccursAt(s, sub, i) ensures false {
      OccursAtTres(s, sub, i);
    }
  }

  // ---------------------------------------------------------------------------
  // `trim` and the whitespace class of regular expressions.

  predicate IsSpace(c: char) {
    c == ' ' || c == '\t' || c == '\n' || c == '\r' || c == '\U{000B}' || c == '\U{000C}'
    || c == '\U{00A0}' || c == '\U{1680}' || '\U{2000}' <= c <= '\U{200A}'
    || c == '\U{2028}' || c == '\U{2029}' || c == '\U{202F}' || c == '\U{205F}'
    || c == '\U{3000}' || c == '\U{FEFF}'
  }

  function TrimStart(s: string): (r: string)
    ensures |r| <= |s| && r == s[|s| - |r|..]
    ensures r != [] ==> !IsSpace(r[0])
  {
    if s != [] && IsSpace(s[0]) then TrimStart(s[1..]) else s
  }

  function TrimEnd(s: string): (r: string)
    ensures |r| <= |s| && r == s[..|r|]
    ensures r != [] ==> !IsSpace(r[|r| - 1])
  {
    if s != [] && IsSpace(s[|s| - 1]) then TrimEnd(s[..|s| - 1]) else s
  }

  function Trim(s: string): string {
    TrimEnd(TrimStart(s))
  }

  predicate AllSpace(s: string) {
    forall i :: 0 <= i < |s| ==> IsSpace(s[i])
  }

  /** `!s.trim()` holds exactly when the text is whitespace only. */
  lemma {:induction false} TrimEmptyIffBlank(s: string)
    ensures Trim(s) == [] <==> AllSpace(s)
    decreases |s|
  {
    if s != [] && IsSpace(s[0]) {
      TrimEmptyIffBlank(s[1..]);
      assert Trim(s) == Trim(s[1..]);
      assert AllSpace(s) <==> AllSpace(s[1..]) by {
        if AllSpace(s[1..]) {
          forall i | 0 <= i < |s| ensures IsSpace(s[i]) {
            if i > 0 { assert s[i] == s[1..][i - 1]; }
          }
        }
      }
    } else if s != [] {
      assert TrimStart(s) == s;
      assert TrimEnd(s) != [] by { TrimEndKeepsNonSpace(s); }
      assert !AllSpace(s);
    }
  }

  lemma {:induction false} TrimEndKeepsNonSpace(s: string)
    requires s != [] && !IsSpace(s[0])
    ensures TrimEnd(s) != []
    decreases |s|
  {
    if IsSpace(s[|s| - 1]) {
      assert |s| > 1;
      TrimEndKeepsNonSpace(s[..|s| - 1]);
    }
  }

  // ---------------------------------------------------------------------------
  // `Array.prototype.filter` and order-preserving subsequences.

  function Filter<T>(s: seq<T>, p: T -> bool): (r: seq<T>)
    ensures |r| <= |s|
  {
    if s == [] then [] else (if p(s[0]) then [s[0]] else []) + Filter(s[1..], p)
  }

  predicate IsSubseq<T(==)>(a: seq<T>, b: seq<T>)
    decreases |b|
  {
    a == [] || (b != [] && ((a[0] == b[0] && IsSubseq(a[1..], b[1..])) || IsSubseq(a, b[1..])))
  }

  /** The filtered list keeps the original order: it is a subsequence. */
  lemma {:induction false} FilterIsSubseq<T>(s: seq<T>, p: T -> bool)
    ensures IsSubseq(Filter(s, p), s)
    decreases |s|
  {
    if s != [] {
      FilterIsSubseq(s[1..], p);
      var r := Filter(s[1..], p);
      if p(s[0]) {
        assert Filter(s, p) == [s[0]] + r;
        assert ([s[0]] + r)[1..] == r;
      } else {
        assert Filter(s, p) == r;
      }
    }
  }

  /** An element survives the filter exactly when it was there and passes. */
  lemma {:induction false} FilterMembers<T>(s: seq<T>, p: T -> bool)
    ensures forall x :: x in Filter(s, p) <==> x in s && p(x)
    decreases |s|
  {
    if s != [] {
      FilterMembers(s[1..], p);
      assert s == [s[0]] + s[1..];
    }
  }

  /** `r` keeps, in their order, every occurrence in `s` of the elements that
      pass `p`, and nothing else. */
  ghost predicate FiltradoDe<T(!new)>(r: seq<T>, s: seq<T>, p: T -> bool) {
    IsSubseq(r, s) && forall x :: multiset(r)[x] == (if p(x) then multiset(s)[x] else 0)
  }

  /** The filter keeps each passing element as often as it occurs. */
  lemma {:induction false} FilterCuenta<T>(s: seq<T>, p: T -> bool)
    ensures forall x :: multiset(Filter(s, p))[x] == (if p(x) then multiset(s)[x] else 0)
    decreases |s|
  {
    if s != [] {
      FilterCuenta(s[1..], p);
      assert s == [s[0]] + s[1..];
      assert multiset(s) == multiset{s[0]} + multiset(s[1..]);
    }
  }

  lemma FilterEsFiltrado<T(!new)>(s: seq<T>, p: T -> bool)
    ensures FiltradoDe(Filter(s, p), s, p)
  {
    FilterIsSubseq(s, p);
    FilterCuenta(s, p);
  }

  /** A subsequence holds each element at most as often as the sequence. */
  lemma {:induction false} SubseqCuenta<T>(a: seq<T>, b: seq<T>)
    requires IsSubseq(a, b)
    ensures multiset(a) <= multiset(b)
    decreases |b|
  {
    if a != [] {
      assert b == [b[0]] + b[1..];
      if a[0] == b[0] && IsSubseq(a[1..], b[1..]) {
        SubseqCuenta(a[1..], b[1..]);
        assert a == [a[0]] + a[1..];
      } else {
        SubseqCuenta(a, b[1..]);
      }
    }
  }

  /** `FiltradoDe` pins the result: only the filter satisfies it. */
  lemma {:induction false} FiltradoDeUnico<T(!new)>(r: seq<T>, s: seq<T>, p: T -> bool)
    requires FiltradoDe(r, s, p)
    ensures r == Filter(s, p)
    decreases |s|
  {
    if s != [] {
      var a, t := s[0], s[1..];
      assert s == [a] + t;
      assert multiset(s) == multiset{a} + multiset(t);
      if p(a) {
        assert multiset(r)[a] == multiset(t)[a] + 1;
        if IsSubseq(r, t) {
          SubseqCuenta(r, t);
          assert false;
        }
        assert r[0] == a && IsSubseq(r[1..], t);
        assert r == [a] + r[1..];
        assert multiset(r) == multiset{a} + multiset(r[1..]);
        FiltradoDeUnico(r[1..], t, p);
      } else {
        assert multiset(r)[a] == 0;
        assert IsSubseq(r, t);
        FiltradoDeUnico(r, t, p);
      }
    }
  }

  /** Filtering twice is filtering once by the conjunction. */
  lemma {:induction false} FilterFilter<T>(s: seq<T>, p: T -> bool, q: T -> bool, pq: T -> bool)
    requires forall x :: pq(x) == (p(x) && q(x))
    ensures Filter(Filter(s, p), q) == Filter(s, pq)
    decreases |s|
  {
    if s != [] {
      FilterFilter(s[1..], p, q, pq);
      var rest := Filter(s[1..], p);
      if p(s[0]) {
        assert Filter(s, p) == [s[0]] + rest;
        assert ([s[0]] + rest)[1..] == rest;
        assert Filter([s[0]] + rest, q) == (if q(s[0]) then [s[0]] else []) + Filter(rest, q);
      } else {
        assert Filter(s, p) == rest;
      }
    }
  }

  /** Filtering distributes over concatenation. */
  lemma {:induction false} FilterConcat<T>(a: seq<T>, b: seq<T>, p: T -> bool)
    ensures Filter(a + b, p) == Filter(a, p) + Filter(b, p)
    decreases |a|
  {
    if a != [] {
      FilterConcat(a[1..], b, p);
      assert (a + b)[0] == a[0] && (a + b)[1..] == a[1..] + b;
    } else {
      assert a + b == b;
    }
  }

  /** One guarded step of a chain of filters: when the step is active the
      list is filtered again by `q`; either way the list is the filter of
      `s` by the conjunction so far. */
  lemma PasoDeFiltro<T>(s: seq<T>, p: T -> bool, q: T -> bool, pq: T -> bool, activo: bool)
    requires forall x :: pq(x) == (p(x) && (!activo || q(x)))
    ensures (if activo then Filter(Filter(s, p), q) else Filter(s, p)) == Filter(s, pq)
  {
    if activo {
      FilterFilter(s, p, q, pq);
    } else {
      FilterSame(s, p, pq);
    }
  }

  /** A filter every element passes changes nothing. */
  lemma {:induction false} FilterAll<T>(s: seq<T>, p: T -> bool)
    requires forall x :: x in s ==> p(x)
    ensures Filter(s, p) == s
    decreases |s|
  {
    if s != [] {
      assert forall x :: x in s[1..] ==> x in s;
      FilterAll(s[1..], p);
    }
  }

  /** A filter that only depends on what both predicates agree on. */
  lemma {:induction false} FilterSame<T>(s: seq<T>, p: T -> bool, q: T -> bool)
    requires forall x :: x in s ==> p(x) == q(x)
    ensures Filter(s, p) == Filter(s, q)
    decreases |s|
  {
    if s != [] {
      assert forall x :: x in s[1..] ==> x in s;
      FilterSame(s[1..], p, q);
    }
  }

  // ---------------------------------------------------------------------------
  // `Array.prototype.find`.

  /** `s[i]` is the first element of `s` that satisfies `p`. */
  predicate PrimeroQue<T>(s: seq<T>, p: T -> bool, i: int) {
    0 <= i < |s| && p(s[i]) && forall j :: 0 <= j < i ==> !p(s[j])
  }

  /** `s.find(p)`: the first element that satisfies `p`, or `None`
      (`undefined`) when none does. */
  function Find<T(==)>(s: seq<T>, p: T -> bool): (r: Option<T>)
    ensures r.None? <==> forall i :: 0 <= i < |s| ==> !p(s[i])
    ensures r.Some? ==> exists i :: PrimeroQue(s, p, i) && s[i] == r.value
    ensures r.Some? ==> r.value in s && p(r.value)
    decreases |s|
  {
    if s == [] then None
    else if p(s[0]) then
      assert PrimeroQue(s, p, 0);
      Some(s[0])
    else
      var r := Find(s[1..], p);
      if r.Some? then
        var i :| PrimeroQue(s[1..], p, i) && s[1..][i] == r.value;
        assert PrimeroQue(s, p, i + 1);
        r
      else
        r
  }

  /** The first element that passes a filter is what `find` returns. */
  lemma {:induction false} FindEsPrimeroDelFiltro<T>(s: seq<T>, p: T -> bool)
    ensures Filter(s, p) == [] <==> Find(s, p).None?
    ensures Filter(s, p) != [] ==> Find(s, p) == Some(Filter(s, p)[0])
    decreases |s|
  {
    if s != [] && !p(s[0]) {
      FindEsPrimeroDelFiltro(s[1..], p);
    }
  }

  // ---------------------------------------------------------------------------
  // `parseInt` of an identifier.

  /** The longest prefix of `s` made of digits. */
  function PrefijoDigitos(s: string): (p: string)
    ensures AllDigits(p) && IsPrefix(p, s)
    ensures |p| < |s| ==> !IsDigit(s[|p|])
  {
    if s != [] && IsDigit(s[0]) then [s[0]] + PrefijoDigitos(s[1..]) else []
  }

  /** `parseInt` of a text without sign or leading blanks: the value of its
      leading digits, or NaN (`None`) when it does not start with one. */
  function ParseInt(s: string): (n: Option<int>)
    ensures n.None? <==> s == [] || !IsDigit(s[0])
    ensures n.Some? ==> n.value >= 0
    ensures AllDigits(s) && s != [] ==> n == Some(DigitsValue(s))
    ensures forall k :: 0 < k <= |s| && AllDigits(s[..k]) && (k == |s| || !IsDigit(s[k])) ==>
              n == Some(DigitsValue(s[..k]))
  {
    var p := PrefijoDigitos(s);
    assert AllDigits(s) ==> p == s;
    forall k | 0 < k <= |s| && AllDigits(s[..k]) && (k == |s| || !IsDigit(s[k]))
      ensures p == s[..k]
    {
      PrefijoMaximo(s, k);
    }
    if p == [] then None else Some(DigitsValue(p))
  }

  /** A digit prefix that cannot be extended is the longest one. */
  lemma {:induction false} PrefijoMaximo(s: string, k: int)
    requires 0 <= k <= |s| && AllDigits(s[..k]) && (k == |s| || !IsDigit(s[k]))
    ensures PrefijoDigitos(s) == s[..k]
    decreases k
  {
    if k > 0 {
      assert s[..k][0] == s[0];
      var t := s[1..];
      var u := t[..k - 1];
      assert u == s[..k][1..];
      assert AllDigits(u) by {
        forall i | 0 <= i < |u| ensures IsDigit(u[i]) {
          assert u[i] == s[..k][i + 1];
        }
      }
      assert k - 1 < |t| ==> t[k - 1] == s[k];
      PrefijoMaximo(t, k - 1);
      assert s[..k] == [s[0]] + t[..k - 1];
    }
  }

  /** The client heading of a list page opened from a client's route. */
  datatype ClienteRuta = ClienteRuta(id: Option<int>, nombre: string)

  /** The heading the load effect sets from the route text and the client's
      list: none without an id; otherwise the id `parseInt` reads and the
      name on the list's first entry, or `"Cliente #"` and the route text
      when the list is empty. */
  function ClienteDeRuta<T>(ruta: string, lista: seq<T>, nombre: T -> string): (c: Option<ClienteRuta>)
    ensures c.None? <==> ruta == ""
    ensures c.Some? ==> c.value.id == ParseInt(ruta)
    ensures c.Some? && lista != [] ==> c.value.nombre == nombre(lista[0])
    ensures c.Some? && lista == [] ==> c.value.nombre == "Cliente #" + ruta
  {
    if ruta == "" then None
    else Some(ClienteRuta(ParseInt(ruta), if |lista| > 0 then nombre(lista[0]) else "Cliente #" + ruta))
  }

  /** The clients and operations a payment form is given to choose from. */
  datatype ClienteOpcion = ClienteOpcion(id: int, nombre: string)
  datatype OperacionOpcion = OperacionOpcion(id: int, clienteId: int, monto: real)

  // ---------------------------------------------------------------------------
  // Fresh identifiers: `Math.max(...ids) + 1`.

  function MaxOf(s: seq<int>): (m: int)
    requires s != []
    ensures m in s && forall x :: x in s ==> x <= m
  {
    if |s| == 1 then s[0]
    else
      var t := MaxOf(s[1..]);
      assert forall x :: x in s ==> x == s[0] || x in s[1..];
      if s[0] >= t then s[0] else t
  }

  /** `list.map(x => x.id)`. */
  function Ids<T>(s: seq<T>, id: T -> int): (ids: seq<int>)
    ensures |ids| == |s| && forall i :: 0 <= i < |s| ==> ids[i] == id(s[i])
  {
    seq(|s|, i requires 0 <= i < |s| => id(s[i]))
  }

  /** `ids.length > 0 ? Math.max(...ids) + 1 : 1`. */
  function NextId(ids: seq<int>): (n: int)
    ensures forall x :: x in ids ==> x < n
    ensures ids == [] ==> n == 1
    ensures ids != [] ==> n - 1 in ids
  {
    if ids == [] then 1 else MaxOf(ids) + 1
  }

  // ---------------------------------------------------------------------------
  // Decimal digits.

  predicate IsDigit(c: char) {
    '0' <= c <= '9'
  }

  predicate AllDigits(s: string) {
    forall i :: 0 <= i < |s| ==> IsDigit(s[i])
  }

  /** Value of a digit string, most significant digit first (`parseInt`). */
  function DigitsValue(s: string): nat
    requires AllDigits(s)
  {
    if s == [] then 0
    else DigitsValue(s[..|s| - 1]) * 10 + (s[|s| - 1] as int - '0' as int)
  }

  /** `n.toString()` for a non-negative integer. */
  function NatToString(n: nat): (s: string)
    ensures s != [] && AllDigits(s)
  {
    if n < 10 then [('0' as int + n) as char]
    else NatToString(n / 10) + [('0' as int + n % 10) as char]
  }

  /** `n.toString()` for any integer. */
  function IntToString(n: int): string {
    if n < 0 then "-" + NatToString(-n) else NatToString(n)
  }

  lemma {:induction false} NatToStringValue(n: nat)
    ensures DigitsValue(NatToString(n)) == n
  {
    if n >= 10 {
      NatToStringValue(n / 10);
      var s := NatToString(n);
      assert s[..|s| - 1] == NatToString(n / 10);
    }
  }
}
