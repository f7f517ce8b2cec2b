/**
 * ASCII letter case, as `toUpperCase()` / `toLowerCase()` and SQL `UPPER()` treat
 * the letters a–z and A–Z; every other character is left as it is.
 */
module Letras {

  function Maiuscula(c: char): (r: char)
    ensures !('a' <= r <= 'z')
    ensures !('a' <= c <= 'z') ==> r == c
    ensures 'a' <= c <= 'z' ==> r as int == c as int - 32
  {
    if 'a' <= c <= 'z' then (c as int - 32) as char else c
  }

  function Minuscula(c: char): (r: char)
    ensures !('A' <= r <= 'Z')
    ensures !('A' <= c <= 'Z') ==> r == c
    ensures 'A' <= c <= 'Z' ==> r as int == c as int + 32
  {
    if 'A' <= c <= 'Z' then (c as int + 32) as char else c
  }

  /** Upper case, character by character. */
  function Maiusculas(s: string): (r: string)
    ensures |r| == |s|
    ensures forall k :: 0 <= k < |s| ==> r[k] == Maiuscula(s[k])
  {
    seq(|s|, k requires 0 <= k < |s| => Maiuscula(s[k]))
  }

  /** Lower case, character by character. */
  function Minusculas(s: string): (r: string)
    ensures |r| == |s|
    ensures forall k :: 0 <= k < |s| ==> r[k] == Minuscula(s[k])
  {
    seq(|s|, k requires 0 <= k < |s| => Minuscula(s[k]))
  }

  /** Upper-casing twice is upper-casing once. */
  lemma {:induction false} MaiusculasIdempotente(s: string)
    ensures Maiusculas(Maiusculas(s)) == Maiusculas(s)
  {
    var u := Maiusculas(s);
    assert forall k :: 0 <= k < |u| ==> Maiuscula(u[k]) == u[k];
  }

  /** Lower-casing twice is lower-casing once. */
  lemma {:induction false} MinusculasIdempotente(s: string)
    ensures Minusculas(Minusculas(s)) == Minusculas(s)
  {
    var u := Minusculas(s);
    assert forall k :: 0 <= k < |u| ==> Minuscula(u[k]) == u[k];
  }

  // ---------------------------------------------------------------- code-point order

  /**
   * `a` sorts strictly before `b` in `Array.prototype.sort()` without a comparator:
   * character by character, a proper prefix first.
   */
  predicate Antes(a: string, b: string)
  {
    if a == [] then b != []
    else if b == [] then false
    else a[0] < b[0] || (a[0] == b[0] && Antes(a[1..], b[1..]))
  }

  lemma {:induction false} AntesIrreflexivo(a: string)
    ensures !Antes(a, a)
  {
    if a != [] {
      AntesIrreflexivo(a[1..]);
    }
  }

  lemma {:induction false} AntesAssimetrico(a: string, b: string)
    ensures !(Antes(a, b) && Antes(b, a))
  {
    if a != [] && b != [] && a[0] == b[0] {
      AntesAssimetrico(a[1..], b[1..]);
    }
  }

  lemma {:induction false} AntesTransitivo(a: string, b: string, c: string)
    requires Antes(a, b) && Antes(b, c)
    ensures Antes(a, c)
  {
    if a != [] && b != [] && c != [] && a[0] == b[0] && b[0] == c[0] {
      AntesTransitivo(a[1..], b[1..], c[1..]);
    }
  }

  /** Two different strings are always ordered one way or the other. */
  lemma {:induction false} AntesTotal(a: string, b: string)
    requires a != b
    ensures Antes(a, b) || Antes(b, a)
  {
    if a != [] && b != [] && a[0] == b[0] {
      assert a == [a[0]] + a[1..] && b == [b[0]] + b[1..];
      AntesTotal(a[1..], b[1..]);
    }
  }

  /** Strictly increasing, hence free of repetitions. */
  predicate Crescente(s: seq<string>)
  {
    forall i, j :: 0 <= i < j < |s| ==> Antes(s[i], s[j])
  }

  lemma {:induction false} CrescenteDistintos(s: seq<string>)
    requires Crescente(s)
    ensures forall i, j :: 0 <= i < j < |s| ==> s[i] != s[j]
  {
    forall i, j | 0 <= i < j < |s|
      ensures s[i] != s[j]
    {
      AntesIrreflexivo(s[i]);
    }
  }

  /** Inserts `x` into its place, or leaves the list as it is when `x` is already in it. */
  function InserirOrdenado(x: string, t: seq<string>): (r: seq<string>)
    ensures forall y :: y in r <==> y in t || y == x
  {
    if t == [] then [x]
    else
      var u := t[|t| - 1];
      assert t == t[..|t| - 1] + [u];
      if u == x then t
      else if Antes(u, x) then t + [x]
      else InserirOrdenado(x, t[..|t| - 1]) + [u]
  }

  lemma {:induction false} InserirCrescente(x: string, t: seq<string>)
    requires Crescente(t)
    ensures Crescente(InserirOrdenado(x, t))
  {
    if t != [] {
      var u := t[|t| - 1];
      var init := t[..|t| - 1];
      if u != x && Antes(u, x) {
        forall k | 0 <= k < |init|
          ensures Antes(init[k], x)
        {
          AntesTransitivo(init[k], u, x);
        }
      } else if u != x {
        AntesTotal(u, x);
        InserirCrescente(x, init);
        var r := InserirOrdenado(x, init);
        forall k | 0 <= k < |r|
          ensures Antes(r[k], u)
        {
          assert r[k] in init || r[k] == x;
        }
      }
    }
  }

  /** `Array.from(xs).sort()` over distinct values: the strings of `s`, increasing, once each. */
  function Ordenados(s: seq<string>): (r: seq<string>)
    ensures forall y :: y in r <==> y in s
    ensures Crescente(r)
  {
    if s == [] then []
    else
      assert s == s[..|s| - 1] + [s[|s| - 1]];
      var r := Ordenados(s[..|s| - 1]);
      InserirCrescente(s[|s| - 1], r);
      InserirOrdenado(s[|s| - 1], r)
  }

  /** At most one increasing list holds a given set of strings, so the order of the input is irrelevant. */
  lemma {:induction false} CrescenteUnico(a: seq<string>, b: seq<string>)
    requires Crescente(a) && Crescente(b)
    requires forall y :: y in a <==> y in b
    ensures a == b
  {
    if a != [] {
      assert a[0] in b;
    }
    if b != [] {
      assert b[0] in a;
    }
    if a != [] && b != [] {
      var x, y := a[|a| - 1], b[|b| - 1];
      assert y in a;
      assert x in b;
      AntesAssimetrico(x, y);
      var a', b' := a[..|a| - 1], b[..|b| - 1];
      forall z
        ensures z in a' <==> z in b'
      {
        AntesIrreflexivo(x);
        if z in a' {
          assert z in b;
        }
        if z in b' {
          assert z in a;
        }
      }
      CrescenteUnico(a', b');
      assert a == a' + [x] && b == b' + [y];
    }
  }
}
