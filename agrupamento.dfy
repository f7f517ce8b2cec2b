/**
 * Grouping rows by a key into a dictionary of lists, as the permission listings do:
 * `if (!g[k]) g[k] = []; g[k].push(item)` for every row, in order.
 */
module Agrupamento {

  /** The items of the rows whose key is `m`, in the order of the rows. */
  function Grupo<T, U>(xs: seq<T>, chave: T -> string, item: T -> U, m: string): (r: seq<U>)
    ensures |r| <= |xs|
  {
    if xs == [] then []
    else
      Grupo(xs[..|xs| - 1], chave, item, m)
      + (if chave(xs[|xs| - 1]) == m then [item(xs[|xs| - 1])] else [])
  }

  /** A group is empty exactly when no row carries its key. */
  lemma {:induction false} GrupoVazio<T, U>(xs: seq<T>, chave: T -> string, item: T -> U, m: string)
    ensures Grupo(xs, chave, item, m) == [] <==> forall k :: 0 <= k < |xs| ==> chave(xs[k]) != m
  {
    if xs != [] {
      GrupoVazio(xs[..|xs| - 1], chave, item, m);
      assert forall k :: 0 <= k < |xs| - 1 ==> xs[..|xs| - 1][k] == xs[k];
    }
  }

  /** Every row lands in the group of its own key. */
  lemma {:induction false} GrupoContem<T, U>(xs: seq<T>, chave: T -> string, item: T -> U, k: nat)
    requires k < |xs|
    ensures item(xs[k]) in Grupo(xs, chave, item, chave(xs[k]))
  {
    if k < |xs| - 1 {
      GrupoContem(xs[..|xs| - 1], chave, item, k);
    }
  }

  /** A group of the rows before `k` grows by the `k`-th row exactly when that row has its key. */
  lemma {:induction false} GrupoPasso<T, U>(xs: seq<T>, chave: T -> string, item: T -> U, m: string, k: nat)
    requires k < |xs|
    ensures Grupo(xs[..k + 1], chave, item, m)
         == Grupo(xs[..k], chave, item, m) + (if chave(xs[k]) == m then [item(xs[k])] else [])
  {
    assert xs[..k + 1][..k] == xs[..k];
  }

  /** Row `k` extends its own key's group and no other. */
  lemma {:induction false} GruposPasso<T, U>(xs: seq<T>, chave: T -> string, item: T -> U, k: nat)
    requires k < |xs|
    ensures forall n :: Grupo(xs[..k + 1], chave, item, n)
                        == Grupo(xs[..k], chave, item, n) + (if chave(xs[k]) == n then [item(xs[k])] else [])
  {
    forall n
      ensures Grupo(xs[..k + 1], chave, item, n)
           == Grupo(xs[..k], chave, item, n) + (if chave(xs[k]) == n then [item(xs[k])] else [])
    {
      GrupoPasso(xs, chave, item, n, k);
    }
  }

  /** The distinct keys of the rows, each where it first appears. */
  function Chaves<T>(xs: seq<T>, chave: T -> string): (r: seq<string>)
    ensures forall m :: m in r <==> exists k :: 0 <= k < |xs| && chave(xs[k]) == m
    ensures forall i, j :: 0 <= i < j < |r| ==> r[i] != r[j]
  {
    if xs == [] then []
    else
      var init := Chaves(xs[..|xs| - 1], chave);
      assert forall k :: 0 <= k < |xs| - 1 ==> xs[..|xs| - 1][k] == xs[k];
      init + (if chave(xs[|xs| - 1]) in init then [] else [chave(xs[|xs| - 1])])
  }

  /** A key not seen before row `k` is appended to the keys; no earlier row carries it. */
  lemma {:induction false} ChavesNova<T>(xs: seq<T>, chave: T -> string, k: nat)
    requires k < |xs| && chave(xs[k]) !in Chaves(xs[..k], chave)
    ensures Chaves(xs[..k + 1], chave) == Chaves(xs[..k], chave) + [chave(xs[k])]
    ensures forall j :: 0 <= j < k ==> chave(xs[j]) != chave(xs[k])
  {
    assert xs[..k + 1][..k] == xs[..k];
    forall j | 0 <= j < k
      ensures chave(xs[j]) != chave(xs[k])
    {
      assert xs[..k][j] == xs[j];
    }
  }

  /** A key already seen before row `k` leaves the keys as they were. */
  lemma {:induction false} ChavesVista<T>(xs: seq<T>, chave: T -> string, k: nat)
    requires k < |xs| && chave(xs[k]) in Chaves(xs[..k], chave)
    ensures Chaves(xs[..k + 1], chave) == Chaves(xs[..k], chave)
  {
    assert xs[..k + 1][..k] == xs[..k];
  }

  /**
   * The grouping loop. `chaves` lists the keys in the order they first appear, as
   * `Object.keys` of the dictionary does.
   */
  method Agrupar<T, U>(xs: seq<T>, chave: T -> string, item: T -> U) returns (g: map<string, seq<U>>, chaves: seq<string>)
    ensures forall m :: m in g <==> exists k :: 0 <= k < |xs| && chave(xs[k]) == m
    ensures forall m :: m in g ==> g[m] == Grupo(xs, chave, item, m)
    ensures chaves == Chaves(xs, chave)
  {
    g := map[];
    chaves := [];
    var k := 0;
    assert xs[..0] == [];
    while k < |xs|
      invariant k <= |xs|
      invariant forall m :: m in g ==> g[m] == Grupo(xs[..k], chave, item, m)
      invariant forall m :: m in chaves <==> m in g
      invariant chaves == Chaves(xs[..k], chave)
    {
      var x := xs[k];
      var m := chave(x);
      GruposPasso(xs, chave, item, k);
      if m !in g {
        ChavesNova(xs, chave, k);
        GrupoVazio(xs[..k], chave, item, m);
        g := g[m := []];
        chaves := chaves + [m];
      } else {
        ChavesVista(xs, chave, k);
      }
      g := g[m := g[m] + [item(x)]];
      k := k + 1;
    }
    assert xs[..k] == xs;
  }
}
