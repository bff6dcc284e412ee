/**
 * The sums the dashboard and the charts share: the total of the expense amounts
 * (`reduce`) and the per-category dictionary both fill with
 * `gastosPorCategoria[categoria] = (gastosPorCategoria[categoria] || 0) + valor`.
 * A plain object keeps its keys in insertion order, so the dictionary is the
 * sequence of keys in that order plus the map of their sums.
 */
module Agregacao {
  import opened Dados

  /** `gastos.reduce((total, gasto) => total + gasto.valor, 0)`, summed left to right. */
  function Total(gastos: seq<Gasto>): (t: real)
    ensures (forall i :: 0 <= i < |gastos| ==> gastos[i].valor >= 0.0) ==> t >= 0.0
  {
    if gastos == [] then 0.0 else Total(gastos[..|gastos| - 1]) + gastos[|gastos| - 1].valor
  }

  /** The total of two lists put together is the sum of their totals. */
  lemma {:induction false} TotalConcat(a: seq<Gasto>, b: seq<Gasto>)
    ensures Total(a + b) == Total(a) + Total(b)
    decreases |b|
  {
    if b == [] {
      assert a + b == a;
    } else {
      assert (a + b)[..|a + b| - 1] == a + b[..|b| - 1];
      TotalConcat(a, b[..|b| - 1]);
    }
  }

  /** The total does not depend on the order of the expenses. */
  lemma {:induction false} TotalPermutation(a: seq<Gasto>, b: seq<Gasto>)
    requires multiset(a) == multiset(b)
    ensures Total(a) == Total(b)
    decreases |a|
  {
    if a == [] {
      assert |b| == |multiset(b)| == 0;
    } else {
      var n := |a| - 1;
      var x := a[n];
      assert a == a[..n] + [x];
      assert x in multiset(b);
      var k :| 0 <= k < |b| && b[k] == x;
      var b' := b[..k] + b[k + 1..];
      assert b == b[..k] + [x] + b[k + 1..];
      assert multiset(b') == multiset(b) - multiset{x};
      assert multiset(a[..n]) == multiset(a) - multiset{x};
      TotalPermutation(a[..n], b');
      TotalConcat(b[..k] + [x], b[k + 1..]);
      TotalConcat(b[..k], [x]);
      TotalConcat(b[..k], b[k + 1..]);
      assert Total([x]) == x.valor by { assert [x][..0] == []; }
    }
  }

  /** With positive amounts the total is never negative, and positive as soon as there is an expense. */
  lemma {:induction false} TotalPositive(gastos: seq<Gasto>)
    requires GastosPositivos(gastos)
    ensures Total(gastos) >= 0.0
    ensures gastos != [] ==> Total(gastos) > 0.0
  {
    if gastos != [] {
      var n := |gastos| - 1;
      assert GastosPositivos(gastos[..n]);
      TotalPositive(gastos[..n]);
    }
  }

  /** The expenses of one category, in order. */
  function DaCategoria(gastos: seq<Gasto>, categoria: string): (r: seq<Gasto>)
    ensures |r| <= |gastos|
  {
    if gastos == [] then []
    else
      var n := |gastos| - 1;
      DaCategoria(gastos[..n], categoria) + (if gastos[n].categoria == categoria then [gastos[n]] else [])
  }

  /** Index of the first expense of a category. */
  function Primeira(gastos: seq<Gasto>, categoria: string): (k: nat)
    requires Ocorre(gastos, categoria)
    ensures k < |gastos| && gastos[k].categoria == categoria
    ensures forall j :: 0 <= j < k ==> gastos[j].categoria != categoria
  {
    if gastos[0].categoria == categoria then 0
    else
      var i :| 0 <= i < |gastos| && gastos[i].categoria == categoria;
      assert gastos[1..][i - 1].categoria == categoria;
      1 + Primeira(gastos[1..], categoria)
  }

  ghost predicate Ocorre(gastos: seq<Gasto>, categoria: string)
  {
    exists i :: 0 <= i < |gastos| && gastos[i].categoria == categoria
  }

  /** The first occurrence in a prefix is the first occurrence in the whole list. */
  lemma {:induction false} PrimeiraNoPrefixo(gastos: seq<Gasto>, n: nat, categoria: string)
    requires n <= |gastos| && Ocorre(gastos[..n], categoria)
    ensures Ocorre(gastos, categoria) && Primeira(gastos[..n], categoria) == Primeira(gastos, categoria)
  {
    var k := Primeira(gastos[..n], categoria);
    assert gastos[k].categoria == categoria;
    var k' := Primeira(gastos, categoria);
    assert !(k' < k) by { assert gastos[..n][k'].categoria == gastos[k'].categoria; }
  }

  /** The category dictionary: keys in insertion order and their running sums. */
  datatype Dicionario = Dicionario(chaves: seq<string>, somas: map<string, real>)

  /** Keys are distinct and are exactly the keys that have a sum. */
  ghost predicate Bem(d: Dicionario)
  {
    && (forall i, j :: 0 <= i < j < |d.chaves| ==> d.chaves[i] != d.chaves[j])
    && (forall c :: c in d.somas <==> c in d.chaves)
  }

  /** One step of the `forEach`: add an expense to its category, creating the key on first sight. */
  function Acumular(d: Dicionario, g: Gasto): (r: Dicionario)
    requires Bem(d)
    ensures Bem(r)
  {
    var c := g.categoria;
    if c in d.somas then Dicionario(d.chaves, d.somas[c := d.somas[c] + g.valor])
    else Dicionario(d.chaves + [c], d.somas[c := g.valor])
  }

  /** The dictionary after the whole `forEach`. */
  function PorCategoria(gastos: seq<Gasto>): (d: Dicionario)
    ensures Bem(d)
  {
    if gastos == [] then Dicionario([], map[])
    else Acumular(PorCategoria(gastos[..|gastos| - 1]), gastos[|gastos| - 1])
  }

  /** One more expense is one more step of the `forEach`. */
  lemma {:induction false} PorCategoriaPasso(gastos: seq<Gasto>, i: nat)
    requires i < |gastos|
    ensures PorCategoria(gastos[..i + 1]) == Acumular(PorCategoria(gastos[..i]), gastos[i])
  {
    assert gastos[..i + 1][..i] == gastos[..i];
  }

  /** The `forEach` that fills `gastosPorCategoria`, one expense at a time. */
  method SomarPorCategoria(gastos: seq<Gasto>) returns (d: Dicionario)
    ensures d == PorCategoria(gastos)
  {
    var chaves: seq<string> := [];
    var somas: map<string, real> := map[];
    var i := 0;
    while i < |gastos|
      invariant 0 <= i <= |gastos|
      invariant Dicionario(chaves, somas) == PorCategoria(gastos[..i])
    {
      ghost var chavesAntes, somasAntes := chaves, somas;
      var c := gastos[i].categoria;
      var anterior := if c in somas then somas[c] else 0.0;
      if c !in somas {
        chaves := chaves + [c];
      }
      somas := somas[c := anterior + gastos[i].valor];
      AcumularNoLaco(gastos, i, chavesAntes, somasAntes, anterior, chaves, somas);
      i := i + 1;
    }
    assert gastos[..i] == gastos;
    d := Dicionario(chaves, somas);
  }

  /** The loop body's two updates take the dictionary of the first `i` expenses to that of the first `i + 1`. */
  lemma {:induction false} AcumularNoLaco(gastos: seq<Gasto>, i: nat, chavesAntes: seq<string>, somasAntes: map<string, real>,
                       anterior: real, chaves: seq<string>, somas: map<string, real>)
    requires i < |gastos|
    requires Dicionario(chavesAntes, somasAntes) == PorCategoria(gastos[..i])
    requires anterior == if gastos[i].categoria in somasAntes then somasAntes[gastos[i].categoria] else 0.0
    requires chaves == if gastos[i].categoria in somasAntes then chavesAntes else chavesAntes + [gastos[i].categoria]
    requires somas == somasAntes[gastos[i].categoria := anterior + gastos[i].valor]
    ensures Dicionario(chaves, somas) == PorCategoria(gastos[..i + 1])
  {
    assert gastos[..i + 1] == gastos[..i] + [gastos[i]];
    SomarAoPrefixo(gastos[..i], gastos[i], chavesAntes, somasAntes, anterior, chaves, somas);
  }

  lemma {:induction false} SomarAoPrefixo(prefixo: seq<Gasto>, g: Gasto, chavesAntes: seq<string>, somasAntes: map<string, real>,
                                          anterior: real, chaves: seq<string>, somas: map<string, real>)
    requires Dicionario(chavesAntes, somasAntes) == PorCategoria(prefixo)
    requires anterior == if g.categoria in somasAntes then somasAntes[g.categoria] else 0.0
    requires chaves == if g.categoria in somasAntes then chavesAntes else chavesAntes + [g.categoria]
    requires somas == somasAntes[g.categoria := anterior + g.valor]
    ensures Dicionario(chaves, somas) == PorCategoria(prefixo + [g])
  {
    assert (prefixo + [g])[..|prefixo|] == prefixo;
    SomarUma(chavesAntes, somasAntes, g, anterior, chaves, somas);
  }

  lemma {:induction false} SomarUma(chavesAntes: seq<string>, somasAntes: map<string, real>, g: Gasto,
                                    anterior: real, chaves: seq<string>, somas: map<string, real>)
    requires Bem(Dicionario(chavesAntes, somasAntes))
    requires anterior == if g.categoria in somasAntes then somasAntes[g.categoria] else 0.0
    requires chaves == if g.categoria in somasAntes then chavesAntes else chavesAntes + [g.categoria]
    requires somas == somasAntes[g.categoria := anterior + g.valor]
    ensures Dicionario(chaves, somas) == Acumular(Dicionario(chavesAntes, somasAntes), g)
  {
    var antes := Dicionario(chavesAntes, somasAntes);
    if g.categoria in somasAntes {
      SomarExistente(antes, g, anterior, chaves, somas);
    } else {
      SomarNova(antes, g, anterior, chaves, somas);
    }
  }

  lemma {:induction false} SomarExistente(d: Dicionario, g: Gasto, anterior: real, chaves: seq<string>, somas: map<string, real>)
    requires Bem(d) && g.categoria in d.somas && anterior == d.somas[g.categoria]
    requires chaves == d.chaves && somas == d.somas[g.categoria := anterior + g.valor]
    ensures Dicionario(chaves, somas) == Acumular(d, g)
  {
  }

  lemma {:induction false} SomarNova(d: Dicionario, g: Gasto, anterior: real, chaves: seq<string>, somas: map<string, real>)
    requires Bem(d) && g.categoria !in d.somas && anterior == 0.0
    requires chaves == d.chaves + [g.categoria] && somas == d.somas[g.categoria := anterior + g.valor]
    ensures Dicionario(chaves, somas) == Acumular(d, g)
  {
    assert anterior + g.valor == g.valor;
  }

  /** `Object.values`: the sums in key order. */
  function Valores(d: Dicionario): (vs: seq<real>)
    requires Bem(d)
    ensures |vs| == |d.chaves|
    ensures forall i :: 0 <= i < |vs| ==> vs[i] == d.somas[d.chaves[i]]
  {
    seq(|d.chaves|, i requires 0 <= i < |d.chaves| => d.somas[d.chaves[i]])
  }

  /** `Object.entries`: key and sum pairs in key order. */
  function Entradas(d: Dicionario): (es: seq<(string, real)>)
    requires Bem(d)
    ensures |es| == |d.chaves|
    ensures forall i :: 0 <= i < |es| ==> es[i] == (d.chaves[i], d.somas[d.chaves[i]])
  {
    seq(|d.chaves|, i requires 0 <= i < |d.chaves| => (d.chaves[i], d.somas[d.chaves[i]]))
  }

  /**
   * `Object.entries` and `Object.values` of the filled dictionary: each entry pairs a category
   * some expense carries with that category's total, the value at the same position is that
   * total, and the entries come in the order in which their categories first occur.
   */
  lemma {:induction false} EntradasPorCategoria(gastos: seq<Gasto>)
    ensures var d := PorCategoria(gastos); var es := Entradas(d);
      && |Valores(d)| == |es|
      && (forall i :: 0 <= i < |es| ==>
            Ocorre(gastos, es[i].0) && es[i].1 == Total(DaCategoria(gastos, es[i].0)) && Valores(d)[i] == es[i].1)
      && (forall i, j :: 0 <= i < j < |es| ==> es[i].0 != es[j].0 && Primeira(gastos, es[i].0) < Primeira(gastos, es[j].0))
  {
    var d := PorCategoria(gastos);
    OrdemDePrimeiraOcorrencia(gastos);
    forall i | 0 <= i < |d.chaves| ensures d.somas[d.chaves[i]] == Total(DaCategoria(gastos, d.chaves[i])) {
      SomaDaCategoria(gastos, d.chaves[i]);
    }
  }

  function Soma(xs: seq<real>): real
  {
    if xs == [] then 0.0 else Soma(xs[..|xs| - 1]) + xs[|xs| - 1]
  }

  lemma {:induction false} SomaAcrescimo(xs: seq<real>, k: nat, v: real)
    requires k < |xs|
    ensures Soma(xs[k := xs[k] + v]) == Soma(xs) + v
    decreases |xs|
  {
    var n := |xs| - 1;
    var ys := xs[k := xs[k] + v];
    assert ys[..n] == if k < n then xs[..n][k := xs[k] + v] else xs[..n];
    if k < n {
      SomaAcrescimo(xs[..n], k, v);
    }
  }

  lemma {:induction false} SomaAtualizada(ws: seq<real>, vs: seq<real>, k: nat, v: real)
    requires k < |vs| && ws == vs[k := vs[k] + v]
    ensures Soma(ws) == Soma(vs) + v
  {
    SomaAcrescimo(vs, k, v);
  }

  lemma {:induction false} SomaFinal(xs: seq<real>, v: real)
    ensures Soma(xs + [v]) == Soma(xs) + v
  {
    assert (xs + [v])[..|xs|] == xs;
  }

  /** The key sets: a category has a sum exactly when some expense carries it. */
  lemma {:induction false} ChavesSaoCategorias(gastos: seq<Gasto>, c: string)
    ensures c in PorCategoria(gastos).somas <==> Ocorre(gastos, c)
  {
    if gastos != [] {
      var n := |gastos| - 1;
      ChavesSaoCategorias(gastos[..n], c);
      if Ocorre(gastos[..n], c) {
        var i :| 0 <= i < n && gastos[..n][i].categoria == c;
        assert gastos[i].categoria == c;
      }
      if Ocorre(gastos, c) && gastos[n].categoria != c {
        var i :| 0 <= i < |gastos| && gastos[i].categoria == c;
        assert gastos[..n][i].categoria == c;
      }
    }
  }

  /** Each category's sum is the total of that category's expenses. */
  lemma {:induction false} SomaDaCategoria(gastos: seq<Gasto>, c: string)
    requires c in PorCategoria(gastos).somas
    ensures PorCategoria(gastos).somas[c] == Total(DaCategoria(gastos, c))
  {
    var n := |gastos| - 1;
    var d := PorCategoria(gastos[..n]);
    var g := gastos[n];
    assert [g][..0] == [];
    assert PorCategoria(gastos) == Acumular(d, g);
    if g.categoria != c {
      assert c in d.somas;
      assert DaCategoria(gastos, c) == DaCategoria(gastos[..n], c) + [];
      assert DaCategoria(gastos[..n], c) + [] == DaCategoria(gastos[..n], c);
      assert PorCategoria(gastos).somas[c] == d.somas[c];
      SomaDaCategoria(gastos[..n], c);
    } else if c in d.somas {
      SomaDaCategoria(gastos[..n], c);
      TotalConcat(DaCategoria(gastos[..n], c), [g]);
    } else {
      ChavesSaoCategorias(gastos[..n], c);
      DaCategoriaVazia(gastos[..n], c);
      assert DaCategoria(gastos, c) == [] + [g];
      assert [] + [g] == [g];
    }
  }

  lemma {:induction false} DaCategoriaVazia(gastos: seq<Gasto>, c: string)
    requires !Ocorre(gastos, c)
    ensures DaCategoria(gastos, c) == []
  {
    if gastos != [] {
      var n := |gastos| - 1;
      forall i | 0 <= i < n ensures gastos[..n][i].categoria != c {
        assert gastos[..n][i] == gastos[i];
      }
      DaCategoriaVazia(gastos[..n], c);
    }
  }

  lemma {:induction false} ValoresAcumularExistente(d: Dicionario, g: Gasto, k: nat)
    requires Bem(d) && k < |d.chaves| && d.chaves[k] == g.categoria
    ensures Valores(Acumular(d, g)) == Valores(d)[k := Valores(d)[k] + g.valor]
  {
    var a := Valores(Acumular(d, g));
    var b := Valores(d)[k := Valores(d)[k] + g.valor];
    forall i | 0 <= i < |a| ensures a[i] == b[i] {
      if i != k {
        assert d.chaves[i] != d.chaves[k];
      }
    }
  }

  lemma {:induction false} ValoresAcumularNova(d: Dicionario, g: Gasto)
    requires Bem(d) && g.categoria !in d.somas
    ensures Valores(Acumular(d, g)) == Valores(d) + [g.valor]
  {
    var a := Valores(Acumular(d, g));
    var b := Valores(d) + [g.valor];
    forall i | 0 <= i < |a| ensures a[i] == b[i] {
      if i < |d.chaves| {
        assert d.chaves[i] != g.categoria;
      }
    }
  }

  lemma {:induction false} PassoExistente(d: Dicionario, g: Gasto, k: nat)
    requires Bem(d) && k < |d.chaves| && d.chaves[k] == g.categoria
    ensures Soma(Valores(Acumular(d, g))) == Soma(Valores(d)) + g.valor
  {
    ValoresAcumularExistente(d, g, k);
    SomaAtualizada(Valores(Acumular(d, g)), Valores(d), k, g.valor);
  }

  lemma {:induction false} PassoNova(d: Dicionario, g: Gasto)
    requires Bem(d) && g.categoria !in d.somas
    ensures Soma(Valores(Acumular(d, g))) == Soma(Valores(d)) + g.valor
  {
    ValoresAcumularNova(d, g);
    SomaFinal(Valores(d), g.valor);
  }

  /** One step of the `forEach` adds the expense's amount to the sum of the sums. */
  lemma {:induction false} SomaDasCategoriasPasso(d: Dicionario, g: Gasto)
    requires Bem(d)
    ensures Soma(Valores(Acumular(d, g))) == Soma(Valores(d)) + g.valor
  {
    if g.categoria in d.somas {
      assert g.categoria in d.chaves;
      var k :| 0 <= k < |d.chaves| && d.chaves[k] == g.categoria;
      PassoExistente(d, g, k);
    } else {
      PassoNova(d, g);
    }
  }

  /** The sums of all categories add up to the total of all expenses. */
  lemma {:induction false} SomaDasCategorias(gastos: seq<Gasto>)
    ensures Soma(Valores(PorCategoria(gastos))) == Total(gastos)
  {
    if gastos != [] {
      var n := |gastos| - 1;
      SomaDasCategorias(gastos[..n]);
      SomaDasCategoriasPasso(PorCategoria(gastos[..n]), gastos[n]);
    }
  }

  /** Every key is a category some expense carries. */
  lemma {:induction false} ChavesOcorrem(gastos: seq<Gasto>)
    ensures forall i :: 0 <= i < |PorCategoria(gastos).chaves| ==> Ocorre(gastos, PorCategoria(gastos).chaves[i])
  {
    var ks := PorCategoria(gastos).chaves;
    forall i | 0 <= i < |ks| ensures Ocorre(gastos, ks[i]) {
      ChavesSaoCategorias(gastos, ks[i]);
    }
  }

  /** Keys appear in the order in which their categories first occur. */
  lemma {:induction false} OrdemDePrimeiraOcorrencia(gastos: seq<Gasto>)
    ensures forall i :: 0 <= i < |PorCategoria(gastos).chaves| ==> Ocorre(gastos, PorCategoria(gastos).chaves[i])
    ensures var ks := PorCategoria(gastos).chaves;
      forall i, j :: 0 <= i < j < |ks| ==> Primeira(gastos, ks[i]) < Primeira(gastos, ks[j])
  {
    ChavesOcorrem(gastos);
    if gastos != [] {
      var n := |gastos| - 1;
      var d := PorCategoria(gastos[..n]);
      var ks := PorCategoria(gastos).chaves;
      OrdemDePrimeiraOcorrencia(gastos[..n]);
      forall i | 0 <= i < |d.chaves| ensures Primeira(gastos[..n], d.chaves[i]) == Primeira(gastos, d.chaves[i]) {
        PrimeiraNoPrefixo(gastos, n, d.chaves[i]);
      }
      if gastos[n].categoria !in d.somas {
        var c := gastos[n].categoria;
        ChavesSaoCategorias(gastos[..n], c);
        forall j | 0 <= j < n ensures gastos[j].categoria != c {
          assert gastos[..n][j] == gastos[j];
        }
        assert Primeira(gastos, c) == n;
        assert ks == d.chaves + [c];
        forall i | 0 <= i < |d.chaves| ensures Primeira(gastos, ks[i]) < n {
          assert ks[i] == d.chaves[i];
        }
      } else {
        assert ks == d.chaves;
      }
    }
  }
}
