/**
 * The dashboard's figures: the total and balance of `atualizarDashboard`, the percentages
 * of `atualizarEstatisticas`, and the rule cascade of `atualizarRecomendacoes`. A
 * recommendation is identified by its title; the formatted texts are not modelled.
 */
module Dashboard {
  import opened Dados
  import opened Agregacao

  /** Salary, total spent and balance as `atualizarDashboard` computes them. */
  datatype Resumo = Resumo(salario: real, totalGastos: real, saldo: real)

  /** `atualizarDashboard`: `salario - reduce(+ valor)`. */
  function ResumoDe(u: Usuario): (r: Resumo)
    ensures r.salario == u.salario
    ensures r.saldo == r.salario - r.totalGastos
  {
    Resumo(u.salario, Total(u.gastos), u.salario - Total(u.gastos))
  }

  /** With positive amounts the total is never negative, so the balance never exceeds the salary. */
  lemma {:induction false} ResumoComValoresPositivos(u: Usuario)
    requires GastosPositivos(u.gastos)
    ensures ResumoDe(u).totalGastos >= 0.0 && ResumoDe(u).saldo <= ResumoDe(u).salario
    ensures u.gastos != [] ==> ResumoDe(u).saldo < ResumoDe(u).salario
  {
    TotalPositive(u.gastos);
  }

  /** The figures do not depend on the order of the expenses. */
  lemma {:induction false} ResumoIndependeDaOrdem(u: Usuario, v: Usuario)
    requires u.salario == v.salario && multiset(u.gastos) == multiset(v.gastos)
    ensures ResumoDe(u) == ResumoDe(v)
  {
    TotalPermutation(u.gastos, v.gastos);
  }

  /** Appending an expense raises the total and lowers the balance by its amount. */
  lemma {:induction false} ResumoAoAcrescentar(u: Usuario, novos: seq<Gasto>)
    ensures ResumoDe(u.(gastos := u.gastos + novos)).totalGastos == ResumoDe(u).totalGastos + Total(novos)
    ensures ResumoDe(u.(gastos := u.gastos + novos)).saldo == ResumoDe(u).saldo - Total(novos)
  {
    TotalConcat(u.gastos, novos);
  }

  /** The statistics cards: the four amounts, both percentages and the balance colour. */
  datatype Estatisticas = Estatisticas(
    salario: real, totalGastos: real, saldo: real, investimento: real,
    percentualGastos: real, percentualSaldo: real, saldoVerde: bool)

  /** `atualizarEstatisticas`, with the percentages before `toFixed(1)`. */
  function AtualizarEstatisticas(salario: real, totalGastos: real, saldo: real): (e: Estatisticas)
    ensures e.salario == salario && e.totalGastos == totalGastos && e.saldo == saldo
    ensures e.investimento * 4.0 == salario
    ensures salario <= 0.0 ==> e.percentualGastos == 0.0 && e.percentualSaldo == 0.0
    ensures salario > 0.0 ==> e.percentualGastos * salario == totalGastos * 100.0
    ensures salario > 0.0 && saldo == salario - totalGastos ==> e.percentualGastos + e.percentualSaldo == 100.0
    ensures e.saldoVerde <==> saldo >= 0.0
  {
    var percentualGastos := if salario > 0.0 then (totalGastos / salario) * 100.0 else 0.0;
    var percentualSaldo := if salario > 0.0 then (saldo / salario) * 100.0 else 0.0;
    Estatisticas(salario, totalGastos, saldo, salario * 0.25, percentualGastos, percentualSaldo, saldo >= 0.0)
  }

  /** The recommendation titles. */
  datatype Recomendacao =
    | ConfigureSalario
    | GastosElevados
    | ExcelenteControle
    | EconomiaExemplar
    | Regra503020
    | OportunidadeInvestimento
    | DicaEconomia
    | Destaque(categoria: string)

  /** The slot of the cascade each recommendation comes from. */
  function Posicao(r: Recomendacao): nat
  {
    match r
    case ConfigureSalario => 0
    case GastosElevados => 1
    case ExcelenteControle => 1
    case EconomiaExemplar => 2
    case Regra503020 => 3
    case OportunidadeInvestimento => 4
    case DicaEconomia => 4
    case Destaque(_) => 5
  }

  /**
   * The first entry of `Object.entries(...).sort((a, b) => b[1] - a[1])`: the sort is
   * stable, so it is the first of the largest sums in key order.
   */
  function IndiceDoMaximo(vs: seq<real>): (k: nat)
    requires |vs| > 0
    ensures k < |vs|
    ensures forall j :: 0 <= j < |vs| ==> vs[j] <= vs[k]
    ensures forall j :: 0 <= j < k ==> vs[j] < vs[k]
  {
    if |vs| == 1 then 0
    else
      var k := IndiceDoMaximo(vs[..|vs| - 1]);
      if vs[|vs| - 1] > vs[k] then |vs| - 1 else k
  }

  /** Being a largest value and coming before every other largest value pins down one index. */
  lemma {:induction false} IndiceDoMaximoUnico(vs: seq<real>, m: nat)
    requires m < |vs|
    requires forall j :: 0 <= j < |vs| ==> vs[j] <= vs[m]
    requires forall j :: 0 <= j < m ==> vs[j] < vs[m]
    ensures m == IndiceDoMaximo(vs)
  {
    var k := IndiceDoMaximo(vs);
    assert !(k < m) && !(m < k);
  }

  // The cascade, rule by rule.

  function NotaDaProporcao(proporcao: real): (r: seq<Recomendacao>)
    ensures |r| <= 1 && ConfigureSalario !in r
  {
    if proporcao > 0.8 then [GastosElevados]
    else if proporcao < 0.5 then [ExcelenteControle]
    else []
  }

  function NotaDeEconomia(salario: real, saldo: real): (r: seq<Recomendacao>)
    ensures |r| <= 1 && ConfigureSalario !in r
  {
    if saldo > salario * 0.3 then [EconomiaExemplar] else []
  }

  function DicaDeInvestimento(salario: real, saldo: real): (r: seq<Recomendacao>)
    ensures |r| <= 1 && ConfigureSalario !in r
  {
    if saldo >= salario * 0.2 then [OportunidadeInvestimento]
    else if saldo > 0.0 then [DicaEconomia]
    else []
  }

  function DestaqueDe(salario: real, d: Dicionario): (r: seq<Recomendacao>)
    requires Bem(d)
    ensures |r| <= 1 && ConfigureSalario !in r
  {
    if |d.chaves| == 0 then []
    else
      var k := IndiceDoMaximo(Valores(d));
      if d.somas[d.chaves[k]] > salario * 0.25 then [Destaque(d.chaves[k])] else []
  }

  /** The recommendations for a salary, a total, a balance and the expenses they come from. */
  function Recomendacoes(salario: real, totalGastos: real, saldo: real, gastos: seq<Gasto>): (r: seq<Recomendacao>)
    ensures 1 <= |r| <= 5
    ensures ConfigureSalario in r <==> salario == 0.0
  {
    if salario == 0.0 then [ConfigureSalario]
    else
      NotaDaProporcao(totalGastos / salario) + NotaDeEconomia(salario, saldo) + [Regra503020]
      + DicaDeInvestimento(salario, saldo) + DestaqueDe(salario, PorCategoria(gastos))
  }

  /**
   * `atualizarRecomendacoes`: pushes the entries rule by rule. The expenses are those of
   * the current user, which the source reads again through `buscarUsuarioAtual`.
   */
  method AtualizarRecomendacoes(salario: real, totalGastos: real, saldo: real, gastos: seq<Gasto>)
    returns (recomendacoes: seq<Recomendacao>)
    ensures recomendacoes == Recomendacoes(salario, totalGastos, saldo, gastos)
  {
    recomendacoes := [];
    if salario == 0.0 {
      recomendacoes := recomendacoes + [ConfigureSalario];
    } else {
      var proporcao := totalGastos / salario;
      if proporcao > 0.8 {
        recomendacoes := recomendacoes + [GastosElevados];
      } else if proporcao < 0.5 {
        recomendacoes := recomendacoes + [ExcelenteControle];
      }
      assert recomendacoes == NotaDaProporcao(proporcao);
      if saldo > salario * 0.3 {
        recomendacoes := recomendacoes + [EconomiaExemplar];
      }
      assert recomendacoes == NotaDaProporcao(proporcao) + NotaDeEconomia(salario, saldo);
      recomendacoes := recomendacoes + [Regra503020];
      ghost var antes := recomendacoes;
      var valorInvestimento := salario * 0.2;
      if saldo >= valorInvestimento {
        recomendacoes := recomendacoes + [OportunidadeInvestimento];
      } else if saldo > 0.0 {
        recomendacoes := recomendacoes + [DicaEconomia];
      }
      assert recomendacoes == antes + DicaDeInvestimento(salario, saldo);
      antes := recomendacoes;
      recomendacoes := AcrescentarDestaque(salario, gastos, recomendacoes);
      Cascata(salario, totalGastos, saldo, gastos, antes, recomendacoes);
    }
  }

  /** The last rule: the largest category is pushed when it exceeds a quarter of the salary. */
  method AcrescentarDestaque(salario: real, gastos: seq<Gasto>, antes: seq<Recomendacao>)
    returns (recomendacoes: seq<Recomendacao>)
    ensures recomendacoes == antes + DestaqueDe(salario, PorCategoria(gastos))
  {
    recomendacoes := antes;
    var gastosPorCategoria := SomarPorCategoria(gastos);
    var categoriasMaiores := Entradas(gastosPorCategoria);
    DestaqueDasEntradas(salario, gastosPorCategoria);
    if |categoriasMaiores| > 0 {
      var k := IndiceDoMaximo(Valores(gastosPorCategoria));
      if categoriasMaiores[k].1 > salario * 0.25 {
        recomendacoes := recomendacoes + [Destaque(categoriasMaiores[k].0)];
      }
    }
  }

  lemma {:induction false} Cascata(salario: real, totalGastos: real, saldo: real, gastos: seq<Gasto>, antes: seq<Recomendacao>, r: seq<Recomendacao>)
    requires salario != 0.0
    requires antes == NotaDaProporcao(totalGastos / salario) + NotaDeEconomia(salario, saldo) + [Regra503020]
                      + DicaDeInvestimento(salario, saldo)
    requires r == antes + DestaqueDe(salario, PorCategoria(gastos))
    ensures r == Recomendacoes(salario, totalGastos, saldo, gastos)
  {
  }

  /** The highlight read off `Object.entries` is the one `DestaqueDe` defines. */
  lemma {:induction false} DestaqueDasEntradas(salario: real, d: Dicionario)
    requires Bem(d)
    ensures |Entradas(d)| == 0 ==> DestaqueDe(salario, d) == []
    ensures |Entradas(d)| > 0 ==>
      var e := Entradas(d)[IndiceDoMaximo(Valores(d))];
      DestaqueDe(salario, d) == if e.1 > salario * 0.25 then [Destaque(e.0)] else []
  {
  }

  // Properties of the cascade.

  predicate Crescente(r: seq<Recomendacao>)
  {
    forall i, j :: 0 <= i < j < |r| ==> Posicao(r[i]) < Posicao(r[j])
  }

  predicate AbaixoDe(r: seq<Recomendacao>, p: nat)
  {
    forall i :: 0 <= i < |r| ==> Posicao(r[i]) < p
  }

  predicate NaPosicao(r: seq<Recomendacao>, p: nat)
  {
    |r| <= 1 && forall i :: 0 <= i < |r| ==> Posicao(r[i]) == p
  }

  lemma {:induction false} Empilhar(a: seq<Recomendacao>, b: seq<Recomendacao>, p: nat)
    requires Crescente(a) && AbaixoDe(a, p) && NaPosicao(b, p)
    ensures Crescente(a + b) && AbaixoDe(a + b, p + 1)
  {
    var r := a + b;
    forall i, j | 0 <= i < j < |r| ensures Posicao(r[i]) < Posicao(r[j]) {
      if j >= |a| {
        assert r[j] == b[j - |a|];
        assert i < |a|;
        assert r[i] == a[i];
      }
    }
  }

  /** Each rule contributes at most one entry, from its own slot. */
  lemma {:induction false} Pecas(proporcao: real, salario: real, saldo: real, d: Dicionario)
    requires Bem(d)
    ensures NaPosicao(NotaDaProporcao(proporcao), 1)
    ensures NaPosicao(NotaDeEconomia(salario, saldo), 2)
    ensures NaPosicao(DicaDeInvestimento(salario, saldo), 4)
    ensures NaPosicao(DestaqueDe(salario, d), 5)
  {
  }

  lemma {:induction false} CrescenteSemRepeticao(r: seq<Recomendacao>, x: Recomendacao)
    requires Crescente(r)
    ensures forall i, j :: 0 <= i < |r| && 0 <= j < |r| && r[i] == x && r[j] == x ==> i == j
  {
    forall i, j | 0 <= i < |r| && 0 <= j < |r| && r[i] == x && r[j] == x ensures i == j {
      assert !(i < j) && !(j < i);
    }
  }

  /** Five slots of at most one entry each, the middle one filled by the 50-30-20 rule. */
  lemma {:induction false} Cinco(p1: seq<Recomendacao>, p2: seq<Recomendacao>, p4: seq<Recomendacao>, p5: seq<Recomendacao>)
    requires NaPosicao(p1, 1) && NaPosicao(p2, 2) && NaPosicao(p4, 4) && NaPosicao(p5, 5)
    ensures var r := p1 + p2 + [Regra503020] + p4 + p5;
      && Crescente(r) && 1 <= |r| <= 5
      && Regra503020 in r && ConfigureSalario !in r
      && forall i, j :: 0 <= i < |r| && 0 <= j < |r| && r[i] == Regra503020 && r[j] == Regra503020 ==> i == j
  {
    Empilhar([], p1, 1);
    assert [] + p1 == p1;
    Empilhar(p1, p2, 2);
    Empilhar(p1 + p2, [Regra503020], 3);
    Empilhar(p1 + p2 + [Regra503020], p4, 4);
    Empilhar(p1 + p2 + [Regra503020] + p4, p5, 5);
    var r := p1 + p2 + [Regra503020] + p4 + p5;
    assert r[|p1 + p2|] == Regra503020;
    assert ConfigureSalario !in r by {
      forall i | 0 <= i < |r| ensures r[i] != ConfigureSalario {
        assert r[i] in p1 || r[i] in p2 || r[i] == Regra503020 || r[i] in p4 || r[i] in p5;
      }
    }
    CrescenteSemRepeticao(r, Regra503020);
  }

  /**
   * With a salary the entries follow the cascade order (proportion note, economy,
   * 50-30-20, investment or savings tip, highlight), each slot at most once, so there are
   * between one and five entries and the 50-30-20 rule appears exactly once. Without a
   * salary the only entry asks for one.
   */
  lemma {:induction false} FormaDasRecomendacoes(salario: real, totalGastos: real, saldo: real, gastos: seq<Gasto>)
    ensures var r := Recomendacoes(salario, totalGastos, saldo, gastos);
      salario == 0.0 ==> r == [ConfigureSalario]
    ensures var r := Recomendacoes(salario, totalGastos, saldo, gastos);
      salario != 0.0 ==>
        && Crescente(r) && 1 <= |r| <= 5
        && Regra503020 in r && ConfigureSalario !in r
        && forall i, j :: 0 <= i < |r| && 0 <= j < |r| && r[i] == Regra503020 && r[j] == Regra503020 ==> i == j
  {
    if salario != 0.0 {
      var d := PorCategoria(gastos);
      Pecas(totalGastos / salario, salario, saldo, d);
      Cinco(NotaDaProporcao(totalGastos / salario), NotaDeEconomia(salario, saldo),
            DicaDeInvestimento(salario, saldo), DestaqueDe(salario, d));
    }
  }

  /** With a salary, each title appears exactly when its threshold holds. */
  lemma {:induction false} Limiares(salario: real, totalGastos: real, saldo: real, gastos: seq<Gasto>)
    requires salario != 0.0
    ensures var r := Recomendacoes(salario, totalGastos, saldo, gastos);
      && (GastosElevados in r <==> totalGastos / salario > 0.8)
      && (ExcelenteControle in r <==> totalGastos / salario < 0.5)
      && (EconomiaExemplar in r <==> saldo > salario * 0.3)
      && (OportunidadeInvestimento in r <==> saldo >= salario * 0.2)
      && (DicaEconomia in r <==> 0.0 < saldo < salario * 0.2)
  {
    var p5 := DestaqueDe(salario, PorCategoria(gastos));
    assert forall i :: 0 <= i < |p5| ==> p5[i].Destaque?;
    LimiaresDe(totalGastos / salario, salario, saldo, p5);
  }

  lemma {:induction false} LimiaresDe(proporcao: real, salario: real, saldo: real, p5: seq<Recomendacao>)
    requires forall i :: 0 <= i < |p5| ==> p5[i].Destaque?
    ensures var r := NotaDaProporcao(proporcao) + NotaDeEconomia(salario, saldo) + [Regra503020]
                     + DicaDeInvestimento(salario, saldo) + p5;
      && (GastosElevados in r <==> proporcao > 0.8)
      && (ExcelenteControle in r <==> proporcao < 0.5)
      && (EconomiaExemplar in r <==> saldo > salario * 0.3)
      && (OportunidadeInvestimento in r <==> saldo >= salario * 0.2)
      && (DicaEconomia in r <==> 0.0 < saldo < salario * 0.2)
  {
    var p1 := NotaDaProporcao(proporcao);
    var p2 := NotaDeEconomia(salario, saldo);
    var p4 := DicaDeInvestimento(salario, saldo);
    Membro(GastosElevados, p1, p2, p4, p5);
    Membro(ExcelenteControle, p1, p2, p4, p5);
    Membro(EconomiaExemplar, p1, p2, p4, p5);
    Membro(OportunidadeInvestimento, p1, p2, p4, p5);
    Membro(DicaEconomia, p1, p2, p4, p5);
  }

  lemma {:induction false} Membro(x: Recomendacao, p1: seq<Recomendacao>, p2: seq<Recomendacao>, p4: seq<Recomendacao>, p5: seq<Recomendacao>)
    ensures x in p1 + p2 + [Regra503020] + p4 + p5 <==> x in p1 || x in p2 || x == Regra503020 || x in p4 || x in p5
  {
  }

  /** High spending and excellent control never appear together, and neither in the middle band. */
  lemma {:induction false} NotasExclusivas(salario: real, totalGastos: real, saldo: real, gastos: seq<Gasto>)
    requires salario != 0.0
    ensures var r := Recomendacoes(salario, totalGastos, saldo, gastos);
      !(GastosElevados in r && ExcelenteControle in r)
    ensures var r := Recomendacoes(salario, totalGastos, saldo, gastos);
      0.5 <= totalGastos / salario <= 0.8 ==> GastosElevados !in r && ExcelenteControle !in r
  {
    Limiares(salario, totalGastos, saldo, gastos);
  }

  /**
   * The investment and the savings tip never appear together. Neither appears without a
   * positive balance when the salary is positive, nor at all when a negative salary is the
   * balance plus a non-negative total.
   */
  lemma {:induction false} DicasExclusivas(salario: real, totalGastos: real, saldo: real, gastos: seq<Gasto>)
    requires salario != 0.0
    ensures var r := Recomendacoes(salario, totalGastos, saldo, gastos);
      !(OportunidadeInvestimento in r && DicaEconomia in r)
    ensures var r := Recomendacoes(salario, totalGastos, saldo, gastos);
      salario > 0.0 && saldo <= 0.0 ==> OportunidadeInvestimento !in r && DicaEconomia !in r
    ensures var r := Recomendacoes(salario, totalGastos, saldo, gastos);
      salario < 0.0 && totalGastos >= 0.0 && saldo == salario - totalGastos ==>
        OportunidadeInvestimento !in r && DicaEconomia !in r
  {
    Limiares(salario, totalGastos, saldo, gastos);
  }

  /**
   * When the balance is the salary minus the total: exemplary economy implies the
   * investment opportunity, and excellent control implies exemplary economy.
   */
  lemma {:induction false} Implicacoes(salario: real, totalGastos: real, saldo: real, gastos: seq<Gasto>)
    requires salario > 0.0 && saldo == salario - totalGastos
    ensures var r := Recomendacoes(salario, totalGastos, saldo, gastos);
      EconomiaExemplar in r ==> OportunidadeInvestimento in r
    ensures var r := Recomendacoes(salario, totalGastos, saldo, gastos);
      ExcelenteControle in r ==> EconomiaExemplar in r
  {
    Limiares(salario, totalGastos, saldo, gastos);
    if totalGastos / salario < 0.5 {
      AbaixoDaProporcao(totalGastos, salario, 0.5);
    }
  }

  lemma {:induction false} AbaixoDaProporcao(a: real, s: real, t: real)
    requires s > 0.0 && a / s < t
    ensures a < t * s
  {
    var q := a / s;
    assert a == q * s;
    assert q * s < t * s;
  }

  /**
   * A negative salary, which the salary field accepts, earns "excellent control" for any
   * non-negative spending but never exemplary economy.
   */
  lemma {:induction false} SalarioNegativo(salario: real, totalGastos: real, gastos: seq<Gasto>)
    requires salario < 0.0 && totalGastos >= 0.0
    ensures var r := Recomendacoes(salario, totalGastos, salario - totalGastos, gastos);
      ExcelenteControle in r && EconomiaExemplar !in r
  {
    Limiares(salario, totalGastos, salario - totalGastos, gastos);
    QuocienteNaoPositivo(totalGastos, salario);
  }

  lemma {:induction false} QuocienteNaoPositivo(a: real, s: real)
    requires a >= 0.0 && s < 0.0
    ensures a / s <= 0.0
  {
    var q := a / s;
    assert q * s == a;
    ProdutoPorNegativo(q, s);
  }

  lemma {:induction false} ProdutoPorNegativo(q: real, s: real)
    requires s < 0.0
    ensures q > 0.0 ==> q * s < 0.0
  {
  }

  lemma {:induction false} ChaveDe(d: Dicionario, c: string) returns (j: nat)
    requires Bem(d) && c in d.somas
    ensures j < |d.chaves| && d.chaves[j] == c
  {
    assert c in d.chaves;
    j :| 0 <= j < |d.chaves| && d.chaves[j] == c;
  }

  /** Only the last rule of the cascade produces highlights. */
  lemma {:induction false} DestaqueVemDoFim(salario: real, totalGastos: real, saldo: real, gastos: seq<Gasto>, c: string)
    requires salario != 0.0
    requires Destaque(c) in Recomendacoes(salario, totalGastos, saldo, gastos)
    ensures Destaque(c) in DestaqueDe(salario, PorCategoria(gastos))
  {
    var p1 := NotaDaProporcao(totalGastos / salario);
    var p2 := NotaDeEconomia(salario, saldo);
    var p4 := DicaDeInvestimento(salario, saldo);
    var p5 := DestaqueDe(salario, PorCategoria(gastos));
    Membro(Destaque(c), p1, p2, p4, p5);
  }

  /**
   * The highlighted category is one the expenses carry, its total exceeds a quarter of
   * the salary, no category totals more, and every category first seen before it totals
   * strictly less (ties go to the first inserted).
   */
  lemma {:induction false} DestaqueDaMaiorCategoria(salario: real, totalGastos: real, saldo: real, gastos: seq<Gasto>, c: string)
    requires salario != 0.0
    requires Destaque(c) in Recomendacoes(salario, totalGastos, saldo, gastos)
    ensures Ocorre(gastos, c)
    ensures Total(DaCategoria(gastos, c)) > salario * 0.25
    ensures forall i :: 0 <= i < |gastos| ==>
      Total(DaCategoria(gastos, gastos[i].categoria)) <= Total(DaCategoria(gastos, c))
    ensures forall i :: 0 <= i < Primeira(gastos, c) ==>
      Total(DaCategoria(gastos, gastos[i].categoria)) < Total(DaCategoria(gastos, c))
  {
    var d := PorCategoria(gastos);
    DestaqueVemDoFim(salario, totalGastos, saldo, gastos, c);
    var k := IndiceDoMaximo(Valores(d));
    assert c == d.chaves[k];
    ChavesOcorrem(gastos);
    SomaDaCategoria(gastos, c);
    forall i | 0 <= i < |gastos|
      ensures Total(DaCategoria(gastos, gastos[i].categoria)) <= Total(DaCategoria(gastos, c))
      ensures i < Primeira(gastos, c) ==> Total(DaCategoria(gastos, gastos[i].categoria)) < Total(DaCategoria(gastos, c))
    {
      ComparaComOMaior(gastos, k, i);
    }
  }

  /** The category at the arg-max of the sums totals at least as much as any other, and more than those seen before it. */
  lemma {:induction false} ComparaComOMaior(gastos: seq<Gasto>, k: nat, i: nat)
    requires i < |gastos| && |PorCategoria(gastos).chaves| > 0
    requires k == IndiceDoMaximo(Valores(PorCategoria(gastos)))
    requires Ocorre(gastos, PorCategoria(gastos).chaves[k])
    ensures var c := PorCategoria(gastos).chaves[k];
      && Total(DaCategoria(gastos, gastos[i].categoria)) <= Total(DaCategoria(gastos, c))
      && (i < Primeira(gastos, c) ==> Total(DaCategoria(gastos, gastos[i].categoria)) < Total(DaCategoria(gastos, c)))
  {
    var d := PorCategoria(gastos);
    var vs := Valores(d);
    var c := d.chaves[k];
    SomaDaCategoria(gastos, c);
    OrdemDePrimeiraOcorrencia(gastos);
    var c' := gastos[i].categoria;
    assert Ocorre(gastos, c');
    ChavesSaoCategorias(gastos, c');
    SomaDaCategoria(gastos, c');
    var j := ChaveDe(d, c');
    assert vs[j] <= vs[k];
    if i < Primeira(gastos, c) {
      assert Primeira(gastos, c') <= i;
      assert j < k by {
        assert j != k;
        assert Primeira(gastos, d.chaves[j]) < Primeira(gastos, d.chaves[k]);
      }
    }
  }

  lemma {:induction false} DestaqueQuandoExcede(salario: real, totalGastos: real, saldo: real, gastos: seq<Gasto>, i: nat)
    requires salario != 0.0 && i < |gastos|
    requires Total(DaCategoria(gastos, gastos[i].categoria)) > salario * 0.25
    ensures var r := Recomendacoes(salario, totalGastos, saldo, gastos);
      r != [] && r[|r| - 1].Destaque?
  {
    var d := PorCategoria(gastos);
    var c := gastos[i].categoria;
    assert Ocorre(gastos, c);
    ChavesSaoCategorias(gastos, c);
    SomaDaCategoria(gastos, c);
    var j := ChaveDe(d, c);
    var vs := Valores(d);
    var k := IndiceDoMaximo(vs);
    assert vs[j] <= vs[k];
  }
}
