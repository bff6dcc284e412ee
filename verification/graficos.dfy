/**
 * The numbers the two charts are fed: the per-category doughnut of
 * `atualizarGraficoGastos` and the current needs / wants / investments bars of
 * `atualizarGraficoDistribuicao`, next to the fixed ideal 50-30-20 bars.
 */
module Graficos {
  import opened Dados
  import opened Agregacao

  /** Label and value of the doughnut when there is nothing to show. */
  const SemDados := "Sem dados"

  /** The dictionary has a key exactly when there is an expense. */
  lemma {:induction false} ChavesSeHaGastos(gastos: seq<Gasto>)
    ensures |PorCategoria(gastos).chaves| > 0 <==> gastos != []
  {
    var d := PorCategoria(gastos);
    if gastos != [] {
      ChavesSaoCategorias(gastos, gastos[0].categoria);
      assert gastos[0].categoria in d.chaves;
    }
  }

  /**
   * `atualizarGraficoGastos`: one slice per category in first-occurrence order, sized by
   * the category's total, or a single placeholder slice when there are no expenses.
   */
  method AtualizarGraficoGastos(gastos: seq<Gasto>) returns (rotulos: seq<string>, dados: seq<real>)
    ensures gastos == [] ==> rotulos == [SemDados] && dados == [1.0]
    ensures |rotulos| == |dados|
    ensures forall i, j :: 0 <= i < j < |rotulos| ==> rotulos[i] != rotulos[j]
    ensures gastos != [] ==> Soma(dados) == Total(gastos)
    ensures gastos != [] ==> forall i :: 0 <= i < |rotulos| ==>
      Ocorre(gastos, rotulos[i]) && dados[i] == Total(DaCategoria(gastos, rotulos[i]))
    ensures gastos != [] ==> forall g :: g in gastos ==> g.categoria in rotulos
    ensures gastos != [] ==> forall i, j :: 0 <= i < j < |rotulos| ==>
      Primeira(gastos, rotulos[i]) < Primeira(gastos, rotulos[j])
  {
    var gastosPorCategoria := SomarPorCategoria(gastos);
    ChavesSeHaGastos(gastos);
    if |gastosPorCategoria.chaves| > 0 {
      rotulos := gastosPorCategoria.chaves;
      dados := Valores(gastosPorCategoria);
      SomaDasCategorias(gastos);
      OrdemDePrimeiraOcorrencia(gastos);
      forall i | 0 <= i < |rotulos| ensures dados[i] == Total(DaCategoria(gastos, rotulos[i])) {
        SomaDaCategoria(gastos, rotulos[i]);
      }
      forall g | g in gastos ensures g.categoria in rotulos {
        var i :| 0 <= i < |gastos| && gastos[i] == g;
        assert Ocorre(gastos, g.categoria);
        ChavesSaoCategorias(gastos, g.categoria);
      }
    } else {
      rotulos := [SemDados];
      dados := [1.0];
    }
  }

  /** The ideal needs / wants / investments split, in percent. */
  const DistribuicaoIdeal: seq<real> := [50.0, 30.0, 20.0]

  /** The ideal split covers the whole salary. */
  lemma {:induction false} IdealSomaCem()
    ensures |DistribuicaoIdeal| == 3 && Soma(DistribuicaoIdeal) == 100.0
  {
    assert DistribuicaoIdeal[..2] == [50.0, 30.0];
    assert [50.0, 30.0][..1] == [50.0];
    assert [50.0][..0] == [];
  }

  /** `Math.min`. */
  function Min(a: real, b: real): (m: real)
    ensures m <= a && m <= b && (m == a || m == b)
  {
    if a <= b then a else b
  }

  /**
   * `atualizarGraficoDistribuicao`: needs and wants are 60% and 40% of the spending
   * percentage, investments the savings percentage, each capped at 100; all zero unless
   * both the salary and the total are positive.
   */
  function DistribuicaoAtual(salario: real, gastos: seq<Gasto>): (r: seq<real>)
    ensures |r| == 3
    ensures r[0] <= 100.0 && r[1] <= 100.0 && r[2] <= 100.0
    ensures 0.0 <= r[1] <= r[0]
    ensures salario > 0.0 && Total(gastos) > 0.0 ==> r[1] > 0.0
  {
    var totalGastos := Total(gastos);
    if salario > 0.0 && totalGastos > 0.0 then
      var percentualGastos := (totalGastos / salario) * 100.0;
      var percentualEconomia := ((salario - totalGastos) / salario) * 100.0;
      [Min(percentualGastos * 0.6, 100.0), Min(percentualGastos * 0.4, 100.0), Min(percentualEconomia, 100.0)]
    else [0.0, 0.0, 0.0]
  }

  /** Without a positive salary and a positive total the bars are all zero. */
  lemma {:induction false} DistribuicaoVazia(salario: real, gastos: seq<Gasto>)
    requires !(salario > 0.0 && Total(gastos) > 0.0)
    ensures DistribuicaoAtual(salario, gastos) == [0.0, 0.0, 0.0]
  {
  }

  lemma {:induction false} ComparaPorPositivo(a: real, b: real, s: real)
    requires s > 0.0
    ensures a * s <= b * s <==> a <= b
    ensures a * s == b * s <==> a == b
    ensures a * s < b * s <==> a < b
  {
    assert a * s - b * s == (a - b) * s;
  }

  lemma {:induction false} DiferencaDividida(s: real, t: real)
    requires s > 0.0
    ensures (s - t) / s == 1.0 - t / s
  {
    assert (s - t) / s == s / s - t / s;
    assert s / s == 1.0;
  }

  lemma {:induction false} QuocienteComparado(s: real, t: real, c: real)
    requires s > 0.0
    ensures t <= c * s <==> t / s <= c
    ensures t < c * s <==> t / s < c
  {
    var q := t / s;
    assert q * s == t;
    ComparaPorPositivo(q, c, s);
    assert t < c * s <==> q * s < c * s;
  }

  lemma {:induction false} Percentuais(salario: real, totalGastos: real)
    requires salario > 0.0 && totalGastos > 0.0
    ensures (totalGastos / salario) * 100.0 > 0.0
    ensures ((salario - totalGastos) / salario) * 100.0 == 100.0 - (totalGastos / salario) * 100.0
    ensures totalGastos > salario <==> ((salario - totalGastos) / salario) * 100.0 < 0.0
    ensures totalGastos * 3.0 <= salario * 5.0 <==> (totalGastos / salario) * 100.0 * 0.6 <= 100.0
  {
    DiferencaDividida(salario, totalGastos);
    QuocienteComparado(salario, totalGastos, 0.0);
    QuocienteComparado(salario, totalGastos, 1.0);
    QuocienteComparado(salario, totalGastos, 5.0 / 3.0);
  }

  /**
   * With a positive salary and total: needs and wants never exceed 100 and wants never
   * exceed needs; investments are the savings percentage, below 100 so its cap never
   * binds, and negative when the total exceeds the salary; while the needs cap does not
   * bind (total at most five thirds of the salary) the three bars add up to 100.
   */
  lemma {:induction false} DistribuicaoComDados(salario: real, gastos: seq<Gasto>)
    requires salario > 0.0 && Total(gastos) > 0.0
    ensures var r := DistribuicaoAtual(salario, gastos);
      var p := (Total(gastos) / salario) * 100.0;
      && 0.0 < r[1] <= r[0] <= 100.0 && r[1] <= 100.0
      && r[2] == 100.0 - p && r[2] < 100.0
      && (Total(gastos) > salario <==> r[2] < 0.0)
      && (Total(gastos) * 3.0 <= salario * 5.0 ==> r[0] == p * 0.6 && r[1] == p * 0.4 && r[0] + r[1] + r[2] == 100.0)
  {
    Percentuais(salario, Total(gastos));
  }
}
