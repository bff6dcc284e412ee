/**
 * The expense-list operations of the current user: the manual form (`adicionarGasto`),
 * the remove button (`removerGasto`) and the statement import (`processarLinhasExtrato`).
 * Each reads the current record, edits its `gastos` list and writes the record back
 * with `atualizarUsuarioAtual`.
 */
module Gastos {
  import opened Wrappers
  import Texto
  import Numero
  import opened Dados
  import Extrato

  /** JavaScript falsiness of a number: `NaN` and `0` are falsy. */
  predicate Falso(x: Option<real>)
  {
    x.None? || x.value == 0.0
  }

  /**
   * The manual form: trimmed description, `parseFloat` of the amount field, the chosen
   * category. `None` is the "fill in description and a valid amount" alert.
   */
  function NovoGasto(campoDescricao: string, campoValor: string, categoria: string, agora: string): (r: Option<Gasto>)
    ensures r.Some? <==> Texto.Trim(campoDescricao) != []
                         && Numero.ParseFloat(campoValor).Some? && Numero.ParseFloat(campoValor).value > 0.0
    ensures r.Some? ==> r.value.nome == Texto.Trim(campoDescricao) && r.value.valor == Numero.ParseFloat(campoValor).value
                        && r.value.categoria == categoria && r.value.data == agora
  {
    var descricao := Texto.Trim(campoDescricao);
    var valor := Numero.ParseFloat(campoValor);
    if descricao == [] || Falso(valor) || valor.value <= 0.0 then None
    else Some(Gasto(descricao, valor.value, categoria, agora))
  }

  /** A blank description, an unreadable amount and a zero amount are all refused. */
  lemma {:induction false} NovoGastoRecusado(campoDescricao: string, campoValor: string, categoria: string, agora: string)
    ensures Texto.Trim(campoDescricao) == [] ==> NovoGasto(campoDescricao, campoValor, categoria, agora).None?
    ensures Numero.ParseFloat(campoValor).None? ==> NovoGasto(campoDescricao, campoValor, categoria, agora).None?
    ensures Numero.ParseFloat(campoValor) == Some(0.0) ==> NovoGasto(campoDescricao, campoValor, categoria, agora).None?
    ensures NovoGasto(campoDescricao, " ", categoria, agora).None?
  {
    Numero.NoDigitIsNaN(" ");
  }

  /** Where `splice(indice, 1)` starts: a negative index counts from the end, and both ends are clamped. */
  function InicioDoSplice(n: nat, indice: int): (k: nat)
    ensures k <= n
    ensures 0 <= indice ==> k == if indice < n then indice else n
    ensures indice < 0 ==> k == if n + indice < 0 then 0 else n + indice
  {
    if indice < 0 then (if n + indice < 0 then 0 else n + indice)
    else if indice < n then indice else n
  }

  /** `gastos.splice(indice, 1)`: the list without the element at the splice start, if there is one. */
  function Remover(gastos: seq<Gasto>, indice: int): (r: seq<Gasto>)
    ensures 0 <= indice < |gastos| ==>
      && |r| == |gastos| - 1
      && (forall i :: 0 <= i < indice ==> r[i] == gastos[i])
      && (forall i :: indice <= i < |r| ==> r[i] == gastos[i + 1])
      && multiset(r) + multiset{gastos[indice]} == multiset(gastos)
    ensures indice >= |gastos| ==> r == gastos
    ensures forall i :: 0 <= i < |r| ==> r[i] in gastos
  {
    var k := InicioDoSplice(|gastos|, indice);
    if k < |gastos| then
      assert gastos == gastos[..k] + [gastos[k]] + gastos[k + 1..];
      gastos[..k] + gastos[k + 1..]
    else gastos
  }

  /** A negative index removes the element that many places from the end. */
  lemma {:induction false} RemoverDoFim(gastos: seq<Gasto>, indice: int)
    requires -|gastos| <= indice < 0
    ensures Remover(gastos, indice) == Remover(gastos, |gastos| + indice)
    ensures |Remover(gastos, indice)| == |gastos| - 1
  {
    assert InicioDoSplice(|gastos|, indice) == |gastos| + indice == InicioDoSplice(|gastos|, |gastos| + indice);
  }

  /** An index before the start of a non-empty list removes its first element. */
  lemma {:induction false} RemoverAntesDoInicio(gastos: seq<Gasto>, indice: int)
    requires indice < -|gastos| && gastos != []
    ensures Remover(gastos, indice) == gastos[1..]
  {
    assert InicioDoSplice(|gastos|, indice) == 0;
    assert gastos[..0] + gastos[1..] == gastos[1..];
  }

  /** The `forEach` of `processarLinhasExtrato`: push each accepted line and count it. */
  method AnexarLinhas(gastos: seq<Gasto>, linhas: seq<string>, agora: string) returns (resultado: seq<Gasto>, contador: nat)
    ensures resultado == gastos + Extrato.Importar(linhas, agora)
    ensures contador == |resultado| - |gastos|
    ensures contador <= |linhas|
  {
    resultado := gastos;
    contador := 0;
    var i := 0;
    assert linhas[..0] == [];
    assert gastos + [] == gastos;
    while i < |linhas|
      invariant 0 <= i <= |linhas|
      invariant resultado == gastos + Extrato.Importar(linhas[..i], agora)
      invariant contador == |resultado| - |gastos|
    {
      ghost var anterior := resultado;
      var gasto := Extrato.LerLinha(linhas[i], agora);
      resultado, contador := AnexarGasto(resultado, contador, gasto);
      Extrato.AnexarPasso(gastos, anterior, resultado, linhas, i, gasto, agora);
      i := i + 1;
    }
    assert linhas[..i] == linhas;
  }

  /** The callback of that `forEach`: push the line's expense, if any, and count it. */
  method AnexarGasto(gastos: seq<Gasto>, contador: nat, gasto: Option<Gasto>) returns (resultado: seq<Gasto>, novoContador: nat)
    ensures gasto.Some? ==> resultado == gastos + [gasto.value] && novoContador == contador + 1
    ensures gasto.None? ==> resultado == gastos && novoContador == contador
  {
    resultado, novoContador := gastos, contador;
    if gasto.Some? {
      resultado := resultado + [gasto.value];
      novoContador := novoContador + 1;
    }
  }

  /** `adicionarGasto`: append the form's expense to the current user's list. */
  method AdicionarGasto(sessao: Sessao, campoDescricao: string, campoValor: string, categoria: string, agora: string)
    returns (adicionado: bool)
    requires sessao.Valid()
    modifies sessao`armazenado
    ensures sessao.Valid()
    ensures adicionado <==> NovoGasto(campoDescricao, campoValor, categoria, agora).Some? && sessao.usuarioAtual.Some?
    ensures !adicionado ==> sessao.armazenado == old(sessao.armazenado)
    ensures adicionado ==> sessao.usuarioAtual.Some? && sessao.usuarioAtual.value in old(sessao.BuscarTodosUsuarios())
    ensures adicionado ==>
      var e := sessao.usuarioAtual.value;
      var antes := old(sessao.BuscarTodosUsuarios());
      sessao.BuscarTodosUsuarios()
        == antes[e := antes[e].(gastos := antes[e].gastos + [NovoGasto(campoDescricao, campoValor, categoria, agora).value])]
    ensures old(ValoresPositivos(sessao.BuscarTodosUsuarios())) ==> ValoresPositivos(sessao.BuscarTodosUsuarios())
  {
    var novo := NovoGasto(campoDescricao, campoValor, categoria, agora);
    if novo.None? {
      return false;
    }
    var usuario := sessao.BuscarUsuarioAtual();
    if usuario.None? {
      return false;
    }
    ghost var antes := sessao.BuscarTodosUsuarios();
    ghost var e := sessao.usuarioAtual.value;
    var atualizado := usuario.value.(gastos := usuario.value.gastos + [novo.value]);
    assert usuario.value == antes[e];
    if ValoresPositivos(antes) {
      assert GastosPositivos(usuario.value.gastos);
      GastosPositivosAoAnexar(usuario.value.gastos, novo.value);
      ValoresPositivosAoGravar(antes, e, atualizado);
    }
    MesclarCompleta(usuario.value, atualizado, Completa(atualizado));
    sessao.AtualizarUsuarioAtual(Completa(atualizado));
    assert sessao.BuscarTodosUsuarios() == antes[e := atualizado];
    adicionado := true;
  }

  /** `removerGasto(indice)`: splice one element out of the current user's list. */
  method RemoverGasto(sessao: Sessao, indice: int)
    requires sessao.Valid()
    modifies sessao`armazenado
    ensures sessao.Valid()
    ensures sessao.usuarioAtual.None? ==> sessao.armazenado == old(sessao.armazenado)
    ensures sessao.usuarioAtual.Some? ==>
      var e := sessao.usuarioAtual.value;
      var antes := old(sessao.BuscarTodosUsuarios());
      sessao.BuscarTodosUsuarios() == antes[e := antes[e].(gastos := Remover(antes[e].gastos, indice))]
    ensures old(ValoresPositivos(sessao.BuscarTodosUsuarios())) ==> ValoresPositivos(sessao.BuscarTodosUsuarios())
  {
    var usuario := sessao.BuscarUsuarioAtual();
    if usuario.None? {
      return;
    }
    var atualizado := usuario.value.(gastos := Remover(usuario.value.gastos, indice));
    if ValoresPositivos(sessao.BuscarTodosUsuarios()) {
      assert GastosPositivos(usuario.value.gastos);
      ValoresPositivosAoGravar(sessao.BuscarTodosUsuarios(), sessao.usuarioAtual.value, atualizado);
    }
    MesclarCompleta(usuario.value, atualizado, Completa(atualizado));
    sessao.AtualizarUsuarioAtual(Completa(atualizado));
  }

  /**
   * `processarLinhasExtrato`: append the statement's expenses to the current user's list
   * and report how many were added.
   */
  method ProcessarLinhasExtrato(sessao: Sessao, conteudo: string, agora: string) returns (contador: nat)
    requires sessao.Valid()
    modifies sessao`armazenado
    ensures sessao.Valid()
    ensures sessao.usuarioAtual.None? ==> sessao.armazenado == old(sessao.armazenado) && contador == 0
    ensures sessao.usuarioAtual.Some? ==>
      var e := sessao.usuarioAtual.value;
      var antes := old(sessao.BuscarTodosUsuarios());
      sessao.BuscarTodosUsuarios() == antes[e := antes[e].(gastos := antes[e].gastos + Extrato.LerExtrato(conteudo, agora))]
    ensures sessao.usuarioAtual.Some? ==> contador == |Extrato.LerExtrato(conteudo, agora)|
    ensures contador <= Texto.Count(conteudo, {'\n'}) + 1
    ensures old(ValoresPositivos(sessao.BuscarTodosUsuarios())) ==> ValoresPositivos(sessao.BuscarTodosUsuarios())
  {
    var linhas := Extrato.Linhas(conteudo);
    var usuario := sessao.BuscarUsuarioAtual();
    if usuario.None? {
      return 0;
    }
    var gastos;
    gastos, contador := AnexarLinhas(usuario.value.gastos, linhas, agora);
    var atualizado := usuario.value.(gastos := gastos);
    if ValoresPositivos(sessao.BuscarTodosUsuarios()) {
      assert GastosPositivos(usuario.value.gastos);
      Extrato.ImportadosBemFormados(linhas, agora);
      ValoresPositivosAoGravar(sessao.BuscarTodosUsuarios(), sessao.usuarioAtual.value, atualizado);
    }
    MesclarCompleta(usuario.value, atualizado, Completa(atualizado));
    sessao.AtualizarUsuarioAtual(Completa(atualizado));
  }
}
