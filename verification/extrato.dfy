/**
 * The bank-statement reader of `processarLinhasExtrato`: the text is cut into lines at
 * `\n`, each line into fields at `,`, `;`, `|` or tab; field 0 trimmed is the
 * description, field 1 the amount. Lines that do not give a description and a positive
 * amount are skipped without notice; accepted ones become expenses in category `Outros`.
 */
module Extrato {
  import opened Wrappers
  import Texto
  import Numero
  import opened Dados

  /** The class `[,;|\t]` lines are split on. */
  const Separadores: set<char> := {',', ';', '|', '\t'}

  const CategoriaImportada := "Outros"

  /** The amount text after `replace(/[^\d,.-]/g, '')` and `replace(',', '.')`. */
  function TextoDoValor(campo: string): string
  {
    Texto.ReplaceFirst(Texto.KeepAmountChars(campo), ',', '.')
  }

  /** `Math.abs`, with `NaN` staying `NaN`. */
  function Abs(x: Option<real>): (r: Option<real>)
    ensures r.None? <==> x.None?
    ensures r.Some? ==> r.value >= 0.0 && (r.value == x.value || r.value == -x.value)
  {
    match x
    case None => None
    case Some(v) => Some(if v < 0.0 then -v else v)
  }

  lemma {:induction false} AbsNegate(p: Option<real>, q: Option<real>)
    requires q == Numero.Negate(p)
    ensures Abs(q) == Abs(p)
  {
  }

  /** `Math.abs(parseFloat(...))` of the amount text; `None` is `NaN`. */
  function ValorDoCampo(campo: string): (r: Option<real>)
    ensures r.Some? ==> r.value >= 0.0
  {
    Abs(Numero.ParseFloat(TextoDoValor(campo)))
  }

  /** One line of the statement: an expense, or nothing when the line is skipped. */
  function LerLinha(linha: string, agora: string): (r: Option<Gasto>)
    ensures r.Some? ==> && r.value.nome != "" && Texto.Trim(r.value.nome) == r.value.nome
                        && r.value.valor > 0.0 && r.value.categoria == CategoriaImportada
                        && r.value.data == agora
  {
    var partes := Texto.Split(linha, Separadores);
    if |partes| < 2 then None
    else
      var descricao := Texto.Trim(partes[0]);
      Texto.TrimIdempotent(partes[0]);
      match ValorDoCampo(partes[1])
      case None => None
      case Some(valor) =>
        if descricao != "" && valor > 0.0 then Some(Gasto(descricao, valor, CategoriaImportada, agora))
        else None
  }

  function ComoLista(g: Option<Gasto>): seq<Gasto>
  {
    if g.Some? then [g.value] else []
  }

  /** The expenses a sequence of lines yields, in line order. */
  function Importar(linhas: seq<string>, agora: string): (r: seq<Gasto>)
    ensures |r| <= |linhas|
  {
    if linhas == [] then []
    else Importar(linhas[..|linhas| - 1], agora) + ComoLista(LerLinha(linhas[|linhas| - 1], agora))
  }

  /** Reading one more line appends what that line yields. */
  lemma {:induction false} ImportarPasso(linhas: seq<string>, i: nat, agora: string)
    requires i < |linhas|
    ensures Importar(linhas[..i + 1], agora) == Importar(linhas[..i], agora) + ComoLista(LerLinha(linhas[i], agora))
  {
    assert linhas[..i + 1][..i] == linhas[..i];
  }

  /** The same step seen from a list that already ends with the lines read so far. */
  lemma {:induction false} AnexarPasso(gastos: seq<Gasto>, anterior: seq<Gasto>, resultado: seq<Gasto>, linhas: seq<string>, i: nat,
                    g: Option<Gasto>, agora: string)
    requires i < |linhas|
    requires anterior == gastos + Importar(linhas[..i], agora)
    requires g == LerLinha(linhas[i], agora)
    requires g.Some? ==> resultado == anterior + [g.value]
    requires g.None? ==> resultado == anterior
    ensures resultado == gastos + Importar(linhas[..i + 1], agora)
  {
    ImportarPasso(linhas, i, agora);
    Associa(gastos, Importar(linhas[..i], agora), ComoLista(g), Importar(linhas[..i + 1], agora));
    if g.None? {
      assert anterior + ComoLista(g) == anterior;
    }
  }

  lemma {:induction false} Associa(a: seq<Gasto>, b: seq<Gasto>, c: seq<Gasto>, d: seq<Gasto>)
    requires d == b + c
    ensures (a + b) + c == a + d
  {
  }

  /** `conteudo.split('\n')`. */
  function Linhas(conteudo: string): seq<string>
  {
    Texto.Split(conteudo, {'\n'})
  }

  /** The expenses a whole statement yields. */
  function LerExtrato(conteudo: string, agora: string): (r: seq<Gasto>)
    ensures |r| <= Texto.Count(conteudo, {'\n'}) + 1
  {
    Importar(Linhas(conteudo), agora)
  }

  /** Lines are read independently and in order. */
  lemma {:induction false} ImportarConcat(a: seq<string>, b: seq<string>, agora: string)
    ensures Importar(a + b, agora) == Importar(a, agora) + Importar(b, agora)
    decreases |b|
  {
    if b == [] {
      assert a + b == a;
    } else {
      var n := |b| - 1;
      assert (a + b)[..|a + b| - 1] == a + b[..n];
      ImportarConcat(a, b[..n], agora);
    }
  }

  /** What every imported expense looks like: a trimmed, non-empty description, a positive amount, category `Outros`. */
  predicate Importado(g: Gasto, agora: string)
  {
    g.nome != "" && Texto.Trim(g.nome) == g.nome && g.valor > 0.0 && g.categoria == CategoriaImportada && g.data == agora
  }

  /** Every imported expense has a trimmed, non-empty description, a positive amount and category `Outros`. */
  lemma {:induction false} ImportadosBemFormados(linhas: seq<string>, agora: string)
    ensures forall i :: 0 <= i < |Importar(linhas, agora)| ==> Importado(Importar(linhas, agora)[i], agora)
  {
    if linhas != [] {
      var n := |linhas| - 1;
      var anteriores := Importar(linhas[..n], agora);
      var ultima := ComoLista(LerLinha(linhas[n], agora));
      ImportadosBemFormados(linhas[..n], agora);
      assert Importar(linhas, agora) == anteriores + ultima;
      forall i | 0 <= i < |anteriores + ultima| ensures Importado((anteriores + ultima)[i], agora) {
        if i >= |anteriores| {
          assert (anteriores + ultima)[i] == ultima[i - |anteriores|];
        }
      }
    }
  }

  /** A line without any of the separators is a single field and yields nothing. */
  lemma {:induction false} LinhaDeUmCampo(linha: string, agora: string)
    requires forall i :: 0 <= i < |linha| ==> linha[i] !in Separadores
    ensures LerLinha(linha, agora).None?
  {
    Texto.SplitWithoutSeparator(linha, Separadores);
  }

  /**
   * Field 1 can never contain a comma, since the comma is one of the separators, so the
   * comma-to-period replacement leaves the filtered amount text unchanged.
   */
  lemma {:induction false} VirgulaNuncaSubstituida(linha: string)
    requires |Texto.Split(linha, Separadores)| >= 2
    ensures var k := Texto.KeepAmountChars(Texto.Split(linha, Separadores)[1]);
      ',' !in k && Texto.ReplaceFirst(k, ',', '.') == k
  {
    var campo := Texto.Split(linha, Separadores)[1];
    assert ',' !in campo;
  }

  lemma {:induction false} FiltroComMenos(campo: string)
    ensures Texto.KeepAmountChars("-" + campo) == ['-'] + Texto.KeepAmountChars(campo)
  {
    Texto.KeepAmountCharsConcat("-", campo);
    assert Texto.KeepAmountChars("-") == "-" by {
      assert Texto.IsAmountChar("-"[0]);
      assert "-"[1..] == [];
    }
  }

  lemma {:induction false} TrocaComMenos(k: string)
    ensures Texto.ReplaceFirst(['-'] + k, ',', '.') == ['-'] + Texto.ReplaceFirst(k, ',', '.')
  {
    var m := ['-'] + k;
    assert m[0] == '-' && m[1..] == k;
  }

  lemma {:induction false} InicioDoFiltrado(k: string)
    requires forall i :: 0 <= i < |k| ==> Texto.IsAmountChar(k[i])
    requires k == [] || k[0] != '-'
    ensures var r := Texto.ReplaceFirst(k, ',', '.');
      r == [] || (r[0] != '-' && r[0] != '+' && !Texto.IsSpace(r[0]))
  {
    var r := Texto.ReplaceFirst(k, ',', '.');
    if r != [] {
      assert Texto.IsAmountChar(k[0]);
      assert r[0] == k[0] || r[0] == '.';
    }
  }

  /** The amount's sign is dropped: a leading minus gives the same amount. */
  lemma {:induction false} SinalDescartado(campo: string)
    requires var k := Texto.KeepAmountChars(campo); k == [] || k[0] != '-'
    ensures ValorDoCampo("-" + campo) == ValorDoCampo(campo)
  {
    var k := Texto.KeepAmountChars(campo);
    var r := TextoDoValor(campo);
    FiltroComMenos(campo);
    TrocaComMenos(k);
    InicioDoFiltrado(k);
    calc {
      TextoDoValor("-" + campo);
      Texto.ReplaceFirst(['-'] + k, ',', '.');
      ['-'] + r;
      "-" + r;
    }
    Numero.MinusNegates(r);
    AbsNegate(Numero.ParseFloat(r), Numero.ParseFloat("-" + r));
  }

  lemma {:induction false} ValorSemSeparadores(valor: string)
    requires forall i :: 0 <= i < |valor| ==> Texto.IsAmountChar(valor[i]) && valor[i] != ','
    ensures forall i :: 0 <= i < |valor| ==> valor[i] !in Separadores
    ensures TextoDoValor(valor) == valor
  {
    Texto.KeepAmountCharsIdentity(valor);
    assert ',' !in valor;
  }

  lemma {:induction false} DoisCampos(descricao: string, sep: char, valor: string, resto: string)
    requires sep in Separadores
    requires forall i :: 0 <= i < |descricao| ==> descricao[i] !in Separadores
    ensures Texto.Split(descricao + [sep] + (valor + resto), Separadores)
         == [descricao] + Texto.Split(valor + resto, Separadores)
  {
    Texto.SplitAtSeparator(descricao, sep, valor + resto, Separadores);
  }

  lemma {:induction false} CampoFinal(valor: string, resto: string)
    requires forall i :: 0 <= i < |valor| ==> valor[i] !in Separadores
    requires resto == [] || resto[0] in Separadores
    ensures Texto.Split(valor + resto, Separadores)[0] == valor
  {
    Texto.SplitFirstPiece(valor, resto, Separadores);
  }

  lemma {:induction false} CamposDaLinha(descricao: string, sep: char, valor: string, resto: string)
    requires sep in Separadores
    requires forall i :: 0 <= i < |descricao| ==> descricao[i] !in Separadores
    requires forall i :: 0 <= i < |valor| ==> valor[i] !in Separadores
    requires resto == [] || resto[0] in Separadores
    ensures var partes := Texto.Split(descricao + [sep] + valor + resto, Separadores);
      |partes| >= 2 && partes[0] == descricao && partes[1] == valor
  {
    var linha := descricao + [sep] + valor + resto;
    assert linha == descricao + [sep] + (valor + resto);
    DoisCampos(descricao, sep, valor, resto);
    CampoFinal(valor, resto);
    PrimeiroESegundo(Texto.Split(linha, Separadores), descricao, Texto.Split(valor + resto, Separadores), valor);
  }

  lemma {:induction false} PrimeiroESegundo(partes: seq<string>, primeiro: string, cauda: seq<string>, segundo: string)
    requires partes == [primeiro] + cauda && |cauda| >= 1 && cauda[0] == segundo
    ensures |partes| >= 2 && partes[0] == primeiro && partes[1] == segundo
  {
  }

  /**
   * A line made of a description, a separator and a plain amount, optionally followed by
   * further fields, is read as exactly that expense, whatever the amount's sign.
   */
  lemma {:induction false} LinhaBemFormada(descricao: string, sep: char, valor: string, resto: string, agora: string, v: real)
    requires sep in Separadores
    requires forall i :: 0 <= i < |descricao| ==> descricao[i] !in Separadores
    requires descricao != [] && !Texto.IsSpace(descricao[0]) && !Texto.IsSpace(descricao[|descricao| - 1])
    requires forall i :: 0 <= i < |valor| ==> Texto.IsAmountChar(valor[i]) && valor[i] != ','
    requires resto == [] || resto[0] in Separadores
    requires Abs(Numero.ParseFloat(valor)) == Some(v) && v > 0.0
    ensures LerLinha(descricao + [sep] + valor + resto, agora) == Some(Gasto(descricao, v, CategoriaImportada, agora))
  {
    ValorSemSeparadores(valor);
    CamposDaLinha(descricao, sep, valor, resto);
    Texto.TrimNonSpaceEnds(descricao);
  }

  lemma {:induction false} TresLinhas(a: string, b: string, c: string)
    requires '\n' !in a && '\n' !in b && '\n' !in c
    ensures Linhas(a + "\n" + b + "\n" + c) == [a, b, c]
  {
    assert a + "\n" + b + "\n" + c == a + ['\n'] + (b + ['\n'] + c);
    Texto.SplitAtSeparator(a, '\n', b + ['\n'] + c, {'\n'});
    Texto.SplitAtSeparator(b, '\n', c, {'\n'});
    Texto.SplitWithoutSeparator(c, {'\n'});
  }

  lemma {:induction false} ImportarTres(a: string, b: string, c: string, agora: string)
    ensures Importar([a, b, c], agora)
         == ComoLista(LerLinha(a, agora)) + ComoLista(LerLinha(b, agora)) + ComoLista(LerLinha(c, agora))
  {
    var ls := [a, b, c];
    assert ls[..2] == [a, b] && [a, b][..1] == [a] && [a][..0] == [];
    assert Importar([a], agora) == ComoLista(LerLinha(a, agora));
    assert Importar([a, b], agora) == ComoLista(LerLinha(a, agora)) + ComoLista(LerLinha(b, agora));
  }

  lemma {:induction false} ValorDoze()
    ensures Numero.ParseFloat("12.50") == Some(12.5)
  {
    assert Numero.NatToDigits(12) == "12";
    assert Numero.CentsText(1250) == "12.50";
    Numero.CentsRoundTrip(1250);
  }

  lemma {:induction false} ValorMilEQuinhentos()
    ensures Numero.ParseFloat("1500") == Some(1500.0)
  {
    assert Numero.NatToDigits(1500) == "1500";
    Numero.NatRoundTrip(1500);
  }

  /** A minus sign before an amount printed with two decimals reads back, in absolute value, as that amount. */
  lemma {:induction false} AbsDeCentavosNegativos(m: string, c: nat)
    requires m == "-" + Numero.CentsText(c)
    ensures Abs(Numero.ParseFloat(m)) == Some(c as real / 100.0)
  {
    Numero.CentsRoundTrip(c);
    AbsNegate(Some(c as real / 100.0), Numero.ParseFloat(m));
  }

  lemma {:induction false} ValorMenosCinco()
    ensures Abs(Numero.ParseFloat("-5.00")) == Some(5.0)
  {
    assert Numero.CentsText(500) == "5.00";
    AbsDeCentavosNegativos("-5.00", 500);
  }

  // Facts about the sample texts, one per lemma so that each is checked on its own.

  lemma {:induction false} FatosCoffee()
    ensures forall i :: 0 <= i < |"Coffee"| ==> "Coffee"[i] !in Separadores
    ensures !Texto.IsSpace("Coffee"[0]) && !Texto.IsSpace("Coffee"[5])
  {
  }

  lemma {:induction false} FatosDoze()
    ensures forall i :: 0 <= i < |"12.50"| ==> Texto.IsAmountChar("12.50"[i]) && "12.50"[i] != ','
    ensures "Coffee" + [','] + "12.50" + "" == "Coffee,12.50"
  {
  }

  lemma {:induction false} FatosBadLine()
    ensures forall i :: 0 <= i < |"Bad Line"| ==> "Bad Line"[i] !in Separadores
  {
  }

  lemma {:induction false} FatosRent()
    ensures forall i :: 0 <= i < |"Rent"| ==> "Rent"[i] !in Separadores
    ensures !Texto.IsSpace("Rent"[0]) && !Texto.IsSpace("Rent"[3])
  {
  }

  lemma {:induction false} FatosMilEQuinhentos()
    ensures forall i :: 0 <= i < |"1500"| ==> Texto.IsAmountChar("1500"[i]) && "1500"[i] != ','
    ensures "Rent" + [';'] + "1500" + ",00" == "Rent;1500,00"
  {
  }

  lemma {:induction false} FatosMenosCinco()
    ensures forall i :: 0 <= i < |"-5.00"| ==> Texto.IsAmountChar("-5.00"[i]) && "-5.00"[i] != ','
    ensures forall i :: 0 <= i < |"X"| ==> "X"[i] !in Separadores
    ensures "X" != [] && !Texto.IsSpace("X"[0]) && !Texto.IsSpace("X"[|"X"| - 1])
    ensures ',' in Separadores
    ensures "X" + [','] + "-5.00" + "" == "X,-5.00"
  {
  }

  lemma {:induction false} LinhaCoffee(agora: string)
    ensures LerLinha("Coffee,12.50", agora) == Some(Gasto("Coffee", 12.5, "Outros", agora))
  {
    FatosCoffee();
    FatosDoze();
    ValorDoze();
    LinhaBemFormada("Coffee", ',', "12.50", "", agora, 12.5);
  }

  lemma {:induction false} LinhaBadLine(agora: string)
    ensures LerLinha("Bad Line", agora) == None
  {
    FatosBadLine();
    LinhaDeUmCampo("Bad Line", agora);
  }

  lemma {:induction false} LinhaRent(agora: string)
    ensures LerLinha("Rent;1500,00", agora) == Some(Gasto("Rent", 1500.0, "Outros", agora))
  {
    FatosRent();
    FatosMilEQuinhentos();
    ValorMilEQuinhentos();
    LinhaBemFormada("Rent", ';', "1500", ",00", agora, 1500.0);
  }

  lemma {:induction false} FatosDoExtrato()
    ensures '\n' !in "Coffee,12.50" && '\n' !in "Bad Line" && '\n' !in "Rent;1500,00"
  {
  }

  lemma {:induction false} TextoDoExtrato()
    ensures "Coffee,12.50" + "\n" + "Bad Line" + "\n" + "Rent;1500,00" == "Coffee,12.50\nBad Line\nRent;1500,00"
  {
  }

  /**
   * A sample statement: the line without separators is skipped, and `1500,00` keeps only
   * its integer part because the comma has already split it into two fields.
   */
  lemma {:induction false} ExemploDeExtrato(agora: string)
    ensures LerExtrato("Coffee,12.50\nBad Line\nRent;1500,00", agora)
         == [Gasto("Coffee", 12.5, "Outros", agora), Gasto("Rent", 1500.0, "Outros", agora)]
  {
    FatosDoExtrato();
    TextoDoExtrato();
    LinhaCoffee(agora);
    LinhaBadLine(agora);
    LinhaRent(agora);
    ExtratoDeTres("Coffee,12.50", "Bad Line", "Rent;1500,00", agora,
                  Gasto("Coffee", 12.5, "Outros", agora), Gasto("Rent", 1500.0, "Outros", agora));
  }

  lemma {:induction false} ExtratoDeTres(a: string, b: string, c: string, agora: string, ga: Gasto, gc: Gasto)
    requires '\n' !in a && '\n' !in b && '\n' !in c
    requires LerLinha(a, agora) == Some(ga) && LerLinha(b, agora).None? && LerLinha(c, agora) == Some(gc)
    ensures LerExtrato(a + "\n" + b + "\n" + c, agora) == [ga, gc]
  {
    TresLinhas(a, b, c);
    ImportarTres(a, b, c, agora);
  }

  /** A negative amount is imported as its absolute value. */
  lemma {:induction false} ExemploNegativo(agora: string)
    ensures LerLinha("X,-5.00", agora) == Some(Gasto("X", 5.0, "Outros", agora))
  {
    FatosMenosCinco();
    ValorMenosCinco();
    LinhaBemFormada("X", ',', "-5.00", "", agora, 5.0);
  }
}
