/**
 * Accounts and the login session. Browser storage holds two keys: `usuarios`, a map
 * from e-mail to the user's record (serialised as JSON, whose round trip is the identity
 * here), and `usuarioLogado`, the e-mail remembered for automatic login. The page keeps
 * the logged-in e-mail in the global `usuarioAtual`.
 */
module Dados {
  import opened Wrappers
  import Texto
  import Numero

  /** One recorded expense; `data` is the ISO-8601 timestamp, kept opaque. */
  datatype Gasto = Gasto(nome: string, valor: real, categoria: string, data: string)

  /** A user's record; the e-mail is its key in the store, not a field. */
  datatype Usuario = Usuario(nome: string, senha: string, salario: real, gastos: seq<Gasto>)

  /** The fields of an object spread over a record: each one present or absent. */
  datatype Alteracao = Alteracao(
    nome: Option<string>, senha: Option<string>, salario: Option<real>, gastos: Option<seq<Gasto>>)

  /** A whole record used as new values, as every caller of the update does. */
  function Completa(u: Usuario): Alteracao
  {
    Alteracao(Some(u.nome), Some(u.senha), Some(u.salario), Some(u.gastos))
  }

  /** `{ ...u, ...a }`: the fields `a` carries override, the others are kept. */
  function Mesclar(u: Usuario, a: Alteracao): (r: Usuario)
    ensures a.nome.Some? ==> r.nome == a.nome.value
    ensures a.nome.None? ==> r.nome == u.nome
    ensures a.senha.Some? ==> r.senha == a.senha.value
    ensures a.senha.None? ==> r.senha == u.senha
    ensures a.salario.Some? ==> r.salario == a.salario.value
    ensures a.salario.None? ==> r.salario == u.salario
    ensures a.gastos.Some? ==> r.gastos == a.gastos.value
    ensures a.gastos.None? ==> r.gastos == u.gastos
  {
    Usuario(a.nome.GetOr(u.nome), a.senha.GetOr(u.senha), a.salario.GetOr(u.salario), a.gastos.GetOr(u.gastos))
  }

  /** Merging a whole record replaces the old one; merging twice is merging once. */
  lemma {:induction false} MesclarCompleta(u: Usuario, v: Usuario, a: Alteracao)
    ensures Mesclar(u, Completa(v)) == v
    ensures Mesclar(Mesclar(u, a), a) == Mesclar(u, a)
  {
  }

  /** Every stored expense has a positive amount (both entry points reject the others). */
  ghost predicate ValoresPositivos(usuarios: map<string, Usuario>)
  {
    forall e :: e in usuarios ==> GastosPositivos(usuarios[e].gastos)
  }

  ghost predicate GastosPositivos(gastos: seq<Gasto>)
  {
    forall i :: 0 <= i < |gastos| ==> gastos[i].valor > 0.0
  }

  /** Storing a record whose amounts are positive keeps every stored amount positive. */
  lemma {:induction false} GastosPositivosAoAnexar(gastos: seq<Gasto>, g: Gasto)
    requires GastosPositivos(gastos) && g.valor > 0.0
    ensures GastosPositivos(gastos + [g])
  {
  }

  lemma {:induction false} ValoresPositivosAoGravar(usuarios: map<string, Usuario>, e: string, u: Usuario)
    requires ValoresPositivos(usuarios)
    requires GastosPositivos(u.gastos)
    ensures ValoresPositivos(usuarios[e := u])
  {
  }

  // ---------------------------------------------------------------------------------
  // Property lookups as the source writes them, and as evidently intended.
  // ---------------------------------------------------------------------------------

  /** The members every plain object inherits from `Object.prototype`. */
  const NomesDoPrototipo: set<string> := {
    "constructor", "__proto__", "hasOwnProperty", "isPrototypeOf", "propertyIsEnumerable",
    "toString", "toLocaleString", "valueOf",
    "__defineGetter__", "__defineSetter__", "__lookupGetter__", "__lookupSetter__"}

  /**
   * As written: the test `usuarios[email]` on a parsed object is truthy for a stored
   * e-mail and also for any name inherited from `Object.prototype`.
   */
  predicate CadastradoComoEscrito(usuarios: map<string, Usuario>, email: string)
  {
    email in usuarios || email in NomesDoPrototipo
  }

  /** The e-mail `toString` is reported as taken although nobody registered it. */
  lemma {:induction false} CadastroFantasma(usuarios: map<string, Usuario>)
    requires "toString" !in usuarios
    ensures CadastradoComoEscrito(usuarios, "toString")
  {
  }

  /** As written: `usuarios[usuarioAtual]` with `usuarioAtual === null` reads the key "null". */
  function ChaveComoEscrita(atual: Option<string>): string
  {
    if atual.Some? then atual.value else "null"
  }

  /** As written: `usuarios[usuarioAtual] || null`. */
  function BuscarComoEscrito(usuarios: map<string, Usuario>, atual: Option<string>): Option<Usuario>
  {
    var chave := ChaveComoEscrita(atual);
    if chave in usuarios then Some(usuarios[chave]) else None
  }

  /** With nobody logged in, the record of a user registered as "null" is returned. */
  lemma {:induction false} BuscaSemLoginComoEscrita(u: Usuario)
    ensures BuscarComoEscrito(map["null" := u], None) == Some(u)
  {
  }

  /** The lookup as intended: no current user, no record. */
  function Buscar(usuarios: map<string, Usuario>, atual: Option<string>): (r: Option<Usuario>)
    ensures atual.None? ==> r.None?
    ensures r.Some? <==> atual.Some? && atual.value in usuarios
    ensures r.Some? ==> r.value == usuarios[atual.value]
    ensures atual.Some? ==> r == BuscarComoEscrito(usuarios, atual)
  {
    if atual.Some? && atual.value in usuarios then Some(usuarios[atual.value]) else None
  }

  /** The alerts the account forms end with. */
  datatype Aviso =
    | PreenchaEmailESenha
    | NomeObrigatorio
    | EmailJaCadastrado
    | ContaCriada
    | UsuarioNaoEncontrado
    | SenhaIncorreta
    | LoginRealizado

  /** The outcome `criarConta` reports for trimmed e-mail and password, the prompt's answer and the stored users. */
  function AvisoCadastro(email: string, senha: string, nomeDigitado: Option<string>, usuarios: map<string, Usuario>): (r: Aviso)
    ensures r == ContaCriada <==>
      email != "" && senha != "" && nomeDigitado.Some? && Texto.Trim(nomeDigitado.value) != "" && email !in usuarios
    ensures r == EmailJaCadastrado ==> email in usuarios
    ensures r in {PreenchaEmailESenha, NomeObrigatorio, EmailJaCadastrado, ContaCriada}
  {
    if email == "" || senha == "" then PreenchaEmailESenha
    else if nomeDigitado.None? || Texto.Trim(nomeDigitado.value) == "" then NomeObrigatorio
    else if email in usuarios then EmailJaCadastrado
    else ContaCriada
  }

  /**
   * With the own-key test, a filled-in form is refused as a duplicate exactly when the
   * e-mail is stored, so `toString` can be registered like any other e-mail.
   */
  lemma {:induction false} DuplicadoSoSeCadastrado(email: string, senha: string, nome: string, usuarios: map<string, Usuario>)
    requires email != "" && senha != "" && Texto.Trim(nome) != ""
    ensures AvisoCadastro(email, senha, Some(nome), usuarios) == EmailJaCadastrado <==> email in usuarios
    ensures AvisoCadastro(email, senha, Some(nome), usuarios) == ContaCriada <==> email !in usuarios
    ensures "toString" !in usuarios ==> AvisoCadastro("toString", senha, Some(nome), usuarios) == ContaCriada
  {
  }

  /** The outcome `fazerLogin` reports for trimmed e-mail and password and the stored users. */
  function AvisoLogin(email: string, senha: string, usuarios: map<string, Usuario>): (r: Aviso)
    ensures r == LoginRealizado <==> email != "" && senha != "" && email in usuarios && usuarios[email].senha == senha
    ensures r == UsuarioNaoEncontrado ==> email !in usuarios
    ensures r in {PreenchaEmailESenha, UsuarioNaoEncontrado, SenhaIncorreta, LoginRealizado}
  {
    if email == "" || senha == "" then PreenchaEmailESenha
    else if email !in usuarios then UsuarioNaoEncontrado
    else if usuarios[email].senha != senha then SenhaIncorreta
    else LoginRealizado
  }

  /**
   * A successful registration stores exactly what a login checks: the same e-mail and
   * password then log in, any other password is refused, and registering the e-mail
   * again is refused as a duplicate.
   */
  lemma {:induction false} CadastroPermiteLogin(email: string, senha: string, nome: string, outra: string, usuarios: map<string, Usuario>)
    requires AvisoCadastro(email, senha, Some(nome), usuarios) == ContaCriada
    ensures var depois := usuarios[email := Usuario(Texto.Trim(nome), senha, 0.0, [])];
      && AvisoLogin(email, senha, depois) == LoginRealizado
      && (outra != "" && outra != senha ==> AvisoLogin(email, outra, depois) == SenhaIncorreta)
      && AvisoCadastro(email, senha, Some(nome), depois) == EmailJaCadastrado
  {
  }

  /** The page's storage and session. */
  class Sessao {
    /** Storage key `usuarios`; `None` until the first account is saved. */
    var armazenado: Option<map<string, Usuario>>
    /** Storage key `usuarioLogado`. */
    var usuarioLogado: Option<string>
    /** The global `usuarioAtual`. */
    var usuarioAtual: Option<string>

    /** The session only ever points at a stored account. */
    ghost predicate Valid()
      reads this
    {
      usuarioAtual.Some? ==> usuarioAtual.value in BuscarTodosUsuarios()
    }

    /** A page load: storage as left by earlier visits, nobody logged in yet. */
    constructor (armazenado: Option<map<string, Usuario>>, usuarioLogado: Option<string>)
      ensures Valid()
      ensures this.armazenado == armazenado && this.usuarioLogado == usuarioLogado
      ensures usuarioAtual.None?
    {
      this.armazenado := armazenado;
      this.usuarioLogado := usuarioLogado;
      usuarioAtual := None;
    }

    /** `buscarTodosUsuarios`: an absent store reads as no users. */
    function BuscarTodosUsuarios(): (usuarios: map<string, Usuario>)
      reads this
      ensures armazenado.None? ==> usuarios == map[]
      ensures armazenado.Some? ==> usuarios == armazenado.value
    {
      armazenado.GetOr(map[])
    }

    /** `salvarTodosUsuarios`: the whole map is written back. */
    method SalvarTodosUsuarios(usuarios: map<string, Usuario>)
      modifies this`armazenado
      ensures armazenado == Some(usuarios)
      ensures BuscarTodosUsuarios() == usuarios
    {
      armazenado := Some(usuarios);
    }

    /** `buscarUsuarioAtual`: the logged-in user's record, if there is one. */
    function BuscarUsuarioAtual(): (u: Option<Usuario>)
      reads this
      ensures u.Some? <==> usuarioAtual.Some? && usuarioAtual.value in BuscarTodosUsuarios()
      ensures u.Some? ==> u.value == BuscarTodosUsuarios()[usuarioAtual.value]
    {
      Buscar(BuscarTodosUsuarios(), usuarioAtual)
    }

    /** `atualizarUsuarioAtual`: shallow-merges new values into the current record only. */
    method AtualizarUsuarioAtual(novos: Alteracao)
      requires Valid()
      modifies this`armazenado
      ensures Valid()
      ensures usuarioAtual.None? ==> armazenado == old(armazenado)
      ensures usuarioAtual.Some? ==>
        var e := usuarioAtual.value;
        BuscarTodosUsuarios() == old(BuscarTodosUsuarios())[e := Mesclar(old(BuscarTodosUsuarios())[e], novos)]
    {
      if usuarioAtual.Some? {
        var usuarios := BuscarTodosUsuarios();
        var e := usuarioAtual.value;
        usuarios := usuarios[e := Mesclar(usuarios[e], novos)];
        SalvarTodosUsuarios(usuarios);
      }
    }

    /**
     * `criarConta`: e-mail and password from the form, trimmed, the name from the prompt
     * (`None` when it was cancelled).
     */
    method CriarConta(campoEmail: string, campoSenha: string, nomeDigitado: Option<string>) returns (aviso: Aviso)
      requires Valid()
      modifies this
      ensures Valid()
      ensures aviso == AvisoCadastro(Texto.Trim(campoEmail), Texto.Trim(campoSenha), nomeDigitado, old(BuscarTodosUsuarios()))
      ensures aviso != ContaCriada ==>
        armazenado == old(armazenado) && usuarioAtual == old(usuarioAtual) && usuarioLogado == old(usuarioLogado)
      ensures aviso == ContaCriada ==>
        var email := Texto.Trim(campoEmail);
        && BuscarTodosUsuarios() == old(BuscarTodosUsuarios())[email :=
             Usuario(Texto.Trim(nomeDigitado.value), Texto.Trim(campoSenha), 0.0, [])]
        && usuarioAtual == Some(email) && usuarioLogado == Some(email)
      ensures old(ValoresPositivos(BuscarTodosUsuarios())) ==> ValoresPositivos(BuscarTodosUsuarios())
    {
      aviso := Cadastrar(Texto.Trim(campoEmail), Texto.Trim(campoSenha), nomeDigitado);
    }

    /** The checks and the registration of `criarConta`, on the trimmed e-mail and password. */
    method Cadastrar(email: string, senha: string, nomeDigitado: Option<string>) returns (aviso: Aviso)
      requires Valid()
      modifies this
      ensures Valid()
      ensures aviso == AvisoCadastro(email, senha, nomeDigitado, old(BuscarTodosUsuarios()))
      ensures aviso != ContaCriada ==>
        armazenado == old(armazenado) && usuarioAtual == old(usuarioAtual) && usuarioLogado == old(usuarioLogado)
      ensures aviso == ContaCriada ==>
        && BuscarTodosUsuarios() == old(BuscarTodosUsuarios())[email :=
             Usuario(Texto.Trim(nomeDigitado.value), senha, 0.0, [])]
        && usuarioAtual == Some(email) && usuarioLogado == Some(email)
      ensures old(ValoresPositivos(BuscarTodosUsuarios())) ==> ValoresPositivos(BuscarTodosUsuarios())
    {
      if email == "" || senha == "" {
        return PreenchaEmailESenha;
      }
      if nomeDigitado.None? || Texto.Trim(nomeDigitado.value) == "" {
        return NomeObrigatorio;
      }
      var usuarios := BuscarTodosUsuarios();
      if email in usuarios {
        return EmailJaCadastrado;
      }
      var novo := Usuario(Texto.Trim(nomeDigitado.value), senha, 0.0, []);
      if ValoresPositivos(usuarios) {
        ValoresPositivosAoGravar(usuarios, email, novo);
      }
      usuarios := usuarios[email := novo];
      SalvarTodosUsuarios(usuarios);
      usuarioAtual := Some(email);
      usuarioLogado := Some(email);
      aviso := ContaCriada;
    }

    /** `fazerLogin`: e-mail and password from the form, trimmed. */
    method FazerLogin(campoEmail: string, campoSenha: string) returns (aviso: Aviso)
      requires Valid()
      modifies this`usuarioAtual, this`usuarioLogado
      ensures Valid()
      ensures aviso == AvisoLogin(Texto.Trim(campoEmail), Texto.Trim(campoSenha), BuscarTodosUsuarios())
      ensures aviso != LoginRealizado ==> usuarioAtual == old(usuarioAtual) && usuarioLogado == old(usuarioLogado)
      ensures aviso == LoginRealizado ==>
        usuarioAtual == Some(Texto.Trim(campoEmail)) && usuarioLogado == Some(Texto.Trim(campoEmail))
    {
      aviso := Autenticar(Texto.Trim(campoEmail), Texto.Trim(campoSenha));
    }

    /** The checks of `fazerLogin`: the stored password must equal the one typed, exactly. */
    method Autenticar(email: string, senha: string) returns (aviso: Aviso)
      requires Valid()
      modifies this`usuarioAtual, this`usuarioLogado
      ensures Valid()
      ensures aviso == AvisoLogin(email, senha, BuscarTodosUsuarios())
      ensures aviso != LoginRealizado ==> usuarioAtual == old(usuarioAtual) && usuarioLogado == old(usuarioLogado)
      ensures aviso == LoginRealizado ==> usuarioAtual == Some(email) && usuarioLogado == Some(email)
    {
      if email == "" || senha == "" {
        return PreenchaEmailESenha;
      }
      var usuarios := BuscarTodosUsuarios();
      if email !in usuarios {
        return UsuarioNaoEncontrado;
      }
      if usuarios[email].senha != senha {
        return SenhaIncorreta;
      }
      usuarioAtual := Some(email);
      usuarioLogado := Some(email);
      aviso := LoginRealizado;
    }

    /** `sair`: forgets the session and the remembered e-mail. */
    method Sair()
      modifies this`usuarioAtual, this`usuarioLogado
      ensures Valid()
      ensures usuarioAtual.None? && usuarioLogado.None?
    {
      usuarioAtual := None;
      usuarioLogado := None;
    }

    /** `verificarAutoLogin`: resumes the remembered e-mail only if its account exists. */
    method VerificarAutoLogin() returns (entrou: bool)
      requires Valid()
      modifies this`usuarioAtual
      ensures Valid()
      ensures entrou <==> usuarioLogado.Some? && usuarioLogado.value != "" && usuarioLogado.value in BuscarTodosUsuarios()
      ensures entrou ==> usuarioAtual == usuarioLogado
      ensures !entrou ==> usuarioAtual == old(usuarioAtual)
    {
      entrou := false;
      if usuarioLogado.Some? && usuarioLogado.value != "" {
        var usuarios := BuscarTodosUsuarios();
        if usuarioLogado.value in usuarios {
          usuarioAtual := usuarioLogado;
          entrou := true;
        }
      }
    }

    /** The salary field's change handler: `parseFloat(value) || 0` becomes the salary. */
    method AlterarSalario(campoSalario: string)
      requires Valid()
      modifies this`armazenado
      ensures Valid()
      ensures usuarioAtual.None? ==> armazenado == old(armazenado)
      ensures usuarioAtual.Some? ==>
        var e := usuarioAtual.value;
        BuscarTodosUsuarios() == old(BuscarTodosUsuarios())[e :=
          old(BuscarTodosUsuarios())[e].(salario := Numero.ParseFloatOrZero(campoSalario))]
      ensures old(ValoresPositivos(BuscarTodosUsuarios())) ==> ValoresPositivos(BuscarTodosUsuarios())
    {
      var salario := Numero.ParseFloatOrZero(campoSalario);
      var usuario := BuscarUsuarioAtual();
      if usuario.Some? {
        if ValoresPositivos(BuscarTodosUsuarios()) {
          ValoresPositivosAoGravar(BuscarTodosUsuarios(), usuarioAtual.value, usuario.value.(salario := salario));
        }
        AtualizarUsuarioAtual(Completa(usuario.value.(salario := salario)));
      }
    }
  }
}
