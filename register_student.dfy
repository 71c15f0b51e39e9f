/** The student registration wizard of
    `src/pages/Secretary/RegisterStudent/index.jsx`: the CPF and email
    validators, the per-step validation that builds the error map, the step
    navigation, the field updates that clear errors, the postal-code (CEP)
    auto-fill and the submission payload. */
module RegisterStudent {
  import opened Maybe
  import opened Text
  import Utils

  // ---------------------------------------------------------------------------
  // CPF (Brazilian taxpayer number) with its two modulo-11 check digits

  /** Σ_{i=1..n} d_i·(w − i): the weighted sum of the first `n` digits. */
  function SomaPonderada(d: string, n: nat, w: int): int
    requires n <= |d| && AllDigits(d)
  {
    if n == 0 then 0 else SomaPonderada(d, n - 1, w) + DigitValue(d[n - 1]) * (w - n)
  }

  /** `resto = (soma * 10) % 11`, with 10 (and 11) mapped to 0. */
  function DigitoVerificador(soma: int): (r: nat)
    ensures r < 10
  {
    var resto := (soma * 10) % 11;
    if resto == 10 || resto == 11 then 0 else resto
  }

  /** `/^(\d)\1+$/`: two or more copies of one digit. */
  predicate DigitoRepetido(d: string) {
    |d| >= 2 && AllDigits(d) && forall i :: 0 <= i < |d| ==> d[i] == d[0]
  }

  /** What `validarCPF` accepts: after the non-digits are stripped, exactly 11
      digits, not all the same, whose 10th and 11th digits are the check
      digits of the first 9 (weights 10..2) and of the first 10 (weights 11..2). */
  predicate CpfValido(cpf: string) {
    var d := Digits(cpf);
    && |d| == 11
    && !DigitoRepetido(d)
    && DigitoVerificador(SomaPonderada(d, 9, 11)) == DigitValue(d[9])
    && DigitoVerificador(SomaPonderada(d, 10, 12)) == DigitValue(d[10])
  }

  /** `validarCPF`, with its two summing loops. */
  method ValidarCPF(cpf: string) returns (ok: bool)
    ensures ok == CpfValido(cpf)
  {
    var d := Digits(cpf);
    if |d| != 11 || DigitoRepetido(d) {
      return false;
    }
    var soma := 0;
    for i := 1 to 10
      invariant soma == SomaPonderada(d, i - 1, 11)
    {
      soma := soma + DigitValue(d[i - 1]) * (11 - i);
    }
    var resto := (soma * 10) % 11;
    if resto == 10 || resto == 11 {
      resto := 0;
    }
    if resto != DigitValue(d[9]) {
      return false;
    }
    soma := 0;
    for i := 1 to 11
      invariant soma == SomaPonderada(d, i - 1, 12)
    {
      soma := soma + DigitValue(d[i - 1]) * (12 - i);
    }
    resto := (soma * 10) % 11;
    if resto == 10 || resto == 11 {
      resto := 0;
    }
    if resto != DigitValue(d[10]) {
      return false;
    }
    return true;
  }

  /** Punctuation never matters: a CPF is valid exactly when its digits are. */
  lemma CpfValidoIgnoresPunctuation(cpf: string)
    ensures CpfValido(cpf) == CpfValido(Digits(cpf))
  {
    DigitsIdempotent(cpf);
  }

  lemma ModOfMultiple(q: int, r: int)
    requires 0 <= r < 11
    ensures (11 * q + r) % 11 == r
  {
  }

  /** The check digit written the way the CPF rule is usually stated: with
      `r = soma mod 11`, the digit is 0 when r < 2 and 11 − r otherwise. */
  lemma {:induction false} DigitoVerificadorPadrao(soma: nat)
    ensures DigitoVerificador(soma) == if soma % 11 < 2 then 0 else 11 - soma % 11
  {
    var q, r := soma / 11, soma % 11;
    assert soma == 11 * q + r;
    if r == 0 {
      assert soma * 10 == 11 * (10 * q);
      ModOfMultiple(10 * q, 0);
    } else {
      assert soma * 10 == 11 * (10 * q + r - 1) + (11 - r);
      ModOfMultiple(10 * q + r - 1, 11 - r);
    }
  }

  /** The weighted sums depend only on the digits they weigh. */
  lemma {:induction false} SomaPonderadaPrefixo(a: string, b: string, n: nat, w: int)
    requires n <= |a| && n <= |b| && AllDigits(a) && AllDigits(b) && a[..n] == b[..n]
    ensures SomaPonderada(a, n, w) == SomaPonderada(b, n, w)
  {
    if n > 0 {
      assert a[..n - 1] == a[..n][..n - 1] && b[..n - 1] == b[..n][..n - 1];
      assert a[n - 1] == a[..n][n - 1] && b[n - 1] == b[..n][n - 1];
      SomaPonderadaPrefixo(a, b, n - 1, w);
    }
  }

  /** The first weighted sum of the worked example 111.444.777-35. */
  lemma SomaExemplo1()
    ensures AllDigits("11144477735")
    ensures SomaPonderada("11144477735", 9, 11) == 162
  {
    assert SomaPonderada("11144477735", 3, 11) == 27;
    assert SomaPonderada("11144477735", 6, 11) == 99;
  }

  /** The second weighted sum of the worked example. */
  lemma SomaExemplo2()
    ensures AllDigits("11144477735")
    ensures SomaPonderada("11144477735", 10, 12) == 204
  {
    assert SomaPonderada("11144477735", 3, 12) == 30;
    assert SomaPonderada("11144477735", 6, 12) == 114;
    assert SomaPonderada("11144477735", 9, 12) == 198;
  }

  lemma DigitosExemplo()
    ensures DigitoVerificador(162) == 3 && DigitoVerificador(204) == 5
  {
  }

  /** The worked example 111.444.777-35 (punctuation aside, see
      `CpfValidoIgnoresPunctuation`): its digits pass both check digits. */
  lemma CpfExemploValido()
    ensures CpfValido("11144477735")
  {
    var v := "11144477735";
    SomaExemplo1();
    SomaExemplo2();
    DigitosExemplo();
    DigitsOfAllDigits(v);
    assert v[3] != v[0];
  }

  /** Changing the last check digit is caught. */
  lemma CpfExemploDigitoErrado()
    ensures !CpfValido("11144477736")
  {
    var v, w := "11144477735", "11144477736";
    SomaExemplo1();
    SomaExemplo2();
    ExemploAlterado();
    SomaPonderadaPrefixo(v, w, 9, 11);
    SomaPonderadaPrefixo(v, w, 10, 12);
    DigitosExemplo();
    DigitsOfAllDigits(w);
  }

  /** 111.444.777-36 differs from the worked example only in its last digit. */
  lemma ExemploAlterado()
    ensures AllDigits("11144477736")
    ensures "11144477735"[..10] == "11144477736"[..10]
    ensures DigitValue("11144477736"[10]) == 6
  {
  }

  /** Eleven copies of one digit are refused even though their check digits
      work out. */
  lemma CpfExemploRepetido()
    ensures !CpfValido("11111111111")
  {
    var u := "11111111111";
    Repetido(u);
    DigitsOfAllDigits(u);
  }

  /** Eleven ones: all digits, all the same. */
  lemma Repetido(u: string)
    requires u == "11111111111"
    ensures AllDigits(u) && DigitoRepetido(u)
  {
    forall i | 0 <= i < |u| ensures u[i] == '1' {
    }
  }

  // ---------------------------------------------------------------------------
  // Email

  /** `validarEmail`: the same pattern `^[^\s@]+@[^\s@]+\.[^\s@]+$` that the
      shared helper tests. */
  function ValidarEmail(email: string): (ok: bool)
    ensures ok <==> Utils.MatchesEmailRegex(email)
  {
    Utils.ValidacaoEmail(email).valido
  }

  /** A matching address is never blank, so the "obrigatório" message is
      only given to blank input. */
  lemma EmailValidoNaoVazio(email: string)
    requires ValidarEmail(email)
    ensures !Blank(email)
  {
    Utils.EmailShapeIsRegex(email);
    var i := Find(email, '@').value;
    assert !IsWhitespace(email[i]);
  }

  // ---------------------------------------------------------------------------
  // Form records

  datatype DadosPessoais = DadosPessoais(
    fotoPerfil: Option<string>,
    nomeCompleto: string,
    email: string,
    cpf: string,
    dataNascimento: string,
    telefone: string)

  datatype Endereco = Endereco(
    cep: string,
    logradouro: string,
    numero: string,
    bairro: string,
    cidade: string,
    estado: string,
    uf: string)

  datatype InformacoesAluno = InformacoesAluno(problemasMobilidade: bool, observacoes: string)

  /** The records the wizard starts with when none is carried in. */
  const DadosPessoaisIniciais := DadosPessoais(Some(""), "", "", "", "", "")
  const EnderecoVazio := Endereco("", "", "", "", "", "", "")
  const InformacoesIniciais := InformacoesAluno(false, "")

  /** The record `cancelarCadastro` writes: it has no `fotoPerfil` key. */
  const DadosPessoaisCancelados := DadosPessoais(None, "", "", "", "", "")

  /** A partial update `novos`: the fields present are the keys of the object. */
  datatype NovosDadosPessoais = NovosDadosPessoais(
    fotoPerfil: Option<string>,
    nomeCompleto: Option<string>,
    email: Option<string>,
    cpf: Option<string>,
    dataNascimento: Option<string>,
    telefone: Option<string>)

  datatype NovoEndereco = NovoEndereco(
    cep: Option<string>,
    logradouro: Option<string>,
    numero: Option<string>,
    bairro: Option<string>,
    cidade: Option<string>,
    estado: Option<string>,
    uf: Option<string>)

  datatype NovasInformacoes = NovasInformacoes(problemasMobilidade: Option<bool>, observacoes: Option<string>)

  /** The form's field names: the keys of the records, of their partial
      updates and of the error map. */
  datatype Campo =
    | FotoPerfil | NomeCompleto | Email | Cpf | DataNascimento | Telefone
    | Cep | Logradouro | Numero | Bairro | Cidade | Estado | Uf

  /** The key of a present field, as a one-element list. */
  function Presente<T>(c: Campo, v: Option<T>): seq<Campo> {
    if v.Some? then [c] else []
  }

  /** `Object.keys(novos)`. */
  function CamposPessoais(n: NovosDadosPessoais): seq<Campo> {
    Presente(FotoPerfil, n.fotoPerfil) + Presente(NomeCompleto, n.nomeCompleto) + Presente(Email, n.email)
    + Presente(Cpf, n.cpf) + Presente(DataNascimento, n.dataNascimento) + Presente(Telefone, n.telefone)
  }

  function CamposEndereco(n: NovoEndereco): seq<Campo> {
    Presente(Cep, n.cep) + Presente(Logradouro, n.logradouro) + Presente(Numero, n.numero)
    + Presente(Bairro, n.bairro) + Presente(Cidade, n.cidade) + Presente(Estado, n.estado) + Presente(Uf, n.uf)
  }

  /** `{ ...prev, ...novos }`. */
  function MesclarPessoais(d: DadosPessoais, n: NovosDadosPessoais): DadosPessoais {
    DadosPessoais(
      if n.fotoPerfil.Some? then n.fotoPerfil else d.fotoPerfil,
      n.nomeCompleto.GetOr(d.nomeCompleto),
      n.email.GetOr(d.email),
      n.cpf.GetOr(d.cpf),
      n.dataNascimento.GetOr(d.dataNascimento),
      n.telefone.GetOr(d.telefone))
  }

  function MesclarEndereco(e: Endereco, n: NovoEndereco): Endereco {
    Endereco(
      n.cep.GetOr(e.cep), n.logradouro.GetOr(e.logradouro), n.numero.GetOr(e.numero),
      n.bairro.GetOr(e.bairro), n.cidade.GetOr(e.cidade), n.estado.GetOr(e.estado), n.uf.GetOr(e.uf))
  }

  function MesclarInformacoes(i: InformacoesAluno, n: NovasInformacoes): InformacoesAluno {
    InformacoesAluno(n.problemasMobilidade.GetOr(i.problemasMobilidade), n.observacoes.GetOr(i.observacoes))
  }

  /** A merge changes exactly the fields the update carries. */
  lemma MesclarPessoaisCampos(d: DadosPessoais, n: NovosDadosPessoais)
    ensures var r := MesclarPessoais(d, n);
      && (r.nomeCompleto != d.nomeCompleto ==> NomeCompleto in CamposPessoais(n))
      && (r.email != d.email ==> Email in CamposPessoais(n))
      && (r.cpf != d.cpf ==> Cpf in CamposPessoais(n))
      && (r.dataNascimento != d.dataNascimento ==> DataNascimento in CamposPessoais(n))
      && (r.telefone != d.telefone ==> Telefone in CamposPessoais(n))
      && (r.fotoPerfil != d.fotoPerfil ==> FotoPerfil in CamposPessoais(n))
      && (n.nomeCompleto.Some? ==> r.nomeCompleto == n.nomeCompleto.value)
      && (n.email.Some? ==> r.email == n.email.value)
      && (n.cpf.Some? ==> r.cpf == n.cpf.value)
      && (n.dataNascimento.Some? ==> r.dataNascimento == n.dataNascimento.value)
      && (n.telefone.Some? ==> r.telefone == n.telefone.value)
  {
  }

  // ---------------------------------------------------------------------------
  // Per-step validation

  /** 120 years of 365.25 days: the oldest accepted birth date. */
  const DiasEm120Anos: int := 43830

  /** The message for one field, or None when the field is accepted. */
  function ErroNome(d: DadosPessoais): Option<string> {
    if Blank(d.nomeCompleto) then Some("Nome completo é obrigatório") else None
  }

  function ErroEmail(d: DadosPessoais): Option<string> {
    if Blank(d.email) then Some("Email é obrigatório")
    else if !ValidarEmail(d.email) then Some("Email inválido")
    else None
  }

  function ErroCpf(d: DadosPessoais): Option<string> {
    if Blank(d.cpf) then Some("CPF é obrigatório")
    else if !CpfValido(d.cpf) then Some("CPF inválido")
    else None
  }

  /** `hoje` is today's day number (local midnight); `nascimento` is the day
      number the birth-date text parses to, None for an unparseable date,
      against which every comparison is false. */
  function ErroDataNascimento(d: DadosPessoais, hoje: int, nascimento: Option<int>): Option<string> {
    if d.dataNascimento == "" then Some("Data de nascimento é obrigatória")
    else match nascimento
      case None => None
      case Some(n) =>
        if n >= hoje then Some("Data de nascimento não pode ser hoje ou no futuro")
        else if hoje - n > DiasEm120Anos then Some("Data de nascimento inválida")
        else None
  }

  function ErroTelefone(d: DadosPessoais): Option<string> {
    if Blank(d.telefone) then Some("Telefone é obrigatório")
    else if |Digits(d.telefone)| < 10 then Some("Telefone inválido (mínimo 10 dígitos)")
    else None
  }

  function ErroCep(e: Endereco): Option<string> {
    if Blank(e.cep) then Some("CEP é obrigatório")
    else if |Digits(e.cep)| != 8 then Some("CEP inválido (deve ter 8 dígitos)")
    else None
  }

  function ErroObrigatorio(valor: string, mensagem: string): Option<string> {
    if Blank(valor) then Some(mensagem) else None
  }

  function ErroPresente(valor: string, mensagem: string): Option<string> {
    if valor == "" then Some(mensagem) else None
  }

  /** Adds the entry `campo` when the field has a message. */
  function ComErro(m: map<Campo, string>, campo: Campo, e: Option<string>): map<Campo, string> {
    if e.Some? then m[campo := e.value] else m
  }

  /** Every recorded message is non-empty, so "has an entry" and "has a
      truthy entry" agree. */
  predicate SemMensagemVazia(m: map<Campo, string>) {
    forall k :: k in m ==> m[k] != ""
  }

  lemma ComErroSemMensagemVazia(m: map<Campo, string>, campo: Campo, e: Option<string>)
    requires SemMensagemVazia(m) && (e.Some? ==> e.value != "")
    ensures SemMensagemVazia(ComErro(m, campo, e))
  {
  }

  /** The error map of step 1 (personal data): every rule is checked, none
      stops the others. */
  function ErrosDadosPessoais(d: DadosPessoais, hoje: int, nascimento: Option<int>): map<Campo, string> {
    var m := ComErro(map[], NomeCompleto, ErroNome(d));
    var m := ComErro(m, Email, ErroEmail(d));
    var m := ComErro(m, Cpf, ErroCpf(d));
    var m := ComErro(m, DataNascimento, ErroDataNascimento(d, hoje, nascimento));
    ComErro(m, Telefone, ErroTelefone(d))
  }

  /** The error map of step 2 (address). */
  function ErrosEndereco(e: Endereco): map<Campo, string> {
    var m := ComErro(map[], Cep, ErroCep(e));
    var m := ComErro(m, Logradouro, ErroObrigatorio(e.logradouro, "Logradouro é obrigatório"));
    var m := ComErro(m, Numero, ErroObrigatorio(e.numero, "Número é obrigatório"));
    var m := ComErro(m, Bairro, ErroObrigatorio(e.bairro, "Bairro é obrigatório"));
    var m := ComErro(m, Cidade, ErroObrigatorio(e.cidade, "Cidade é obrigatória"));
    var m := ComErro(m, Estado, ErroPresente(e.estado, "Estado é obrigatório"));
    ComErro(m, Uf, ErroPresente(e.uf, "UF é obrigatória"))
  }

  /** The error map `validarEtapa` builds for the given step; steps 3 and 4
      have no rules. */
  function ErrosEtapa(etapa: int, d: DadosPessoais, e: Endereco, hoje: int, nascimento: Option<int>): map<Campo, string> {
    if etapa == 1 then ErrosDadosPessoais(d, hoje, nascimento)
    else if etapa == 2 then ErrosEndereco(e)
    else map[]
  }

  /** A birth date is accepted when it is given and, if it parses, lies
      before today and at most 120 years back. */
  predicate DataNascimentoAceita(dataNascimento: string, hoje: int, nascimento: Option<int>) {
    dataNascimento != "" && (nascimento.Some? ==> nascimento.value < hoje && hoje - nascimento.value <= DiasEm120Anos)
  }

  /** A string with a digit is not blank. */
  lemma DigitsNaoVazio(s: string)
    requires |Digits(s)| > 0
    ensures !Blank(s)
  {
    if Blank(s) {
      forall i | 0 <= i < |s| ensures !IsDigit(s[i]) {
        assert IsWhitespace(s[i]);
      }
      DigitsOfNoDigits(s);
    }
  }

  /** Each step-1 field has a message exactly when it breaks its rule. */
  lemma ErrosCamposPessoais(d: DadosPessoais, hoje: int, nascimento: Option<int>)
    ensures ErroNome(d).Some? <==> Blank(d.nomeCompleto)
    ensures ErroEmail(d).Some? <==> !ValidarEmail(d.email)
    ensures ErroCpf(d).Some? <==> !CpfValido(d.cpf)
    ensures ErroDataNascimento(d, hoje, nascimento).Some? <==> !DataNascimentoAceita(d.dataNascimento, hoje, nascimento)
    ensures ErroTelefone(d).Some? <==> |Digits(d.telefone)| < 10
  {
    if ValidarEmail(d.email) {
      EmailValidoNaoVazio(d.email);
    }
    if CpfValido(d.cpf) {
      DigitsNaoVazio(d.cpf);
    }
    if |Digits(d.telefone)| >= 10 {
      DigitsNaoVazio(d.telefone);
    }
  }

  /** Step 1's error map: a key is present exactly when that field breaks its
      rule, and no other key is ever present. */
  lemma Etapa1Campos(d: DadosPessoais, hoje: int, nascimento: Option<int>)
    ensures var m := ErrosDadosPessoais(d, hoje, nascimento);
      && m.Keys <= {NomeCompleto, Email, Cpf, DataNascimento, Telefone}
      && (NomeCompleto in m <==> Blank(d.nomeCompleto))
      && (Email in m <==> !ValidarEmail(d.email))
      && (Cpf in m <==> !CpfValido(d.cpf))
      && (DataNascimento in m <==> !DataNascimentoAceita(d.dataNascimento, hoje, nascimento))
      && (Telefone in m <==> |Digits(d.telefone)| < 10)
  {
    ErrosCamposPessoais(d, hoje, nascimento);
  }

  /** Step 1 passes exactly when all five fields are acceptable together. */
  lemma Etapa1Valida(d: DadosPessoais, e: Endereco, hoje: int, nascimento: Option<int>)
    ensures ErrosEtapa(1, d, e, hoje, nascimento) == map[] <==>
      && !Blank(d.nomeCompleto)
      && ValidarEmail(d.email)
      && CpfValido(d.cpf)
      && DataNascimentoAceita(d.dataNascimento, hoje, nascimento)
      && |Digits(d.telefone)| >= 10
  {
    Etapa1Campos(d, hoje, nascimento);
    var m := ErrosDadosPessoais(d, hoje, nascimento);
    if m != map[] {
      var k :| k in m;
    }
  }

  /** Step 2's error map, key by key. */
  lemma Etapa2Campos(e: Endereco)
    ensures var m := ErrosEndereco(e);
      && m.Keys <= {Cep, Logradouro, Numero, Bairro, Cidade, Estado, Uf}
      && (Cep in m <==> |Digits(e.cep)| != 8)
      && (Logradouro in m <==> Blank(e.logradouro))
      && (Numero in m <==> Blank(e.numero))
      && (Bairro in m <==> Blank(e.bairro))
      && (Cidade in m <==> Blank(e.cidade))
      && (Estado in m <==> e.estado == "")
      && (Uf in m <==> e.uf == "")
  {
    if |Digits(e.cep)| == 8 {
      DigitsNaoVazio(e.cep);
    }
    Etapa2Chaves(e);
    Etapa2Obrigatorios(e);
    Etapa2Presentes(e);
  }

  lemma Etapa2Chaves(e: Endereco)
    ensures ErrosEndereco(e).Keys <= {Cep, Logradouro, Numero, Bairro, Cidade, Estado, Uf}
    ensures Cep in ErrosEndereco(e) <==> ErroCep(e).Some?
  {
  }

  lemma Etapa2Obrigatorios(e: Endereco)
    ensures var m := ErrosEndereco(e);
      && (Logradouro in m <==> Blank(e.logradouro))
      && (Numero in m <==> Blank(e.numero))
      && (Bairro in m <==> Blank(e.bairro))
      && (Cidade in m <==> Blank(e.cidade))
  {
  }

  lemma Etapa2Presentes(e: Endereco)
    ensures var m := ErrosEndereco(e);
      && (Estado in m <==> e.estado == "")
      && (Uf in m <==> e.uf == "")
  {
  }

  /** Step 2 never records an empty message. */
  lemma ErrosEnderecoSemMensagemVazia(e: Endereco)
    ensures SemMensagemVazia(ErrosEndereco(e))
  {
    var m := ComErro(map[], Cep, ErroCep(e));
    ComErroSemMensagemVazia(map[], Cep, ErroCep(e));
    ComErroSemMensagemVazia(m, Logradouro, ErroObrigatorio(e.logradouro, "Logradouro é obrigatório"));
    m := ComErro(m, Logradouro, ErroObrigatorio(e.logradouro, "Logradouro é obrigatório"));
    ComErroSemMensagemVazia(m, Numero, ErroObrigatorio(e.numero, "Número é obrigatório"));
    m := ComErro(m, Numero, ErroObrigatorio(e.numero, "Número é obrigatório"));
    ComErroSemMensagemVazia(m, Bairro, ErroObrigatorio(e.bairro, "Bairro é obrigatório"));
    m := ComErro(m, Bairro, ErroObrigatorio(e.bairro, "Bairro é obrigatório"));
    ComErroSemMensagemVazia(m, Cidade, ErroObrigatorio(e.cidade, "Cidade é obrigatória"));
    m := ComErro(m, Cidade, ErroObrigatorio(e.cidade, "Cidade é obrigatória"));
    ComErroSemMensagemVazia(m, Estado, ErroPresente(e.estado, "Estado é obrigatório"));
    m := ComErro(m, Estado, ErroPresente(e.estado, "Estado é obrigatório"));
    ComErroSemMensagemVazia(m, Uf, ErroPresente(e.uf, "UF é obrigatória"));
  }

  /** Step 2 passes exactly when the CEP has 8 digits and the other six
      fields are filled. */
  lemma Etapa2Valida(d: DadosPessoais, e: Endereco, hoje: int, nascimento: Option<int>)
    ensures ErrosEtapa(2, d, e, hoje, nascimento) == map[] <==>
      && |Digits(e.cep)| == 8
      && !Blank(e.logradouro) && !Blank(e.numero) && !Blank(e.bairro) && !Blank(e.cidade)
      && e.estado != "" && e.uf != ""
  {
    Etapa2Campos(e);
    var m := ErrosEndereco(e);
    if m != map[] {
      var k :| k in m;
    }
  }

  /** Step 1 never records an empty message. */
  lemma ErrosDadosPessoaisSemMensagemVazia(d: DadosPessoais, hoje: int, nascimento: Option<int>)
    ensures SemMensagemVazia(ErrosDadosPessoais(d, hoje, nascimento))
  {
    var m := ComErro(map[], NomeCompleto, ErroNome(d));
    ComErroSemMensagemVazia(map[], NomeCompleto, ErroNome(d));
    ComErroSemMensagemVazia(m, Email, ErroEmail(d));
    m := ComErro(m, Email, ErroEmail(d));
    ComErroSemMensagemVazia(m, Cpf, ErroCpf(d));
    m := ComErro(m, Cpf, ErroCpf(d));
    ComErroSemMensagemVazia(m, DataNascimento, ErroDataNascimento(d, hoje, nascimento));
    m := ComErro(m, DataNascimento, ErroDataNascimento(d, hoje, nascimento));
    ComErroSemMensagemVazia(m, Telefone, ErroTelefone(d));
  }

  /** No step ever records an empty message. */
  lemma ErrosEtapaSemMensagemVazia(etapa: int, d: DadosPessoais, e: Endereco, hoje: int, nascimento: Option<int>)
    ensures SemMensagemVazia(ErrosEtapa(etapa, d, e, hoje, nascimento))
  {
    if etapa == 1 {
      ErrosDadosPessoaisSemMensagemVazia(d, hoje, nascimento);
    } else if etapa == 2 {
      ErrosEnderecoSemMensagemVazia(e);
    }
  }

  /** The identity checks of step 1 (name, email, CPF), in the order
      `validarEtapa` runs them. */
  method ValidarIdentificacao(d: DadosPessoais) returns (novosErros: map<Campo, string>)
    ensures novosErros == ComErro(ComErro(ComErro(map[], NomeCompleto, ErroNome(d)), Email, ErroEmail(d)), Cpf, ErroCpf(d))
  {
    novosErros := map[];
    if Blank(d.nomeCompleto) {
      novosErros := novosErros[NomeCompleto := "Nome completo é obrigatório"];
    }
    ghost var m := ComErro(map[], NomeCompleto, ErroNome(d));
    assert novosErros == m;
    if Blank(d.email) {
      novosErros := novosErros[Email := "Email é obrigatório"];
    } else if !ValidarEmail(d.email) {
      novosErros := novosErros[Email := "Email inválido"];
    }
    m := ComErro(m, Email, ErroEmail(d));
    assert novosErros == m;
    if Blank(d.cpf) {
      novosErros := novosErros[Cpf := "CPF é obrigatório"];
    } else {
      var cpfOk := ValidarCPF(d.cpf);
      if !cpfOk {
        novosErros := novosErros[Cpf := "CPF inválido"];
      }
    }
  }

  /** `validarEtapa` for step 1: the identity checks, then the birth date
      and the phone. */
  method ValidarDadosPessoais(d: DadosPessoais, hoje: int, nascimento: Option<int>) returns (novosErros: map<Campo, string>)
    ensures novosErros == ErrosDadosPessoais(d, hoje, nascimento)
  {
    novosErros := ValidarIdentificacao(d);
    ghost var m := novosErros;
    if d.dataNascimento == "" {
      novosErros := novosErros[DataNascimento := "Data de nascimento é obrigatória"];
    } else if nascimento.Some? {
      if nascimento.value >= hoje {
        novosErros := novosErros[DataNascimento := "Data de nascimento não pode ser hoje ou no futuro"];
      } else if hoje - nascimento.value > DiasEm120Anos {
        novosErros := novosErros[DataNascimento := "Data de nascimento inválida"];
      }
    }
    m := ComErro(m, DataNascimento, ErroDataNascimento(d, hoje, nascimento));
    assert novosErros == m;
    if Blank(d.telefone) {
      novosErros := novosErros[Telefone := "Telefone é obrigatório"];
    } else if |Digits(d.telefone)| < 10 {
      novosErros := novosErros[Telefone := "Telefone inválido (mínimo 10 dígitos)"];
    }
  }

  /** `validarEtapa` for step 2. */
  method ValidarEndereco(e: Endereco) returns (novosErros: map<Campo, string>)
    ensures novosErros == ErrosEndereco(e)
  {
    novosErros := map[];
    if Blank(e.cep) {
      novosErros := novosErros[Cep := "CEP é obrigatório"];
    } else if |Digits(e.cep)| != 8 {
      novosErros := novosErros[Cep := "CEP inválido (deve ter 8 dígitos)"];
    }
    assert novosErros == ComErro(map[], Cep, ErroCep(e));
    novosErros := ExigirCampo(novosErros, Logradouro, e.logradouro, "Logradouro é obrigatório");
    novosErros := ExigirCampo(novosErros, Numero, e.numero, "Número é obrigatório");
    novosErros := ExigirCampo(novosErros, Bairro, e.bairro, "Bairro é obrigatório");
    novosErros := ExigirCampo(novosErros, Cidade, e.cidade, "Cidade é obrigatória");
    if e.estado == "" { novosErros := novosErros[Estado := "Estado é obrigatório"]; }
    if e.uf == "" { novosErros := novosErros[Uf := "UF é obrigatória"]; }
  }

  /** One `if (!valor.trim()) novosErros.campo = mensagem` line. */
  method ExigirCampo(m: map<Campo, string>, campo: Campo, valor: string, mensagem: string)
    returns (r: map<Campo, string>)
    ensures r == ComErro(m, campo, ErroObrigatorio(valor, mensagem))
  {
    r := m;
    if Blank(valor) {
      r := r[campo := mensagem];
    }
  }

  // ---------------------------------------------------------------------------
  // Submission payload

  datatype EnderecoPayload = EnderecoPayload(
    rua: string, numero: string, bairro: string, cidade: string, estado: string, cep: string, uf: string)

  datatype Payload = Payload(
    nome: string,
    email: string,
    cpf: string,
    dataNascimento: string,
    status: bool,
    alunoComLimitacoesFisicas: bool,
    observacoes: string,
    tipoContato: string,
    notificacaoAtiva: bool,
    endereco: EnderecoPayload)

  /** The body `cadastrarAluno` posts to `api/alunos`: CPF and CEP reduced to
      their digits, the student active and notifications on. */
  function MontarPayload(d: DadosPessoais, e: Endereco, i: InformacoesAluno): (p: Payload)
    ensures AllDigits(p.cpf) && Digits(p.cpf) == Digits(d.cpf)
    ensures AllDigits(p.endereco.cep) && Digits(p.endereco.cep) == Digits(e.cep)
    ensures p.status && p.notificacaoAtiva
    ensures p.alunoComLimitacoesFisicas == i.problemasMobilidade
  {
    DigitsIdempotent(d.cpf);
    DigitsIdempotent(e.cep);
    Payload(
      d.nomeCompleto, d.email, Digits(d.cpf), d.dataNascimento, true, i.problemasMobilidade,
      i.observacoes, d.telefone, true,
      EnderecoPayload(e.logradouro, e.numero, e.bairro, e.cidade, e.estado, Digits(e.cep), e.uf))
  }

  /** Data that passed steps 1 and 2 is sent with an 11-digit CPF that passes
      the check digits and an 8-digit CEP. */
  lemma PayloadDeDadosValidados(d: DadosPessoais, e: Endereco, i: InformacoesAluno, hoje: int, nascimento: Option<int>)
    requires ErrosEtapa(1, d, e, hoje, nascimento) == map[]
    requires ErrosEtapa(2, d, e, hoje, nascimento) == map[]
    ensures var p := MontarPayload(d, e, i);
      |p.cpf| == 11 && CpfValido(p.cpf) && |p.endereco.cep| == 8
  {
    Etapa1Valida(d, e, hoje, nascimento);
    Etapa2Valida(d, e, hoje, nascimento);
    CpfValidoIgnoresPunctuation(d.cpf);
  }

  // ---------------------------------------------------------------------------
  // Postal-code lookup reply

  /** The reply of the address service: found (with the fields it may omit),
      `{ erro: true }`, or a failed request. */
  datatype RespostaCep =
    | Encontrado(logradouro: Option<string>, bairro: Option<string>, localidade: Option<string>, uf: Option<string>)
    | NaoEncontrado
    | FalhaNaConsulta

  /** The update `buscarCep` applies on success: street, district, city, and
      both state fields from `uf`, each '' when absent. */
  function NovoEnderecoDaResposta(r: RespostaCep): NovoEndereco
    requires r.Encontrado?
  {
    NovoEndereco(
      None, Some(OrEmpty(r.logradouro)), None, Some(OrEmpty(r.bairro)),
      Some(OrEmpty(r.localidade)), Some(OrEmpty(r.uf)), Some(OrEmpty(r.uf)))
  }

  // ---------------------------------------------------------------------------
  // The wizard

  class Wizard {
    var etapaAtual: int
    var erros: map<Campo, string>
    var dadosPessoais: DadosPessoais
    var endereco: Endereco
    var informacoesAluno: InformacoesAluno

    /** The step is one of the four, and every error message is non-empty
        (so "has an error" and "has a truthy error" agree). */
    ghost predicate Valid()
      reads this
    {
      1 <= etapaAtual <= 4 && SemMensagemVazia(erros)
    }

    /** Mounting the wizard, with the records carried in by navigation when
        present. */
    constructor (dadosIniciais: Option<DadosPessoais>, enderecoInicial: Option<Endereco>, informacoesIniciais: Option<InformacoesAluno>)
      ensures Valid()
      ensures etapaAtual == 1 && erros == map[]
      ensures dadosPessoais == dadosIniciais.GetOr(DadosPessoaisIniciais)
      ensures endereco == enderecoInicial.GetOr(EnderecoVazio)
      ensures informacoesAluno == informacoesIniciais.GetOr(InformacoesIniciais)
    {
      etapaAtual := 1;
      erros := map[];
      dadosPessoais := dadosIniciais.GetOr(DadosPessoaisIniciais);
      endereco := enderecoInicial.GetOr(EnderecoVazio);
      informacoesAluno := informacoesIniciais.GetOr(InformacoesIniciais);
    }

    /** Deletes the given keys from the error map, one by one, when one of
        them has a message. */
    method LimparErros(campos: seq<Campo>)
      requires Valid()
      modifies this`erros
      ensures Valid()
      ensures erros == old(erros) - (set k | k in campos)
    {
      if exists k :: k in campos && k in erros && erros[k] != "" {
        var novosErros := erros;
        for i := 0 to |campos|
          invariant novosErros == erros - (set j | 0 <= j < i :: campos[j])
        {
          novosErros := novosErros - {campos[i]};
        }
        assert (set j | 0 <= j < |campos| :: campos[j]) == set k | k in campos;
        erros := novosErros;
      } else {
        assert erros - (set k | k in campos) == erros;
      }
    }

    /** `atualizarDadosPessoais`: merges the given fields and deletes exactly
        their error entries. */
    method AtualizarDadosPessoais(novos: NovosDadosPessoais)
      requires Valid()
      modifies this
      ensures Valid()
      ensures dadosPessoais == MesclarPessoais(old(dadosPessoais), novos)
      ensures erros == old(erros) - (set k | k in CamposPessoais(novos))
      ensures etapaAtual == old(etapaAtual) && endereco == old(endereco) && informacoesAluno == old(informacoesAluno)
    {
      dadosPessoais := MesclarPessoais(dadosPessoais, novos);
      LimparErros(CamposPessoais(novos));
    }

    /** `atualizarEndereco`. */
    method AtualizarEndereco(novos: NovoEndereco)
      requires Valid()
      modifies this
      ensures Valid()
      ensures endereco == MesclarEndereco(old(endereco), novos)
      ensures erros == old(erros) - (set k | k in CamposEndereco(novos))
      ensures etapaAtual == old(etapaAtual) && dadosPessoais == old(dadosPessoais) && informacoesAluno == old(informacoesAluno)
    {
      endereco := MesclarEndereco(endereco, novos);
      LimparErros(CamposEndereco(novos));
    }

    /** `atualizarInformacoesAluno`: merges and leaves the errors alone. */
    method AtualizarInformacoesAluno(novos: NovasInformacoes)
      requires Valid()
      modifies this`informacoesAluno
      ensures Valid()
      ensures informacoesAluno == MesclarInformacoes(old(informacoesAluno), novos)
    {
      informacoesAluno := MesclarInformacoes(informacoesAluno, novos);
    }

    /** `buscarCep`: the service is asked only when the cleaned code has 8
        digits; a found address overwrites street, district, city and both
        state fields (and clears their errors); any other reply changes
        nothing. Returns whether the service was asked. */
    method BuscarCep(cep: string, resposta: RespostaCep) returns (consultou: bool)
      requires Valid()
      modifies this
      ensures Valid()
      ensures consultou <==> |Digits(cep)| == 8
      ensures consultou && resposta.Encontrado? ==>
        && endereco == old(endereco).(
             logradouro := OrEmpty(resposta.logradouro), bairro := OrEmpty(resposta.bairro),
             cidade := OrEmpty(resposta.localidade), estado := OrEmpty(resposta.uf), uf := OrEmpty(resposta.uf))
        && erros == old(erros) - {Logradouro, Bairro, Cidade, Estado, Uf}
      ensures !(consultou && resposta.Encontrado?) ==> endereco == old(endereco) && erros == old(erros)
      ensures etapaAtual == old(etapaAtual) && dadosPessoais == old(dadosPessoais) && informacoesAluno == old(informacoesAluno)
    {
      var cepLimpo := Digits(cep);
      consultou := |cepLimpo| == 8;
      if consultou && resposta.Encontrado? {
        var novos := NovoEnderecoDaResposta(resposta);
        assert (set k | k in CamposEndereco(novos)) == {Logradouro, Bairro, Cidade, Estado, Uf};
        AtualizarEndereco(novos);
      }
    }

    /** `validarEtapa`: builds the error map of the current step, replaces
        the old map with it, and passes when it is empty. */
    method ValidarEtapa(hoje: int, nascimento: Option<int>) returns (ok: bool)
      requires Valid()
      modifies this`erros
      ensures Valid()
      ensures erros == ErrosEtapa(etapaAtual, dadosPessoais, endereco, hoje, nascimento)
      ensures ok <==> erros == map[]
    {
      var novosErros: map<Campo, string> := map[];
      if etapaAtual == 1 {
        novosErros := ValidarDadosPessoais(dadosPessoais, hoje, nascimento);
      }
      if etapaAtual == 2 {
        novosErros := ValidarEndereco(endereco);
      }
      ErrosEtapaSemMensagemVazia(etapaAtual, dadosPessoais, endereco, hoje, nascimento);
      erros := novosErros;
      ok := |erros.Keys| == 0;
    }

    /** `finalizar`: the review step. */
    method Finalizar()
      requires Valid()
      modifies this`etapaAtual
      ensures Valid() && etapaAtual == 4
    {
      etapaAtual := 4;
    }

    /** `proximaEtapa`: validates the current step and advances only when it
        passes; from step 3 it finalizes into step 4; step 4 stays. */
    method ProximaEtapa(hoje: int, nascimento: Option<int>) returns (ok: bool)
      requires Valid()
      modifies this
      ensures Valid()
      ensures erros == ErrosEtapa(old(etapaAtual), dadosPessoais, endereco, hoje, nascimento)
      ensures ok <==> erros == map[]
      ensures etapaAtual == if ok && old(etapaAtual) < 4 then old(etapaAtual) + 1 else old(etapaAtual)
      ensures dadosPessoais == old(dadosPessoais) && endereco == old(endereco) && informacoesAluno == old(informacoesAluno)
    {
      ok := ValidarEtapa(hoje, nascimento);
      if ok {
        if etapaAtual == 3 {
          Finalizar();
        } else if etapaAtual < 4 {
          etapaAtual := etapaAtual + 1;
        }
      }
    }

    /** `etapaAnterior`: back one step, never below 1; no validation. */
    method EtapaAnterior()
      requires Valid()
      modifies this`etapaAtual
      ensures Valid()
      ensures etapaAtual == if old(etapaAtual) > 1 then old(etapaAtual) - 1 else old(etapaAtual)
    {
      if etapaAtual > 1 {
        etapaAtual := etapaAtual - 1;
      }
    }

    /** `irParaEtapa`: jumps only to a step already reached; anything else is
        ignored. */
    method IrParaEtapa(numeroEtapa: int)
      requires Valid()
      modifies this`etapaAtual
      ensures Valid()
      ensures etapaAtual == if 1 <= numeroEtapa <= old(etapaAtual) then numeroEtapa else old(etapaAtual)
    {
      if numeroEtapa <= etapaAtual && numeroEtapa >= 1 {
        etapaAtual := numeroEtapa;
      }
    }

    /** `cancelarCadastro`: resets the three records; the step and the error
        map are left as they are. */
    method CancelarCadastro()
      requires Valid()
      modifies this`dadosPessoais, this`endereco, this`informacoesAluno
      ensures Valid()
      ensures dadosPessoais == DadosPessoaisCancelados
      ensures endereco == EnderecoVazio
      ensures informacoesAluno == InformacoesIniciais
    {
      dadosPessoais := DadosPessoaisCancelados;
      endereco := EnderecoVazio;
      informacoesAluno := InformacoesIniciais;
    }
  }
}
