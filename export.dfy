/** The data side of `src/pages/Secretary/GerenciamentoAluno/components/Export.jsx`:
    the rows handed to the PDF table and to the XLSX sheets, and the summary
    counts of the "Informações" sheet. */
module Export {
  import opened Maybe
  import opened Text

  /** The student fields the report reads. */
  datatype Aluno = Aluno(
    nome: Option<string>,
    email: Option<string>,
    cpf: Option<string>,
    dataNascimento: Option<string>,
    status: bool,
    alunoComLimitacoesFisicas: bool)

  /** What the caller's `calculateAge` may return. The callback is not part of
      this model, so its result is any JavaScript value it could plausibly
      give: an age, a text (such as '' for a missing date), null or
      undefined. */
  datatype ValorIdade = Anos(anos: int) | Texto(texto: string) | Nulo | Indefinido

  /** The optional `calculateAge` callback, from a birth date to a value. */
  type CalculaIdade = Option<Option<string> -> ValorIdade>

  /** JavaScript's `String(v)`. */
  function StringDe(v: ValorIdade): (r: string)
    ensures v.Anos? ==> r != ""
    ensures v.Anos? && v.anos >= 0 ==> AllDigits(r) && ParseNat(r) == v.anos
    ensures v.Anos? && v.anos < 0 ==> r != "" && r[0] == '-'
    ensures v.Texto? ==> r == v.texto
    ensures v.Nulo? ==> r == "null"
    ensures v.Indefinido? ==> r == "undefined"
  {
    match v
      case Anos(n) =>
        if n >= 0 then ParseNatToString(n); IntToString(n) else IntToString(n)
      case Texto(t) => t
      case Nulo => "null"
      case Indefinido => "undefined"
  }

  function RotuloStatus(status: bool): (r: string)
    ensures r == "Ativo" <==> status
    ensures r == "Inativo" <==> !status
  {
    if status then "Ativo" else "Inativo"
  }

  function RotuloLimitacoes(limitacoes: bool): (r: string)
    ensures r == "Sim" <==> limitacoes
    ensures r == "Não" <==> !limitacoes
  {
    if limitacoes then "Sim" else "Não"
  }

  /** `String(calculateAge ? calculateAge(dataNascimento) : '')`: empty
      without a callback; with one, a numeric age shows as its decimal text
      and any other result as `String` renders it. */
  function CelulaIdade(calculaIdade: CalculaIdade, dataNascimento: Option<string>): (r: string)
    ensures calculaIdade.None? ==> r == ""
    ensures calculaIdade.Some? && calculaIdade.value(dataNascimento).Anos? ==> r != ""
    ensures calculaIdade.Some? && calculaIdade.value(dataNascimento).Anos? && calculaIdade.value(dataNascimento).anos >= 0
      ==> AllDigits(r) && ParseNat(r) == calculaIdade.value(dataNascimento).anos
  {
    match calculaIdade
      case None => ""
      case Some(f) => StringDe(f(dataNascimento))
  }

  // ---------------------------------------------------------------------------
  // PDF

  /** One row of the PDF table: name, email, CPF, age, status, limitations. */
  function LinhaPdf(aluno: Aluno, calculaIdade: CalculaIdade): (r: seq<string>)
    ensures |r| == 6
    ensures r[0] == OrEmpty(aluno.nome) && r[1] == OrEmpty(aluno.email) && r[2] == OrEmpty(aluno.cpf)
    ensures r[3] == CelulaIdade(calculaIdade, aluno.dataNascimento)
    ensures r[4] == "Ativo" <==> aluno.status
    ensures r[5] == "Sim" <==> aluno.alunoComLimitacoesFisicas
  {
    [OrEmpty(aluno.nome), OrEmpty(aluno.email), OrEmpty(aluno.cpf),
     CelulaIdade(calculaIdade, aluno.dataNascimento),
     RotuloStatus(aluno.status), RotuloLimitacoes(aluno.alunoComLimitacoesFisicas)]
  }

  /** `tableData` of `gerarPDF`; a list that is not an array (None) is
      treated as empty. */
  function TabelaPdf(students: Option<seq<Aluno>>, calculaIdade: CalculaIdade): (t: seq<seq<string>>)
    ensures students.None? ==> t == []
    ensures |t| == |students.GetOr([])|
    ensures forall i :: 0 <= i < |t| ==> t[i] == LinhaPdf(students.GetOr([])[i], calculaIdade)
  {
    var alunos := students.GetOr([]);
    seq(|alunos|, i requires 0 <= i < |alunos| => LinhaPdf(alunos[i], calculaIdade))
  }

  /** Every PDF row has six cells, and the status cell of row i is "Ativo"
      exactly when student i is active. */
  lemma TabelaPdfFormato(students: seq<Aluno>, calculaIdade: CalculaIdade, i: nat)
    requires i < |students|
    ensures var t := TabelaPdf(Some(students), calculaIdade);
      && |t[i]| == 6
      && (t[i][4] == "Ativo" <==> students[i].status)
      && (t[i][4] == "Inativo" <==> !students[i].status)
  {
    var linha := LinhaPdf(students[i], calculaIdade);
    assert linha[4] == RotuloStatus(students[i].status);
  }

  // ---------------------------------------------------------------------------
  // XLSX

  /** One row of the "Alunos" sheet. */
  datatype LinhaXlsx = LinhaXlsx(
    numero: int,
    nomeCompleto: Option<string>,
    email: Option<string>,
    cpf: Option<string>,
    dataNascimento: Option<string>,
    idade: ValorIdade,
    status: string,
    possuiLimitacoes: string)

  /** `calculateAge ? calculateAge(dataNascimento) : ''`: the sheet stores
      the callback's value as it is, and shows what the PDF's age cell
      shows. */
  function Idade(calculaIdade: CalculaIdade, dataNascimento: Option<string>): (r: ValorIdade)
    ensures calculaIdade.None? ==> r == Texto("")
    ensures StringDe(r) == CelulaIdade(calculaIdade, dataNascimento)
  {
    match calculaIdade
      case None => Texto("")
      case Some(f) => f(dataNascimento)
  }

  /** `worksheetData` of `gerarXLSX`. */
  function PlanilhaAlunos(students: seq<Aluno>, calculaIdade: CalculaIdade): (r: seq<LinhaXlsx>)
    ensures |r| == |students|
    ensures forall i :: 0 <= i < |r| ==>
      && r[i].numero == i + 1
      && r[i].nomeCompleto == students[i].nome
      && r[i].email == students[i].email
      && r[i].cpf == students[i].cpf
      && r[i].dataNascimento == students[i].dataNascimento
      && StringDe(r[i].idade) == CelulaIdade(calculaIdade, students[i].dataNascimento)
      && (r[i].status == "Ativo" <==> students[i].status)
      && (r[i].possuiLimitacoes == "Sim" <==> students[i].alunoComLimitacoesFisicas)
  {
    seq(|students|, i requires 0 <= i < |students| =>
      var a := students[i];
      LinhaXlsx(i + 1, a.nome, a.email, a.cpf, a.dataNascimento, Idade(calculaIdade, a.dataNascimento),
                RotuloStatus(a.status), RotuloLimitacoes(a.alunoComLimitacoesFisicas)))
  }

  /** The '#' column numbers the rows 1..n without repeats, and the PDF and
      XLSX reports agree on every row's status and limitations cells. */
  lemma PlanilhaENumeracao(students: seq<Aluno>, calculaIdade: CalculaIdade, i: nat, j: nat)
    requires i < |students| && j < |students|
    ensures var r := PlanilhaAlunos(students, calculaIdade);
      && 1 <= r[i].numero <= |students|
      && (r[i].numero == r[j].numero <==> i == j)
      && StringDe(r[i].idade) == TabelaPdf(Some(students), calculaIdade)[i][3]
      && r[i].status == TabelaPdf(Some(students), calculaIdade)[i][4]
      && r[i].possuiLimitacoes == TabelaPdf(Some(students), calculaIdade)[i][5]
  {
    var linha := LinhaPdf(students[i], calculaIdade);
    assert linha[4] == RotuloStatus(students[i].status);
    assert linha[5] == RotuloLimitacoes(students[i].alunoComLimitacoesFisicas);
  }

  // ---------------------------------------------------------------------------
  // Summary sheet

  function Ativos(students: seq<Aluno>): nat {
    if students == [] then 0 else (if students[0].status then 1 else 0) + Ativos(students[1..])
  }

  function Inativos(students: seq<Aluno>): nat {
    if students == [] then 0 else (if students[0].status then 0 else 1) + Inativos(students[1..])
  }

  function ComLimitacoes(students: seq<Aluno>): nat {
    if students == [] then 0 else (if students[0].alunoComLimitacoesFisicas then 1 else 0) + ComLimitacoes(students[1..])
  }

  /** The counted rows of the "Informações" sheet (the generation date is
      not modelled). */
  datatype Resumo = Resumo(totalDeRegistros: nat, alunosAtivos: nat, alunosInativos: nat, comLimitacoesFisicas: nat)

  lemma {:induction false} AtivosMaisInativos(students: seq<Aluno>)
    ensures Ativos(students) + Inativos(students) == |students|
  {
    if students != [] {
      AtivosMaisInativos(students[1..]);
    }
  }

  lemma {:induction false} ComLimitacoesAteTotal(students: seq<Aluno>)
    ensures ComLimitacoes(students) <= |students|
  {
    if students != [] {
      ComLimitacoesAteTotal(students[1..]);
    }
  }

  /** `infoData`: the active and inactive students partition the records,
      and those with physical limitations are among them. */
  function ResumoAlunos(students: seq<Aluno>): (r: Resumo)
    ensures r.totalDeRegistros == |students|
    ensures r.alunosAtivos + r.alunosInativos == r.totalDeRegistros
    ensures r.comLimitacoesFisicas <= r.totalDeRegistros
  {
    AtivosMaisInativos(students);
    ComLimitacoesAteTotal(students);
    Resumo(|students|, Ativos(students), Inativos(students), ComLimitacoes(students))
  }

  /** Rows of the "Alunos" sheet whose Status cell reads "Ativo". */
  function LinhasAtivas(rows: seq<LinhaXlsx>): nat {
    if rows == [] then 0 else (if rows[0].status == "Ativo" then 1 else 0) + LinhasAtivas(rows[1..])
  }

  lemma {:induction false} LinhasAtivasContaAtivos(rows: seq<LinhaXlsx>, students: seq<Aluno>)
    requires |rows| == |students|
    requires forall i :: 0 <= i < |rows| ==> (rows[i].status == "Ativo" <==> students[i].status)
    ensures LinhasAtivas(rows) == Ativos(students)
  {
    if rows != [] {
      LinhasAtivasContaAtivos(rows[1..], students[1..]);
    }
  }

  /** The summary agrees with the sheet: the number of rows whose Status
      cell is "Ativo" is the "Alunos Ativos" count. */
  lemma ResumoContaLinhas(students: seq<Aluno>, calculaIdade: CalculaIdade)
    ensures ResumoAlunos(students).alunosAtivos == LinhasAtivas(PlanilhaAlunos(students, calculaIdade))
  {
    LinhasAtivasContaAtivos(PlanilhaAlunos(students, calculaIdade), students);
  }
}
