/** The aggregation of `src/pages/Secretary/Dashboard/index.jsx`: from the
    per-day and per-professor session counts the dashboard derives the total,
    the pie, the busiest weekday, the busiest professor, the top three and
    the four KPI cards, and falls back to an empty state when there is no
    data or the request fails. */
module Dashboard {
  import opened Maybe
  import opened Text

  // ---------------------------------------------------------------------------
  // Reply

  datatype DiaItem = DiaItem(diaSemana: Option<string>, totalAgendamentos: int)

  datatype ProfItem = ProfItem(nomeProfessor: Option<string>, totalAgendamentosPorProfessor: int)

  /** The fields of the reply the dashboard reads; each may be missing. */
  datatype Resposta = Resposta(
    agendamentosPorDias: Option<seq<DiaItem>>,
    qtdSessoesPorProfessor: Option<seq<ProfItem>>,
    qtdDeAlunosAtendidos: Option<int>)

  /** `selectedPeriod || 30`: a zero period means the default of 30 days. */
  function DiasDoPeriodo(periodo: int): (dias: int)
    ensures dias != 0
    ensures periodo != 0 ==> dias == periodo
    ensures periodo == 0 ==> dias == 30
  {
    if periodo == 0 then 30 else periodo
  }

  /** `api/secretarias/qtdUltimosDias/<dias>`. */
  function EndpointPeriodo(periodo: int): (r: string)
    ensures StartsWith(r, "api/secretarias/qtdUltimosDias/")
  {
    "api/secretarias/qtdUltimosDias/" + IntToString(DiasDoPeriodo(periodo))
  }

  /** Distinct periods ask distinct endpoints, except that 0 asks the one of
      30. */
  lemma EndpointPeriodoInjetivo(p: int, q: int)
    ensures EndpointPeriodo(p) == EndpointPeriodo(q) <==> DiasDoPeriodo(p) == DiasDoPeriodo(q)
  {
    var prefixo := "api/secretarias/qtdUltimosDias/";
    if EndpointPeriodo(p) == EndpointPeriodo(q) {
      assert EndpointPeriodo(p)[|prefixo|..] == IntToString(DiasDoPeriodo(p));
      assert EndpointPeriodo(q)[|prefixo|..] == IntToString(DiasDoPeriodo(q));
      IntToStringInjective(DiasDoPeriodo(p), DiasDoPeriodo(q));
    }
  }

  // ---------------------------------------------------------------------------
  // Total

  /** `graficoProf.reduce((sum, item) => sum + item.total, 0)`. */
  function SomaTotais(ps: seq<ProfItem>): int {
    if ps == [] then 0 else SomaTotais(ps[..|ps| - 1]) + ps[|ps| - 1].totalAgendamentosPorProfessor
  }

  lemma {:induction false} SomaTotaisConcat(a: seq<ProfItem>, b: seq<ProfItem>)
    ensures SomaTotais(a + b) == SomaTotais(a) + SomaTotais(b)
  {
    if b == [] {
      assert a + b == a;
    } else {
      assert (a + b)[..|a + b| - 1] == a + b[..|b| - 1];
      SomaTotaisConcat(a, b[..|b| - 1]);
    }
  }

  predicate TotaisNaoNegativos(ps: seq<ProfItem>) {
    forall i :: 0 <= i < |ps| ==> ps[i].totalAgendamentosPorProfessor >= 0
  }

  /** With non-negative counts, no professor has more sessions than the
      total. */
  lemma {:induction false} CadaTotalAteOTotal(ps: seq<ProfItem>, i: nat)
    requires TotaisNaoNegativos(ps) && i < |ps|
    ensures 0 <= ps[i].totalAgendamentosPorProfessor <= SomaTotais(ps)
  {
    assert ps == ps[..i] + [ps[i]] + ps[i + 1..];
    SomaTotaisConcat(ps[..i] + [ps[i]], ps[i + 1..]);
    SomaTotaisConcat(ps[..i], [ps[i]]);
    SomaNaoNegativa(ps[..i]);
    SomaNaoNegativa(ps[i + 1..]);
    assert [ps[i]][..0] == [];
  }

  lemma {:induction false} SomaNaoNegativa(ps: seq<ProfItem>)
    requires TotaisNaoNegativos(ps)
    ensures SomaTotais(ps) >= 0
  {
    if ps != [] {
      SomaNaoNegativa(ps[..|ps| - 1]);
    }
  }

  // ---------------------------------------------------------------------------
  // Pie

  datatype PieEntry = PieEntry(name: Option<string>, y: int)

  /** One slice per professor, in the reply's order. */
  function Pie(ps: seq<ProfItem>): (r: seq<PieEntry>)
    ensures |r| == |ps|
    ensures forall i :: 0 <= i < |ps| ==> r[i] == PieEntry(ps[i].nomeProfessor, ps[i].totalAgendamentosPorProfessor)
  {
    seq(|ps|, i requires 0 <= i < |ps| => PieEntry(ps[i].nomeProfessor, ps[i].totalAgendamentosPorProfessor))
  }

  function SomaPie(pie: seq<PieEntry>): int {
    if pie == [] then 0 else SomaPie(pie[..|pie| - 1]) + pie[|pie| - 1].y
  }

  /** The slices add up to the "Sessões Realizadas" total. */
  lemma {:induction false} SomaPieIgualTotal(ps: seq<ProfItem>)
    ensures SomaPie(Pie(ps)) == SomaTotais(ps)
  {
    if ps != [] {
      assert Pie(ps)[..|ps| - 1] == Pie(ps[..|ps| - 1]);
      SomaPieIgualTotal(ps[..|ps| - 1]);
    }
  }

  // ---------------------------------------------------------------------------
  // Maximum with later-wins ties

  /** The index `xs.reduce((a, b) => a > b ? a : b)` ends on: the running
      winner is kept only while strictly greater, so among equal maxima the
      last one wins. */
  function IndiceMaior(v: seq<int>): (i: nat)
    requires |v| > 0
    ensures i < |v|
    ensures forall j :: 0 <= j < |v| ==> v[j] <= v[i]
    ensures forall j :: i < j < |v| ==> v[j] < v[i]
  {
    if |v| == 1 then 0
    else
      var a := IndiceMaior(v[..|v| - 1]);
      if v[a] > v[|v| - 1] then a else |v| - 1
  }

  function TotaisDias(ds: seq<DiaItem>): (v: seq<int>)
    ensures |v| == |ds| && forall i :: 0 <= i < |ds| ==> v[i] == ds[i].totalAgendamentos
  {
    seq(|ds|, i requires 0 <= i < |ds| => ds[i].totalAgendamentos)
  }

  function TotaisProfessores(ps: seq<ProfItem>): (v: seq<int>)
    ensures |v| == |ps| && forall i :: 0 <= i < |ps| ==> v[i] == ps[i].totalAgendamentosPorProfessor
  {
    seq(|ps|, i requires 0 <= i < |ps| => ps[i].totalAgendamentosPorProfessor)
  }

  // ---------------------------------------------------------------------------
  // Busiest weekday

  /** `diasPT`: lower-case English weekday to Portuguese. */
  const DiasPT: map<string, string> := map[
    "monday" := "Segunda-feira",
    "tuesday" := "Terça-feira",
    "wednesday" := "Quarta-feira",
    "thursday" := "Quinta-feira",
    "friday" := "Sexta-feira",
    "saturday" := "Sábado",
    "sunday" := "Domingo"]

  /** `diasPT[(dia || '').toLowerCase()] || ''`. */
  function TraduzirDia(dia: Option<string>): (r: string)
    ensures ToLower(OrEmpty(dia)) in DiasPT ==> r == DiasPT[ToLower(OrEmpty(dia))]
    ensures ToLower(OrEmpty(dia)) !in DiasPT ==> r == ""
    ensures r == "" || r in DiasPT.Values
  {
    var chave := ToLower(OrEmpty(dia));
    if chave in DiasPT then DiasPT[chave] else ""
  }

  /** The translation ignores case; anything that is not an English weekday
      name becomes ''. */
  lemma TraduzirDiaExemplos()
    ensures TraduzirDia(Some("MONDAY")) == "Segunda-feira"
    ensures TraduzirDia(Some("sunday")) == "Domingo"
    ensures TraduzirDia(None) == ""
    ensures TraduzirDia(Some("-")) == ""
  {
    assert ToLower("MONDAY") == "monday";
    assert ToLower("sunday") == "sunday";
    assert ToLower("-") == "-";
    assert ToLower("") == "";
  }

  /** The "Dia com Maior Atendimento" card: the translated name of the day
      `reduce` picks, '' without days. */
  function DiaComMaiorAtendimento(ds: seq<DiaItem>): (r: string)
    ensures |ds| == 0 ==> r == ""
    ensures r == "" || r in DiasPT.Values
  {
    if |ds| > 0 then
      var i := IndiceMaior(TotaisDias(ds));
      TraduzirDia(ds[i].diaSemana)
    else
      assert ToLower("-") == "-";
      TraduzirDia(Some("-"))
  }

  /** The card names a day with the most sessions, and no later day has as
      many. */
  lemma DiaComMaiorAtendimentoMaximo(ds: seq<DiaItem>)
    requires |ds| > 0
    ensures exists i :: (
      && 0 <= i < |ds|
      && (forall j :: 0 <= j < |ds| ==> ds[j].totalAgendamentos <= ds[i].totalAgendamentos)
      && (forall j :: i < j < |ds| ==> ds[j].totalAgendamentos < ds[i].totalAgendamentos)
      && DiaComMaiorAtendimento(ds) == TraduzirDia(ds[i].diaSemana))
  {
    var i := IndiceMaior(TotaisDias(ds));
    assert DiaComMaiorAtendimento(ds) == TraduzirDia(ds[i].diaSemana);
  }

  /** The "Professor com mais atendimentos" card: the name of the professor
      `reduce` picks, '' without professors. */
  function ProfessorMaisAtendido(ps: seq<ProfItem>): (r: string)
    ensures |ps| == 0 ==> r == ""
  {
    if |ps| > 0 then OrEmpty(ps[IndiceMaior(TotaisProfessores(ps))].nomeProfessor) else ""
  }

  /** The card names a professor with the most sessions, and no later
      professor has as many. */
  lemma ProfessorMaisAtendidoMaximo(ps: seq<ProfItem>)
    requires |ps| > 0
    ensures exists i :: (
      && 0 <= i < |ps|
      && (forall j :: 0 <= j < |ps| ==> ps[j].totalAgendamentosPorProfessor <= ps[i].totalAgendamentosPorProfessor)
      && (forall j :: i < j < |ps| ==> ps[j].totalAgendamentosPorProfessor < ps[i].totalAgendamentosPorProfessor)
      && ProfessorMaisAtendido(ps) == OrEmpty(ps[i].nomeProfessor))
  {
    var i := IndiceMaior(TotaisProfessores(ps));
    assert ProfessorMaisAtendido(ps) == OrEmpty(ps[i].nomeProfessor);
  }

  // ---------------------------------------------------------------------------
  // Top three

  /** Non-increasing by total. */
  predicate Decrescente(s: seq<ProfItem>) {
    forall i, j :: 0 <= i < j < |s| ==> s[i].totalAgendamentosPorProfessor >= s[j].totalAgendamentosPorProfessor
  }

  /** Inserts `x`, which comes after every element of `s` in the input, after
      all elements with a total at least as large. */
  function Inserir(x: ProfItem, s: seq<ProfItem>): (r: seq<ProfItem>)
    ensures multiset(r) == multiset(s) + multiset{x}
    ensures |r| == |s| + 1
  {
    if s == [] then [x]
    else if s[0].totalAgendamentosPorProfessor < x.totalAgendamentosPorProfessor then [x] + s
    else
      assert s == [s[0]] + s[1..];
      [s[0]] + Inserir(x, s[1..])
  }

  lemma {:induction false} InserirDecrescente(x: ProfItem, s: seq<ProfItem>)
    requires Decrescente(s)
    ensures Decrescente(Inserir(x, s))
  {
    if s != [] && s[0].totalAgendamentosPorProfessor >= x.totalAgendamentosPorProfessor {
      InserirDecrescente(x, s[1..]);
      var t := Inserir(x, s[1..]);
      assert Inserir(x, s) == [s[0]] + t;
      assert AteTotal(s[1..], s[0].totalAgendamentosPorProfessor);
      InserirAteTotal(x, s[1..], s[0].totalAgendamentosPorProfessor);
      ConsDecrescente(s[0], t);
    }
  }

  /** No total above `b`. */
  predicate AteTotal(s: seq<ProfItem>, b: int) {
    forall j :: 0 <= j < |s| ==> s[j].totalAgendamentosPorProfessor <= b
  }

  /** Inserting an element within a bound keeps every total within it. */
  lemma {:induction false} InserirAteTotal(x: ProfItem, s: seq<ProfItem>, b: int)
    requires AteTotal(s, b) && x.totalAgendamentosPorProfessor <= b
    ensures AteTotal(Inserir(x, s), b)
  {
    if s != [] && s[0].totalAgendamentosPorProfessor >= x.totalAgendamentosPorProfessor {
      InserirAteTotal(x, s[1..], b);
      assert Inserir(x, s) == [s[0]] + Inserir(x, s[1..]);
    }
  }

  /** A head at least as large as every total of a sorted tail keeps it sorted. */
  lemma ConsDecrescente(h: ProfItem, t: seq<ProfItem>)
    requires Decrescente(t) && AteTotal(t, h.totalAgendamentosPorProfessor)
    ensures Decrescente([h] + t)
  {
    var r := [h] + t;
    forall i, j | 0 <= i < j < |r|
      ensures r[i].totalAgendamentosPorProfessor >= r[j].totalAgendamentosPorProfessor
    {
      assert r[j] == t[j - 1];
      if i > 0 {
        assert r[i] == t[i - 1];
      }
    }
  }

  /** `[...graficoProf].sort((a, b) => b.total - a.total)`: a stable sort,
      largest total first, on a copy. */
  function Ordenar(ps: seq<ProfItem>): (r: seq<ProfItem>)
    ensures multiset(r) == multiset(ps) && |r| == |ps|
  {
    if ps == [] then []
    else
      assert ps == ps[..|ps| - 1] + [ps[|ps| - 1]];
      Inserir(ps[|ps| - 1], Ordenar(ps[..|ps| - 1]))
  }

  /** The sorted copy is in non-increasing order of total. */
  lemma {:induction false} OrdenarDecrescente(ps: seq<ProfItem>)
    ensures Decrescente(Ordenar(ps))
  {
    if ps != [] {
      OrdenarDecrescente(ps[..|ps| - 1]);
      InserirDecrescente(ps[|ps| - 1], Ordenar(ps[..|ps| - 1]));
    }
  }

  /** The elements with total `t`, in order. */
  function ComTotal(s: seq<ProfItem>, t: int): seq<ProfItem> {
    if s == [] then []
    else (if s[0].totalAgendamentosPorProfessor == t then [s[0]] else []) + ComTotal(s[1..], t)
  }

  lemma {:induction false} ComTotalConcat(a: seq<ProfItem>, b: seq<ProfItem>, t: int)
    ensures ComTotal(a + b, t) == ComTotal(a, t) + ComTotal(b, t)
  {
    if a != [] {
      assert (a + b)[1..] == a[1..] + b;
      ComTotalConcat(a[1..], b, t);
    } else {
      assert a + b == b;
    }
  }

  lemma {:induction false} ComTotalVazio(s: seq<ProfItem>, t: int)
    requires forall i :: 0 <= i < |s| ==> s[i].totalAgendamentosPorProfessor < t
    ensures ComTotal(s, t) == []
  {
    if s != [] {
      ComTotalVazio(s[1..], t);
    }
  }

  lemma {:induction false} InserirEstavel(x: ProfItem, s: seq<ProfItem>, t: int)
    requires Decrescente(s)
    ensures ComTotal(Inserir(x, s), t) == ComTotal(s, t) + (if x.totalAgendamentosPorProfessor == t then [x] else [])
  {
    if s == [] {
    } else if s[0].totalAgendamentosPorProfessor < x.totalAgendamentosPorProfessor {
      assert ([x] + s)[1..] == s;
      if x.totalAgendamentosPorProfessor == t {
        ComTotalVazio(s, t);
      }
    } else {
      InserirEstavel(x, s[1..], t);
      assert ([s[0]] + Inserir(x, s[1..]))[1..] == Inserir(x, s[1..]);
    }
  }

  /** The sort is stable: professors with equal totals keep their relative
      order from the reply. */
  lemma {:induction false} OrdenarEstavel(ps: seq<ProfItem>, t: int)
    ensures ComTotal(Ordenar(ps), t) == ComTotal(ps, t)
  {
    if ps != [] {
      OrdenarEstavel(ps[..|ps| - 1], t);
      PassoOrdenarEstavel(ps, t);
    }
  }

  lemma PassoOrdenarEstavel(ps: seq<ProfItem>, t: int)
    requires ps != [] && ComTotal(Ordenar(ps[..|ps| - 1]), t) == ComTotal(ps[..|ps| - 1], t)
    ensures ComTotal(Ordenar(ps), t) == ComTotal(ps, t)
  {
    var init, last := ps[..|ps| - 1], ps[|ps| - 1];
    OrdenarUltimo(ps);
    OrdenarDecrescente(init);
    InserirMantemEstavel(init, last, Ordenar(init), t);
    assert ps == init + [last];
  }

  /** One step of the stable sort: inserting the next element into a stable
      sorted copy of the elements before it keeps it stable. */
  lemma InserirMantemEstavel(init: seq<ProfItem>, last: ProfItem, s: seq<ProfItem>, t: int)
    requires Decrescente(s) && ComTotal(s, t) == ComTotal(init, t)
    ensures ComTotal(Inserir(last, s), t) == ComTotal(init + [last], t)
  {
    InserirEstavel(last, s, t);
    ComTotalUnitario(last, t);
    ComTotalConcat(init, [last], t);
  }

  lemma OrdenarUltimo(ps: seq<ProfItem>)
    requires ps != []
    ensures Ordenar(ps) == Inserir(ps[|ps| - 1], Ordenar(ps[..|ps| - 1]))
  {
  }

  lemma ComTotalUnitario(x: ProfItem, t: int)
    ensures ComTotal([x], t) == if x.totalAgendamentosPorProfessor == t then [x] else []
  {
    assert [x][1..] == [];
  }

  /** The first `min(3, n)` professors of the sorted copy. */
  function MaioresTres(ps: seq<ProfItem>): (r: seq<ProfItem>)
    ensures |r| == if |ps| < 3 then |ps| else 3
    ensures Decrescente(r)
    ensures multiset(r) <= multiset(ps)
  {
    var s := Ordenar(ps);
    var k := if |s| < 3 then |s| else 3;
    OrdenarDecrescente(ps);
    assert s == s[..k] + s[k..];
    s[..k]
  }

  /** No professor left out of the top three has more sessions than one in
      it. */
  lemma MaioresTresSaoOsMaiores(ps: seq<ProfItem>, x: ProfItem, y: ProfItem)
    requires x in multiset(ps) - multiset(MaioresTres(ps))
    requires y in MaioresTres(ps)
    ensures x.totalAgendamentosPorProfessor <= y.totalAgendamentosPorProfessor
  {
    var s := Ordenar(ps);
    var k := if |s| < 3 then |s| else 3;
    OrdenarDecrescente(ps);
    assert s == s[..k] + s[k..];
    assert multiset(s) == multiset(s[..k]) + multiset(s[k..]);
    assert x in s[k..];
  }

  /** A top-3 entry (the rounded percentage is not modelled). */
  datatype TopEntry = TopEntry(professor: Option<string>, total: int)

  function Top3(ps: seq<ProfItem>): (r: seq<TopEntry>)
    ensures |r| == |MaioresTres(ps)|
    ensures forall i :: 0 <= i < |r| ==>
      r[i] == TopEntry(MaioresTres(ps)[i].nomeProfessor, MaioresTres(ps)[i].totalAgendamentosPorProfessor)
  {
    var m := MaioresTres(ps);
    seq(|m|, i requires 0 <= i < |m| => TopEntry(m[i].nomeProfessor, m[i].totalAgendamentosPorProfessor))
  }

  // ---------------------------------------------------------------------------
  // KPI cards

  datatype Kpi = Kpi(title: string, value: string, iconBgColor: string)

  const TitulosKpi: seq<string> := [
    "Sessões Realizadas", "Alunos Atendidos", "Dia com Maior Atendimento", "Professor com mais atendimentos"]

  const CoresKpi: seq<string> := ["#d8b4fe", "#fdba74", "#93c5fd", "#fef08a"]

  /** The four cards, in their fixed order, holding the given values. */
  function CartoesKpi(valores: seq<string>): (r: seq<Kpi>)
    requires |valores| == 4
    ensures |r| == 4
    ensures forall i :: 0 <= i < 4 ==> r[i].title == TitulosKpi[i] && r[i].iconBgColor == CoresKpi[i] && r[i].value == valores[i]
  {
    seq(4, i requires 0 <= i < 4 => Kpi(TitulosKpi[i], valores[i], CoresKpi[i]))
  }

  /** `emptyKpis`. */
  const EmptyKpis: seq<Kpi> := CartoesKpi(["", "", "", ""])

  /** `n ? n.toString() : ''`. */
  function ValorContagem(n: int): (r: string)
    ensures r == "" <==> n == 0
    ensures n > 0 ==> AllDigits(r) && ParseNat(r) == n
  {
    if n == 0 then ""
    else if n > 0 then
      ParseNatToString(n);
      IntToString(n)
    else IntToString(n)
  }

  // ---------------------------------------------------------------------------
  // Dashboard state

  /** What the dashboard shows. */
  datatype Estado = Estado(
    kpis: seq<Kpi>,
    pie: seq<PieEntry>,
    frequencia: seq<DiaItem>,
    totalAulas: int,
    top3: seq<TopEntry>,
    hasData: bool)

  /** The state of the no-data and error paths. */
  const EstadoVazio := Estado(EmptyKpis, [], [], 0, [], false)

  /** The state `fetchDashboardData` leaves for a reply (None: the request
      failed). */
  function EstadoDaResposta(resposta: Option<Resposta>): (e: Estado)
    ensures e.hasData <==> (resposta.Some?
      && (|resposta.value.agendamentosPorDias.GetOr([])| > 0 || |resposta.value.qtdSessoesPorProfessor.GetOr([])| > 0))
    ensures !e.hasData ==> e == EstadoVazio
    ensures e.hasData ==>
      var ps := resposta.value.qtdSessoesPorProfessor.GetOr([]);
      var ds := resposta.value.agendamentosPorDias.GetOr([]);
      && e.totalAulas == SomaTotais(ps)
      && e.frequencia == ds
      && e.pie == Pie(ps)
      && e.top3 == Top3(ps)
      && e.kpis == CartoesKpi([
           ValorContagem(SomaTotais(ps)), ValorContagem(resposta.value.qtdDeAlunosAtendidos.GetOr(0)),
           DiaComMaiorAtendimento(ds), ProfessorMaisAtendido(ps)])
  {
    match resposta
      case None => EstadoVazio
      case Some(r) =>
        var ds := r.agendamentosPorDias.GetOr([]);
        var ps := r.qtdSessoesPorProfessor.GetOr([]);
        if |ds| == 0 && |ps| == 0 then EstadoVazio
        else
          var total := SomaTotais(ps);
          Estado(
            CartoesKpi([ValorContagem(total), ValorContagem(r.qtdDeAlunosAtendidos.GetOr(0)),
                        DiaComMaiorAtendimento(ds), ProfessorMaisAtendido(ps)]),
            Pie(ps), ds, total, Top3(ps), true)
  }

  /** With data, the cards keep their titles and colours, the session card
      is empty only for a zero total, and each top-3 total is at most the
      total when counts are non-negative. */
  lemma EstadoComDados(resposta: Resposta)
    requires |resposta.agendamentosPorDias.GetOr([])| > 0 || |resposta.qtdSessoesPorProfessor.GetOr([])| > 0
    requires TotaisNaoNegativos(resposta.qtdSessoesPorProfessor.GetOr([]))
    ensures var e := EstadoDaResposta(Some(resposta));
      && e.hasData
      && (forall i :: 0 <= i < 4 ==> e.kpis[i].title == EmptyKpis[i].title && e.kpis[i].iconBgColor == EmptyKpis[i].iconBgColor)
      && (e.kpis[0].value == "" <==> e.totalAulas == 0)
      && (forall i :: 0 <= i < |e.top3| ==> 0 <= e.top3[i].total <= e.totalAulas)
  {
    var ps := resposta.qtdSessoesPorProfessor.GetOr([]);
    var e := EstadoDaResposta(Some(resposta));
    var m := MaioresTres(ps);
    forall i | 0 <= i < |e.top3| ensures 0 <= e.top3[i].total <= e.totalAulas {
      assert m[i] in multiset(ps);
      var j :| 0 <= j < |ps| && ps[j] == m[i];
      CadaTotalAteOTotal(ps, j);
    }
  }

  // ---------------------------------------------------------------------------
  // The dashboard component

  class Painel {
    var selectedPeriod: int
    var kpis: seq<Kpi>
    var pie: seq<PieEntry>
    var frequencia: seq<DiaItem>
    var hasData: bool
    var totalAulas: int
    var top3: seq<TopEntry>

    function EstadoAtual(): Estado
      reads this
    {
      Estado(kpis, pie, frequencia, totalAulas, top3, hasData)
    }

    /** The initial state: period 30, no cards, `hasData` true. */
    constructor ()
      ensures selectedPeriod == 30
      ensures EstadoAtual() == Estado([], [], [], 0, [], true)
    {
      selectedPeriod := 30;
      kpis, pie, frequencia := [], [], [];
      hasData := true;
      totalAulas := 0;
      top3 := [];
    }

    /** `handleFilterChange`. */
    method HandleFilterChange(newPeriod: int)
      modifies this`selectedPeriod
      ensures selectedPeriod == newPeriod
    {
      selectedPeriod := newPeriod;
    }

    /** `fetchDashboardData`: nothing happens without a signed-in user with an
        id; otherwise the period's endpoint is asked and the reply (None: the
        request failed) replaces the shown state. */
    method FetchDashboardData(usuarioComId: bool, resposta: Option<Resposta>) returns (endpoint: Option<string>)
      modifies this
      ensures selectedPeriod == old(selectedPeriod)
      ensures !usuarioComId ==> endpoint == None && EstadoAtual() == old(EstadoAtual())
      ensures usuarioComId ==> endpoint == Some(EndpointPeriodo(selectedPeriod)) && EstadoAtual() == EstadoDaResposta(resposta)
    {
      if !usuarioComId {
        return None;
      }
      var dias := DiasDoPeriodo(selectedPeriod);
      endpoint := Some("api/secretarias/qtdUltimosDias/" + IntToString(dias));
      if resposta.None? {
        pie, frequencia, totalAulas, top3, kpis, hasData := [], [], 0, [], EmptyKpis, false;
        return;
      }
      var data := resposta.value;
      var graficoDias := data.agendamentosPorDias.GetOr([]);
      var graficoProf := data.qtdSessoesPorProfessor.GetOr([]);
      var qtdAlunos := data.qtdDeAlunosAtendidos.GetOr(0);
      if !(|graficoDias| > 0 || |graficoProf| > 0) {
        pie, frequencia, top3, totalAulas, kpis, hasData := [], [], [], 0, EmptyKpis, false;
        return;
      }
      AplicarDados(graficoDias, graficoProf, qtdAlunos);
    }

    /** The data branch of `fetchDashboardData`, one setter after another. */
    method AplicarDados(graficoDias: seq<DiaItem>, graficoProf: seq<ProfItem>, qtdAlunos: int)
      modifies this`frequencia, this`pie, this`totalAulas, this`kpis, this`top3, this`hasData
      ensures kpis == CartoesKpi([ValorContagem(SomaTotais(graficoProf)), ValorContagem(qtdAlunos),
                                  DiaComMaiorAtendimento(graficoDias), ProfessorMaisAtendido(graficoProf)])
      ensures pie == Pie(graficoProf) && frequencia == graficoDias
      ensures totalAulas == SomaTotais(graficoProf) && top3 == Top3(graficoProf) && hasData
    {
      var pieData := Pie(graficoProf);
      var total := SomaTotais(graficoProf);
      var dia := DiaComMaiorAtendimento(graficoDias);
      var professor := ProfessorMaisAtendido(graficoProf);
      var newKpis := CartoesKpi([ValorContagem(total), ValorContagem(qtdAlunos), dia, professor]);
      var top := Top3(graficoProf);
      frequencia := graficoDias;
      pie := pieData;
      totalAulas := total;
      kpis := newKpis;
      top3 := top;
      hasData := true;
    }
  }
}
