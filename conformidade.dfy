/**
 * The compliance rules of `analisar_conformidade_avancada`, stated as pure
 * functions over the submitted operation: which impediments and alerts each
 * section produces, the score computed from their counts and the verdict.
 * The imperative evaluator in `Agente` is proved to compute exactly these.
 *
 * A section is a record of optional facts: `None` is a key that the caller
 * did not send, and each check reads it with the default the source passes
 * to `dict.get`.
 */
module Conformidade {
  import opened Wrappers

  datatype Tomador = Tomador(
    cpfRegular: Option<bool>,
    brasileiro: Option<bool>,
    rnmValida: Option<bool>,
    idoneidadeCadastral: Option<bool>,
    residenciaBrasil: Option<bool>)

  datatype Vendedor = Vendedor(
    tipo: Option<string>,
    maiorIdade: Option<bool>,
    cpfRegular: Option<bool>,
    cnpjRegular: Option<bool>)

  datatype Imovel = Imovel(
    areaUrbana: Option<bool>,
    infraestruturaCompleta: Option<bool>,
    possuiOnus: Option<bool>,
    matriculaRegular: Option<bool>,
    impedimentos: Option<seq<string>>)

  datatype Programa = Programa(
    tipo: Option<string>,
    tempoFgtsAnos: Option<int>,
    saldoSuficiente: Option<bool>,
    rendaFamiliarCompativel: Option<bool>)

  datatype Documentacao = Documentacao(
    tomadorCompleta: Option<bool>,
    vendedorCompleta: Option<bool>,
    imovelCompleta: Option<bool>)

  /** `dados_operacao`: each section may be absent. */
  datatype Operacao = Operacao(
    tomador: Option<Tomador>,
    vendedor: Option<Vendedor>,
    imovel: Option<Imovel>,
    programa: Option<Programa>,
    documentacao: Option<Documentacao>)

  /** The result record, without the never-written `detalhes_analise`. */
  datatype Analise = Analise(
    conforme: bool,
    score: int,
    alertas: seq<string>,
    impedimentos: seq<string>,
    recomendacoes: seq<string>)

  // Messages, as the source writes them.
  const CpfIrregular := "CPF irregular junto à Receita Federal"
  const EstrangeiroSemRnm := "Estrangeiro sem RNM/RNE válida"
  const SemIdoneidade := "Falta de idoneidade cadastral"
  const SemResidencia := "Não comprova residência no Brasil"
  const VendedorMenor := "Vendedor menor de idade sem emancipação"
  const CpfVendedorIrregular := "CPF do vendedor irregular"
  const CnpjVendedorIrregular := "CNPJ do vendedor irregular"
  const ForaAreaUrbana := "Imóvel não localizado em área urbana"
  const VerificarInfraestrutura := "Verificar infraestrutura básica (água, " + "esgoto, energia)"
  const PossuiOnus := "Imóvel possui ônus - verificar se impeditivo"
  const MatriculaIrregular := "Matrícula irregular ou inexistente"
  const PrefixoImovel := "Imóvel: "
  const FgtsTempoInsuficiente := "FGTS: Menos de 3 anos de trabalho sob " + "regime FGTS"
  const FgtsVerificarSaldo := "FGTS: Verificar saldo mínimo de 10% do " + "valor de avaliação"
  const PmcmvVerificarRenda := "PMCMV: Verificar compatibilidade da " + "renda familiar"
  const DocTomadorIncompleta := "Documentação do tomador incompleta"
  const DocVendedorIncompleta := "Documentação do vendedor incompleta"
  const DocImovelIncompleta := "Documentação do imóvel incompleta"

  /** `[m]` when the check fails, nothing otherwise. */
  function Se(falha: bool, m: string): seq<string>
  {
    if falha then [m] else []
  }

  /** Regrouping three appended parts. */
  lemma Associa3(a: seq<string>, s1: seq<string>, s2: seq<string>, s3: seq<string>)
    ensures a + s1 + s2 + s3 == a + (s1 + s2 + s3)
  {
  }

  /** Regrouping four appended parts. */
  lemma Associa(a: seq<string>, s1: seq<string>, s2: seq<string>, s3: seq<string>, s4: seq<string>)
    ensures a + s1 + s2 + s3 + s4 == a + (s1 + s2 + s3 + s4)
  {
  }

  // ---------------------------------------------------------------------
  // Borrower (`_analisar_tomador_avancado`)

  function ImpedimentosTomador(t: Tomador): seq<string>
  {
    Se(!t.cpfRegular.GetOr(false), CpfIrregular)
    + Se(!t.brasileiro.GetOr(false) && !t.rnmValida.GetOr(false), EstrangeiroSemRnm)
    + Se(!t.idoneidadeCadastral.GetOr(true), SemIdoneidade)
    + Se(!t.residenciaBrasil.GetOr(true), SemResidencia)
  }

  /**
   * Each borrower impediment is reported exactly when its check fails: a
   * missing CPF fact fails, a missing nationality fails unless a valid RNM
   * is given, and missing record or residence facts pass.
   */
  lemma RegrasTomador(t: Tomador)
    ensures CpfIrregular in ImpedimentosTomador(t) <==> !t.cpfRegular.GetOr(false)
    ensures EstrangeiroSemRnm in ImpedimentosTomador(t) <==> !t.brasileiro.GetOr(false) && !t.rnmValida.GetOr(false)
    ensures SemIdoneidade in ImpedimentosTomador(t) <==> !t.idoneidadeCadastral.GetOr(true)
    ensures SemResidencia in ImpedimentosTomador(t) <==> !t.residenciaBrasil.GetOr(true)
    ensures forall m :: m in ImpedimentosTomador(t) ==>
              m in [CpfIrregular, EstrangeiroSemRnm, SemIdoneidade, SemResidencia]
    ensures |ImpedimentosTomador(t)| <= 4
  {
  }

  // ---------------------------------------------------------------------
  // Seller (`_analisar_vendedor_avancado`)

  function ImpedimentosVendedor(v: Vendedor): seq<string>
  {
    if v.tipo == Some("PF") then
      Se(!v.maiorIdade.GetOr(true), VendedorMenor) + Se(!v.cpfRegular.GetOr(false), CpfVendedorIrregular)
    else if v.tipo == Some("PJ") then
      Se(!v.cnpjRegular.GetOr(false), CnpjVendedorIrregular)
    else []
  }

  /**
   * A PF seller is checked for age (missing passes) and CPF (missing
   * fails), a PJ seller for CNPJ (missing fails); any other type is not
   * checked at all.
   */
  lemma RegrasVendedor(v: Vendedor)
    ensures VendedorMenor in ImpedimentosVendedor(v) <==> v.tipo == Some("PF") && !v.maiorIdade.GetOr(true)
    ensures CpfVendedorIrregular in ImpedimentosVendedor(v) <==> v.tipo == Some("PF") && !v.cpfRegular.GetOr(false)
    ensures CnpjVendedorIrregular in ImpedimentosVendedor(v) <==> v.tipo == Some("PJ") && !v.cnpjRegular.GetOr(false)
    ensures forall m :: m in ImpedimentosVendedor(v) ==>
              m in [VendedorMenor, CpfVendedorIrregular, CnpjVendedorIrregular]
    ensures v.tipo != Some("PF") && v.tipo != Some("PJ") ==> ImpedimentosVendedor(v) == []
  {
  }

  // ---------------------------------------------------------------------
  // Property (`_analisar_imovel_avancado`)

  /** The loop over the declared impediments, one step per element. */
  function ImpedimentosCatalogados(catalogo: seq<string>, declarados: seq<string>): seq<string>
  {
    if declarados == [] then []
    else
      var d := declarados[|declarados| - 1];
      ImpedimentosCatalogados(catalogo, declarados[..|declarados| - 1]) + Se(d in catalogo, PrefixoImovel + d)
  }

  /**
   * Each declared impediment found in the catalogue is reported as
   * `"Imóvel: " + impedimento`; nothing else is reported, and there is at
   * most one report per declared element.
   */
  lemma {:induction false} RegrasCatalogados(catalogo: seq<string>, declarados: seq<string>)
    ensures |ImpedimentosCatalogados(catalogo, declarados)| <= |declarados|
    ensures forall m :: m in ImpedimentosCatalogados(catalogo, declarados) <==>
              exists d :: d in declarados && d in catalogo && m == PrefixoImovel + d
  {
    if declarados != [] {
      var d := declarados[|declarados| - 1];
      var anterior := declarados[..|declarados| - 1];
      assert declarados == anterior + [d];
      RegrasCatalogados(catalogo, anterior);
    }
  }

  /** Checking a list in two parts gives the results of both parts, in order. */
  lemma {:induction false} CatalogadosConcatena(catalogo: seq<string>, a: seq<string>, b: seq<string>)
    ensures ImpedimentosCatalogados(catalogo, a + b)
         == ImpedimentosCatalogados(catalogo, a) + ImpedimentosCatalogados(catalogo, b)
    decreases |b|
  {
    if b == [] {
      assert a + b == a;
    } else {
      var d := b[|b| - 1];
      var b' := b[..|b| - 1];
      assert a + b == (a + b') + [d];
      assert (a + b)[..|a + b| - 1] == a + b';
      CatalogadosConcatena(catalogo, a, b');
    }
  }

  /** When every declared impediment is catalogued, each one is reported, prefixed, in order. */
  lemma {:induction false} CatalogadosTodos(catalogo: seq<string>, declarados: seq<string>)
    requires forall j :: 0 <= j < |declarados| ==> declarados[j] in catalogo
    ensures |ImpedimentosCatalogados(catalogo, declarados)| == |declarados|
    ensures forall j :: 0 <= j < |declarados| ==>
              ImpedimentosCatalogados(catalogo, declarados)[j] == PrefixoImovel + declarados[j]
  {
    if declarados != [] {
      var anterior := declarados[..|declarados| - 1];
      CatalogadosTodos(catalogo, anterior);
    }
  }

  /** Declared impediments that are not in the catalogue add nothing. */
  lemma {:induction false} CatalogadosNenhum(catalogo: seq<string>, declarados: seq<string>)
    requires forall j :: 0 <= j < |declarados| ==> declarados[j] !in catalogo
    ensures ImpedimentosCatalogados(catalogo, declarados) == []
  {
    if declarados != [] {
      CatalogadosNenhum(catalogo, declarados[..|declarados| - 1]);
    }
  }

  /** A catalogue report never coincides with the two property-level impediments. */
  lemma PrefixadoDistinto(d: string)
    ensures PrefixoImovel + d != ForaAreaUrbana && PrefixoImovel + d != MatriculaIrregular
  {
    assert (PrefixoImovel + d)[6] == ':';
    assert (PrefixoImovel + d)[0] == 'I';
    assert ForaAreaUrbana[6] == ' ';
    assert MatriculaIrregular[0] == 'M';
  }

  function ImpedimentosImovel(catalogo: seq<string>, i: Imovel): seq<string>
  {
    Se(!i.areaUrbana.GetOr(true), ForaAreaUrbana)
    + Se(!i.matriculaRegular.GetOr(true), MatriculaIrregular)
    + ImpedimentosCatalogados(catalogo, i.impedimentos.GetOr([]))
  }

  /**
   * Location and registration each add one impediment when explicitly
   * false; every catalogued declared impediment is reported, prefixed; and
   * nothing else is reported.
   */
  lemma RegrasImpedimentosImovel(catalogo: seq<string>, i: Imovel)
    ensures ForaAreaUrbana in ImpedimentosImovel(catalogo, i) <==> !i.areaUrbana.GetOr(true)
    ensures MatriculaIrregular in ImpedimentosImovel(catalogo, i) <==> !i.matriculaRegular.GetOr(true)
    ensures forall d :: d in i.impedimentos.GetOr([]) && d in catalogo ==>
              PrefixoImovel + d in ImpedimentosImovel(catalogo, i)
    ensures forall m :: m in ImpedimentosImovel(catalogo, i) && m != ForaAreaUrbana && m != MatriculaIrregular ==>
              exists d :: d in i.impedimentos.GetOr([]) && d in catalogo && m == PrefixoImovel + d
    ensures |ImpedimentosImovel(catalogo, i)| <= 2 + |i.impedimentos.GetOr([])|
  {
    var declarados := i.impedimentos.GetOr([]);
    RegrasCatalogados(catalogo, declarados);
    forall d | d in declarados && d in catalogo
      ensures PrefixoImovel + d != ForaAreaUrbana && PrefixoImovel + d != MatriculaIrregular
    {
      PrefixadoDistinto(d);
    }
  }

  function AlertasImovel(i: Imovel): seq<string>
  {
    Se(!i.infraestruturaCompleta.GetOr(true), VerificarInfraestrutura)
    + Se(i.possuiOnus.GetOr(false), PossuiOnus)
  }

  /** Missing infrastructure and a declared lien each add one alert; missing facts add none. */
  lemma RegrasAlertasImovel(i: Imovel)
    ensures VerificarInfraestrutura in AlertasImovel(i) <==> !i.infraestruturaCompleta.GetOr(true)
    ensures PossuiOnus in AlertasImovel(i) <==> i.possuiOnus.GetOr(false)
    ensures forall m :: m in AlertasImovel(i) ==> m in [VerificarInfraestrutura, PossuiOnus]
    ensures |AlertasImovel(i)| <= 2
  {
  }

  // ---------------------------------------------------------------------
  // Program (`_analisar_programa_avancado`)

  function ImpedimentosPrograma(p: Programa): seq<string>
  {
    if p.tipo == Some("FGTS") then Se(!(p.tempoFgtsAnos.GetOr(0) >= 3), FgtsTempoInsuficiente)
    else []
  }

  function AlertasPrograma(p: Programa): seq<string>
  {
    if p.tipo == Some("FGTS") then Se(!p.saldoSuficiente.GetOr(false), FgtsVerificarSaldo)
    else if p.tipo == Some("PMCMV") then Se(!p.rendaFamiliarCompativel.GetOr(true), PmcmvVerificarRenda)
    else []
  }

  /**
   * Only FGTS can block, on fewer than 3 years (a missing value counts as
   * 0); FGTS and PMCMV are exclusive, so the program adds at most one alert.
   */
  lemma RegrasPrograma(p: Programa)
    ensures FgtsTempoInsuficiente in ImpedimentosPrograma(p) <==>
              p.tipo == Some("FGTS") && p.tempoFgtsAnos.GetOr(0) < 3
    ensures forall m :: m in ImpedimentosPrograma(p) ==> m == FgtsTempoInsuficiente
    ensures |ImpedimentosPrograma(p)| <= 1
    ensures FgtsVerificarSaldo in AlertasPrograma(p) <==> p.tipo == Some("FGTS") && !p.saldoSuficiente.GetOr(false)
    ensures PmcmvVerificarRenda in AlertasPrograma(p) <==>
              p.tipo == Some("PMCMV") && !p.rendaFamiliarCompativel.GetOr(true)
    ensures forall m :: m in AlertasPrograma(p) ==> m in [FgtsVerificarSaldo, PmcmvVerificarRenda]
    ensures |AlertasPrograma(p)| <= 1
  {
  }

  // ---------------------------------------------------------------------
  // Documentation (`_analisar_documentacao_avancada`)

  function AlertasDocumentacao(d: Documentacao): seq<string>
  {
    Se(!d.tomadorCompleta.GetOr(true), DocTomadorIncompleta)
    + Se(!d.vendedorCompleta.GetOr(true), DocVendedorIncompleta)
    + Se(!d.imovelCompleta.GetOr(true), DocImovelIncompleta)
  }

  /** Each of the three documentation flags adds one alert when explicitly false. */
  lemma RegrasDocumentacao(d: Documentacao)
    ensures DocTomadorIncompleta in AlertasDocumentacao(d) <==> !d.tomadorCompleta.GetOr(true)
    ensures DocVendedorIncompleta in AlertasDocumentacao(d) <==> !d.vendedorCompleta.GetOr(true)
    ensures DocImovelIncompleta in AlertasDocumentacao(d) <==> !d.imovelCompleta.GetOr(true)
    ensures forall m :: m in AlertasDocumentacao(d) ==>
              m in [DocTomadorIncompleta, DocVendedorIncompleta, DocImovelIncompleta]
    ensures |AlertasDocumentacao(d)| <= 3
  {
  }

  // ---------------------------------------------------------------------
  // The whole operation (`analisar_conformidade_avancada`)

  /** Impediments of the sections present, in the order tomador, vendedor, imovel, programa. */
  function ImpedimentosOperacao(catalogo: seq<string>, op: Operacao): seq<string>
  {
    (if op.tomador.Some? then ImpedimentosTomador(op.tomador.value) else [])
    + (if op.vendedor.Some? then ImpedimentosVendedor(op.vendedor.value) else [])
    + (if op.imovel.Some? then ImpedimentosImovel(catalogo, op.imovel.value) else [])
    + (if op.programa.Some? then ImpedimentosPrograma(op.programa.value) else [])
  }

  /** Alerts of the sections present, in the order imovel, programa, documentacao. */
  function AlertasOperacao(op: Operacao): seq<string>
  {
    (if op.imovel.Some? then AlertasImovel(op.imovel.value) else [])
    + (if op.programa.Some? then AlertasPrograma(op.programa.value) else [])
    + (if op.documentacao.Some? then AlertasDocumentacao(op.documentacao.value) else [])
  }

  /**
   * `_calcular_score_conformidade`: 100 less 25 per impediment and 5 per
   * alert, never below 0.
   */
  function Score(impedimentos: nat, alertas: nat): (s: int)
    ensures 0 <= s <= 100 && s % 5 == 0
    ensures s == 100 <==> impedimentos == 0 && alertas == 0
    ensures s >= 70 <==> 25 * impedimentos + 5 * alertas <= 30
  {
    var bruto := 100 - 25 * impedimentos - 5 * alertas;
    if bruto < 0 then 0 else bruto
  }

  /** More impediments or more alerts never raise the score. */
  lemma ScoreNaoCresce(i: nat, a: nat, i': nat, a': nat)
    requires i <= i' && a <= a'
    ensures Score(i', a') <= Score(i, a)
  {
  }

  /** While the score is positive, each further impediment or alert strictly lowers it. */
  lemma ScoreDecresce(i: nat, a: nat)
    requires Score(i, a) > 0
    ensures Score(i + 1, a) < Score(i, a) && Score(i, a + 1) < Score(i, a)
  {
  }

  /** The result of the evaluation: the verdict is score at least 70 and no impediment. */
  function Avaliar(catalogo: seq<string>, op: Operacao): Analise
  {
    var impedimentos := ImpedimentosOperacao(catalogo, op);
    var alertas := AlertasOperacao(op);
    var score := Score(|impedimentos|, |alertas|);
    Analise(score >= 70 && |impedimentos| == 0, score, alertas, impedimentos, [])
  }

  /** A record with the evaluation's lists, score and verdict is the evaluation. */
  lemma AvaliarPorCampos(catalogo: seq<string>, op: Operacao, a: Analise)
    requires a.impedimentos == ImpedimentosOperacao(catalogo, op) && a.alertas == AlertasOperacao(op)
    requires a.recomendacoes == [] && a.score == Score(|a.impedimentos|, |a.alertas|)
    requires a.conforme == (a.score >= 70 && |a.impedimentos| == 0)
    ensures a == Avaliar(catalogo, op)
  {
  }

  /** 2 alerts from the property, 1 from the program, 3 from the documentation. */
  lemma AlertasNoMaximoSeis(op: Operacao)
    ensures |AlertasOperacao(op)| <= 6
  {
    if op.imovel.Some? { RegrasAlertasImovel(op.imovel.value); }
    if op.programa.Some? { RegrasPrograma(op.programa.value); }
    if op.documentacao.Some? { RegrasDocumentacao(op.documentacao.value); }
  }

  /**
   * Six alerts are reachable and still leave the operation compliant: the
   * score bound 70 never decides the verdict on its own.
   */
  lemma SeisAlertasAindaConforme(catalogo: seq<string>)
    ensures var op := Operacao(
              Some(Tomador(Some(true), Some(true), None, None, None)),
              None,
              Some(Imovel(None, Some(false), Some(true), None, None)),
              Some(Programa(Some("FGTS"), Some(5), None, None)),
              Some(Documentacao(Some(false), Some(false), Some(false))));
            var a := Avaliar(catalogo, op);
            |a.alertas| == 6 && a.score == 70 && a.conforme
  {
  }

  /** The verdict holds exactly when no impediment was found. */
  lemma ConformeSseSemImpedimentos(catalogo: seq<string>, op: Operacao)
    ensures Avaliar(catalogo, op).conforme <==> Avaliar(catalogo, op).impedimentos == []
    ensures Avaliar(catalogo, op).conforme ==> Avaliar(catalogo, op).score >= 70
  {
    AlertasNoMaximoSeis(op);
  }

  /** An operation with no section: score 100, compliant, nothing reported. */
  lemma OperacaoVazia(catalogo: seq<string>)
    ensures Avaliar(catalogo, Operacao(None, None, None, None, None)) == Analise(true, 100, [], [], [])
  {
  }

  /**
   * A borrower sending only `cpf_regular = false` gets two impediments,
   * CPF and nationality, because a missing `brasileiro` reads as false.
   */
  lemma SomenteCpfFalso(catalogo: seq<string>)
    ensures var a := Avaliar(catalogo, Operacao(Some(Tomador(Some(false), None, None, None, None)), None, None, None, None));
            a.impedimentos == [CpfIrregular, EstrangeiroSemRnm] && a.score == 50 && !a.conforme
  {
  }

  /** A single alert lowers the score by 5 and does not block. */
  lemma SomenteOnus(catalogo: seq<string>)
    ensures var a := Avaliar(catalogo, Operacao(None, None, Some(Imovel(None, None, Some(true), None, None)), None, None));
            a.alertas == [PossuiOnus] && a.impedimentos == [] && a.score == 95 && a.conforme
  {
  }

  /** One impediment leaves the score at 75, above 70, and still fails the verdict. */
  lemma ScoreAltoNaoBasta(catalogo: seq<string>)
    ensures var a := Avaliar(catalogo, Operacao(None, Some(Vendedor(Some("PJ"), None, None, None)), None, None, None));
            a.impedimentos == [CnpjVendedorIrregular] && a.score == 75 && !a.conforme
  {
  }

  /** Defaults of an empty borrower section: CPF and nationality fail, the rest passes. */
  lemma TomadorVazio()
    ensures ImpedimentosTomador(Tomador(None, None, None, None, None)) == [CpfIrregular, EstrangeiroSemRnm]
  {
  }

  /** A foreign borrower with a valid RNM and a regular CPF passes. */
  lemma EstrangeiroComRnm()
    ensures ImpedimentosTomador(Tomador(Some(true), Some(false), Some(true), None, None)) == []
  {
  }

  /** Defaults of a PF seller: a missing age passes, a missing CPF is an impediment. */
  lemma VendedorPfVazio()
    ensures ImpedimentosVendedor(Vendedor(Some("PF"), None, None, None)) == [CpfVendedorIrregular]
  {
  }

  /** Defaults of a PJ seller: a missing CNPJ is an impediment, the PF fields are not read. */
  lemma VendedorPjVazio(maiorIdade: Option<bool>, cpf: Option<bool>)
    ensures ImpedimentosVendedor(Vendedor(Some("PJ"), maiorIdade, cpf, None)) == [CnpjVendedorIrregular]
  {
  }

  /** A program other than FGTS and PMCMV (say SBPE, or none) adds nothing. */
  lemma ProgramaSemRegras(p: Programa)
    requires p.tipo != Some("FGTS") && p.tipo != Some("PMCMV")
    ensures ImpedimentosPrograma(p) == [] && AlertasPrograma(p) == []
  {
  }

  /** FGTS without the time and balance facts: one impediment (time defaults to 0) and one alert. */
  lemma FgtsVazio()
    ensures ImpedimentosPrograma(Programa(Some("FGTS"), None, None, None)) == [FgtsTempoInsuficiente]
    ensures AlertasPrograma(Programa(Some("FGTS"), None, None, None)) == [FgtsVerificarSaldo]
  {
  }

  /** PMCMV reports only an explicit incompatible income. */
  lemma PmcmvSomenteRendaFalsa(renda: Option<bool>)
    ensures AlertasPrograma(Programa(Some("PMCMV"), None, None, renda)) == Se(renda == Some(false), PmcmvVerificarRenda)
  {
  }
}
