/**
 * The agent object `AgenteCaixaCreditoCompleto`: it holds the knowledge
 * base, answers questions through the router and runs the compliance
 * evaluation, which threads one mutable result record through the five
 * section checks. The rows this agent appends to the SQLite history
 * tables are modelled as two sequences of records; rows the database file
 * already held from earlier runs are not represented.
 */
module Agente {
  import opened Wrappers
  import opened Texto
  import Base
  import Roteador
  import opened Conformidade

  /** A row of the `consultas` history table (timestamp left out). */
  datatype RegistroConsulta = RegistroConsulta(
    pergunta: string, resposta: string, usuario: string, categoria: Roteador.Categoria)

  /** A row of the `analises_conformidade` history table (timestamp left out). */
  datatype RegistroAnalise = RegistroAnalise(tipoOperacao: string, analise: Analise, usuario: string)

  /** `dados_operacao.get("programa", {}).get("tipo", "N/A")` */
  function TipoOperacao(op: Operacao): string
  {
    if op.programa.Some? then op.programa.value.tipo.GetOr("N/A") else "N/A"
  }

  /** The `resultado` dictionary, updated in place by every check. */
  class Resultado {
    var conforme: bool
    var scoreConformidade: int
    var alertas: seq<string>
    var impedimentos: seq<string>
    var recomendacoes: seq<string>

    /** The initial record: compliant, score 100, every list empty. */
    constructor ()
      ensures conforme && scoreConformidade == 100
      ensures alertas == [] && impedimentos == [] && recomendacoes == []
    {
      conforme := true;
      scoreConformidade := 100;
      alertas := [];
      impedimentos := [];
      recomendacoes := [];
    }

    /** The record's current contents as a value. */
    function Instantaneo(): Analise
      reads this
    {
      Analise(conforme, scoreConformidade, alertas, impedimentos, recomendacoes)
    }
  }

  class Agente {
    /** `base_conhecimento`, loaded once and only read afterwards. */
    const base: Base.BaseConhecimento
    /** The rows this agent has added to `consultas` and `analises_conformidade`. */
    var consultas: seq<RegistroConsulta>
    var analises: seq<RegistroAnalise>

    constructor ()
      ensures base == Base.Carregar()
      ensures consultas == [] && analises == []
    {
      base := Base.Carregar();
      consultas := [];
      analises := [];
    }

    /**
     * `_identificar_categoria`: the loop over the keyword table returns at
     * the first row with a keyword contained in the question.
     */
    method IdentificarCategoria(pergunta: string) returns (c: Roteador.Categoria)
      ensures c == Roteador.Classificar(pergunta)
      ensures c == Roteador.Geral <==>
                forall j :: 0 <= j < |Roteador.Tabela| ==> !Roteador.Corresponde(Roteador.Tabela[j].1, pergunta)
      ensures c != Roteador.Geral ==>
                exists i :: 0 <= i < |Roteador.Tabela| && Roteador.Tabela[i].0 == c &&
                  Roteador.Corresponde(Roteador.Tabela[i].1, pergunta) &&
                  forall j :: 0 <= j < i ==> !Roteador.Corresponde(Roteador.Tabela[j].1, pergunta)
    {
      Roteador.TabelaSemGeral();
      var tabela := Roteador.Tabela;
      var i := 0;
      while i < |tabela|
        invariant 0 <= i <= |tabela|
        invariant forall j :: 0 <= j < i ==> !Roteador.Corresponde(tabela[j].1, pergunta)
        invariant Roteador.PrimeiraCategoria(tabela[i..], pergunta) == Roteador.Classificar(pergunta)
      {
        if Roteador.Corresponde(tabela[i].1, pergunta) {
          return tabela[i].0;
        }
        assert tabela[i..][1..] == tabela[i + 1..];
        i := i + 1;
      }
      return Roteador.Geral;
    }

    /**
     * `consultar`: lower-case the question, route it, answer it and record
     * the exchange. A category without a handler raises in the source
     * before anything is recorded.
     */
    method Consultar(pergunta: string, usuario: string) returns (resposta: Roteador.Resposta)
      modifies this
      ensures resposta == Roteador.Consultar(base, Minusculas(pergunta))
      ensures resposta.Respondida? ==>
                consultas == old(consultas) +
                  [RegistroConsulta(pergunta, resposta.texto, usuario, Roteador.Classificar(Minusculas(pergunta)))]
      ensures resposta.SemHandler? ==> consultas == old(consultas)
      ensures analises == old(analises)
    {
      var perguntaLower := Minusculas(pergunta);
      var categoria := IdentificarCategoria(perguntaLower);
      var texto: string;
      match categoria {
        case Programas =>
          texto := Roteador.ConsultarProgramas(base, perguntaLower);
        case Construcao =>
          texto := Roteador.ConsultarConstrucao(base, perguntaLower);
        case Geral =>
          texto := Roteador.BuscaGeral;
        case _ =>
          return Roteador.SemHandler(categoria);
      }
      consultas := consultas + [RegistroConsulta(pergunta, texto, usuario, categoria)];
      resposta := Roteador.Respondida(texto);
    }

    /** `_analisar_tomador_avancado` */
    method AnalisarTomador(t: Tomador, r: Resultado)
      modifies r
      ensures r.impedimentos == old(r.impedimentos) + ImpedimentosTomador(t)
      ensures r.alertas == old(r.alertas) && r.recomendacoes == old(r.recomendacoes)
      ensures r.conforme == old(r.conforme) && r.scoreConformidade == old(r.scoreConformidade)
    {
      ghost var antes := r.impedimentos;
      if !t.cpfRegular.GetOr(false) {
        r.impedimentos := r.impedimentos + [CpfIrregular];
      }
      if !t.brasileiro.GetOr(false) && !t.rnmValida.GetOr(false) {
        r.impedimentos := r.impedimentos + [EstrangeiroSemRnm];
      }
      if !t.idoneidadeCadastral.GetOr(true) {
        r.impedimentos := r.impedimentos + [SemIdoneidade];
      }
      assert r.impedimentos == antes + Se(!t.cpfRegular.GetOr(false), CpfIrregular)
        + Se(!t.brasileiro.GetOr(false) && !t.rnmValida.GetOr(false), EstrangeiroSemRnm)
        + Se(!t.idoneidadeCadastral.GetOr(true), SemIdoneidade);
      if !t.residenciaBrasil.GetOr(true) {
        r.impedimentos := r.impedimentos + [SemResidencia];
      }
      Associa(antes, Se(!t.cpfRegular.GetOr(false), CpfIrregular),
        Se(!t.brasileiro.GetOr(false) && !t.rnmValida.GetOr(false), EstrangeiroSemRnm),
        Se(!t.idoneidadeCadastral.GetOr(true), SemIdoneidade), Se(!t.residenciaBrasil.GetOr(true), SemResidencia));
    }

    /** `_analisar_vendedor_avancado` */
    method AnalisarVendedor(v: Vendedor, r: Resultado)
      modifies r
      ensures r.impedimentos == old(r.impedimentos) + ImpedimentosVendedor(v)
      ensures r.alertas == old(r.alertas) && r.recomendacoes == old(r.recomendacoes)
      ensures r.conforme == old(r.conforme) && r.scoreConformidade == old(r.scoreConformidade)
    {
      if v.tipo == Some("PF") {
        if !v.maiorIdade.GetOr(true) {
          r.impedimentos := r.impedimentos + [VendedorMenor];
        }
        if !v.cpfRegular.GetOr(false) {
          r.impedimentos := r.impedimentos + [CpfVendedorIrregular];
        }
      } else if v.tipo == Some("PJ") {
        if !v.cnpjRegular.GetOr(false) {
          r.impedimentos := r.impedimentos + [CnpjVendedorIrregular];
        }
      }
    }

    /**
     * `_analisar_imovel_avancado`: four fact checks, then one pass over the
     * declared impediments against the knowledge-base catalogue.
     */
    method AnalisarImovel(i: Imovel, r: Resultado)
      modifies r
      ensures r.impedimentos == old(r.impedimentos) + ImpedimentosImovel(base.exigenciasImovel.impedimentos, i)
      ensures r.alertas == old(r.alertas) + AlertasImovel(i)
      ensures r.recomendacoes == old(r.recomendacoes)
      ensures r.conforme == old(r.conforme) && r.scoreConformidade == old(r.scoreConformidade)
    {
      ghost var impedimentosAntes := r.impedimentos;
      if !i.areaUrbana.GetOr(true) {
        r.impedimentos := r.impedimentos + [ForaAreaUrbana];
      }
      if !i.infraestruturaCompleta.GetOr(true) {
        r.alertas := r.alertas + [VerificarInfraestrutura];
      }
      if i.possuiOnus.GetOr(false) {
        r.alertas := r.alertas + [PossuiOnus];
      }
      if !i.matriculaRegular.GetOr(true) {
        r.impedimentos := r.impedimentos + [MatriculaIrregular];
      }
      assert r.impedimentos == impedimentosAntes + Se(!i.areaUrbana.GetOr(true), ForaAreaUrbana)
        + Se(!i.matriculaRegular.GetOr(true), MatriculaIrregular);
      RegistrarImpedimentosCatalogados(i.impedimentos.GetOr([]), r);
      Associa3(impedimentosAntes, Se(!i.areaUrbana.GetOr(true), ForaAreaUrbana),
        Se(!i.matriculaRegular.GetOr(true), MatriculaIrregular),
        ImpedimentosCatalogados(base.exigenciasImovel.impedimentos, i.impedimentos.GetOr([])));
    }

    /**
     * The loop of `_analisar_imovel_avancado` over the declared
     * impediments: each one in the catalogue is appended, prefixed.
     */
    method RegistrarImpedimentosCatalogados(declarados: seq<string>, r: Resultado)
      modifies r
      ensures r.impedimentos == old(r.impedimentos) + ImpedimentosCatalogados(base.exigenciasImovel.impedimentos, declarados)
      ensures r.alertas == old(r.alertas) && r.recomendacoes == old(r.recomendacoes)
      ensures r.conforme == old(r.conforme) && r.scoreConformidade == old(r.scoreConformidade)
    {
      var catalogo := base.exigenciasImovel.impedimentos;
      for k := 0 to |declarados|
        invariant r.impedimentos == old(r.impedimentos) + ImpedimentosCatalogados(catalogo, declarados[..k])
        invariant r.alertas == old(r.alertas) && r.recomendacoes == old(r.recomendacoes)
        invariant r.conforme == old(r.conforme) && r.scoreConformidade == old(r.scoreConformidade)
      {
        assert declarados[..k + 1][..k] == declarados[..k];
        if declarados[k] in catalogo {
          r.impedimentos := r.impedimentos + [PrefixoImovel + declarados[k]];
        }
      }
      assert declarados[..|declarados|] == declarados;
    }

    /** `_analisar_programa_avancado` */
    method AnalisarPrograma(p: Programa, r: Resultado)
      modifies r
      ensures r.impedimentos == old(r.impedimentos) + ImpedimentosPrograma(p)
      ensures r.alertas == old(r.alertas) + AlertasPrograma(p)
      ensures r.recomendacoes == old(r.recomendacoes)
      ensures r.conforme == old(r.conforme) && r.scoreConformidade == old(r.scoreConformidade)
    {
      if p.tipo == Some("FGTS") {
        if !(p.tempoFgtsAnos.GetOr(0) >= 3) {
          r.impedimentos := r.impedimentos + [FgtsTempoInsuficiente];
        }
        if !p.saldoSuficiente.GetOr(false) {
          r.alertas := r.alertas + [FgtsVerificarSaldo];
        }
      } else if p.tipo == Some("PMCMV") {
        if !p.rendaFamiliarCompativel.GetOr(true) {
          r.alertas := r.alertas + [PmcmvVerificarRenda];
        }
      }
    }

    /** `_analisar_documentacao_avancada` */
    method AnalisarDocumentacao(d: Documentacao, r: Resultado)
      modifies r
      ensures r.alertas == old(r.alertas) + AlertasDocumentacao(d)
      ensures r.impedimentos == old(r.impedimentos) && r.recomendacoes == old(r.recomendacoes)
      ensures r.conforme == old(r.conforme) && r.scoreConformidade == old(r.scoreConformidade)
    {
      if !d.tomadorCompleta.GetOr(true) {
        r.alertas := r.alertas + [DocTomadorIncompleta];
      }
      if !d.vendedorCompleta.GetOr(true) {
        r.alertas := r.alertas + [DocVendedorIncompleta];
      }
      if !d.imovelCompleta.GetOr(true) {
        r.alertas := r.alertas + [DocImovelIncompleta];
      }
    }

    /** `_calcular_score_conformidade`: penalties subtracted from 100, floored at 0. */
    method CalcularScoreConformidade(r: Resultado) returns (s: int)
      ensures s == Score(|r.impedimentos|, |r.alertas|)
      ensures 0 <= s <= 100
    {
      var scoreBase := 100;
      scoreBase := scoreBase - |r.impedimentos| * 25;
      scoreBase := scoreBase - |r.alertas| * 5;
      s := if scoreBase < 0 then 0 else scoreBase;
    }

    /**
     * The section dispatch of `analisar_conformidade_avancada`: the check
     * of each section present runs on the shared record, in the order
     * tomador, vendedor, imovel, programa, documentacao.
     */
    method AnalisarSecoes(op: Operacao, r: Resultado)
      modifies r
      ensures r.impedimentos == old(r.impedimentos) + ImpedimentosOperacao(base.exigenciasImovel.impedimentos, op)
      ensures r.alertas == old(r.alertas) + AlertasOperacao(op)
      ensures r.recomendacoes == old(r.recomendacoes)
      ensures r.conforme == old(r.conforme) && r.scoreConformidade == old(r.scoreConformidade)
    {
      ghost var impedimentosAntes := r.impedimentos;
      ghost var alertasAntes := r.alertas;
      ghost var impT := if op.tomador.Some? then ImpedimentosTomador(op.tomador.value) else [];
      ghost var impV := if op.vendedor.Some? then ImpedimentosVendedor(op.vendedor.value) else [];
      ghost var impI := if op.imovel.Some? then ImpedimentosImovel(base.exigenciasImovel.impedimentos, op.imovel.value) else [];
      ghost var impP := if op.programa.Some? then ImpedimentosPrograma(op.programa.value) else [];
      ghost var alI := if op.imovel.Some? then AlertasImovel(op.imovel.value) else [];
      ghost var alP := if op.programa.Some? then AlertasPrograma(op.programa.value) else [];
      ghost var alD := if op.documentacao.Some? then AlertasDocumentacao(op.documentacao.value) else [];
      if op.tomador.Some? {
        AnalisarTomador(op.tomador.value, r);
      }
      assert r.impedimentos == impedimentosAntes + impT && r.alertas == alertasAntes;
      if op.vendedor.Some? {
        AnalisarVendedor(op.vendedor.value, r);
      }
      assert r.impedimentos == impedimentosAntes + impT + impV && r.alertas == alertasAntes;
      if op.imovel.Some? {
        AnalisarImovel(op.imovel.value, r);
      }
      assert r.impedimentos == impedimentosAntes + impT + impV + impI && r.alertas == alertasAntes + alI;
      if op.programa.Some? {
        AnalisarPrograma(op.programa.value, r);
      }
      assert r.impedimentos == impedimentosAntes + impT + impV + impI + impP;
      assert r.alertas == alertasAntes + alI + alP;
      if op.documentacao.Some? {
        AnalisarDocumentacao(op.documentacao.value, r);
      }
      Associa(impedimentosAntes, impT, impV, impI, impP);
      Associa3(alertasAntes, alI, alP, alD);
    }

    /**
     * `analisar_conformidade_avancada`: a fresh result record goes through
     * the checks of the sections present; then the score and the verdict
     * are set and the analysis is recorded.
     */
    method AnalisarConformidadeAvancada(op: Operacao, usuario: string) returns (r: Resultado)
      modifies this
      ensures fresh(r)
      ensures r.Instantaneo() == Avaliar(base.exigenciasImovel.impedimentos, op)
      ensures analises == old(analises) + [RegistroAnalise(TipoOperacao(op), r.Instantaneo(), usuario)]
      ensures consultas == old(consultas)
    {
      r := new Resultado();
      AnalisarSecoes(op, r);
      var score := CalcularScoreConformidade(r);
      r.scoreConformidade := score;
      r.conforme := r.scoreConformidade >= 70 && |r.impedimentos| == 0;
      AvaliarPorCampos(base.exigenciasImovel.impedimentos, op, r.Instantaneo());
      analises := analises + [RegistroAnalise(TipoOperacao(op), r.Instantaneo(), usuario)];
    }
  }
}
