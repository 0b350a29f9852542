/**
 * The question router of the agent (`consultar`): a first-match keyword
 * classifier over a fixed, ordered table of categories, and the handlers
 * that render an answer from the knowledge base. Every function here takes
 * the question already lower-cased (`pergunta.lower()` is applied by the
 * caller, see `Agente.Consultar`).
 */
module Roteador {
  import opened Texto
  import Base

  datatype Categoria =
    | Programas | Tomador | Vendedor | Imovel | Construcao | Financiamento
    | Documentacao | Tarifas | Compliance | Procedimentos | Canais | Geral

  /** The keyword table of `_identificar_categoria`, in declaration order. */
  const Tabela: seq<(Categoria, seq<string>)> := [
    (Programas, ["programa", "pmcmv", "fgts", "sbpe", "recursos livres", "minha casa"]),
    (Tomador, ["tomador", "cliente", "proponente", "mutuário", "renda"]),
    (Vendedor, ["vendedor", "venda", "pessoa física", "pessoa jurídica"]),
    (Imovel, ["imóvel", "imovel", "propriedade", "garantia", "terreno"]),
    (Construcao, ["construção", "construcao", "obra", "reforma", "ampliação"]),
    (Financiamento, ["financiamento", "taxa", "juros", "amortização", "prazo"]),
    (Documentacao, ["documento", "documentação", "certidão", "comprovação"]),
    (Tarifas, ["tarifa", "custo", "taxa", "valor", "preço"]),
    (Compliance, ["compliance", "conformidade", "pld", "legitimidade"]),
    (Procedimentos, ["procedimento", "processo", "fluxo", "operacional"]),
    (Canais, ["app", "siopi", "agência", "atendimento", "canal"])
  ]

  /** `any(palavra in pergunta for palavra in palavras)` */
  predicate Corresponde(palavras: seq<string>, pergunta: string) {
    exists p :: p in palavras && Contem(pergunta, p)
  }

  /** The first category of `tabela` with a matching keyword, or `Geral`. */
  function PrimeiraCategoria(tabela: seq<(Categoria, seq<string>)>, pergunta: string): Categoria
  {
    if tabela == [] then Geral
    else if Corresponde(tabela[0].1, pergunta) then tabela[0].0
    else PrimeiraCategoria(tabela[1..], pergunta)
  }

  /** `_identificar_categoria` */
  function Classificar(pergunta: string): Categoria
  {
    PrimeiraCategoria(Tabela, pergunta)
  }

  /**
   * First-match semantics: the result is the category of the first row
   * that matches, and `Geral` when no row matches.
   */
  lemma {:induction false} PrimeiraCategoriaCorreta(tabela: seq<(Categoria, seq<string>)>, pergunta: string)
    ensures (forall i :: 0 <= i < |tabela| ==> !Corresponde(tabela[i].1, pergunta)) ==>
              PrimeiraCategoria(tabela, pergunta) == Geral
    ensures forall i :: (0 <= i < |tabela| && Corresponde(tabela[i].1, pergunta) &&
                         (forall j :: 0 <= j < i ==> !Corresponde(tabela[j].1, pergunta))) ==>
              PrimeiraCategoria(tabela, pergunta) == tabela[i].0
  {
    if tabela != [] {
      PrimeiraCategoriaCorreta(tabela[1..], pergunta);
      forall i | 0 < i < |tabela| && Corresponde(tabela[i].1, pergunta) &&
          (forall j :: 0 <= j < i ==> !Corresponde(tabela[j].1, pergunta))
        ensures PrimeiraCategoria(tabela, pergunta) == tabela[i].0
      {
        assert tabela[1..][i - 1] == tabela[i];
        assert forall j :: 0 <= j < i - 1 ==> tabela[1..][j] == tabela[j + 1];
      }
      if forall i :: 0 <= i < |tabela| ==> !Corresponde(tabela[i].1, pergunta) {
        assert forall i :: 0 <= i < |tabela| - 1 ==> tabela[1..][i] == tabela[i + 1];
      }
    }
  }

  /** Once row `k` matches, the result is the category of row `k` or of an earlier row. */
  lemma {:induction false} PrimeiraCategoriaNoMaximo(tabela: seq<(Categoria, seq<string>)>, pergunta: string, k: nat)
    requires k < |tabela| && Corresponde(tabela[k].1, pergunta)
    ensures exists i :: 0 <= i <= k && PrimeiraCategoria(tabela, pergunta) == tabela[i].0
  {
    if Corresponde(tabela[0].1, pergunta) {
      assert PrimeiraCategoria(tabela, pergunta) == tabela[0].0;
    } else {
      assert k > 0;
      assert tabela[1..][k - 1] == tabela[k];
      PrimeiraCategoriaNoMaximo(tabela[1..], pergunta, k - 1);
      var i :| 0 <= i <= k - 1 && PrimeiraCategoria(tabela[1..], pergunta) == tabela[1..][i].0;
      assert PrimeiraCategoria(tabela, pergunta) == tabela[i + 1].0;
    }
  }

  /** When `Geral` is not a row of the table, it is returned exactly when no row matches. */
  lemma {:induction false} PrimeiraCategoriaGeralSse(tabela: seq<(Categoria, seq<string>)>, pergunta: string)
    requires forall i :: 0 <= i < |tabela| ==> tabela[i].0 != Geral
    ensures PrimeiraCategoria(tabela, pergunta) == Geral <==>
              forall i :: 0 <= i < |tabela| ==> !Corresponde(tabela[i].1, pergunta)
  {
    PrimeiraCategoriaCorreta(tabela, pergunta);
    if exists k :: 0 <= k < |tabela| && Corresponde(tabela[k].1, pergunta) {
      var k :| 0 <= k < |tabela| && Corresponde(tabela[k].1, pergunta);
      PrimeiraCategoriaNoMaximo(tabela, pergunta, k);
    }
  }

  /**
   * The classifier returns the category of the first row, in declaration
   * order, with a keyword contained in the question; it returns `Geral`
   * exactly when no keyword of any row is contained in the question.
   */
  lemma ClassificarPrimeiraCorrespondencia(pergunta: string)
    ensures Classificar(pergunta) == Geral <==>
              forall i :: 0 <= i < |Tabela| ==> !Corresponde(Tabela[i].1, pergunta)
    ensures forall i :: (0 <= i < |Tabela| && Corresponde(Tabela[i].1, pergunta) &&
                         (forall j :: 0 <= j < i ==> !Corresponde(Tabela[j].1, pergunta))) ==>
              Classificar(pergunta) == Tabela[i].0
  {
    TabelaSemGeral();
    PrimeiraCategoriaCorreta(Tabela, pergunta);
    PrimeiraCategoriaGeralSse(Tabela, pergunta);
  }

  /** `Geral` is the fallback, not a row of the table. */
  lemma TabelaSemGeral()
    ensures forall i :: 0 <= i < |Tabela| ==> Tabela[i].0 != Geral
  {
  }

  /** A keyword listed in row `k` is enough for row `k` to match. */
  lemma PalavraCorresponde(k: nat, palavra: string, pergunta: string)
    requires k < |Tabela| && palavra in Tabela[k].1 && Contem(pergunta, palavra)
    ensures Corresponde(Tabela[k].1, pergunta)
  {
  }

  /**
   * "taxa" is a keyword of both `financiamento` and `tarifas`; since
   * `financiamento` comes first, a question containing "taxa" is never
   * routed to `tarifas`.
   */
  lemma TaxaNuncaTarifas(pergunta: string)
    requires Contem(pergunta, "taxa")
    ensures Classificar(pergunta) != Tarifas
  {
    PalavraCorresponde(5, "taxa", pergunta);
    PrimeiraCategoriaNoMaximo(Tabela, pergunta, 5);
  }

  /** A question matched by "taxa" and by no keyword of an earlier row goes to `financiamento`. */
  lemma TaxaVaiParaFinanciamento(pergunta: string)
    requires Contem(pergunta, "taxa")
    requires forall i :: 0 <= i < 5 ==> !Corresponde(Tabela[i].1, pergunta)
    ensures Classificar(pergunta) == Financiamento
  {
    PalavraCorresponde(5, "taxa", pergunta);
    PrimeiraCategoriaCorreta(Tabela, pergunta);
  }

  /**
   * Every question containing "terreno próprio" also contains the property
   * keyword "terreno", so it is routed to `imovel` or to an earlier category
   * and never reaches the construction handler's "terreno próprio" branch.
   */
  lemma TerrenoProprioNuncaChegaAConstrucao(pergunta: string)
    requires Contem(pergunta, "terreno próprio")
    ensures Classificar(pergunta) != Construcao
  {
    ContemPrefixo(pergunta, "terreno próprio", 7);
    assert "terreno próprio"[..7] == "terreno";
    PalavraCorresponde(3, "terreno", pergunta);
    PrimeiraCategoriaNoMaximo(Tabela, pergunta, 3);
  }

  /** A question with any keyword of the programs row is routed to `programas`, the first row. */
  lemma ClassificaProgramas(pergunta: string)
    requires Corresponde(Tabela[0].1, pergunta)
    ensures Classificar(pergunta) == Programas
  {
  }

  /** A question matched by the construction row and by no earlier row is routed to `construcao`. */
  lemma ClassificaConstrucao(pergunta: string)
    requires Corresponde(Tabela[4].1, pergunta)
    requires forall i :: 0 <= i < 4 ==> !Corresponde(Tabela[i].1, pergunta)
    ensures Classificar(pergunta) == Construcao
  {
    PrimeiraCategoriaCorreta(Tabela, pergunta);
  }

  // ---------------------------------------------------------------------
  // Programs handler (`_consultar_programas_avancado`)

  datatype TopicoPrograma = TopicoPmcmv | TopicoFgts | TopicoSbpe | TopicoRecursosLivres | VisaoProgramas

  /** The keywords of each branch of the programs handler. */
  predicate PedePmcmv(pergunta: string) { Contem(pergunta, "pmcmv") || Contem(pergunta, "minha casa") }
  predicate PedeFgts(pergunta: string) { Contem(pergunta, "fgts") || Contem(pergunta, "pró-cotista") }
  predicate PedeSbpe(pergunta: string) { Contem(pergunta, "sbpe") }
  predicate PedeRecursosLivres(pergunta: string) { Contem(pergunta, "recursos livres") }

  /**
   * The sub-dispatch of the programs handler, first match wins: each topic
   * is chosen exactly when its keywords occur and no earlier branch's do.
   */
  function TopicoDePrograma(pergunta: string): (t: TopicoPrograma)
    ensures t == TopicoPmcmv <==> PedePmcmv(pergunta)
    ensures t == TopicoFgts <==> !PedePmcmv(pergunta) && PedeFgts(pergunta)
    ensures t == TopicoSbpe <==> !PedePmcmv(pergunta) && !PedeFgts(pergunta) && PedeSbpe(pergunta)
    ensures t == TopicoRecursosLivres <==>
              !PedePmcmv(pergunta) && !PedeFgts(pergunta) && !PedeSbpe(pergunta) && PedeRecursosLivres(pergunta)
    ensures t == VisaoProgramas <==>
              !PedePmcmv(pergunta) && !PedeFgts(pergunta) && !PedeSbpe(pergunta) && !PedeRecursosLivres(pergunta)
  {
    if PedePmcmv(pergunta) then TopicoPmcmv
    else if PedeFgts(pergunta) then TopicoFgts
    else if PedeSbpe(pergunta) then TopicoSbpe
    else if PedeRecursosLivres(pergunta) then TopicoRecursosLivres
    else VisaoProgramas
  }

  function Itens(itens: seq<string>): string { Junta(itens, "• ", "\n") }

  function PartesPmcmv(p: Base.ProgramaPmcmv): seq<string>
  {
    [
      "**", p.nomeCompleto, "**\n\n**Operações Disponíveis:**\n", Itens(p.operacoes),
      "\n\n**Enquadramento:** ", p.enquadramento,
      "\n\n**Recursos Utilizados:** ", Junta(p.recursos, "", ", "),
      "\n\n**Referência Normativa:** ", p.referenciaNormativa,
      "\n\n**Observações Importantes:**\n"
      + "• Determinado pelo valor do imóvel, " + "recorte populacional/territorial e " + "renda familiar\n"
      + "• Modalidades específicas para cada " + "faixa de renda\n"
      + "• Subsídios e descontos disponíveis " + "conforme enquadramento\n"]
  }

  function RespostaPmcmv(p: Base.ProgramaPmcmv): string { Concatena(PartesPmcmv(p)) }

  function PartesFgts(p: Base.ProgramaFgts): seq<string>
  {
    [
      "**", p.nomeCompleto, "**\n\n**Operações Disponíveis:**\n", Itens(p.operacoes),
      "\n\n**Requisitos Obrigatórios:**\n", Itens(p.requisitos),
      "\n\n**Benefício Especial:** ", p.redutorTaxa,
      "\n\n**Documentação Específica:**\n"
      + "• Comprovação de residência ou trabalho\n"
      + "• Extrato da conta vinculada FGTS\n"
      + "• Comprovação de tempo de trabalho sob " + "regime FGTS\n"]
  }

  function RespostaFgts(p: Base.ProgramaFgts): string { Concatena(PartesFgts(p)) }

  function PartesSbpe(p: Base.ProgramaSbpe): seq<string>
  {
    [
      "**", p.nomeCompleto, "**\n\n**Operações Disponíveis:**\n", Itens(p.operacoes),
      "\n\n**Características:** ", p.caracteristicas,
      "\n\n**Referência Normativa:** ", p.referenciaNormativa,
      "\n\n**Novidade:** ", p.observacao,
      "\n\n**Flexibilidade:** Aceita imóveis " + "residenciais e comerciais/mistos\n"]
  }

  function RespostaSbpe(p: Base.ProgramaSbpe): string { Concatena(PartesSbpe(p)) }

  function PartesRecursosLivres(p: Base.ProgramaRecursosLivres): seq<string>
  {
    [
      "**", p.nomeCompleto, "**\n\n**Operações Disponíveis:**\n", Itens(p.operacoes),
      "\n\n**Critérios de Enquadramento:**\n", Itens(p.enquadramento),
      "\n\n**Público-Alvo:** Clientes com " + "imóveis de alto valor ou relacionamento " + "existente\n"]
  }

  function RespostaRecursosLivres(p: Base.ProgramaRecursosLivres): string { Concatena(PartesRecursosLivres(p)) }

  /** The fixed overview of the four programs. */
  const VisaoGeralProgramas: seq<string> := [
    "**Programas Habitacionais CAIXA - Visão " + "Completa**\n\n**1. ", "PMCMV",
    "** - Programa Minha Casa, Minha " + "Vida\n   • Foco: Habitação popular e " + "classe média\n"
    + "   • Recursos: FGTS, SBPE e Fundo " + "Social\n\n**2. ", "FGTS",
    "** - Carta de Crédito " + "FGTS/Pró-cotista\n   • Foco: " + "Trabalhadores com FGTS\n"
    + "   • Benefício: Redutor de 0,5% na " + "taxa\n\n**3. ", "SBPE",
    "** - Carta de Crédito SBPE\n   • Foco: " + "Mercado em geral\n"
    + "   • Flexibilidade: Sem restrições " + "específicas\n\n**4. ", "Recursos Livres",
    "** - Para alto valor\n   • Foco: " + "Imóveis acima de R$ 1,5 milhão\n\n"
    + "Para informações específicas, pergunte " + "sobre o programa desejado.\n"
  ]

  /** `_consultar_programas_avancado` */
  function ConsultarProgramas(base: Base.BaseConhecimento, pergunta: string): (r: string)
    ensures PedePmcmv(pergunta) ==> r == RespostaPmcmv(base.programas.pmcmv)
    ensures !PedePmcmv(pergunta) && PedeFgts(pergunta) ==> r == RespostaFgts(base.programas.fgts)
    ensures !PedePmcmv(pergunta) && !PedeFgts(pergunta) && PedeSbpe(pergunta) ==>
              r == RespostaSbpe(base.programas.sbpe)
    ensures !PedePmcmv(pergunta) && !PedeFgts(pergunta) && !PedeSbpe(pergunta) && PedeRecursosLivres(pergunta) ==>
              r == RespostaRecursosLivres(base.programas.recursosLivres)
    ensures !PedePmcmv(pergunta) && !PedeFgts(pergunta) && !PedeSbpe(pergunta) && !PedeRecursosLivres(pergunta) ==>
              r == Concatena(VisaoGeralProgramas)
  {
    match TopicoDePrograma(pergunta)
    case TopicoPmcmv => RespostaPmcmv(base.programas.pmcmv)
    case TopicoFgts => RespostaFgts(base.programas.fgts)
    case TopicoSbpe => RespostaSbpe(base.programas.sbpe)
    case TopicoRecursosLivres => RespostaRecursosLivres(base.programas.recursosLivres)
    case VisaoProgramas => Concatena(VisaoGeralProgramas)
  }

  /** Every operation in `operacoes` appears in the rendered list. */
  lemma ItensContidos(texto: string, partes: seq<string>, k: nat, itens: seq<string>)
    requires k < |partes| && partes[k] == Itens(itens) && texto == Concatena(partes)
    ensures forall j :: 0 <= j < |itens| ==> Contem(texto, itens[j])
  {
    ParteContida(partes, k);
    forall j | 0 <= j < |itens| ensures Contem(texto, itens[j]) {
      ItemContido(itens, "• ", "\n", j);
      ContemTransitivo(texto, Itens(itens), itens[j]);
    }
  }

  /**
   * The FGTS answer shows the entry's name, every operation, every
   * requirement and the rate-reduction text of the knowledge base.
   */
  lemma RespostaFgtsMostraEntrada(p: Base.ProgramaFgts)
    ensures Contem(RespostaFgts(p), p.nomeCompleto) && Contem(RespostaFgts(p), p.redutorTaxa)
    ensures forall j :: 0 <= j < |p.operacoes| ==> Contem(RespostaFgts(p), p.operacoes[j])
    ensures forall j :: 0 <= j < |p.requisitos| ==> Contem(RespostaFgts(p), p.requisitos[j])
  {
    var partes := PartesFgts(p);
    ParteContida(partes, 1);
    ParteContida(partes, 7);
    ItensContidos(RespostaFgts(p), partes, 3, p.operacoes);
    ItensContidos(RespostaFgts(p), partes, 5, p.requisitos);
  }

  /**
   * The PMCMV answer shows the entry's name, every operation, its
   * eligibility text, every funding source and its normative reference.
   */
  lemma RespostaPmcmvMostraEntrada(p: Base.ProgramaPmcmv)
    ensures Contem(RespostaPmcmv(p), p.nomeCompleto) && Contem(RespostaPmcmv(p), p.enquadramento)
    ensures Contem(RespostaPmcmv(p), p.referenciaNormativa)
    ensures forall j :: 0 <= j < |p.operacoes| ==> Contem(RespostaPmcmv(p), p.operacoes[j])
    ensures forall j :: 0 <= j < |p.recursos| ==> Contem(RespostaPmcmv(p), p.recursos[j])
  {
    var partes := PartesPmcmv(p);
    ParteContida(partes, 1);
    ParteContida(partes, 5);
    ParteContida(partes, 7);
    ParteContida(partes, 9);
    ItensContidos(RespostaPmcmv(p), partes, 3, p.operacoes);
    forall j | 0 <= j < |p.recursos| ensures Contem(RespostaPmcmv(p), p.recursos[j]) {
      ItemContido(p.recursos, "", ", ", j);
      ContemTransitivo(RespostaPmcmv(p), Junta(p.recursos, "", ", "), p.recursos[j]);
    }
  }

  /** The SBPE answer shows the entry's name, every operation and its three text fields. */
  lemma RespostaSbpeMostraEntrada(p: Base.ProgramaSbpe)
    ensures Contem(RespostaSbpe(p), p.nomeCompleto) && Contem(RespostaSbpe(p), p.caracteristicas)
    ensures Contem(RespostaSbpe(p), p.referenciaNormativa) && Contem(RespostaSbpe(p), p.observacao)
    ensures forall j :: 0 <= j < |p.operacoes| ==> Contem(RespostaSbpe(p), p.operacoes[j])
  {
    var partes := PartesSbpe(p);
    ParteContida(partes, 1);
    ParteContida(partes, 5);
    ParteContida(partes, 7);
    ParteContida(partes, 9);
    ItensContidos(RespostaSbpe(p), partes, 3, p.operacoes);
  }

  /** The Recursos Livres answer shows the entry's name, every operation and every eligibility criterion. */
  lemma RespostaRecursosLivresMostraEntrada(p: Base.ProgramaRecursosLivres)
    ensures Contem(RespostaRecursosLivres(p), p.nomeCompleto)
    ensures forall j :: 0 <= j < |p.operacoes| ==> Contem(RespostaRecursosLivres(p), p.operacoes[j])
    ensures forall j :: 0 <= j < |p.enquadramento| ==> Contem(RespostaRecursosLivres(p), p.enquadramento[j])
  {
    var partes := PartesRecursosLivres(p);
    ParteContida(partes, 1);
    ItensContidos(RespostaRecursosLivres(p), partes, 3, p.operacoes);
    ItensContidos(RespostaRecursosLivres(p), partes, 5, p.enquadramento);
  }

  /** The programs overview names PMCMV, FGTS, SBPE and Recursos Livres. */
  lemma VisaoProgramasNomeiaOsQuatro()
    ensures Contem(Concatena(VisaoGeralProgramas), "PMCMV") && Contem(Concatena(VisaoGeralProgramas), "FGTS")
    ensures Contem(Concatena(VisaoGeralProgramas), "SBPE") && Contem(Concatena(VisaoGeralProgramas), "Recursos Livres")
  {
    ParteContida(VisaoGeralProgramas, 1);
    ParteContida(VisaoGeralProgramas, 3);
    ParteContida(VisaoGeralProgramas, 5);
    ParteContida(VisaoGeralProgramas, 7);
  }

  // ---------------------------------------------------------------------
  // Construction handler (`_consultar_modalidades_construcao`)

  datatype TopicoConstrucao = TopicoIndividual | TopicoReforma | VisaoConstrucao

  /** The keywords of each branch of the construction handler. */
  predicate PedeIndividual(pergunta: string) { Contem(pergunta, "individual") || Contem(pergunta, "terreno próprio") }
  predicate PedeReforma(pergunta: string) { Contem(pergunta, "reforma") || Contem(pergunta, "ampliação") }

  /**
   * The sub-dispatch of the construction handler, first match wins: each
   * topic is chosen exactly when its keywords occur and no earlier branch's do.
   */
  function TopicoDeConstrucao(pergunta: string): (t: TopicoConstrucao)
    ensures t == TopicoIndividual <==> PedeIndividual(pergunta)
    ensures t == TopicoReforma <==> !PedeIndividual(pergunta) && PedeReforma(pergunta)
    ensures t == VisaoConstrucao <==> !PedeIndividual(pergunta) && !PedeReforma(pergunta)
  {
    if PedeIndividual(pergunta) then TopicoIndividual
    else if PedeReforma(pergunta) then TopicoReforma
    else VisaoConstrucao
  }

  function PartesIndividual(m: Base.ConstrucaoIndividual): seq<string>
  {
    [
      "**Construção Individual**\n\n" + "**Percentual Máximo de Execução:** ", m.percentualExecucaoMaximo,
      "\n\n**Prazo de Construção:** ", m.prazoConstrucao,
      "\n\n**Acompanhamento:** ", m.acompanhamento,
      "\n\n**Documentos Necessários:**\n", Itens(m.documentosNecessarios),
      "\n\n**Observações Importantes:**\n"
      + "• Destinada exclusivamente à Pessoa " + "Física\n"
      + "• Vedada concessão a empreendedor " + "Pessoa Jurídica\n"
      + "• Não permitido desvio da finalidade do " + "projeto\n"
      + "• RT da obra pode ser proponente " + "(vistoria presencial obrigatória)\n"]
  }

  function RespostaIndividual(m: Base.ConstrucaoIndividual): string { Concatena(PartesIndividual(m)) }

  function PartesReforma(m: Base.ReformaAmpliacao): seq<string>
  {
    [
      "**Reforma e Ampliação**\n\n**Tipos " + "Disponíveis:**\n", Itens(m.tipos),
      "\n\n**Exigências:**\n", Itens(m.exigencias),
      "\n\n**Modalidades Específicas:**\n"
      + "• **Reforma com Ampliação:** Aumento da " + "área construída\n"
      + "• **Reforma sem Ampliação:** Melhorias " + "sem aumento de área\n"
      + "• **Reforma PCD:** Adaptações para " + "pessoas com deficiência\n\n"
      + "**Observação:** Imóvel deve estar " + "registrado em nome de todos os " + "proponentes\n"]
  }

  function RespostaReforma(m: Base.ReformaAmpliacao): string { Concatena(PartesReforma(m)) }

  /** The fixed overview of the construction modalities. */
  const VisaoGeralConstrucao: string :=
    "**Modalidades de Construção CAIXA**\n\n"
    + "**1. Construção Individual**\n   • " + "Construção em Terreno Próprio\n   • Até " + "70% de execução\n"
    + "   • Acompanhamento obrigatório\n\n"
    + "**2. Aquisição de Terreno e " + "Construção**\n   • Compra do terreno + " + "construção\n"
    + "   • Projeto aprovado necessário\n\n"
    + "**3. Reforma e Ampliação**\n   • " + "Reforma com ampliação\n   • Reforma sem " + "ampliação\n   • Reforma PCD\n\n"
    + "**4. Conclusão de Obra**\n   • " + "Finalização de construção iniciada\n   " + "• Percentual específico de execução\n\n"
    + "Para detalhes específicos, pergunte " + "sobre a modalidade desejada.\n"

  /** `_consultar_modalidades_construcao` */
  function ConsultarConstrucao(base: Base.BaseConhecimento, pergunta: string): (r: string)
    ensures PedeIndividual(pergunta) ==> r == RespostaIndividual(base.modalidadesConstrucao.construcaoIndividual)
    ensures !PedeIndividual(pergunta) && PedeReforma(pergunta) ==>
              r == RespostaReforma(base.modalidadesConstrucao.reformaAmpliacao)
    ensures !PedeIndividual(pergunta) && !PedeReforma(pergunta) ==> r == VisaoGeralConstrucao
  {
    match TopicoDeConstrucao(pergunta)
    case TopicoIndividual => RespostaIndividual(base.modalidadesConstrucao.construcaoIndividual)
    case TopicoReforma => RespostaReforma(base.modalidadesConstrucao.reformaAmpliacao)
    case VisaoConstrucao => VisaoGeralConstrucao
  }

  /** The individual-construction answer shows its limits, follow-up and every required document. */
  lemma RespostaIndividualMostraEntrada(m: Base.ConstrucaoIndividual)
    ensures Contem(RespostaIndividual(m), m.percentualExecucaoMaximo)
    ensures Contem(RespostaIndividual(m), m.prazoConstrucao) && Contem(RespostaIndividual(m), m.acompanhamento)
    ensures forall j :: 0 <= j < |m.documentosNecessarios| ==>
              Contem(RespostaIndividual(m), m.documentosNecessarios[j])
  {
    var partes := PartesIndividual(m);
    ParteContida(partes, 1);
    ParteContida(partes, 3);
    ParteContida(partes, 5);
    ItensContidos(RespostaIndividual(m), partes, 7, m.documentosNecessarios);
  }

  /** The renovation answer shows every renovation type and every requirement. */
  lemma RespostaReformaMostraEntrada(m: Base.ReformaAmpliacao)
    ensures forall j :: 0 <= j < |m.tipos| ==> Contem(RespostaReforma(m), m.tipos[j])
    ensures forall j :: 0 <= j < |m.exigencias| ==> Contem(RespostaReforma(m), m.exigencias[j])
  {
    var partes := PartesReforma(m);
    ItensContidos(RespostaReforma(m), partes, 1, m.tipos);
    ItensContidos(RespostaReforma(m), partes, 3, m.exigencias);
  }

  // ---------------------------------------------------------------------
  // General fallback (`_busca_geral`) and the dispatch of `consultar`

  /** The fixed help text returned when no category matches; the question is ignored. */
  const BuscaGeral: string :=
    "**Agente Colaborativo CAIXA**\n\nNão " + "encontrei informações específicas para " + "sua consulta.\n\n"
    + "**Tópicos disponíveis:**\n"
    + "• Programas habitacionais (PMCMV, FGTS, " + "SBPE, Recursos Livres)\n"
    + "• Exigências para tomadores\n• " + "Exigências para vendedores\n• " + "Exigências para imóveis\n"
    + "• Modalidades de construção\n• " + "Parâmetros de financiamento\n• " + "Documentação necessária\n"
    + "• Tarifas e custos\n• Compliance e " + "conformidade\n• Procedimentos " + "operacionais\n\n"
    + "**Exemplos de perguntas:**\n"
    + "- \"Quais são os programas " + "disponíveis?\"\n- \"Quais exigências " + "para o tomador?\"\n"
    + "- \"Que imóveis são aceitos?\"\n- " + "\"Quais documentos necessários?\"\n"
    + "- \"Como funciona o redutor FGTS?\"\n\n"
    + "Reformule sua pergunta ou escolha um " + "tópico específico.\n"

  /**
   * The outcome of `consultar`: a rendered answer, or the category whose
   * handler the agent calls but does not define (the call raises
   * `AttributeError` in the source).
   */
  datatype Resposta = Respondida(texto: string) | SemHandler(categoria: Categoria)

  /** The dispatch of `consultar` on the lower-cased question. */
  function Consultar(base: Base.BaseConhecimento, pergunta: string): (r: Resposta)
    ensures r.Respondida? <==> Classificar(pergunta) in {Programas, Construcao, Geral}
    ensures r.SemHandler? ==> r.categoria == Classificar(pergunta)
    ensures Classificar(pergunta) == Programas ==> r == Respondida(ConsultarProgramas(base, pergunta))
    ensures Classificar(pergunta) == Construcao ==> r == Respondida(ConsultarConstrucao(base, pergunta))
    ensures Classificar(pergunta) == Geral ==> r == Respondida(BuscaGeral)
  {
    match Classificar(pergunta)
    case Programas => Respondida(ConsultarProgramas(base, pergunta))
    case Construcao => Respondida(ConsultarConstrucao(base, pergunta))
    case Geral => Respondida(BuscaGeral)
    case c => SemHandler(c)
  }

  /**
   * A question containing "fgts" but neither "pmcmv" nor "minha casa" is
   * answered with the FGTS entry, and the answer contains the entry's
   * rate-reduction text.
   */
  lemma ConsultaFgtsMostraRedutor(base: Base.BaseConhecimento, pergunta: string)
    requires Contem(pergunta, "fgts") && !Contem(pergunta, "pmcmv") && !Contem(pergunta, "minha casa")
    ensures Consultar(base, pergunta) == Respondida(RespostaFgts(base.programas.fgts))
    ensures Contem(Consultar(base, pergunta).texto, base.programas.fgts.redutorTaxa)
  {
    PalavraCorresponde(0, "fgts", pergunta);
    ClassificaProgramas(pergunta);
    RespostaFgtsMostraEntrada(base.programas.fgts);
  }

  /**
   * With the knowledge base the agent loads, the FGTS answer contains the
   * "0,5% na taxa de juros para cotista do FGTS" reduction.
   */
  lemma ConsultaFgtsNaBaseCarregada(pergunta: string)
    requires Contem(pergunta, "fgts") && !Contem(pergunta, "pmcmv") && !Contem(pergunta, "minha casa")
    ensures Consultar(Base.Carregar(), pergunta) == Respondida(RespostaFgts(Base.Carregar().programas.fgts))
    ensures Contem(Consultar(Base.Carregar(), pergunta).texto, Base.FgtsRedutorTaxa)
  {
    ConsultaFgtsMostraRedutor(Base.Carregar(), pergunta);
  }

  /** A question naming PMCMV or "minha casa" is answered with the PMCMV entry. */
  lemma ConsultaPmcmv(base: Base.BaseConhecimento, pergunta: string)
    requires PedePmcmv(pergunta)
    ensures Consultar(base, pergunta) == Respondida(RespostaPmcmv(base.programas.pmcmv))
    ensures Contem(Consultar(base, pergunta).texto, base.programas.pmcmv.nomeCompleto)
  {
    if Contem(pergunta, "pmcmv") {
      PalavraCorresponde(0, "pmcmv", pergunta);
    } else {
      PalavraCorresponde(0, "minha casa", pergunta);
    }
    ClassificaProgramas(pergunta);
    RespostaPmcmvMostraEntrada(base.programas.pmcmv);
  }

  /**
   * "pró-cotista" is not a category keyword, but any question routed to the
   * programs row by one of its keywords ("programa", "sbpe", "recursos
   * livres", ...) that contains it, and no PMCMV keyword, is answered with
   * the FGTS entry: its branch comes before those of "sbpe" and "recursos livres".
   */
  lemma ConsultaProCotista(base: Base.BaseConhecimento, pergunta: string)
    requires Corresponde(Tabela[0].1, pergunta) && Contem(pergunta, "pró-cotista") && !PedePmcmv(pergunta)
    ensures Consultar(base, pergunta) == Respondida(RespostaFgts(base.programas.fgts))
    ensures Contem(Consultar(base, pergunta).texto, base.programas.fgts.redutorTaxa)
  {
    ClassificaProgramas(pergunta);
    RespostaFgtsMostraEntrada(base.programas.fgts);
  }

  /** A question naming SBPE, and neither an earlier program, is answered with the SBPE entry. */
  lemma ConsultaSbpe(base: Base.BaseConhecimento, pergunta: string)
    requires PedeSbpe(pergunta) && !PedePmcmv(pergunta) && !PedeFgts(pergunta)
    ensures Consultar(base, pergunta) == Respondida(RespostaSbpe(base.programas.sbpe))
    ensures Contem(Consultar(base, pergunta).texto, base.programas.sbpe.nomeCompleto)
  {
    PalavraCorresponde(0, "sbpe", pergunta);
    ClassificaProgramas(pergunta);
    RespostaSbpeMostraEntrada(base.programas.sbpe);
  }

  /** A question naming "recursos livres", and no earlier program, is answered with that entry. */
  lemma ConsultaRecursosLivres(base: Base.BaseConhecimento, pergunta: string)
    requires PedeRecursosLivres(pergunta) && !PedePmcmv(pergunta) && !PedeFgts(pergunta) && !PedeSbpe(pergunta)
    ensures Consultar(base, pergunta) == Respondida(RespostaRecursosLivres(base.programas.recursosLivres))
    ensures Contem(Consultar(base, pergunta).texto, base.programas.recursosLivres.nomeCompleto)
  {
    PalavraCorresponde(0, "recursos livres", pergunta);
    ClassificaProgramas(pergunta);
    RespostaRecursosLivresMostraEntrada(base.programas.recursosLivres);
  }

  /**
   * A question with a program keyword but none of the specific program
   * names is answered with the overview, which names all four programs.
   */
  lemma ConsultaProgramasVisaoGeral(base: Base.BaseConhecimento, pergunta: string)
    requires Contem(pergunta, "programa")
    requires !PedePmcmv(pergunta) && !PedeFgts(pergunta) && !PedeSbpe(pergunta) && !PedeRecursosLivres(pergunta)
    ensures Consultar(base, pergunta) == Respondida(Concatena(VisaoGeralProgramas))
    ensures Contem(Consultar(base, pergunta).texto, "PMCMV") && Contem(Consultar(base, pergunta).texto, "FGTS")
    ensures Contem(Consultar(base, pergunta).texto, "SBPE") && Contem(Consultar(base, pergunta).texto, "Recursos Livres")
  {
    PalavraCorresponde(0, "programa", pergunta);
    ClassificaProgramas(pergunta);
    VisaoProgramasNomeiaOsQuatro();
  }

  /**
   * Questions that contain no keyword of any category all receive the same
   * fixed help text: unmatched input is not an error.
   */
  lemma ConsultaSemPalavraChave(base: Base.BaseConhecimento, pergunta: string)
    requires forall i :: 0 <= i < |Tabela| ==> !Corresponde(Tabela[i].1, pergunta)
    ensures Consultar(base, pergunta) == Respondida(BuscaGeral)
  {
    ClassificarPrimeiraCorrespondencia(pergunta);
  }

  /** A question matched first by the construction row reaches the construction handler. */
  lemma ConsultaConstrucao(base: Base.BaseConhecimento, pergunta: string)
    requires Corresponde(Tabela[4].1, pergunta)
    requires forall i :: 0 <= i < 4 ==> !Corresponde(Tabela[i].1, pergunta)
    ensures Consultar(base, pergunta) == Respondida(ConsultarConstrucao(base, pergunta))
  {
    ClassificaConstrucao(pergunta);
  }

  /**
   * Such a question is answered with the individual entry, the renovation
   * entry or the overview, by the construction handler's own keywords.
   */
  lemma ConsultaConstrucaoPorTopico(base: Base.BaseConhecimento, pergunta: string)
    requires Corresponde(Tabela[4].1, pergunta)
    requires forall i :: 0 <= i < 4 ==> !Corresponde(Tabela[i].1, pergunta)
    ensures PedeIndividual(pergunta) ==>
              Consultar(base, pergunta) == Respondida(RespostaIndividual(base.modalidadesConstrucao.construcaoIndividual))
    ensures !PedeIndividual(pergunta) && PedeReforma(pergunta) ==>
              Consultar(base, pergunta) == Respondida(RespostaReforma(base.modalidadesConstrucao.reformaAmpliacao))
    ensures !PedeIndividual(pergunta) && !PedeReforma(pergunta) ==>
              Consultar(base, pergunta) == Respondida(VisaoGeralConstrucao)
  {
    ConsultaConstrucao(base, pergunta);
  }
}
