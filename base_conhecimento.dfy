/**
 * The read-only knowledge base loaded once when the agent is built
 * (`_carregar_base_conhecimento_completa`): the parts of it that the
 * router and the compliance scorer read. Each program has its own record,
 * since the four entries carry different fields.
 */
module Base {

  datatype ProgramaPmcmv = ProgramaPmcmv(
    nomeCompleto: string, operacoes: seq<string>, enquadramento: string,
    referenciaNormativa: string, recursos: seq<string>)

  datatype ProgramaFgts = ProgramaFgts(
    nomeCompleto: string, operacoes: seq<string>, requisitos: seq<string>, redutorTaxa: string)

  datatype ProgramaSbpe = ProgramaSbpe(
    nomeCompleto: string, operacoes: seq<string>, caracteristicas: string,
    referenciaNormativa: string, observacao: string)

  datatype ProgramaRecursosLivres = ProgramaRecursosLivres(
    nomeCompleto: string, operacoes: seq<string>, enquadramento: seq<string>)

  datatype Programas = Programas(
    pmcmv: ProgramaPmcmv, fgts: ProgramaFgts, sbpe: ProgramaSbpe, recursosLivres: ProgramaRecursosLivres)

  datatype ExigenciasImovel = ExigenciasImovel(
    requisitosBasicos: seq<string>, situacoesAceitas: seq<string>,
    impedimentos: seq<string>, exigenciasEspecificasDf: seq<string>)

  datatype ConstrucaoIndividual = ConstrucaoIndividual(
    percentualExecucaoMaximo: string, prazoConstrucao: string, acompanhamento: string,
    documentosNecessarios: seq<string>)

  datatype ReformaAmpliacao = ReformaAmpliacao(tipos: seq<string>, exigencias: seq<string>)

  datatype ModalidadesConstrucao = ModalidadesConstrucao(
    construcaoIndividual: ConstrucaoIndividual, reformaAmpliacao: ReformaAmpliacao)

  datatype BaseConhecimento = BaseConhecimento(
    programas: Programas, exigenciasImovel: ExigenciasImovel, modalidadesConstrucao: ModalidadesConstrucao)

  /** programas.PMCMV */
  const PmcmvNomeCompleto: string := "Programa Minha Casa, Minha Vida"

  const PmcmvOperacoes: seq<string> := [
    "Aquisição Imóvel Novo ou Usado",
    "Aquisição de Terreno e Construção",
    "Construção em Terreno Próprio",
    "Conclusão, Ampliação, Reforma ou " + "Melhoria (exceto Classe Média)",
    "Reforma ou Melhoria PCD (Exceto Classe " + "Média)",
    "Imóveis Caixa/AMV (Adjudicados, " + "arrematados em Leilão Caixa)"
  ]

  const PmcmvEnquadramento: string := "Determinado pelo valor do imóvel (valor " + "de venda e compra ou investimento), " + "recorte populacional/territorial, e " + "renda familiar"

  const PmcmvReferenciaNormativa: string := "MN, MO30824"

  const PmcmvRecursos: seq<string> := [
    "FGTS",
    "SBPE",
    "Fundo Social"
  ]

  /** programas.FGTS */
  const FgtsNomeCompleto: string := "Carta de Crédito FGTS/Programa " + "Pró-cotista"

  const FgtsOperacoes: seq<string> := [
    "Aquisição Imóvel Novo ou Usado",
    "Aquisição de Terreno e Construção",
    "Construção em Terreno Próprio"
  ]

  const FgtsRequisitos: seq<string> := [
    "Ser titular de CV FGTS com mínimo de 3 " + "anos de trabalho sob o regime do FGTS",
    "Contrato de trabalho ativo sob regime " + "do FGTS ou saldo em CV, de, no mínimo, " + "10% do valor da avaliação do imóvel"
  ]

  const FgtsRedutorTaxa: string := "0,5% na taxa de juros para cotista do " + "FGTS"

  /** programas.SBPE */
  const SbpeNomeCompleto: string := "Carta de Crédito SBPE"

  const SbpeOperacoes: seq<string> := [
    "Aquisição de Imóvel Novo ou Usado " + "(Residencial ou Comercial/Misto)",
    "Aquisição de Terreno e Construção " + "(somente residencial)",
    "Construção em Terreno Próprio (somente " + "residencial)",
    "Reforma Casa com Garantia de Imóvel " + "(somente residencial)",
    "Aquisição de Lote Urbanizado Alocação " + "de Recursos (somente residencial)",
    "Aquisição de Imóvel CAIXA/AMV"
  ]

  const SbpeCaracteristicas: string := "Não há critérios específicos para " + "enquadramento"

  const SbpeReferenciaNormativa: string := "MN, MO30769"

  const SbpeObservacao: string := "Fim da restrição de financiamento de " + "segundo imóvel"

  /** programas.RECURSOS_LIVRES */
  const RecursosLivresNomeCompleto: string := "Recursos Livres"

  const RecursosLivresOperacoes: seq<string> := [
    "Aquisição de Imóvel Novo ou Usado " + "(Residencial)"
  ]

  const RecursosLivresEnquadramento: seq<string> := [
    "Imóveis com valor de avaliação acima de " + "1,5 milhão",
    "Cliente que já possua financiamento " + "imobiliário ativo na CAIXA, mesmo que o " + "imóvel tenha valor de avaliação " + "inferior a 1,5 milhão"
  ]

  /** exigencias_imovel */
  const ImovelRequisitosBasicos: seq<string> := [
    "Estar localizado em área urbana",
    "Possuir vias de acesso, soluções para " + "abastecimento de água, esgoto pluvial e " + "sanitário e energia elétrica (pública e " + "domiciliar)",
    "Estar livre e desembaraçado de " + "quaisquer ônus",
    "Possuir Certidão Individualizada e " + "Atualizada de Inteiro Teor da Matrícula " + "registrada junto ao RI",
    "Ser aceito pela CAIXA como garantia"
  ]

  const ImovelSituacoesAceitas: seq<string> := [
    "Com parte de área edificada não averbada",
    "Com parte de área de uso comercial " + "(imóvel misto)",
    "Sob regime de enfiteuse ou aforamento " + "de imóveis de particulares (registrado " + "até 10/01/2003)",
    "Sob regime de enfiteuse " + "administrativa/aforamento " + "exclusivamente para os imóveis da União",
    "Sob regime de aforamento exclusivamente " + "para os terrenos de marinha e acrescidos",
    "Imóvel de marinha com até 60% da área " + "sob Regime de Ocupação (condições " + "específicas)",
    "Oriundo de empreendimento financiado " + "pela CAIXA",
    "Com concessão de Direito Real de Uso " + "(CDRU) concedida pelo poder público " + "local",
    "Com 'habite-se parcial'",
    "Submetido ao regime de afetação",
    "Localizado em condomínio de lotes",
    "Imóvel CAIXA/AMV",
    "De madeira, casa pré-fabricada ou com " + "outras tecnologias construtivas"
  ]

  /** The catalogue of property conditions that rule out financing (exigencias_imovel.impedimentos). */
  const ImpedimentosImovel: seq<string> := [
    "Bens ou imóveis com contaminação por " + "substâncias químicas",
    "Bens de hospitais filantrópicos e " + "Santas Casas de Misericórdia",
    "Propriedade(s) cuja(s) matrícula(s) " + "haja averbação de cancelamento, " + "suspensão ou bloqueio",
    "Gravado com cláusula de usufruto",
    "Tombado ou em fase de tombamento pelo " + "Patrimônio Histórico e Artístico",
    "Alienado/hipotecado em garantia de " + "operação de crédito em outra instituição",
    "Gravado com cláusula de " + "inalienabilidade ou outro ônus",
    "Com destinação agrícola, inclusive " + "sítios, glebas ou granjas",
    "Com características de imóvel " + "multifamiliar",
    "Próprio da União, Estado, Município ou " + "Autarquia",
    "Que já tenha sido de propriedade do " + "proponente nos últimos 02 anos",
    "Cujo vendedor seja pessoa jurídica e o " + "proponente seja sócio ou representante " + "legal",
    "Sem nenhuma área construída averbada " + "(exceto lote urbanizado)",
    "Localizado em condomínio com " + "características de loteamento irregular",
    "Sob regime de ocupação",
    "Registrados como imóvel do tipo 'Laje'",
    "Cuja edificação possua característica " + "de hotel/apart hotel",
    "Sob regime de enfiteuse não permitida"
  ]

  const ImovelExigenciasEspecificasDf: seq<string> := [
    "Declaração de Capacidade de Atendimento " + "das Ligações Individuais",
    "Declaração de Execução de Elementos " + "Construtivos – DEEC",
    "Verificação pela engenharia da CAIXA " + "das exigências técnicas"
  ]

  /** modalidades_construcao.construcao_individual */
  const IndividualPercentualExecucaoMaximo: string := "70%"

  const IndividualPrazoConstrucao: string := "Conforme cronograma aprovado"

  const IndividualAcompanhamento: string := "Vistorias obrigatórias"

  const IndividualDocumentosNecessarios: seq<string> := [
    "Projeto arquitetônico aprovado",
    "Licenciamento de obra",
    "Cronograma físico-financeiro",
    "ART/RRT do responsável técnico"
  ]

  /** modalidades_construcao.reforma_ampliacao */
  const ReformaTipos: seq<string> := [
    "Reforma com ampliação",
    "Reforma sem ampliação",
    "Reforma PCD"
  ]

  const ReformaExigencias: seq<string> := [
    "Projeto de reforma aprovado",
    "Licenciamento quando necessário",
    "Cronograma de execução"
  ]

  /**
   * The knowledge base as loaded at start-up: its prohibition list is the
   * catalogue above, and the FGTS entry carries the rate-reduction text.
   */
  function Carregar(): (b: BaseConhecimento)
    ensures b.exigenciasImovel.impedimentos == ImpedimentosImovel
    ensures b.programas.fgts.redutorTaxa == FgtsRedutorTaxa
  {
    BaseConhecimento(
      Programas(
        ProgramaPmcmv(PmcmvNomeCompleto, PmcmvOperacoes, PmcmvEnquadramento, PmcmvReferenciaNormativa, PmcmvRecursos),
        ProgramaFgts(FgtsNomeCompleto, FgtsOperacoes, FgtsRequisitos, FgtsRedutorTaxa),
        ProgramaSbpe(SbpeNomeCompleto, SbpeOperacoes, SbpeCaracteristicas, SbpeReferenciaNormativa, SbpeObservacao),
        ProgramaRecursosLivres(RecursosLivresNomeCompleto, RecursosLivresOperacoes, RecursosLivresEnquadramento)),
      ExigenciasImovel(ImovelRequisitosBasicos, ImovelSituacoesAceitas, ImpedimentosImovel, ImovelExigenciasEspecificasDf),
      ModalidadesConstrucao(
        ConstrucaoIndividual(
          IndividualPercentualExecucaoMaximo, IndividualPrazoConstrucao, IndividualAcompanhamento,
          IndividualDocumentosNecessarios),
        ReformaAmpliacao(ReformaTipos, ReformaExigencias)))
  }
}
