# Agente Caixa: question router and compliance scorer

This project models the rule engine of `AgenteCaixaCreditoCompleto`. The agent answers
questions about CAIXA housing-credit rules and checks a proposed financing operation
against those rules. Two parts are modelled.

**Question router.**
- The question is lower-cased.
- It is classified by a fixed, ordered table of keyword lists. The first category with a
  keyword that is a substring of the question wins, and `geral` is the fallback.
- The question is then sent to that category's handler.
- The program handler and the construction handler each do a second first-match keyword
  dispatch over a read-only knowledge base. They return a template filled from the chosen
  entry, or a fixed overview.
- The general search returns a fixed help text.

**Compliance scorer.**
- A result record starts at score 100, `conforme`, with empty lists.
- It is threaded through five section checks: borrower (tomador), seller (vendedor),
  property (imovel), program (programa) and documentation (documentacao).
- A check runs only when its section is present. Each check appends messages to
  `impedimentos` or `alertas`.
- The score is `max(0, 100 - 25·|impedimentos| - 5·|alertas|)`.
- The operation is `conforme` exactly when the score is at least 70 and there is no
  impediment.

Layout:
- `wrappers.dfy`: `Option`. A missing dictionary key is `None`, and `GetOr` is Python's
  `dict.get(key, default)`.
- `texto.dfy`: substring membership (`sub in s`), template concatenation,
  `"\n".join("• " + x ...)`, and `str.lower()` on ASCII and Latin-1.
- `base_conhecimento.dfy`: the parts of the knowledge base the modelled code reads. This
  includes the catalogue of property prohibitions.
- `roteador.dfy`: the classifier and the handlers, as pure functions, with their lemmas.
- `conformidade.dfy`: the rules of each section, as specification functions. It also holds
  the score, the verdict and their lemmas.
- `agente.dfy`: the imperative agent.
  - `Resultado` is the result record whose lists the section checks extend in place.
  - `Agente` holds the knowledge base and two append-only logs. They hold only the rows
    this agent appends to the `consultas` and `analises_conformidade` tables; rows the
    database file already held from earlier runs are not represented.
  - Each method is proved against the functions of `roteador.dfy` and `conformidade.dfy`.

Facts about the source that the proofs bring out:
- `"taxa"` is a keyword of both `financiamento` and `tarifas`. Since `financiamento` comes
  first, `tarifas` is never chosen for a question containing `"taxa"`.
- `"terreno"` is an `imovel` keyword, and `imovel` comes before `construcao`. So a question
  containing `"terreno próprio"` never reaches the construction handler. Through `consultar`,
  that handler's `"terreno próprio"` test therefore never holds, and only `"individual"` selects
  the individual-construction answer.
- Default policies are asymmetric:
  - a missing `cpf_regular` is an impediment;
  - a missing `idoneidade_cadastral`, `residencia_brasil`, `maior_idade`, `area_urbana` or
    `matricula_regular` passes.
- A borrower section that holds only `cpf_regular = false` yields two impediments: the CPF
  one and the nationality one. The score is then 50.
- A declared property impediment found in the catalogue is reported as `"Imóvel: "` followed
  by its name, once per occurrence and in input order.
- At most six alerts can arise:
  - two from the property check;
  - one from the program check;
  - three from the documentation check.

  Six alerts cost 30 points, so the score stays at 70 or above whenever there is no
  impediment. Hence `conforme` holds exactly when `impedimentos` is empty. The score
  threshold never decides the verdict on its own.

## Model

| member | source | states |
|---|---|---|
| Texto.Minusculas | agente_caixa_completo.py:422 | lower-casing keeps the length of the question |
| Texto.MinusculasIdempotente | agente_caixa_completo.py:422 | lower-casing an already lower-cased question changes nothing |
| Texto.ContemAposMinusculas | agente_caixa_completo.py:422-423 | a lower-case keyword that occurs in the question still occurs after lower-casing |
| Texto.ParteContida | agente_caixa_completo.py:502-519 | every part of an answer template occurs in the rendered answer |
| Texto.ItemContido | agente_caixa_completo.py:502-519 | every item of a bulleted list occurs in the joined list text |
| Base.Carregar | agente_caixa_completo.py:35-375 | the loaded base holds the property prohibition catalogue and the FGTS rate reduction text |
| Roteador.PrimeiraCategoriaCorreta | agente_caixa_completo.py:472-476 | the first-match search returns `geral` when no row matches, and otherwise the category of the first matching row, with no earlier row matching |
| Roteador.PrimeiraCategoriaNoMaximo | agente_caixa_completo.py:472-474 | if row k matches, the result is the category of some row at or before k |
| Roteador.PrimeiraCategoriaGeralSse | agente_caixa_completo.py:472-476 | over a table without `geral`, the result is `geral` exactly when no row matches |
| Roteador.TabelaSemGeral | agente_caixa_completo.py:458-470 | `geral` is not a row of the category table, only the fallback |
| Roteador.ClassificarPrimeiraCorrespondencia | agente_caixa_completo.py:456-476 | the classifier returns `geral` exactly when no keyword list matches, and otherwise the category of the first matching row in declaration order |
| Roteador.ClassificaProgramas | agente_caixa_completo.py:458-474 | any keyword of the programs row routes the question to `programas`, the first row |
| Roteador.ClassificaConstrucao | agente_caixa_completo.py:458-474 | a question matched by the construction row and by none of the four earlier rows is routed to `construcao` |
| Roteador.TaxaNuncaTarifas | agente_caixa_completo.py:464-466 | a question containing "taxa" is never classified as `tarifas` |
| Roteador.TaxaVaiParaFinanciamento | agente_caixa_completo.py:458-466 | a question containing "taxa" and matching none of the five earlier rows is classified as `financiamento` |
| Roteador.TerrenoProprioNuncaChegaAConstrucao | agente_caixa_completo.py:462-463 | a question containing "terreno próprio" is never classified as `construcao` |
| Roteador.TopicoDePrograma | agente_caixa_completo.py:482-572 | program sub-dispatch in the branch order: each topic is chosen exactly when its keywords occur ("pmcmv"/"minha casa", "fgts"/"pró-cotista", "sbpe", "recursos livres") and those of no earlier branch do; the overview exactly when none occurs |
| Roteador.RespostaPmcmvMostraEntrada | agente_caixa_completo.py:482-500 | the PMCMV answer contains the entry's name, bracket text, normative reference, every operation and every funding source |
| Roteador.RespostaFgtsMostraEntrada | agente_caixa_completo.py:502-519 | the FGTS answer contains the entry's name, its rate-reduction text, every operation and every requirement |
| Roteador.RespostaSbpeMostraEntrada | agente_caixa_completo.py:521-536 | the SBPE answer contains the entry's name, characteristics, normative reference, note and every operation |
| Roteador.RespostaRecursosLivresMostraEntrada | agente_caixa_completo.py:538-551 | the Recursos Livres answer contains the entry's name, every operation and every eligibility item |
| Roteador.ItensContidos | agente_caixa_completo.py:502-519 | a bulleted list used as one part of a template puts each of its items in the answer |
| Roteador.ConsultarProgramas | agente_caixa_completo.py:478-572 | each program topic is answered with its own entry of the base (PMCMV, FGTS, SBPE, Recursos Livres) or with the fixed overview |
| Roteador.VisaoProgramasNomeiaOsQuatro | agente_caixa_completo.py:552-572 | the program overview names PMCMV, FGTS, SBPE and Recursos Livres |
| Roteador.TopicoDeConstrucao | agente_caixa_completo.py:578-641 | construction sub-dispatch in the branch order: individual exactly when "individual" or "terreno próprio" occurs, reform exactly when "reforma" or "ampliação" occurs and no individual keyword does, the overview exactly when none occurs |
| Roteador.ConsultarConstrucao | agente_caixa_completo.py:574-641 | each construction topic is answered with its own entry of the base: individual, renovation, or the fixed overview |
| Roteador.RespostaIndividualMostraEntrada | agente_caixa_completo.py:578-598 | the individual-construction answer contains the maximum executed percentage, the building period, the follow-up rule and every required document |
| Roteador.RespostaReformaMostraEntrada | agente_caixa_completo.py:599-617 | the reform answer contains every reform type and every requirement |
| Roteador.Consultar | agente_caixa_completo.py:420-454 | an answer is produced exactly for `programas`, `construcao` and `geral`, each by its own handler (programs, construction, general search); every other category has no handler and the result names the category chosen |
| Roteador.ConsultaFgtsMostraRedutor | agente_caixa_completo.py:502-519 | a question with "fgts" and without "pmcmv"/"minha casa" gets the FGTS answer, which contains the base's rate-reduction text |
| Roteador.ConsultaFgtsNaBaseCarregada | agente_caixa_completo.py:60-66 | with the loaded base, that answer is the FGTS entry's rendering and contains "0,5% na taxa de juros para cotista do FGTS" |
| Roteador.ConsultaPmcmv | agente_caixa_completo.py:482-500 | a question with "pmcmv" or "minha casa" gets the PMCMV answer, which names the program |
| Roteador.ConsultaProCotista | agente_caixa_completo.py:459-521 | any question matched by a programs keyword (including "sbpe" or "recursos livres") that contains "pró-cotista" and no PMCMV keyword gets the FGTS answer with its rate-reduction text |
| Roteador.ConsultaSbpe | agente_caixa_completo.py:521-536 | a question with "sbpe" and no PMCMV or FGTS keyword gets the SBPE answer, which names the program |
| Roteador.ConsultaRecursosLivres | agente_caixa_completo.py:538-551 | a question with "recursos livres" and no keyword of an earlier program gets the Recursos Livres answer, which names it |
| Roteador.ConsultaProgramasVisaoGeral | agente_caixa_completo.py:552-572 | a question with "programa" and no specific program keyword gets the overview naming all four programs |
| Roteador.ConsultaConstrucao | agente_caixa_completo.py:420-435 | a question matched first by the construction row is answered by the construction handler |
| Roteador.ConsultaConstrucaoPorTopico | agente_caixa_completo.py:574-641 | such a question gets the individual answer, the renovation answer or the overview, by the handler's keywords |
| Roteador.ConsultaSemPalavraChave | agente_caixa_completo.py:849-876 | a question with no keyword of any category gets the fixed general help text |
| Conformidade.RegrasTomador | agente_caixa_completo.py:878-897 | each borrower impediment is present exactly under its condition (missing CPF fails; missing nationality and RNM fails; missing idoneidade or residence passes), no other message appears, at most four |
| Conformidade.RegrasVendedor | agente_caixa_completo.py:899-913 | PF: a minor fails only when `maior_idade` is explicitly false, a missing CPF fails; PJ: a missing CNPJ fails; any other type adds nothing |
| Conformidade.RegrasCatalogados | agente_caixa_completo.py:935-938 | the catalogue loop adds "Imóvel: " + d exactly for declared d found in the catalogue, and never more entries than declared |
| Conformidade.CatalogadosConcatena | agente_caixa_completo.py:936-938 | the loop's output over two lists in sequence is the output over the first followed by the output over the second (input order kept) |
| Conformidade.CatalogadosTodos | agente_caixa_completo.py:936-938 | when every declared item is catalogued, each adds its own entry, one per occurrence, in input order, without de-duplication |
| Conformidade.CatalogadosNenhum | agente_caixa_completo.py:936-938 | items not in the catalogue add nothing |
| Conformidade.PrefixadoDistinto | agente_caixa_completo.py:918-938 | a catalogue entry never coincides with the urban-area or registration impediment |
| Conformidade.RegrasImpedimentosImovel | agente_caixa_completo.py:915-940 | the urban-area and registration impediments appear exactly when their flag is explicitly false; every other property impediment is a prefixed catalogue entry; at most two plus the declared count |
| Conformidade.RegrasAlertasImovel | agente_caixa_completo.py:922-928 | the infrastructure alert appears exactly when that flag is explicitly false, the encumbrance alert exactly when `possui_onus` is true; at most two |
| Conformidade.RegrasPrograma | agente_caixa_completo.py:942-958 | FGTS: fewer than 3 years (missing means 0) is an impediment, a missing or false balance is an alert; PMCMV: only an explicit false income flag is an alert; at most one impediment and one alert |
| Conformidade.RegrasDocumentacao | agente_caixa_completo.py:960-972 | each documentation alert appears exactly when its flag is explicitly false; at most three |
| Conformidade.Score | agente_caixa_completo.py:679-690 | the score is in [0,100] and a multiple of 5; it is 100 exactly with no entries, and at least 70 exactly when 25·i + 5·a ≤ 30 |
| Conformidade.ScoreNaoCresce | agente_caixa_completo.py:679-690 | the score is non-increasing in both counts |
| Conformidade.ScoreDecresce | agente_caixa_completo.py:683-690 | while positive, each further impediment or alert lowers the score |
| Conformidade.AlertasNoMaximoSeis | agente_caixa_completo.py:915-972 | an operation never produces more than six alerts: two from the property check, one from the program check, three from the documentation check |
| Conformidade.SeisAlertasAindaConforme | agente_caixa_completo.py:669-672 | an operation raising all six alerts and no impediment scores 70 and is conforme |
| Conformidade.ConformeSseSemImpedimentos | agente_caixa_completo.py:672 | `conforme` holds exactly when there is no impediment, and then the score is at least 70 |
| Conformidade.OperacaoVazia | agente_caixa_completo.py:645-672 | an operation with no section scores 100, is conforme, and has empty lists |
| Conformidade.SomenteCpfFalso | agente_caixa_completo.py:882-887 | a borrower with only `cpf_regular = false` yields the CPF and nationality impediments, score 50, not conforme |
| Conformidade.SomenteOnus | agente_caixa_completo.py:927-928 | a property with only `possui_onus = true` yields one alert, score 95, conforme |
| Conformidade.ScoreAltoNaoBasta | agente_caixa_completo.py:909-911 | a PJ seller without `cnpj_regular` scores 75, above the threshold of line 672, yet is not conforme |
| Conformidade.TomadorVazio | agente_caixa_completo.py:882-895 | an empty borrower section yields the CPF and nationality impediments, in that order |
| Conformidade.EstrangeiroComRnm | agente_caixa_completo.py:886-887 | a foreigner with a valid RNM and regular CPF has no impediment |
| Conformidade.VendedorPfVazio | agente_caixa_completo.py:902-907 | a PF seller with no other field yields only the CPF impediment |
| Conformidade.VendedorPjVazio | agente_caixa_completo.py:909-911 | a PJ seller without `cnpj_regular` yields only the CNPJ impediment, whatever its PF fields say |
| Conformidade.ProgramaSemRegras | agente_caixa_completo.py:945-958 | a program type other than FGTS and PMCMV adds nothing |
| Conformidade.FgtsVazio | agente_caixa_completo.py:947-952 | an FGTS program with no other field yields the time impediment and the balance alert |
| Conformidade.PmcmvSomenteRendaFalsa | agente_caixa_completo.py:954-956 | PMCMV adds the income alert exactly when the flag is explicitly false |
| Agente.Resultado.constructor | agente_caixa_completo.py:645-652 | a new result is conforme, scores 100 and has empty lists |
| Agente.Agente.constructor | agente_caixa_completo.py:19-28 | the agent holds the loaded knowledge base and has appended no log rows of its own yet |
| Agente.Agente.IdentificarCategoria | agente_caixa_completo.py:456-476 | the loop returns the classifier's category: `geral` exactly when no row matches, otherwise the first matching row |
| Agente.Agente.Consultar | agente_caixa_completo.py:420-454 | the answer is the router's answer for the lower-cased question; an answered query appends exactly one log entry with question, answer, user and category; a category without a handler logs nothing |
| Agente.Agente.AnalisarTomador | agente_caixa_completo.py:878-897 | appends the borrower impediments in source order; nothing else changes |
| Agente.Agente.AnalisarVendedor | agente_caixa_completo.py:899-913 | appends the seller impediments; nothing else changes |
| Agente.Agente.AnalisarImovel | agente_caixa_completo.py:915-940 | appends the property impediments (urban area, registration, catalogue entries) and alerts (infrastructure, encumbrance) in source order; nothing else changes |
| Agente.Agente.RegistrarImpedimentosCatalogados | agente_caixa_completo.py:935-938 | the loop appends the catalogue entries of the declared list, in input order |
| Agente.Agente.AnalisarPrograma | agente_caixa_completo.py:942-958 | appends the program impediment and alert; nothing else changes |
| Agente.Agente.AnalisarDocumentacao | agente_caixa_completo.py:960-972 | appends the documentation alerts; nothing else changes |
| Agente.Agente.CalcularScoreConformidade | agente_caixa_completo.py:679-690 | the step-by-step computation equals the score function and lies in [0,100] |
| Agente.Agente.AnalisarSecoes | agente_caixa_completo.py:654-667 | present sections only are checked, appending in the order tomador, vendedor, imovel, programa, documentacao |
| Agente.Agente.AnalisarConformidadeAvancada | agente_caixa_completo.py:643-677 | the fresh result equals the evaluation of the operation (lists, score, verdict, empty recommendations); exactly one analysis log entry is appended with the program type or "N/A"; the query log is unchanged |

## Left out

- SQLite persistence (`_inicializar_bd`, `_registrar_consulta`, `_registrar_analise_avancada`, the report SQL, agente_caixa_completo.py:377-418, 703-743, 817-847): it is I/O. It is modelled as two append-only sequences of log records, without timestamps and without the JSON encoding of the result.
- `datetime.now` and the `print` calls in `__init__` and `demonstracao_completa`: clock and console output.
- `__del__` (closes the database connection), `obter_ajuda_completa` (a fixed help text) and `gerar_relatorio_detalhado` (reports over the database, whose detail reports call methods the file does not define): they are not rule logic.
- The handlers `consultar` calls but the file never defines (tomador, vendedor, imovel, financiamento, documentacao, tarifas, compliance, procedimentos, canais; agente_caixa_completo.py:428-447): in Python these raise `AttributeError` before the query is logged. The model returns `SemHandler(category)` and logs nothing.
- Emoji and the exact whitespace of the answer templates: each answer is the concatenation of its literal parts and the chosen entry's fields. The proved facts are about which fields occur in the answer.
- Knowledge-base sections read only by the undefined handlers (borrower, seller, financing parameters, documents, fees, compliance, procedures, channels): no modelled code reads them.
- Texto.Minusculas: lowers ASCII and Latin-1 capitals only, not the whole of Unicode as Python's `str.lower()` does.
- Python truthiness of non-boolean values in `not d.get(...)`: each field is modelled as `Option<bool>` or `Option<int>`, so a string or list in a boolean field is not represented.
- Conformidade.Score: an `int` rather than Python's float. Every value the source computes is a whole number.
- `detalhes_analise` is created at agente_caixa_completo.py:651 but never filled, so it is not modelled.
- The `_analisar_*` methods return the dict they mutate, and the caller rebinds it. The model updates one `Resultado` in place, which is the same object.
- Agente.Agente.RegistrarImpedimentosCatalogados and Agente.Agente.AnalisarSecoes: each is a separate method for one part of its caller's body. The first holds the loop of agente_caixa_completo.py:936-938; the second holds the section dispatch of agente_caixa_completo.py:654-667.
- interface_agente_caixa.py: the Streamlit UI is not part of this model. Its seller form sends `documentacao_regular` instead of `cpf_regular`/`cnpj_regular` (interface_agente_caixa.py:235-238). Every seller submitted from the UI therefore receives a CPF or CNPJ impediment.
- The `usuario` parameter of `consultar` and `analisar_conformidade_avancada` defaults to `"sistema"` (agente_caixa_completo.py:420, 643). The model has no default arguments: callers always pass a user.
