/** The bilingual table of the landing page and the facts about its data:
    both languages have the same keys, so a key resolves in one exactly when it
    resolves in the other, and each feature list has four entries. The fields
    are grouped into the sections the table is written in; an object's fields
    are the sections' fields in order. Each text longer than a few words
    is written as the concatenation of its words, which keeps the verifier's work on the literals
    small; the concatenation is the text of the table. */
module TranslationTable {
  import opened Wrappers
  import opened Translations

  /** English: Header/Navigation. */
  const EnglishNavigation: seq<Field> := [
    Field("features", Str("Features")),
    Field("technology", Str("Technology")),
    Field("contact", Str("Contact")),
    Field("loginSignup", Str("Login / Sign Up"))
  ]

  /** English: Hero Section. */
  const EnglishHero: seq<Field> := [
    Field("revolutionaryTech", Str("Revolutionary AI Technology")),
    Field("discoverDisease", Str("Discover Disease")),
    Field("throughYourEyes", Str("Through Your Eyes")),
    Field("heroDescription", Str(
      "Our " + "advanced " + "artificial " + "intelligence " + "analyzes " + "corneal " +
      "characteristics " + "combined " + "with " + "comprehensive " + "medical " + "records " +
      "from " + "thousands " + "of " + "patients " + "to " + "identify " + "disease " +
      "patterns " + "and " + "provide " + "early " + "diagnostic " + "insights " + "with " +
      "unprecedented " + "accuracy.")),
    Field("startAnalysis", Str("Start Analysis")),
    Field("learnMore", Str("Learn More"))
  ]

  /** English: Features Section. */
  const EnglishFeaturesIntro: seq<Field> := [
    Field("advancedPlatform", Str("Advanced Medical AI Platform")),
    Field("platformDescription", Str(
      "Three " + "specialized " + "access " + "levels " + "designed " + "for " + "comprehensive " +
      "medical " + "analysis " + "workflow"))
  ]

  /** English: Admin Features. */
  const EnglishAdminFeatures: seq<Field> := [
    Field("adminControl", Str("Admin Control")),
    Field("adminDescription", Str(
      "Complete " + "platform " + "management " + "with " + "full " + "oversight " +
      "capabilities.")),
    Field("adminFeatures", Arr([
      Str("Manage " + "all " + "users " + "and " + "permissions"),
      Str("Monitor AI analysis outputs"),
      Str("System configuration control"),
      Str("Comprehensive audit trails")
    ]))
  ]

  /** English: Collaborator Features. */
  const EnglishCollaboratorFeatures: seq<Field> := [
    Field("collaboratorAccess", Str("Collaborator Access")),
    Field("collaboratorDescription", Str(
      "Upload " + "and " + "submit " + "medical " + "data " + "for " + "AI " + "analysis " +
      "processing.")),
    Field("collaboratorFeatures", Arr([
      Str("Upload corneal photographs"),
      Str("Submit patient medical records"),
      Str("Request analysis processing"),
      Str("Track submission status")
    ]))
  ]

  /** English: Scientist Features. */
  const EnglishScientistFeatures: seq<Field> := [
    Field("scientistReview", Str("Scientist Review")),
    Field("scientistDescription", Str(
      "Review, " + "validate " + "and " + "annotate " + "AI-generated " + "medical " +
      "insights.")),
    Field("scientistFeatures", Arr([
      Str("Review analysis results"),
      Str("Validate medical findings"),
      Str("Add scientific annotations"),
      Str("Generate research reports")
    ]))
  ]

  /** English: Technology Section. */
  const EnglishTechnology: seq<Field> := [
    Field("cuttingEdgeAI", Str("Cutting-Edge AI Technology")),
    Field("technologyDescription", Str(
      "Our " + "proprietary " + "AI " + "system " + "leverages " + "deep " + "learning " +
      "algorithms " + "specifically " + "trained " + "on " + "medical " + "imaging " + "data " +
      "to " + "detect " + "subtle " + "patterns " + "in " + "corneal " + "structure " + "that " +
      "may " + "indicate " + "underlying " + "health " + "conditions.")),
    Field("monaiIntegration", Str("MONAI Framework Integration")),
    Field("monaiDescription", Str(
      "Advanced " + "medical " + "imaging " + "AI " + "framework " + "for " + "precise " +
      "corneal " + "analysis")),
    Field("hipaaCompliant", Str("HIPAA Compliant")),
    Field("hipaaDescription", Str(
      "Secure, " + "encrypted " + "platform " + "meeting " + "healthcare " + "privacy " +
      "standards")),
    Field("collaborativeWorkflow", Str("Collaborative Workflow")),
    Field("workflowDescription", Str(
      "Multi-role " + "platform " + "designed " + "for " + "medical " + "research " + "teams")),
    Field("ultraHighResolution", Str("Ultra-High Resolution Analysis")),
    Field("resolutionDescription", Str(
      "Advanced " + "imaging " + "processing " + "capable " + "of " + "detecting " +
      "microscopic " + "corneal " + "changes"))
  ]

  /** English: CTA Section. */
  const EnglishCallToAction: seq<Field> := [
    Field("readyToTransform", Str(
      "Ready " + "to " + "Transform " + "Medical " + "Diagnostics?")),
    Field("ctaDescription", Str(
      "Join " + "healthcare " + "professionals " + "worldwide " + "who " + "trust " +
      "CornealAI " + "for " + "advanced " + "diagnostic " + "insights.")),
    Field("startToday", Str("Start Your Analysis Today"))
  ]

  /** English: Footer. */
  const EnglishFooter: seq<Field> := [
    Field("footerText", Str(
      "© " + "2024 " + "CornealAI. " + "Advanced " + "medical " + "imaging " + "AI " + "for " +
      "healthcare " + "professionals."))
  ]

  /** English: Dashboard. */
  const EnglishDashboard: seq<Field> := [
    Field("dashboardTitle", Str("CornealAI Dashboard")),
    Field("welcome", Str("Welcome")),
    Field("role", Str("Role")),
    Field("logout", Str("Logout")),
    Field("loading", Str("Loading..."))
  ]

  /** English: Dashboard Cards. */
  const EnglishDashboardCards: seq<Field> := [
    Field("uploadFiles", Str("Upload Files")),
    Field("uploadDescription", Str(
      "Upload " + "corneal " + "images " + "and " + "medical " + "records " + "for " + "AI " +
      "analysis.")),
    Field("startUpload", Str("Start Upload")),
    Field("viewResults", Str("View Results")),
    Field("resultsDescription", Str(
      "Review " + "AI " + "analysis " + "results " + "and " + "medical " + "insights.")),
    Field("viewAnalysis", Str("View Analysis")),
    Field("collaborate", Str("Collaborate")),
    Field("collaborateDescription", Str(
      "Work " + "with " + "your " + "medical " + "research " + "team.")),
    Field("teamDashboard", Str("Team Dashboard"))
  ]

  /** Portuguese: Header/Navigation. */
  const PortugueseNavigation: seq<Field> := [
    Field("features", Str("Recursos")),
    Field("technology", Str("Tecnologia")),
    Field("contact", Str("Contato")),
    Field("loginSignup", Str("Entrar / Cadastrar"))
  ]

  /** Portuguese: Hero Section. */
  const PortugueseHero: seq<Field> := [
    Field("revolutionaryTech", Str(
      "Tecnologia " + "de " + "IA " + "Revolucionária")),
    Field("discoverDisease", Str("Descubra Doenças")),
    Field("throughYourEyes", Str("Através dos Seus Olhos")),
    Field("heroDescription", Str(
      "Nossa " + "inteligência " + "artificial " + "avançada " + "analisa " + "características " +
      "da " + "córnea " + "combinadas " + "com " + "registros " + "médicos " + "abrangentes " +
      "de " + "milhares " + "de " + "pacientes " + "para " + "identificar " + "padrões " + "de " +
      "doenças " + "e " + "fornecer " + "insights " + "diagnósticos " + "precoces " + "com " +
      "precisão " + "sem " + "precedentes.")),
    Field("startAnalysis", Str("Iniciar Análise")),
    Field("learnMore", Str("Saiba Mais"))
  ]

  /** Portuguese: Features Section. */
  const PortugueseFeaturesIntro: seq<Field> := [
    Field("advancedPlatform", Str(
      "Plataforma " + "Avançada " + "de " + "IA " + "Médica")),
    Field("platformDescription", Str(
      "Três " + "níveis " + "de " + "acesso " + "especializados " + "projetados " + "para " +
      "fluxo " + "de " + "trabalho " + "de " + "análise " + "médica " + "abrangente"))
  ]

  /** Portuguese: Admin Features. */
  const PortugueseAdminFeatures: seq<Field> := [
    Field("adminControl", Str("Controle Administrativo")),
    Field("adminDescription", Str(
      "Gerenciamento " + "completo " + "da " + "plataforma " + "com " + "capacidades " + "de " +
      "supervisão " + "total.")),
    Field("adminFeatures", Arr([
      Str("Gerenciar " + "todos " + "os " + "usuários " + "e " + "permissões"),
      Str("Monitorar " + "saídas " + "de " + "análise " + "de " + "IA"),
      Str("Controle " + "de " + "configuração " + "do " + "sistema"),
      Str("Trilhas " + "de " + "auditoria " + "abrangentes")
    ]))
  ]

  /** Portuguese: Collaborator Features. */
  const PortugueseCollaboratorFeatures: seq<Field> := [
    Field("collaboratorAccess", Str("Acesso de Colaborador")),
    Field("collaboratorDescription", Str(
      "Envie " + "e " + "submeta " + "dados " + "médicos " + "para " + "processamento " + "de " +
      "análise " + "de " + "IA.")),
    Field("collaboratorFeatures", Arr([
      Str("Enviar fotografias da córnea"),
      Str("Submeter " + "registros " + "médicos " + "do " + "paciente"),
      Str("Solicitar " + "processamento " + "de " + "análise"),
      Str("Acompanhar status de submissão")
    ]))
  ]

  /** Portuguese: Scientist Features. */
  const PortugueseScientistFeatures: seq<Field> := [
    Field("scientistReview", Str("Revisão Científica")),
    Field("scientistDescription", Str(
      "Revise, " + "valide " + "e " + "anote " + "insights " + "médicos " + "gerados " + "por " +
      "IA.")),
    Field("scientistFeatures", Arr([
      Str("Revisar resultados de análise"),
      Str("Validar descobertas médicas"),
      Str("Adicionar " + "anotações " + "científicas"),
      Str("Gerar relatórios de pesquisa")
    ]))
  ]

  /** Portuguese: Technology Section. */
  const PortugueseTechnology: seq<Field> := [
    Field("cuttingEdgeAI", Str("Tecnologia de IA de Ponta")),
    Field("technologyDescription", Str(
      "Nosso " + "sistema " + "de " + "IA " + "proprietário " + "utiliza " + "algoritmos " +
      "de " + "deep " + "learning " + "especificamente " + "treinados " + "em " + "dados " +
      "de " + "imagem " + "médica " + "para " + "detectar " + "padrões " + "sutis " + "na " +
      "estrutura " + "da " + "córnea " + "que " + "podem " + "indicar " + "condições " + "de " +
      "saúde " + "subjacentes.")),
    Field("monaiIntegration", Str("Integração com Framework MONAI")),
    Field("monaiDescription", Str(
      "Framework " + "avançado " + "de " + "IA " + "para " + "imagem " + "médica " + "para " +
      "análise " + "precisa " + "da " + "córnea")),
    Field("hipaaCompliant", Str("Compatível com HIPAA")),
    Field("hipaaDescription", Str(
      "Plataforma " + "segura " + "e " + "criptografada " + "que " + "atende " + "aos " +
      "padrões " + "de " + "privacidade " + "em " + "saúde")),
    Field("collaborativeWorkflow", Str("Fluxo de Trabalho Colaborativo")),
    Field("workflowDescription", Str(
      "Plataforma " + "multi-função " + "projetada " + "para " + "equipes " + "de " + "pesquisa " +
      "médica")),
    Field("ultraHighResolution", Str(
      "Análise " + "de " + "Ultra " + "Alta " + "Resolução")),
    Field("resolutionDescription", Str(
      "Processamento " + "avançado " + "de " + "imagem " + "capaz " + "de " + "detectar " +
      "mudanças " + "microscópicas " + "na " + "córnea"))
  ]

  /** Portuguese: CTA Section. */
  const PortugueseCallToAction: seq<Field> := [
    Field("readyToTransform", Str(
      "Pronto " + "para " + "Transformar " + "o " + "Diagnóstico " + "Médico?")),
    Field("ctaDescription", Str(
      "Junte-se " + "a " + "profissionais " + "de " + "saúde " + "do " + "mundo " + "todo " +
      "que " + "confiam " + "no " + "CornealAI " + "para " + "insights " + "diagnósticos " +
      "avançados.")),
    Field("startToday", Str("Comece Sua Análise Hoje"))
  ]

  /** Portuguese: Footer. */
  const PortugueseFooter: seq<Field> := [
    Field("footerText", Str(
      "© " + "2024 " + "CornealAI. " + "IA " + "avançada " + "de " + "imagem " + "médica " +
      "para " + "profissionais " + "de " + "saúde."))
  ]

  /** Portuguese: Dashboard. */
  const PortugueseDashboard: seq<Field> := [
    Field("dashboardTitle", Str("Painel CornealAI")),
    Field("welcome", Str("Bem-vindo")),
    Field("role", Str("Função")),
    Field("logout", Str("Sair")),
    Field("loading", Str("Carregando..."))
  ]

  /** Portuguese: Dashboard Cards. */
  const PortugueseDashboardCards: seq<Field> := [
    Field("uploadFiles", Str("Enviar Arquivos")),
    Field("uploadDescription", Str(
      "Envie " + "imagens " + "da " + "córnea " + "e " + "registros " + "médicos " + "para " +
      "análise " + "de " + "IA.")),
    Field("startUpload", Str("Iniciar Envio")),
    Field("viewResults", Str("Ver Resultados")),
    Field("resultsDescription", Str(
      "Revise " + "resultados " + "de " + "análise " + "de " + "IA " + "e " + "insights " +
      "médicos.")),
    Field("viewAnalysis", Str("Ver Análise")),
    Field("collaborate", Str("Colaborar")),
    Field("collaborateDescription", Str(
      "Trabalhe " + "com " + "sua " + "equipe " + "de " + "pesquisa " + "médica.")),
    Field("teamDashboard", Str("Painel da Equipe"))
  ]

  const EnglishSections: seq<seq<Field>> := [
    EnglishNavigation,
    EnglishHero,
    EnglishFeaturesIntro,
    EnglishAdminFeatures,
    EnglishCollaboratorFeatures,
    EnglishScientistFeatures,
    EnglishTechnology,
    EnglishCallToAction,
    EnglishFooter,
    EnglishDashboard,
    EnglishDashboardCards
  ]

  const PortugueseSections: seq<seq<Field>> := [
    PortugueseNavigation,
    PortugueseHero,
    PortugueseFeaturesIntro,
    PortugueseAdminFeatures,
    PortugueseCollaboratorFeatures,
    PortugueseScientistFeatures,
    PortugueseTechnology,
    PortugueseCallToAction,
    PortugueseFooter,
    PortugueseDashboard,
    PortugueseDashboardCards
  ]

  /** The English subtree. */
  const English: Value := Obj(Concat(EnglishSections))

  /** The Portuguese subtree. */
  const Portuguese: Value := Obj(Concat(PortugueseSections))

  /** The whole table, keyed by language tag. */
  const Table: Value := Obj([Field("en", English), Field("pt", Portuguese)])

  /** `useTranslation(language).t(key)` over this table. */
  function T(language: string, key: string): Value {
    Translate(Table, language, key)
  }

  lemma SameSectionNavigation()
    ensures SameFields(EnglishNavigation, PortugueseNavigation)
  {
  }

  lemma SameSectionHero()
    ensures SameFields(EnglishHero, PortugueseHero)
  {
  }

  lemma SameSectionFeaturesIntro()
    ensures SameFields(EnglishFeaturesIntro, PortugueseFeaturesIntro)
  {
  }

  lemma SameSectionAdminFeatures()
    ensures SameFields(EnglishAdminFeatures, PortugueseAdminFeatures)
  {
  }

  lemma SameSectionCollaboratorFeatures()
    ensures SameFields(EnglishCollaboratorFeatures, PortugueseCollaboratorFeatures)
  {
  }

  lemma SameSectionScientistFeatures()
    ensures SameFields(EnglishScientistFeatures, PortugueseScientistFeatures)
  {
  }

  lemma SameSectionTechnology()
    ensures SameFields(EnglishTechnology, PortugueseTechnology)
  {
  }

  lemma SameSectionCallToAction()
    ensures SameFields(EnglishCallToAction, PortugueseCallToAction)
  {
  }

  lemma SameSectionFooter()
    ensures SameFields(EnglishFooter, PortugueseFooter)
  {
  }

  lemma SameSectionDashboard()
    ensures SameFields(EnglishDashboard, PortugueseDashboard)
  {
  }

  lemma SameSectionDashboardCards()
    ensures SameFields(EnglishDashboardCards, PortugueseDashboardCards)
  {
  }

  /** Both languages' subtrees have the same shape. */
  lemma EnglishPortugueseSameShape()
    ensures SameShape(English, Portuguese)
  {
    forall s | 0 <= s < |EnglishSections|
      ensures SameFields(EnglishSections[s], PortugueseSections[s])
    {
      if s == 0 { SameSectionNavigation(); }
      else if s == 1 { SameSectionHero(); }
      else if s == 2 { SameSectionFeaturesIntro(); }
      else if s == 3 { SameSectionAdminFeatures(); }
      else if s == 4 { SameSectionCollaboratorFeatures(); }
      else if s == 5 { SameSectionScientistFeatures(); }
      else if s == 6 { SameSectionTechnology(); }
      else if s == 7 { SameSectionCallToAction(); }
      else if s == 8 { SameSectionFooter(); }
      else if s == 9 { SameSectionDashboard(); }
      else if s == 10 { SameSectionDashboardCards(); }
    }
    SameFieldsConcat(EnglishSections, PortugueseSections);
  }

  /** The subtree of a supported language. */
  function Subtree(language: string): Value
    requires language == "en" || language == "pt"
  {
    if language == "en" then English else Portuguese
  }

  /** The table has subtrees for exactly the two supported languages. */
  lemma Languages(language: string)
    ensures Child(Table, language).Some? <==> language == "en" || language == "pt"
    ensures language == "en" || language == "pt" ==> Child(Table, language) == Some(Subtree(language))
  {
    FieldValueAt(Table.fields, 1, "pt");
  }

  /** A key resolves in English exactly when it resolves in Portuguese. */
  lemma KeyParity(key: string)
    ensures Resolves(Table, "en", key) <==> Resolves(Table, "pt", key)
  {
    Languages("en");
    Languages("pt");
    EnglishPortugueseSameShape();
    SameShapeResolves(Table, "en", "pt", key);
  }

  /** A language other than `en` and `pt` translates every key to itself. */
  lemma UnsupportedLanguage(language: string, key: string)
    requires language != "en" && language != "pt"
    ensures T(language, key) == Str(key)
  {
    Languages(language);
    UnknownLanguageFallsBack(Table, language, key);
  }

  /** A list of four non-empty strings. */
  predicate FourEntries(v: Value) {
    && v.Arr?
    && |v.items| == 4
    && forall i :: 0 <= i < |v.items| ==> v.items[i].Str? && Truthy(v.items[i])
  }

  /** The three feature lists of the landing page. */
  predicate FeatureListName(name: string) {
    name == "adminFeatures" || name == "collaboratorFeatures" || name == "scientistFeatures"
  }

  lemma FindAdminFeatures()
    ensures Child(English, "adminFeatures") == Some(EnglishAdminFeatures[2].value)
  {
    assert AbsentBefore(EnglishSections, 3, "adminFeatures");
    FieldValueAt(EnglishAdminFeatures, 2, "adminFeatures");
    FieldValueConcat(EnglishSections, 3, "adminFeatures");
  }

  lemma FindCollaboratorFeatures()
    ensures Child(English, "collaboratorFeatures") == Some(EnglishCollaboratorFeatures[2].value)
  {
    assert AbsentBefore(EnglishSections, 4, "collaboratorFeatures");
    FieldValueAt(EnglishCollaboratorFeatures, 2, "collaboratorFeatures");
    FieldValueConcat(EnglishSections, 4, "collaboratorFeatures");
  }

  lemma FindScientistFeatures()
    ensures Child(English, "scientistFeatures") == Some(EnglishScientistFeatures[2].value)
  {
    assert AbsentBefore(EnglishSections, 5, "scientistFeatures");
    FieldValueAt(EnglishScientistFeatures, 2, "scientistFeatures");
    FieldValueConcat(EnglishSections, 5, "scientistFeatures");
  }

  lemma EnglishFeatureList(name: string)
    requires FeatureListName(name)
    ensures Child(English, name).Some?
    ensures FourEntries(Child(English, name).value)
  {
    if name == "adminFeatures" {
      FindAdminFeatures();
    } else if name == "collaboratorFeatures" {
      FindCollaboratorFeatures();
    } else {
      FindScientistFeatures();
    }
  }

  /** Each feature list has exactly four non-empty entries, in both
      languages. */
  lemma FeatureListsHaveFourEntries(language: string, name: string)
    requires language == "en" || language == "pt"
    requires FeatureListName(name)
    ensures Child(Subtree(language), name).Some?
    ensures FourEntries(Child(Subtree(language), name).value)
  {
    EnglishFeatureList(name);
    if language == "pt" {
      EnglishPortugueseSameShape();
      SameShapeChild(English, Portuguese, name);
      var en, pt := Child(English, name).value, Child(Portuguese, name).value;
      assert SameShape(en, pt);
      forall i | 0 <= i < |pt.items|
        ensures pt.items[i].Str? && Truthy(pt.items[i])
      {
        assert SameShape(en.items[i], pt.items[i]);
      }
    }
  }

  /** The indexed keys of a four-entry list under any table. */
  lemma ListEntryLookup(root: Value, language: string, sub: Value, name: string, n: nat)
    requires '.' !in name && n < 4
    requires Child(root, language) == Some(sub)
    requires Child(sub, name).Some? && FourEntries(Child(sub, name).value)
    ensures Translate(root, language, name + "." + DecimalString(n)) == Child(sub, name).value.items[n]
    ensures Resolves(root, language, name + "." + DecimalString(n))
  {
    TranslateIndexed(root, language, name, n);
    TranslateCases(root, language, name + "." + DecimalString(n));
  }

  /** `t("adminFeatures.0")` and its siblings: the indexed keys `name.0` to
      `name.3` of a feature list resolve to the list's entries. */
  lemma FeatureEntryLookup(language: string, name: string, n: nat)
    requires language == "en" || language == "pt"
    requires FeatureListName(name)
    requires n < 4
    ensures Child(Subtree(language), name).Some? && Child(Subtree(language), name).value.Arr?
    ensures n < |Child(Subtree(language), name).value.items|
    ensures T(language, name + "." + DecimalString(n)) == Child(Subtree(language), name).value.items[n]
    ensures Resolves(Table, language, name + "." + DecimalString(n))
  {
    Languages(language);
    FeatureListsHaveFourEntries(language, name);
    var sub := Subtree(language);
    ListEntryLookup(Table, language, sub, name, n);
  }

  /** Neither language has a `nonexistent` section. */
  lemma NoNonexistentSection(language: string)
    requires language == "en" || language == "pt"
    ensures Child(Subtree(language), "nonexistent").None?
  {
    assert AbsentBefore(EnglishSections, |EnglishSections|, "nonexistent");
    FieldValueConcatNone(EnglishSections, "nonexistent");
    if language == "pt" {
      EnglishPortugueseSameShape();
      SameShapeChild(English, Portuguese, "nonexistent");
    }
  }

  /** `t("nonexistent.key")` is `"nonexistent.key"` in both languages. */
  lemma NonexistentKey(language: string)
    requires language == "en" || language == "pt"
    ensures T(language, "nonexistent.key") == Str("nonexistent.key")
  {
    Languages(language);
    NoNonexistentSection(language);
    assert "nonexistent" + "." + "key" == "nonexistent.key";
    TranslateMissingSegment(Table, language, "nonexistent", "key");
  }
}
