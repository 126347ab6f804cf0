/**
 * The three locale tables of the translation hook, and the facts about them
 * that lookups rely on: no text and no key is empty, and the three tables
 * have the same keys in the same places.
 */
module Tables {
  import opened Tree

  /** The closed set of locales (src/hooks/useTranslation.ts:4). */
  datatype Language = En | Fr | Es

  /** `translations[language]`. */
  function Table(l: Language): Node
  {
    match l
    case En => EnTable
    case Fr => FrTable
    case Es => EsTable
  }

  // Each table is one object literal. It is written here as the
  // concatenation of the literal's blank-line-separated blocks, in order;
  // a long text is written as several literals joined with `+`.

  // The en table (src/hooks/useTranslation.ts:7-87), one constant per block.

  const EnHeader: Props :=
    Prop("title", Leaf("France Wine " + "Regions: " + "Tourism-Transport " + "Convergence"),
    Prop("subtitle", Leaf("Strategic " + "Partnership " + "Opportunities + " + "Vulnerability " + "Assessment " + "Across Wine " + "Tourism " + "Ecosystem"),
    Prop("methodology", Leaf("Methodology: " + "Gallego & Font " + "(2019) + " + "Cross-Sector " + "Convergence " + "Analysis"),
    NoProps)))

  const EnControls: Props :=
    Prop("region", Leaf("Region"),
    Prop("analysisView", Leaf("Analysis View"),
    Prop("convergence", Leaf("Convergence"),
    Prop("vulnerability", Leaf("Vulnerability"),
    Prop("vulnerabilityIndex", Leaf("Vulnerability " + "Index"),
    Prop("weak", Leaf("Weak (Optimistic)"),
    Prop("mixed", Leaf("Mixed (Realistic)"),
    Prop("strong", Leaf("Strong " + "(Pessimistic)"),
    Prop("composite", Leaf("Composite View"),
    NoProps)))))))))

  const EnRegions: Props :=
    Prop("alsace", Leaf("Premium white " + "wines & cycling " + "routes"),
    Prop("bordeaux", Leaf("International " + "wine prestige & " + "aviation access"),
    Prop("burgundy", Leaf("Terroir " + "excellence & " + "rail " + "connectivity"),
    Prop("champagne", Leaf("Luxury tourism " + "& proximity to " + "Paris"),
    Prop("languedoc", Leaf("Value wines & " + "Mediterranean " + "access"),
    Prop("loire", Leaf("Châteaux " + "tourism & " + "cycling " + "infrastructure"),
    Prop("provence", Leaf("Rosé wines & " + "luxury tourism"),
    Prop("rhone", Leaf("Diverse " + "terroirs & " + "transport " + "corridors"),
    NoProps))))))))

  const EnRegionDescriptions: Props := Prop("regions", Branch(EnRegions), NoProps)

  const EnCharts: Props :=
    Prop("transportTourismConvergence", Leaf("Transport-Tourism " + "Convergence " + "Analysis"),
    Prop("howToRead", Leaf("How to Read " + "This Analysis:"),
    Prop("xAxis", Leaf("X-Axis " + "(Vulnerability): " + "Risk of " + "disruption - " + "lower is better"),
    Prop("yAxis", Leaf("Y-Axis " + "(Partnership " + "Potential): " + "Strategic " + "collaboration " + "opportunity"),
    Prop("idealPosition", Leaf("Ideal Position: " + "Bottom-right " + "(low " + "vulnerability + " + "high " + "partnerships)"),
    Prop("dataStatus", Leaf("Data Status: " + "Illustrative " + "framework " + "pending real " + "data integration"),
    NoProps))))))

  const EnDataStatus: Props :=
    Prop("tourismSectorOpportunities", Leaf("Tourism Sector " + "Opportunities"),
    Prop("dataStatusNotice", Leaf("Data Status: " + "Framework " + "demonstration " + "with " + "illustrative " + "percentages. " + "Requires " + "integration " + "with official " + "French tourism " + "statistics " + "(UNWTO, INSEE)."),
    NoProps))

  const EnTourismTypes: Props :=
    Prop("wineToursim", Leaf("Wine Tourism"),
    Prop("gastronomy", Leaf("Gastronomy"),
    Prop("cultural", Leaf("Cultural"),
    Prop("adventureNature", Leaf("Adventure/Nature"),
    Prop("business", Leaf("Business"),
    Prop("healthWellness", Leaf("Health/Wellness"),
    Prop("religious", Leaf("Religious"),
    NoProps)))))))

  const EnVulnerabilityMethod: Props :=
    Prop("vulnerabilityIndexGallego", Leaf("Vulnerability " + "Index (Gallego " + "& Font Method)"),
    Prop("vulnerabilityCalculation", Leaf("Vulnerability " + "Calculation " + "Method:"),
    Prop("indicators", Leaf("Indicators: " + "Market " + "concentration + " + "Seasonal " + "dependency + " + "Transport mode " + "concentration"),
    Prop("weakIndex", Leaf("Weak Index: " + "Average of " + "indicators " + "(assumes full " + "compensation " + "between " + "strengths/weaknesses)"),
    Prop("strongIndex", Leaf("Strong Index: " + "Maximum " + "indicator value " + "(no " + "compensation - " + "worst case " + "scenario)"),
    Prop("mixedIndex", Leaf("Mixed Index: " + "70% Weak + 30% " + "Strong " + "(realistic " + "balanced " + "assessment)"),
    NoProps))))))

  const EnIndicatorViews: Props :=
    Prop("detailedIndicators", Leaf("Detailed " + "Indicators"),
    Prop("riskAdjustedPartnerships", Leaf("Risk-Adjusted " + "Partnerships"),
    NoProps))

  const EnRiskLevels: Props :=
    Prop("low", Leaf("Low"),
    Prop("medium", Leaf("Medium"),
    Prop("high", Leaf("High"),
    NoProps)))

  const EnStatsLabels: Props :=
    Prop("concentration", Leaf("Concentration"),
    Prop("growth", Leaf("Growth"),
    Prop("partnerships", Leaf("Partnerships"),
    Prop("risk", Leaf("Risk"),
    Prop("sustainability", Leaf("Sustainability"),
    NoProps)))))

  const EnStrategy: Props :=
    Prop("strategicFramework", Leaf("Strategic " + "Framework for " + "Wine " + "Tourism-Transport " + "Convergence"),
    Prop("frameworkDescription", Leaf("This dashboard " + "demonstrates " + "the integration " + "of academic " + "vulnerability " + "assessment " + "(Gallego & Font " + "2019) with " + "cross-sector " + "partnership " + "analysis for " + "French wine " + "regions."),
    Prop("dataIntegrationRequirements", Leaf("Data " + "Integration " + "Requirements:"),
    NoProps)))

  const EnFooter: Props :=
    Prop("footerText", Leaf("Advanced " + "tourism-transport " + "convergence " + "analysis " + "combining " + "business " + "strategy with " + "academic rigor"),
    Prop("footerMethodology", Leaf("Methodology: " + "Gallego & Font " + "(2019) " + "vulnerability " + "framework + " + "cross-sector " + "partnership " + "mapping"),
    NoProps))

  const EnBlocks: seq<Props> := [
    EnHeader, EnControls, EnRegionDescriptions, EnCharts,
    EnDataStatus, EnTourismTypes, EnVulnerabilityMethod, EnIndicatorViews,
    EnRiskLevels, EnStatsLabels, EnStrategy, EnFooter]

  const EnTable: Node := Branch(Flatten(EnBlocks))

  // The fr table (src/hooks/useTranslation.ts:89-169), one constant per block.

  const FrHeader: Props :=
    Prop("title", Leaf("Régions " + "Viticoles de " + "France : " + "Convergence " + "Tourisme-Transport"),
    Prop("subtitle", Leaf("Opportunités de " + "Partenariats " + "Stratégiques + " + "Évaluation de " + "Vulnérabilité à " + "travers " + "l'Écosystème du " + "Tourisme " + "Viticole"),
    Prop("methodology", Leaf("Méthodologie : " + "Gallego & Font " + "(2019) + " + "Analyse de " + "Convergence " + "Inter-Sectorielle"),
    NoProps)))

  const FrControls: Props :=
    Prop("region", Leaf("Région"),
    Prop("analysisView", Leaf("Vue d'Analyse"),
    Prop("convergence", Leaf("Convergence"),
    Prop("vulnerability", Leaf("Vulnérabilité"),
    Prop("vulnerabilityIndex", Leaf("Indice de " + "Vulnérabilité"),
    Prop("weak", Leaf("Faible (Optimiste)"),
    Prop("mixed", Leaf("Mixte (Réaliste)"),
    Prop("strong", Leaf("Fort (Pessimiste)"),
    Prop("composite", Leaf("Vue Composite"),
    NoProps)))))))))

  const FrRegions: Props :=
    Prop("alsace", Leaf("Vins blancs " + "premium & " + "circuits " + "cyclables"),
    Prop("bordeaux", Leaf("Prestige " + "viticole " + "international & " + "accès aérien"),
    Prop("burgundy", Leaf("Excellence du " + "terroir & " + "connectivité " + "ferroviaire"),
    Prop("champagne", Leaf("Tourisme de " + "luxe & " + "proximité de " + "Paris"),
    Prop("languedoc", Leaf("Vins de valeur " + "& accès " + "méditerranéen"),
    Prop("loire", Leaf("Tourisme " + "châteaux & " + "infrastructure " + "cyclable"),
    Prop("provence", Leaf("Vins rosés & " + "tourisme de luxe"),
    Prop("rhone", Leaf("Terroirs " + "diversifiés & " + "corridors de " + "transport"),
    NoProps))))))))

  const FrRegionDescriptions: Props := Prop("regions", Branch(FrRegions), NoProps)

  const FrCharts: Props :=
    Prop("transportTourismConvergence", Leaf("Analyse de " + "Convergence " + "Transport-Tourisme"),
    Prop("howToRead", Leaf("Comment Lire " + "Cette Analyse :"),
    Prop("xAxis", Leaf("Axe X " + "(Vulnérabilité) " + ": Risque de " + "perturbation - " + "plus bas est " + "mieux"),
    Prop("yAxis", Leaf("Axe Y " + "(Potentiel de " + "Partenariat) : " + "Opportunité de " + "collaboration " + "stratégique"),
    Prop("idealPosition", Leaf("Position Idéale " + ": En bas à " + "droite (faible " + "vulnérabilité + " + "partenariats " + "élevés)"),
    Prop("dataStatus", Leaf("Statut des " + "Données : Cadre " + "illustratif en " + "attente " + "d'intégration " + "de données " + "réelles"),
    NoProps))))))

  const FrDataStatus: Props :=
    Prop("tourismSectorOpportunities", Leaf("Opportunités du " + "Secteur " + "Touristique"),
    Prop("dataStatusNotice", Leaf("Statut des " + "Données : " + "Démonstration " + "du cadre avec " + "pourcentages " + "illustratifs. " + "Nécessite " + "l'intégration " + "des " + "statistiques " + "officielles du " + "tourisme " + "français (OMT, " + "INSEE)."),
    NoProps))

  const FrTourismTypes: Props :=
    Prop("wineToursim", Leaf("Œnotourisme"),
    Prop("gastronomy", Leaf("Gastronomie"),
    Prop("cultural", Leaf("Culturel"),
    Prop("adventureNature", Leaf("Aventure/Nature"),
    Prop("business", Leaf("Affaires"),
    Prop("healthWellness", Leaf("Santé/Bien-être"),
    Prop("religious", Leaf("Religieux"),
    NoProps)))))))

  const FrVulnerabilityMethod: Props :=
    Prop("vulnerabilityIndexGallego", Leaf("Indice de " + "Vulnérabilité " + "(Méthode " + "Gallego & Font)"),
    Prop("vulnerabilityCalculation", Leaf("Méthode de " + "Calcul de " + "Vulnérabilité :"),
    Prop("indicators", Leaf("Indicateurs : " + "Concentration " + "du marché + " + "Dépendance " + "saisonnière + " + "Concentration " + "des modes de " + "transport"),
    Prop("weakIndex", Leaf("Indice Faible : " + "Moyenne des " + "indicateurs " + "(suppose une " + "compensation " + "complète entre " + "forces/faiblesses)"),
    Prop("strongIndex", Leaf("Indice Fort : " + "Valeur maximale " + "des indicateurs " + "(aucune " + "compensation - " + "scénario du " + "pire cas)"),
    Prop("mixedIndex", Leaf("Indice Mixte : " + "70% Faible + " + "30% Fort " + "(évaluation " + "équilibrée " + "réaliste)"),
    NoProps))))))

  const FrIndicatorViews: Props :=
    Prop("detailedIndicators", Leaf("Indicateurs " + "Détaillés"),
    Prop("riskAdjustedPartnerships", Leaf("Partenariats " + "Ajustés au " + "Risque"),
    NoProps))

  const FrRiskLevels: Props :=
    Prop("low", Leaf("Faible"),
    Prop("medium", Leaf("Moyen"),
    Prop("high", Leaf("Élevé"),
    NoProps)))

  const FrStatsLabels: Props :=
    Prop("concentration", Leaf("Concentration"),
    Prop("growth", Leaf("Croissance"),
    Prop("partnerships", Leaf("Partenariats"),
    Prop("risk", Leaf("Risque"),
    Prop("sustainability", Leaf("Durabilité"),
    NoProps)))))

  const FrStrategy: Props :=
    Prop("strategicFramework", Leaf("Cadre " + "Stratégique " + "pour la " + "Convergence " + "Œnotourisme-Transport"),
    Prop("frameworkDescription", Leaf("Ce tableau de " + "bord démontre " + "l'intégration " + "de l'évaluation " + "académique de " + "vulnérabilité " + "(Gallego & Font " + "2019) avec " + "l'analyse de " + "partenariat " + "inter-sectoriel " + "pour les " + "régions " + "viticoles " + "françaises."),
    Prop("dataIntegrationRequirements", Leaf("Exigences " + "d'Intégration " + "des Données :"),
    NoProps)))

  const FrFooter: Props :=
    Prop("footerText", Leaf("Analyse avancée " + "de convergence " + "tourisme-transport " + "combinant " + "stratégie " + "d'entreprise et " + "rigueur " + "académique"),
    Prop("footerMethodology", Leaf("Méthodologie : " + "Cadre de " + "vulnérabilité " + "Gallego & Font " + "(2019) + " + "cartographie de " + "partenariat " + "inter-sectoriel"),
    NoProps))

  const FrBlocks: seq<Props> := [
    FrHeader, FrControls, FrRegionDescriptions, FrCharts,
    FrDataStatus, FrTourismTypes, FrVulnerabilityMethod, FrIndicatorViews,
    FrRiskLevels, FrStatsLabels, FrStrategy, FrFooter]

  const FrTable: Node := Branch(Flatten(FrBlocks))

  // The es table (src/hooks/useTranslation.ts:171-251), one constant per block.

  const EsHeader: Props :=
    Prop("title", Leaf("Regiones " + "Vitivinícolas " + "de Francia: " + "Convergencia " + "Turismo-Transporte"),
    Prop("subtitle", Leaf("Oportunidades " + "de Asociaciones " + "Estratégicas + " + "Evaluación de " + "Vulnerabilidad " + "en el " + "Ecosistema del " + "Turismo Vinícola"),
    Prop("methodology", Leaf("Metodología: " + "Gallego & Font " + "(2019) + " + "Análisis de " + "Convergencia " + "Inter-Sectorial"),
    NoProps)))

  const EsControls: Props :=
    Prop("region", Leaf("Región"),
    Prop("analysisView", Leaf("Vista de Análisis"),
    Prop("convergence", Leaf("Convergencia"),
    Prop("vulnerability", Leaf("Vulnerabilidad"),
    Prop("vulnerabilityIndex", Leaf("Índice de " + "Vulnerabilidad"),
    Prop("weak", Leaf("Débil (Optimista)"),
    Prop("mixed", Leaf("Mixto (Realista)"),
    Prop("strong", Leaf("Fuerte (Pesimista)"),
    Prop("composite", Leaf("Vista Compuesta"),
    NoProps)))))))))

  const EsRegions: Props :=
    Prop("alsace", Leaf("Vinos blancos " + "premium & rutas " + "ciclistas"),
    Prop("bordeaux", Leaf("Prestigio " + "vinícola " + "internacional & " + "acceso aéreo"),
    Prop("burgundy", Leaf("Excelencia del " + "terroir & " + "conectividad " + "ferroviaria"),
    Prop("champagne", Leaf("Turismo de lujo " + "& proximidad a " + "París"),
    Prop("languedoc", Leaf("Vinos de valor " + "& acceso " + "mediterráneo"),
    Prop("loire", Leaf("Turismo de " + "castillos & " + "infraestructura " + "ciclista"),
    Prop("provence", Leaf("Vinos rosados & " + "turismo de lujo"),
    Prop("rhone", Leaf("Terroirs " + "diversificados " + "& corredores de " + "transporte"),
    NoProps))))))))

  const EsRegionDescriptions: Props := Prop("regions", Branch(EsRegions), NoProps)

  const EsCharts: Props :=
    Prop("transportTourismConvergence", Leaf("Análisis de " + "Convergencia " + "Transporte-Turismo"),
    Prop("howToRead", Leaf("Cómo Leer Este " + "Análisis:"),
    Prop("xAxis", Leaf("Eje X " + "(Vulnerabilidad): " + "Riesgo de " + "interrupción - " + "menor es mejor"),
    Prop("yAxis", Leaf("Eje Y " + "(Potencial de " + "Asociación): " + "Oportunidad de " + "colaboración " + "estratégica"),
    Prop("idealPosition", Leaf("Posición Ideal: " + "Abajo a la " + "derecha (baja " + "vulnerabilidad " + "+ altas " + "asociaciones)"),
    Prop("dataStatus", Leaf("Estado de " + "Datos: Marco " + "ilustrativo " + "pendiente de " + "integración de " + "datos reales"),
    NoProps))))))

  const EsDataStatus: Props :=
    Prop("tourismSectorOpportunities", Leaf("Oportunidades " + "del Sector " + "Turístico"),
    Prop("dataStatusNotice", Leaf("Estado de " + "Datos: " + "Demostración " + "del marco con " + "porcentajes " + "ilustrativos. " + "Requiere " + "integración con " + "estadísticas " + "oficiales del " + "turismo francés " + "(OMT, INSEE)."),
    NoProps))

  const EsTourismTypes: Props :=
    Prop("wineToursim", Leaf("Enoturismo"),
    Prop("gastronomy", Leaf("Gastronomía"),
    Prop("cultural", Leaf("Cultural"),
    Prop("adventureNature", Leaf("Aventura/Naturaleza"),
    Prop("business", Leaf("Negocios"),
    Prop("healthWellness", Leaf("Salud/Bienestar"),
    Prop("religious", Leaf("Religioso"),
    NoProps)))))))

  const EsVulnerabilityMethod: Props :=
    Prop("vulnerabilityIndexGallego", Leaf("Índice de " + "Vulnerabilidad " + "(Método Gallego " + "& Font)"),
    Prop("vulnerabilityCalculation", Leaf("Método de " + "Cálculo de " + "Vulnerabilidad:"),
    Prop("indicators", Leaf("Indicadores: " + "Concentración " + "del mercado + " + "Dependencia " + "estacional + " + "Concentración " + "de modos de " + "transporte"),
    Prop("weakIndex", Leaf("Índice Débil: " + "Promedio de " + "indicadores " + "(asume " + "compensación " + "completa entre " + "fortalezas/debilidades)"),
    Prop("strongIndex", Leaf("Índice Fuerte: " + "Valor máximo de " + "indicadores " + "(sin " + "compensación - " + "escenario del " + "peor caso)"),
    Prop("mixedIndex", Leaf("Índice Mixto: " + "70% Débil + 30% " + "Fuerte " + "(evaluación " + "equilibrada " + "realista)"),
    NoProps))))))

  const EsIndicatorViews: Props :=
    Prop("detailedIndicators", Leaf("Indicadores " + "Detallados"),
    Prop("riskAdjustedPartnerships", Leaf("Asociaciones " + "Ajustadas al " + "Riesgo"),
    NoProps))

  const EsRiskLevels: Props :=
    Prop("low", Leaf("Bajo"),
    Prop("medium", Leaf("Medio"),
    Prop("high", Leaf("Alto"),
    NoProps)))

  const EsStatsLabels: Props :=
    Prop("concentration", Leaf("Concentración"),
    Prop("growth", Leaf("Crecimiento"),
    Prop("partnerships", Leaf("Asociaciones"),
    Prop("risk", Leaf("Riesgo"),
    Prop("sustainability", Leaf("Sostenibilidad"),
    NoProps)))))

  const EsStrategy: Props :=
    Prop("strategicFramework", Leaf("Marco " + "Estratégico " + "para la " + "Convergencia " + "Enoturismo-Transporte"),
    Prop("frameworkDescription", Leaf("Este tablero " + "demuestra la " + "integración de " + "la evaluación " + "académica de " + "vulnerabilidad " + "(Gallego & Font " + "2019) con el " + "análisis de " + "asociación " + "inter-sectorial " + "para las " + "regiones " + "vitivinícolas " + "francesas."),
    Prop("dataIntegrationRequirements", Leaf("Requisitos de " + "Integración de " + "Datos:"),
    NoProps)))

  const EsFooter: Props :=
    Prop("footerText", Leaf("Análisis " + "avanzado de " + "convergencia " + "turismo-transporte " + "combinando " + "estrategia " + "empresarial con " + "rigor académico"),
    Prop("footerMethodology", Leaf("Metodología: " + "Marco de " + "vulnerabilidad " + "Gallego & Font " + "(2019) + mapeo " + "de asociaciones " + "inter-sectoriales"),
    NoProps))

  const EsBlocks: seq<Props> := [
    EsHeader, EsControls, EsRegionDescriptions, EsCharts,
    EsDataStatus, EsTourismTypes, EsVulnerabilityMethod, EsIndicatorViews,
    EsRiskLevels, EsStatsLabels, EsStrategy, EsFooter]

  const EsTable: Node := Branch(Flatten(EsBlocks))

  /** A block written in all three locales with the same keys and no empty text or key. */
  predicate BlockAgrees(en: Props, fr: Props, es: Props)
  {
    && WellFormedProps(en) && WellFormedProps(fr) && WellFormedProps(es)
    && SameShapeProps(en, fr) && SameShapeProps(en, es)
  }

  lemma BlockAgreesConcat(en: Props, fr: Props, es: Props, en': Props, fr': Props, es': Props)
    requires BlockAgrees(en, fr, es) && BlockAgrees(en', fr', es')
    ensures BlockAgrees(Concat(en, en'), Concat(fr, fr'), Concat(es, es'))
  {
    WellFormedConcat(en, en');
    WellFormedConcat(fr, fr');
    WellFormedConcat(es, es');
    SameShapeConcat(en, en', fr, fr');
    SameShapeConcat(en, en', es, es');
  }

  lemma {:induction false} FlattenAgrees(en: seq<Props>, fr: seq<Props>, es: seq<Props>)
    requires |fr| == |en| && |es| == |en|
    requires forall i :: 0 <= i < |en| ==> BlockAgrees(en[i], fr[i], es[i])
    ensures BlockAgrees(Flatten(en), Flatten(fr), Flatten(es))
    decreases |en|
  {
    if en != [] {
      FlattenAgrees(en[1..], fr[1..], es[1..]);
      BlockAgreesConcat(en[0], fr[0], es[0], Flatten(en[1..]), Flatten(fr[1..]), Flatten(es[1..]));
    }
  }

  /** A block agrees when its first property agrees and the rest of it does. */
  lemma ConsAgrees(en: Props, fr: Props, es: Props)
    requires en.Prop? && fr.Prop? && es.Prop?
    requires en.key != "" && fr.key == en.key && es.key == en.key
    requires WellFormed(en.value) && WellFormed(fr.value) && WellFormed(es.value)
    requires SameShape(en.value, fr.value) && SameShape(en.value, es.value)
    requires BlockAgrees(en.rest, fr.rest, es.rest)
    ensures BlockAgrees(en, fr, es)
  {
  }

  lemma HeaderAgrees()
    ensures BlockAgrees(EnHeader, FrHeader, EsHeader)
  {
    ConsAgrees(EnHeader.rest.rest, FrHeader.rest.rest, EsHeader.rest.rest);
    ConsAgrees(EnHeader.rest, FrHeader.rest, EsHeader.rest);
    ConsAgrees(EnHeader, FrHeader, EsHeader);
  }

  lemma ControlsAgrees()
    ensures BlockAgrees(EnControls, FrControls, EsControls)
  {
    ConsAgrees(EnControls.rest.rest.rest.rest.rest.rest.rest.rest, FrControls.rest.rest.rest.rest.rest.rest.rest.rest, EsControls.rest.rest.rest.rest.rest.rest.rest.rest);
    ConsAgrees(EnControls.rest.rest.rest.rest.rest.rest.rest, FrControls.rest.rest.rest.rest.rest.rest.rest, EsControls.rest.rest.rest.rest.rest.rest.rest);
    ConsAgrees(EnControls.rest.rest.rest.rest.rest.rest, FrControls.rest.rest.rest.rest.rest.rest, EsControls.rest.rest.rest.rest.rest.rest);
    ConsAgrees(EnControls.rest.rest.rest.rest.rest, FrControls.rest.rest.rest.rest.rest, EsControls.rest.rest.rest.rest.rest);
    ConsAgrees(EnControls.rest.rest.rest.rest, FrControls.rest.rest.rest.rest, EsControls.rest.rest.rest.rest);
    ConsAgrees(EnControls.rest.rest.rest, FrControls.rest.rest.rest, EsControls.rest.rest.rest);
    ConsAgrees(EnControls.rest.rest, FrControls.rest.rest, EsControls.rest.rest);
    ConsAgrees(EnControls.rest, FrControls.rest, EsControls.rest);
    ConsAgrees(EnControls, FrControls, EsControls);
  }

  lemma RegionDescriptionsAgrees()
    ensures BlockAgrees(EnRegionDescriptions, FrRegionDescriptions, EsRegionDescriptions)
  {
    ConsAgrees(EnRegions.rest.rest.rest.rest.rest.rest.rest, FrRegions.rest.rest.rest.rest.rest.rest.rest, EsRegions.rest.rest.rest.rest.rest.rest.rest);
    ConsAgrees(EnRegions.rest.rest.rest.rest.rest.rest, FrRegions.rest.rest.rest.rest.rest.rest, EsRegions.rest.rest.rest.rest.rest.rest);
    ConsAgrees(EnRegions.rest.rest.rest.rest.rest, FrRegions.rest.rest.rest.rest.rest, EsRegions.rest.rest.rest.rest.rest);
    ConsAgrees(EnRegions.rest.rest.rest.rest, FrRegions.rest.rest.rest.rest, EsRegions.rest.rest.rest.rest);
    ConsAgrees(EnRegions.rest.rest.rest, FrRegions.rest.rest.rest, EsRegions.rest.rest.rest);
    ConsAgrees(EnRegions.rest.rest, FrRegions.rest.rest, EsRegions.rest.rest);
    ConsAgrees(EnRegions.rest, FrRegions.rest, EsRegions.rest);
    ConsAgrees(EnRegions, FrRegions, EsRegions);
    ConsAgrees(EnRegionDescriptions, FrRegionDescriptions, EsRegionDescriptions);
  }

  lemma ChartsAgrees()
    ensures BlockAgrees(EnCharts, FrCharts, EsCharts)
  {
    ConsAgrees(EnCharts.rest.rest.rest.rest.rest, FrCharts.rest.rest.rest.rest.rest, EsCharts.rest.rest.rest.rest.rest);
    ConsAgrees(EnCharts.rest.rest.rest.rest, FrCharts.rest.rest.rest.rest, EsCharts.rest.rest.rest.rest);
    ConsAgrees(EnCharts.rest.rest.rest, FrCharts.rest.rest.rest, EsCharts.rest.rest.rest);
    ConsAgrees(EnCharts.rest.rest, FrCharts.rest.rest, EsCharts.rest.rest);
    ConsAgrees(EnCharts.rest, FrCharts.rest, EsCharts.rest);
    ConsAgrees(EnCharts, FrCharts, EsCharts);
  }

  lemma DataStatusAgrees()
    ensures BlockAgrees(EnDataStatus, FrDataStatus, EsDataStatus)
  {
    ConsAgrees(EnDataStatus.rest, FrDataStatus.rest, EsDataStatus.rest);
    ConsAgrees(EnDataStatus, FrDataStatus, EsDataStatus);
  }

  lemma TourismTypesAgrees()
    ensures BlockAgrees(EnTourismTypes, FrTourismTypes, EsTourismTypes)
  {
    ConsAgrees(EnTourismTypes.rest.rest.rest.rest.rest.rest, FrTourismTypes.rest.rest.rest.rest.rest.rest, EsTourismTypes.rest.rest.rest.rest.rest.rest);
    ConsAgrees(EnTourismTypes.rest.rest.rest.rest.rest, FrTourismTypes.rest.rest.rest.rest.rest, EsTourismTypes.rest.rest.rest.rest.rest);
    ConsAgrees(EnTourismTypes.rest.rest.rest.rest, FrTourismTypes.rest.rest.rest.rest, EsTourismTypes.rest.rest.rest.rest);
    ConsAgrees(EnTourismTypes.rest.rest.rest, FrTourismTypes.rest.rest.rest, EsTourismTypes.rest.rest.rest);
    ConsAgrees(EnTourismTypes.rest.rest, FrTourismTypes.rest.rest, EsTourismTypes.rest.rest);
    ConsAgrees(EnTourismTypes.rest, FrTourismTypes.rest, EsTourismTypes.rest);
    ConsAgrees(EnTourismTypes, FrTourismTypes, EsTourismTypes);
  }

  lemma VulnerabilityMethodAgrees()
    ensures BlockAgrees(EnVulnerabilityMethod, FrVulnerabilityMethod, EsVulnerabilityMethod)
  {
    ConsAgrees(EnVulnerabilityMethod.rest.rest.rest.rest.rest, FrVulnerabilityMethod.rest.rest.rest.rest.rest, EsVulnerabilityMethod.rest.rest.rest.rest.rest);
    ConsAgrees(EnVulnerabilityMethod.rest.rest.rest.rest, FrVulnerabilityMethod.rest.rest.rest.rest, EsVulnerabilityMethod.rest.rest.rest.rest);
    ConsAgrees(EnVulnerabilityMethod.rest.rest.rest, FrVulnerabilityMethod.rest.rest.rest, EsVulnerabilityMethod.rest.rest.rest);
    ConsAgrees(EnVulnerabilityMethod.rest.rest, FrVulnerabilityMethod.rest.rest, EsVulnerabilityMethod.rest.rest);
    ConsAgrees(EnVulnerabilityMethod.rest, FrVulnerabilityMethod.rest, EsVulnerabilityMethod.rest);
    ConsAgrees(EnVulnerabilityMethod, FrVulnerabilityMethod, EsVulnerabilityMethod);
  }

  lemma IndicatorViewsAgrees()
    ensures BlockAgrees(EnIndicatorViews, FrIndicatorViews, EsIndicatorViews)
  {
    ConsAgrees(EnIndicatorViews.rest, FrIndicatorViews.rest, EsIndicatorViews.rest);
    ConsAgrees(EnIndicatorViews, FrIndicatorViews, EsIndicatorViews);
  }

  lemma RiskLevelsAgrees()
    ensures BlockAgrees(EnRiskLevels, FrRiskLevels, EsRiskLevels)
  {
    ConsAgrees(EnRiskLevels.rest.rest, FrRiskLevels.rest.rest, EsRiskLevels.rest.rest);
    ConsAgrees(EnRiskLevels.rest, FrRiskLevels.rest, EsRiskLevels.rest);
    ConsAgrees(EnRiskLevels, FrRiskLevels, EsRiskLevels);
  }

  lemma StatsLabelsAgrees()
    ensures BlockAgrees(EnStatsLabels, FrStatsLabels, EsStatsLabels)
  {
    ConsAgrees(EnStatsLabels.rest.rest.rest.rest, FrStatsLabels.rest.rest.rest.rest, EsStatsLabels.rest.rest.rest.rest);
    ConsAgrees(EnStatsLabels.rest.rest.rest, FrStatsLabels.rest.rest.rest, EsStatsLabels.rest.rest.rest);
    ConsAgrees(EnStatsLabels.rest.rest, FrStatsLabels.rest.rest, EsStatsLabels.rest.rest);
    ConsAgrees(EnStatsLabels.rest, FrStatsLabels.rest, EsStatsLabels.rest);
    ConsAgrees(EnStatsLabels, FrStatsLabels, EsStatsLabels);
  }

  lemma StrategyAgrees()
    ensures BlockAgrees(EnStrategy, FrStrategy, EsStrategy)
  {
    ConsAgrees(EnStrategy.rest.rest, FrStrategy.rest.rest, EsStrategy.rest.rest);
    ConsAgrees(EnStrategy.rest, FrStrategy.rest, EsStrategy.rest);
    ConsAgrees(EnStrategy, FrStrategy, EsStrategy);
  }

  lemma FooterAgrees()
    ensures BlockAgrees(EnFooter, FrFooter, EsFooter)
  {
    ConsAgrees(EnFooter.rest, FrFooter.rest, EsFooter.rest);
    ConsAgrees(EnFooter, FrFooter, EsFooter);
  }

  // The keys of each block of the en table, in order.

  lemma EnHeaderKeys()
    ensures Keys(EnHeader) == ["title", "subtitle", "methodology"]
  {
    assert Keys(EnHeader.rest.rest) == ["methodology"];
    assert Keys(EnHeader.rest) == ["subtitle", "methodology"];
  }

  lemma EnControlsKeys()
    ensures Keys(EnControls) == ["region", "analysisView", "convergence", "vulnerability", "vulnerabilityIndex", "weak", "mixed", "strong", "composite"]
    ensures Keys(EnControls.rest) == ["analysisView", "convergence", "vulnerability", "vulnerabilityIndex", "weak", "mixed", "strong", "composite"]
  {
    assert Keys(EnControls.rest.rest.rest.rest.rest.rest.rest.rest) == ["composite"];
    assert Keys(EnControls.rest.rest.rest.rest.rest.rest.rest) == ["strong", "composite"];
    assert Keys(EnControls.rest.rest.rest.rest.rest.rest) == ["mixed", "strong", "composite"];
    assert Keys(EnControls.rest.rest.rest.rest.rest) == ["weak", "mixed", "strong", "composite"];
    assert Keys(EnControls.rest.rest.rest.rest) == ["vulnerabilityIndex", "weak", "mixed", "strong", "composite"];
    assert Keys(EnControls.rest.rest.rest) == ["vulnerability", "vulnerabilityIndex", "weak", "mixed", "strong", "composite"];
    assert Keys(EnControls.rest.rest) == ["convergence", "vulnerability", "vulnerabilityIndex", "weak", "mixed", "strong", "composite"];
    assert Keys(EnControls.rest) == ["analysisView", "convergence", "vulnerability", "vulnerabilityIndex", "weak", "mixed", "strong", "composite"];
  }

  lemma EnRegionsKeys()
    ensures Keys(EnRegions) == ["alsace", "bordeaux", "burgundy", "champagne", "languedoc", "loire", "provence", "rhone"]
    ensures Keys(EnRegions.rest) == ["bordeaux", "burgundy", "champagne", "languedoc", "loire", "provence", "rhone"]
  {
    assert Keys(EnRegions.rest.rest.rest.rest.rest.rest.rest) == ["rhone"];
    assert Keys(EnRegions.rest.rest.rest.rest.rest.rest) == ["provence", "rhone"];
    assert Keys(EnRegions.rest.rest.rest.rest.rest) == ["loire", "provence", "rhone"];
    assert Keys(EnRegions.rest.rest.rest.rest) == ["languedoc", "loire", "provence", "rhone"];
    assert Keys(EnRegions.rest.rest.rest) == ["champagne", "languedoc", "loire", "provence", "rhone"];
    assert Keys(EnRegions.rest.rest) == ["burgundy", "champagne", "languedoc", "loire", "provence", "rhone"];
    assert Keys(EnRegions.rest) == ["bordeaux", "burgundy", "champagne", "languedoc", "loire", "provence", "rhone"];
  }

  lemma EnRegionDescriptionsKeys()
    ensures Keys(EnRegionDescriptions) == ["regions"]
  {
  }

  lemma EnChartsKeys()
    ensures Keys(EnCharts) == ["transportTourismConvergence", "howToRead", "xAxis", "yAxis", "idealPosition", "dataStatus"]
  {
    assert Keys(EnCharts.rest.rest.rest.rest.rest) == ["dataStatus"];
    assert Keys(EnCharts.rest.rest.rest.rest) == ["idealPosition", "dataStatus"];
    assert Keys(EnCharts.rest.rest.rest) == ["yAxis", "idealPosition", "dataStatus"];
    assert Keys(EnCharts.rest.rest) == ["xAxis", "yAxis", "idealPosition", "dataStatus"];
    assert Keys(EnCharts.rest) == ["howToRead", "xAxis", "yAxis", "idealPosition", "dataStatus"];
  }

  lemma EnDataStatusKeys()
    ensures Keys(EnDataStatus) == ["tourismSectorOpportunities", "dataStatusNotice"]
  {
    assert Keys(EnDataStatus.rest) == ["dataStatusNotice"];
  }

  lemma EnTourismTypesKeys()
    ensures Keys(EnTourismTypes) == ["wineToursim", "gastronomy", "cultural", "adventureNature", "business", "healthWellness", "religious"]
  {
    assert Keys(EnTourismTypes.rest.rest.rest.rest.rest.rest) == ["religious"];
    assert Keys(EnTourismTypes.rest.rest.rest.rest.rest) == ["healthWellness", "religious"];
    assert Keys(EnTourismTypes.rest.rest.rest.rest) == ["business", "healthWellness", "religious"];
    assert Keys(EnTourismTypes.rest.rest.rest) == ["adventureNature", "business", "healthWellness", "religious"];
    assert Keys(EnTourismTypes.rest.rest) == ["cultural", "adventureNature", "business", "healthWellness", "religious"];
    assert Keys(EnTourismTypes.rest) == ["gastronomy", "cultural", "adventureNature", "business", "healthWellness", "religious"];
  }

  lemma EnVulnerabilityMethodKeys()
    ensures Keys(EnVulnerabilityMethod) == ["vulnerabilityIndexGallego", "vulnerabilityCalculation", "indicators", "weakIndex", "strongIndex", "mixedIndex"]
  {
    assert Keys(EnVulnerabilityMethod.rest.rest.rest.rest.rest) == ["mixedIndex"];
    assert Keys(EnVulnerabilityMethod.rest.rest.rest.rest) == ["strongIndex", "mixedIndex"];
    assert Keys(EnVulnerabilityMethod.rest.rest.rest) == ["weakIndex", "strongIndex", "mixedIndex"];
    assert Keys(EnVulnerabilityMethod.rest.rest) == ["indicators", "weakIndex", "strongIndex", "mixedIndex"];
    assert Keys(EnVulnerabilityMethod.rest) == ["vulnerabilityCalculation", "indicators", "weakIndex", "strongIndex", "mixedIndex"];
  }

  lemma EnIndicatorViewsKeys()
    ensures Keys(EnIndicatorViews) == ["detailedIndicators", "riskAdjustedPartnerships"]
  {
    assert Keys(EnIndicatorViews.rest) == ["riskAdjustedPartnerships"];
  }

  lemma EnRiskLevelsKeys()
    ensures Keys(EnRiskLevels) == ["low", "medium", "high"]
  {
    assert Keys(EnRiskLevels.rest.rest) == ["high"];
    assert Keys(EnRiskLevels.rest) == ["medium", "high"];
  }

  lemma EnStatsLabelsKeys()
    ensures Keys(EnStatsLabels) == ["concentration", "growth", "partnerships", "risk", "sustainability"]
  {
    assert Keys(EnStatsLabels.rest.rest.rest.rest) == ["sustainability"];
    assert Keys(EnStatsLabels.rest.rest.rest) == ["risk", "sustainability"];
    assert Keys(EnStatsLabels.rest.rest) == ["partnerships", "risk", "sustainability"];
    assert Keys(EnStatsLabels.rest) == ["growth", "partnerships", "risk", "sustainability"];
  }

  lemma EnStrategyKeys()
    ensures Keys(EnStrategy) == ["strategicFramework", "frameworkDescription", "dataIntegrationRequirements"]
  {
    assert Keys(EnStrategy.rest.rest) == ["dataIntegrationRequirements"];
    assert Keys(EnStrategy.rest) == ["frameworkDescription", "dataIntegrationRequirements"];
  }

  lemma EnFooterKeys()
    ensures Keys(EnFooter) == ["footerText", "footerMethodology"]
  {
    assert Keys(EnFooter.rest) == ["footerMethodology"];
  }

  // The keys of each block of the fr table, in order.

  lemma FrHeaderKeys()
    ensures Keys(FrHeader) == ["title", "subtitle", "methodology"]
  {
    assert Keys(FrHeader.rest.rest) == ["methodology"];
    assert Keys(FrHeader.rest) == ["subtitle", "methodology"];
  }

  lemma FrControlsKeys()
    ensures Keys(FrControls) == ["region", "analysisView", "convergence", "vulnerability", "vulnerabilityIndex", "weak", "mixed", "strong", "composite"]
    ensures Keys(FrControls.rest) == ["analysisView", "convergence", "vulnerability", "vulnerabilityIndex", "weak", "mixed", "strong", "composite"]
  {
    assert Keys(FrControls.rest.rest.rest.rest.rest.rest.rest.rest) == ["composite"];
    assert Keys(FrControls.rest.rest.rest.rest.rest.rest.rest) == ["strong", "composite"];
    assert Keys(FrControls.rest.rest.rest.rest.rest.rest) == ["mixed", "strong", "composite"];
    assert Keys(FrControls.rest.rest.rest.rest.rest) == ["weak", "mixed", "strong", "composite"];
    assert Keys(FrControls.rest.rest.rest.rest) == ["vulnerabilityIndex", "weak", "mixed", "strong", "composite"];
    assert Keys(FrControls.rest.rest.rest) == ["vulnerability", "vulnerabilityIndex", "weak", "mixed", "strong", "composite"];
    assert Keys(FrControls.rest.rest) == ["convergence", "vulnerability", "vulnerabilityIndex", "weak", "mixed", "strong", "composite"];
    assert Keys(FrControls.rest) == ["analysisView", "convergence", "vulnerability", "vulnerabilityIndex", "weak", "mixed", "strong", "composite"];
  }

  lemma FrRegionsKeys()
    ensures Keys(FrRegions) == ["alsace", "bordeaux", "burgundy", "champagne", "languedoc", "loire", "provence", "rhone"]
    ensures Keys(FrRegions.rest) == ["bordeaux", "burgundy", "champagne", "languedoc", "loire", "provence", "rhone"]
  {
    assert Keys(FrRegions.rest.rest.rest.rest.rest.rest.rest) == ["rhone"];
    assert Keys(FrRegions.rest.rest.rest.rest.rest.rest) == ["provence", "rhone"];
    assert Keys(FrRegions.rest.rest.rest.rest.rest) == ["loire", "provence", "rhone"];
    assert Keys(FrRegions.rest.rest.rest.rest) == ["languedoc", "loire", "provence", "rhone"];
    assert Keys(FrRegions.rest.rest.rest) == ["champagne", "languedoc", "loire", "provence", "rhone"];
    assert Keys(FrRegions.rest.rest) == ["burgundy", "champagne", "languedoc", "loire", "provence", "rhone"];
    assert Keys(FrRegions.rest) == ["bordeaux", "burgundy", "champagne", "languedoc", "loire", "provence", "rhone"];
  }

  lemma FrRegionDescriptionsKeys()
    ensures Keys(FrRegionDescriptions) == ["regions"]
  {
  }

  lemma FrChartsKeys()
    ensures Keys(FrCharts) == ["transportTourismConvergence", "howToRead", "xAxis", "yAxis", "idealPosition", "dataStatus"]
  {
    assert Keys(FrCharts.rest.rest.rest.rest.rest) == ["dataStatus"];
    assert Keys(FrCharts.rest.rest.rest.rest) == ["idealPosition", "dataStatus"];
    assert Keys(FrCharts.rest.rest.rest) == ["yAxis", "idealPosition", "dataStatus"];
    assert Keys(FrCharts.rest.rest) == ["xAxis", "yAxis", "idealPosition", "dataStatus"];
    assert Keys(FrCharts.rest) == ["howToRead", "xAxis", "yAxis", "idealPosition", "dataStatus"];
  }

  lemma FrDataStatusKeys()
    ensures Keys(FrDataStatus) == ["tourismSectorOpportunities", "dataStatusNotice"]
  {
    assert Keys(FrDataStatus.rest) == ["dataStatusNotice"];
  }

  lemma FrTourismTypesKeys()
    ensures Keys(FrTourismTypes) == ["wineToursim", "gastronomy", "cultural", "adventureNature", "business", "healthWellness", "religious"]
  {
    assert Keys(FrTourismTypes.rest.rest.rest.rest.rest.rest) == ["religious"];
    assert Keys(FrTourismTypes.rest.rest.rest.rest.rest) == ["healthWellness", "religious"];
    assert Keys(FrTourismTypes.rest.rest.rest.rest) == ["business", "healthWellness", "religious"];
    assert Keys(FrTourismTypes.rest.rest.rest) == ["adventureNature", "business", "healthWellness", "religious"];
    assert Keys(FrTourismTypes.rest.rest) == ["cultural", "adventureNature", "business", "healthWellness", "religious"];
    assert Keys(FrTourismTypes.rest) == ["gastronomy", "cultural", "adventureNature", "business", "healthWellness", "religious"];
  }

  lemma FrVulnerabilityMethodKeys()
    ensures Keys(FrVulnerabilityMethod) == ["vulnerabilityIndexGallego", "vulnerabilityCalculation", "indicators", "weakIndex", "strongIndex", "mixedIndex"]
  {
    assert Keys(FrVulnerabilityMethod.rest.rest.rest.rest.rest) == ["mixedIndex"];
    assert Keys(FrVulnerabilityMethod.rest.rest.rest.rest) == ["strongIndex", "mixedIndex"];
    assert Keys(FrVulnerabilityMethod.rest.rest.rest) == ["weakIndex", "strongIndex", "mixedIndex"];
    assert Keys(FrVulnerabilityMethod.rest.rest) == ["indicators", "weakIndex", "strongIndex", "mixedIndex"];
    assert Keys(FrVulnerabilityMethod.rest) == ["vulnerabilityCalculation", "indicators", "weakIndex", "strongIndex", "mixedIndex"];
  }

  lemma FrIndicatorViewsKeys()
    ensures Keys(FrIndicatorViews) == ["detailedIndicators", "riskAdjustedPartnerships"]
  {
    assert Keys(FrIndicatorViews.rest) == ["riskAdjustedPartnerships"];
  }

  lemma FrRiskLevelsKeys()
    ensures Keys(FrRiskLevels) == ["low", "medium", "high"]
  {
    assert Keys(FrRiskLevels.rest.rest) == ["high"];
    assert Keys(FrRiskLevels.rest) == ["medium", "high"];
  }

  lemma FrStatsLabelsKeys()
    ensures Keys(FrStatsLabels) == ["concentration", "growth", "partnerships", "risk", "sustainability"]
  {
    assert Keys(FrStatsLabels.rest.rest.rest.rest) == ["sustainability"];
    assert Keys(FrStatsLabels.rest.rest.rest) == ["risk", "sustainability"];
    assert Keys(FrStatsLabels.rest.rest) == ["partnerships", "risk", "sustainability"];
    assert Keys(FrStatsLabels.rest) == ["growth", "partnerships", "risk", "sustainability"];
  }

  lemma FrStrategyKeys()
    ensures Keys(FrStrategy) == ["strategicFramework", "frameworkDescription", "dataIntegrationRequirements"]
  {
    assert Keys(FrStrategy.rest.rest) == ["dataIntegrationRequirements"];
    assert Keys(FrStrategy.rest) == ["frameworkDescription", "dataIntegrationRequirements"];
  }

  lemma FrFooterKeys()
    ensures Keys(FrFooter) == ["footerText", "footerMethodology"]
  {
    assert Keys(FrFooter.rest) == ["footerMethodology"];
  }

  // The keys of each block of the es table, in order.

  lemma EsHeaderKeys()
    ensures Keys(EsHeader) == ["title", "subtitle", "methodology"]
  {
    assert Keys(EsHeader.rest.rest) == ["methodology"];
    assert Keys(EsHeader.rest) == ["subtitle", "methodology"];
  }

  lemma EsControlsKeys()
    ensures Keys(EsControls) == ["region", "analysisView", "convergence", "vulnerability", "vulnerabilityIndex", "weak", "mixed", "strong", "composite"]
    ensures Keys(EsControls.rest) == ["analysisView", "convergence", "vulnerability", "vulnerabilityIndex", "weak", "mixed", "strong", "composite"]
  {
    assert Keys(EsControls.rest.rest.rest.rest.rest.rest.rest.rest) == ["composite"];
    assert Keys(EsControls.rest.rest.rest.rest.rest.rest.rest) == ["strong", "composite"];
    assert Keys(EsControls.rest.rest.rest.rest.rest.rest) == ["mixed", "strong", "composite"];
    assert Keys(EsControls.rest.rest.rest.rest.rest) == ["weak", "mixed", "strong", "composite"];
    assert Keys(EsControls.rest.rest.rest.rest) == ["vulnerabilityIndex", "weak", "mixed", "strong", "composite"];
    assert Keys(EsControls.rest.rest.rest) == ["vulnerability", "vulnerabilityIndex", "weak", "mixed", "strong", "composite"];
    assert Keys(EsControls.rest.rest) == ["convergence", "vulnerability", "vulnerabilityIndex", "weak", "mixed", "strong", "composite"];
    assert Keys(EsControls.rest) == ["analysisView", "convergence", "vulnerability", "vulnerabilityIndex", "weak", "mixed", "strong", "composite"];
  }

  lemma EsRegionsKeys()
    ensures Keys(EsRegions) == ["alsace", "bordeaux", "burgundy", "champagne", "languedoc", "loire", "provence", "rhone"]
    ensures Keys(EsRegions.rest) == ["bordeaux", "burgundy", "champagne", "languedoc", "loire", "provence", "rhone"]
  {
    assert Keys(EsRegions.rest.rest.rest.rest.rest.rest.rest) == ["rhone"];
    assert Keys(EsRegions.rest.rest.rest.rest.rest.rest) == ["provence", "rhone"];
    assert Keys(EsRegions.rest.rest.rest.rest.rest) == ["loire", "provence", "rhone"];
    assert Keys(EsRegions.rest.rest.rest.rest) == ["languedoc", "loire", "provence", "rhone"];
    assert Keys(EsRegions.rest.rest.rest) == ["champagne", "languedoc", "loire", "provence", "rhone"];
    assert Keys(EsRegions.rest.rest) == ["burgundy", "champagne", "languedoc", "loire", "provence", "rhone"];
    assert Keys(EsRegions.rest) == ["bordeaux", "burgundy", "champagne", "languedoc", "loire", "provence", "rhone"];
  }

  lemma EsRegionDescriptionsKeys()
    ensures Keys(EsRegionDescriptions) == ["regions"]
  {
  }

  lemma EsChartsKeys()
    ensures Keys(EsCharts) == ["transportTourismConvergence", "howToRead", "xAxis", "yAxis", "idealPosition", "dataStatus"]
  {
    assert Keys(EsCharts.rest.rest.rest.rest.rest) == ["dataStatus"];
    assert Keys(EsCharts.rest.rest.rest.rest) == ["idealPosition", "dataStatus"];
    assert Keys(EsCharts.rest.rest.rest) == ["yAxis", "idealPosition", "dataStatus"];
    assert Keys(EsCharts.rest.rest) == ["xAxis", "yAxis", "idealPosition", "dataStatus"];
    assert Keys(EsCharts.rest) == ["howToRead", "xAxis", "yAxis", "idealPosition", "dataStatus"];
  }

  lemma EsDataStatusKeys()
    ensures Keys(EsDataStatus) == ["tourismSectorOpportunities", "dataStatusNotice"]
  {
    assert Keys(EsDataStatus.rest) == ["dataStatusNotice"];
  }

  lemma EsTourismTypesKeys()
    ensures Keys(EsTourismTypes) == ["wineToursim", "gastronomy", "cultural", "adventureNature", "business", "healthWellness", "religious"]
  {
    assert Keys(EsTourismTypes.rest.rest.rest.rest.rest.rest) == ["religious"];
    assert Keys(EsTourismTypes.rest.rest.rest.rest.rest) == ["healthWellness", "religious"];
    assert Keys(EsTourismTypes.rest.rest.rest.rest) == ["business", "healthWellness", "religious"];
    assert Keys(EsTourismTypes.rest.rest.rest) == ["adventureNature", "business", "healthWellness", "religious"];
    assert Keys(EsTourismTypes.rest.rest) == ["cultural", "adventureNature", "business", "healthWellness", "religious"];
    assert Keys(EsTourismTypes.rest) == ["gastronomy", "cultural", "adventureNature", "business", "healthWellness", "religious"];
  }

  lemma EsVulnerabilityMethodKeys()
    ensures Keys(EsVulnerabilityMethod) == ["vulnerabilityIndexGallego", "vulnerabilityCalculation", "indicators", "weakIndex", "strongIndex", "mixedIndex"]
  {
    assert Keys(EsVulnerabilityMethod.rest.rest.rest.rest.rest) == ["mixedIndex"];
    assert Keys(EsVulnerabilityMethod.rest.rest.rest.rest) == ["strongIndex", "mixedIndex"];
    assert Keys(EsVulnerabilityMethod.rest.rest.rest) == ["weakIndex", "strongIndex", "mixedIndex"];
    assert Keys(EsVulnerabilityMethod.rest.rest) == ["indicators", "weakIndex", "strongIndex", "mixedIndex"];
    assert Keys(EsVulnerabilityMethod.rest) == ["vulnerabilityCalculation", "indicators", "weakIndex", "strongIndex", "mixedIndex"];
  }

  lemma EsIndicatorViewsKeys()
    ensures Keys(EsIndicatorViews) == ["detailedIndicators", "riskAdjustedPartnerships"]
  {
    assert Keys(EsIndicatorViews.rest) == ["riskAdjustedPartnerships"];
  }

  lemma EsRiskLevelsKeys()
    ensures Keys(EsRiskLevels) == ["low", "medium", "high"]
  {
    assert Keys(EsRiskLevels.rest.rest) == ["high"];
    assert Keys(EsRiskLevels.rest) == ["medium", "high"];
  }

  lemma EsStatsLabelsKeys()
    ensures Keys(EsStatsLabels) == ["concentration", "growth", "partnerships", "risk", "sustainability"]
  {
    assert Keys(EsStatsLabels.rest.rest.rest.rest) == ["sustainability"];
    assert Keys(EsStatsLabels.rest.rest.rest) == ["risk", "sustainability"];
    assert Keys(EsStatsLabels.rest.rest) == ["partnerships", "risk", "sustainability"];
    assert Keys(EsStatsLabels.rest) == ["growth", "partnerships", "risk", "sustainability"];
  }

  lemma EsStrategyKeys()
    ensures Keys(EsStrategy) == ["strategicFramework", "frameworkDescription", "dataIntegrationRequirements"]
  {
    assert Keys(EsStrategy.rest.rest) == ["dataIntegrationRequirements"];
    assert Keys(EsStrategy.rest) == ["frameworkDescription", "dataIntegrationRequirements"];
  }

  lemma EsFooterKeys()
    ensures Keys(EsFooter) == ["footerText", "footerMethodology"]
  {
    assert Keys(EsFooter.rest) == ["footerMethodology"];
  }

  /**
   * Every table is well-formed and has the shape of the en table, so the
   * three locales expose the same dotted paths, every leaf a non-empty string.
   */
  lemma TablesAgree(l: Language)
    ensures WellFormed(Table(l))
    ensures SameShape(Table(En), Table(l))
  {
    HeaderAgrees(); ControlsAgrees(); RegionDescriptionsAgrees(); ChartsAgrees();
    DataStatusAgrees(); TourismTypesAgrees(); VulnerabilityMethodAgrees(); IndicatorViewsAgrees();
    RiskLevelsAgrees(); StatsLabelsAgrees(); StrategyAgrees(); FooterAgrees();
    FlattenAgrees(EnBlocks, FrBlocks, EsBlocks);
    SameShapePropsReflexive(Flatten(EnBlocks));
  }

  /** Any two of the tables have the same shape, and each is well-formed. */
  lemma TablesSameShape(l: Language, l': Language)
    ensures WellFormed(Table(l)) && WellFormed(Table(l'))
    ensures SameShape(Table(l), Table(l'))
  {
    TablesAgree(l);
    TablesAgree(l');
    SameShapeSymmetric(Table(En), Table(l));
    SameShapeTransitive(Table(l), Table(En), Table(l'));
  }
}
