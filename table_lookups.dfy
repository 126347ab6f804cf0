/**
 * What `t` returns for particular keys against the three shipped tables,
 * and the cross-locale guarantee that the tables' common shape gives.
 */
module TableLookups {
  import opened Tree
  import opened Paths
  import opened Tables
  import opened UseTranslation

  /** "region" is not written again after the controls block. */
  lemma EnRegionNotRepeated()
    ensures forall j :: 1 < j < |EnBlocks| ==> "region" !in Keys(EnBlocks[j])
  {
    forall j | 1 < j < |EnBlocks|
      ensures "region" !in Keys(EnBlocks[j])
    {
      if j == 2 {
        EnRegionDescriptionsKeys();
      } else if j == 3 {
        EnChartsKeys();
      } else if j == 4 {
        EnDataStatusKeys();
      } else if j == 5 {
        EnTourismTypesKeys();
      } else if j == 6 {
        EnVulnerabilityMethodKeys();
      } else if j == 7 {
        EnIndicatorViewsKeys();
      } else if j == 8 {
        EnRiskLevelsKeys();
      } else if j == 9 {
        EnStatsLabelsKeys();
      } else if j == 10 {
        EnStrategyKeys();
      } else if j == 11 {
        EnFooterKeys();
      }
    }
  }

  /** "region" is not written again after the controls block. */
  lemma FrRegionNotRepeated()
    ensures forall j :: 1 < j < |FrBlocks| ==> "region" !in Keys(FrBlocks[j])
  {
    forall j | 1 < j < |FrBlocks|
      ensures "region" !in Keys(FrBlocks[j])
    {
      if j == 2 {
        FrRegionDescriptionsKeys();
      } else if j == 3 {
        FrChartsKeys();
      } else if j == 4 {
        FrDataStatusKeys();
      } else if j == 5 {
        FrTourismTypesKeys();
      } else if j == 6 {
        FrVulnerabilityMethodKeys();
      } else if j == 7 {
        FrIndicatorViewsKeys();
      } else if j == 8 {
        FrRiskLevelsKeys();
      } else if j == 9 {
        FrStatsLabelsKeys();
      } else if j == 10 {
        FrStrategyKeys();
      } else if j == 11 {
        FrFooterKeys();
      }
    }
  }

  /** "region" is not written again after the controls block. */
  lemma EsRegionNotRepeated()
    ensures forall j :: 1 < j < |EsBlocks| ==> "region" !in Keys(EsBlocks[j])
  {
    forall j | 1 < j < |EsBlocks|
      ensures "region" !in Keys(EsBlocks[j])
    {
      if j == 2 {
        EsRegionDescriptionsKeys();
      } else if j == 3 {
        EsChartsKeys();
      } else if j == 4 {
        EsDataStatusKeys();
      } else if j == 5 {
        EsTourismTypesKeys();
      } else if j == 6 {
        EsVulnerabilityMethodKeys();
      } else if j == 7 {
        EsIndicatorViewsKeys();
      } else if j == 8 {
        EsRiskLevelsKeys();
      } else if j == 9 {
        EsStatsLabelsKeys();
      } else if j == 10 {
        EsStrategyKeys();
      } else if j == 11 {
        EsFooterKeys();
      }
    }
  }

  /** "regions" is not written again after its own block. */
  lemma EnRegionsNotRepeated()
    ensures forall j :: 2 < j < |EnBlocks| ==> "regions" !in Keys(EnBlocks[j])
  {
    forall j | 2 < j < |EnBlocks|
      ensures "regions" !in Keys(EnBlocks[j])
    {
      if j == 3 {
        EnChartsKeys();
      } else if j == 4 {
        EnDataStatusKeys();
      } else if j == 5 {
        EnTourismTypesKeys();
      } else if j == 6 {
        EnVulnerabilityMethodKeys();
      } else if j == 7 {
        EnIndicatorViewsKeys();
      } else if j == 8 {
        EnRiskLevelsKeys();
      } else if j == 9 {
        EnStatsLabelsKeys();
      } else if j == 10 {
        EnStrategyKeys();
      } else if j == 11 {
        EnFooterKeys();
      }
    }
  }

  /** "regions" is not written again after its own block. */
  lemma FrRegionsNotRepeated()
    ensures forall j :: 2 < j < |FrBlocks| ==> "regions" !in Keys(FrBlocks[j])
  {
    forall j | 2 < j < |FrBlocks|
      ensures "regions" !in Keys(FrBlocks[j])
    {
      if j == 3 {
        FrChartsKeys();
      } else if j == 4 {
        FrDataStatusKeys();
      } else if j == 5 {
        FrTourismTypesKeys();
      } else if j == 6 {
        FrVulnerabilityMethodKeys();
      } else if j == 7 {
        FrIndicatorViewsKeys();
      } else if j == 8 {
        FrRiskLevelsKeys();
      } else if j == 9 {
        FrStatsLabelsKeys();
      } else if j == 10 {
        FrStrategyKeys();
      } else if j == 11 {
        FrFooterKeys();
      }
    }
  }

  /** `t("region")` in English is "Region". */
  lemma RegionInEnglish()
    ensures Resolve(EnTable, "region") == Leaf("Region")
  {
    EnRegionNotRepeated();
    EnControlsKeys();
    GetFlattenFirst(EnBlocks, 1, "region");
    SplitNoSeparator("region", '.');
    assert Lookup(EnTable, ["region"]) == Lookup(Leaf("Region"), ["region"][1..]);
  }

  /** `t("region")` in French is "Région". */
  lemma RegionInFrench()
    ensures Resolve(FrTable, "region") == Leaf("Région")
  {
    FrRegionNotRepeated();
    FrControlsKeys();
    GetFlattenFirst(FrBlocks, 1, "region");
    SplitNoSeparator("region", '.');
    assert Lookup(FrTable, ["region"]) == Lookup(Leaf("Région"), ["region"][1..]);
  }

  /** `t("region")` in Spanish is "Región". */
  lemma RegionInSpanish()
    ensures Resolve(EsTable, "region") == Leaf("Región")
  {
    EsRegionNotRepeated();
    EsControlsKeys();
    GetFlattenFirst(EsBlocks, 1, "region");
    SplitNoSeparator("region", '.');
    assert Lookup(EsTable, ["region"]) == Lookup(Leaf("Región"), ["region"][1..]);
  }

  /** In English, "regions" holds the nested object of region descriptions. */
  lemma EnRegionsFound()
    ensures Get(Flatten(EnBlocks), "regions") == Some(Branch(EnRegions))
  {
    EnRegionsNotRepeated();
    EnRegionDescriptionsKeys();
    GetFlattenFirst(EnBlocks, 2, "regions");
  }

  /** In French, "regions" holds the nested object of region descriptions. */
  lemma FrRegionsFound()
    ensures Get(Flatten(FrBlocks), "regions") == Some(Branch(FrRegions))
  {
    FrRegionsNotRepeated();
    FrRegionDescriptionsKeys();
    GetFlattenFirst(FrBlocks, 2, "regions");
  }

  /** `t("regions")` names a nested object and returns it, not the key. */
  lemma RegionsIsSubtree()
    ensures Resolve(EnTable, "regions") == Branch(EnRegions)
  {
    EnRegionsFound();
    SplitNoSeparator("regions", '.');
    assert Lookup(EnTable, ["regions"]) == Lookup(Branch(EnRegions), ["regions"][1..]);
  }

  /** In French, the path regions, alsace reaches the first region description. */
  lemma AlsaceFound()
    ensures Lookup(FrTable, ["regions", "alsace"]) == Some(FrRegions.value)
  {
    FrRegionsFound();
    FrRegionsKeys();
    GetFirst("alsace", FrRegions.value, FrRegions.rest);
    assert Lookup(FrTable, ["regions", "alsace"]) == Lookup(Branch(FrRegions), ["alsace"]);
  }

  /** The French description of Alsace, as one string. */
  lemma AlsaceText()
    ensures FrRegions.value == Leaf("Vins blancs premium & circuits cyclables")
  {
  }

  /** `t("regions.alsace")` in French descends into the nested object. */
  lemma AlsaceInFrench()
    ensures Resolve(FrTable, "regions.alsace") == Leaf("Vins blancs premium & circuits cyclables")
  {
    SplitJoin(["regions", "alsace"], '.');
    assert Join(["regions", "alsace"], '.') == "regions.alsace";
    AlsaceFound();
    AlsaceText();
  }

  /** In English, the path regions, paris stops at the second segment. */
  lemma ParisMissing()
    ensures Lookup(EnTable, ["regions", "paris"]) == None
  {
    EnRegionsFound();
    EnRegionsKeys();
    assert Lookup(EnTable, ["regions", "paris"]) == Lookup(Branch(EnRegions), ["paris"]);
  }

  /** `t("regions.paris")`: the first segment resolves, the second does not, so the key comes back. */
  lemma MissingRegion()
    ensures Resolve(EnTable, "regions.paris") == Leaf("regions.paris")
  {
    SplitJoin(["regions", "paris"], '.');
    assert Join(["regions", "paris"], '.') == "regions.paris";
    ParisMissing();
  }

  /**
   * The three locales answer alike: a key missing in one is missing in all
   * and comes back as itself; a key that reaches a string in one reaches a
   * non-empty string in every other, which `t` returns instead of the key.
   */
  lemma LocalesAgree(l: Language, l': Language, key: string)
    ensures Lookup(Table(l), Split(key, '.')).Some? <==> Lookup(Table(l'), Split(key, '.')).Some?
    ensures Lookup(Table(l), Split(key, '.')) == None ==> Resolve(Table(l'), key) == Leaf(key)
    ensures Lookup(Table(l), Split(key, '.')).Some? && Lookup(Table(l), Split(key, '.')).value.Leaf? ==>
              && Resolve(Table(l'), key) == Lookup(Table(l'), Split(key, '.')).value
              && Resolve(Table(l'), key).Leaf?
              && Resolve(Table(l'), key).text != ""
  {
    TablesSameShape(l, l');
    ResolveSameShape(Table(l), Table(l'), key);
    if Lookup(Table(l'), Split(key, '.')).Some? {
      LookupWellFormed(Table(l'), Split(key, '.'));
    }
  }
}
