/**
 * Facts about the widget's own catalogue: concrete resolutions that show
 * first-match-wins on the real table, the one overlap between its groups,
 * and an identifier that no group lists.
 */
module TimeZoneFacts {
  import opened TimeZones

  /** Whatever the first block resolves is what the whole catalogue resolves. */
  lemma ResolveInFirstBlock(tz: string)
    ensures WellFormed(Block0) && WellFormed(TimeZonesMap)
    ensures Resolve(Block0, tz) != "" ==> Resolve(TimeZonesMap, tz) == Resolve(Block0, tz)
  {
    Block0WellFormed();
    Block1WellFormed();
    Block2WellFormed();
    Block3WellFormed();
    ResolveConcat(Block0, Block1, tz);
    ResolveConcat(Block0 + Block1, Block2, tz);
    ResolveConcat(Block0 + Block1 + Block2, Block3, tz);
  }

  /** The first 32 rows of the catalogue are those of the first block. */
  lemma FirstBlockRow(k: nat)
    requires k < 32
    ensures TimeZonesMap[k] == Block0[k]
  {
  }

  /** "Europe/Paris" is listed first at line 267, whose representative is "Europe/Brussels". */
  lemma ParisInFirstBlock()
    ensures WellFormed(Block0) && Resolve(Block0, "Europe/Paris") == "Europe/Brussels"
  {
    Block0WellFormed();
    FirstIndexIsFirstMatch(Block0, "Europe/Paris", 6);
  }

  lemma ParisResolvesToBrussels()
    ensures WellFormed(TimeZonesMap)
    ensures Resolve(TimeZonesMap, "Europe/Paris") == "Europe/Brussels"
  {
    ParisInFirstBlock();
    ResolveInFirstBlock("Europe/Paris");
  }

  /** The enumeration offers that group as entry 6, with its label. */
  lemma ParisGroupEnumerated()
    ensures WellFormed(TimeZonesMap)
    ensures Enumeration(TimeZonesMap)[6] == Entry(6, "Europe/Brussels", "(UTC+01:00) Brussels, Copenhagen, Madrid, Paris")
  {
    CatalogueWellFormed();
    FirstBlockRow(6);
  }

  /** "Europe/Sarajevo" is listed first at line 268, whose representative is "Europe/Belgrade". */
  lemma SarajevoInFirstBlock()
    ensures WellFormed(Block0) && Resolve(Block0, "Europe/Sarajevo") == "Europe/Belgrade"
  {
    Block0WellFormed();
    FirstIndexIsFirstMatch(Block0, "Europe/Sarajevo", 7);
  }

  lemma SarajevoResolvesToBelgrade()
    ensures WellFormed(TimeZonesMap)
    ensures Resolve(TimeZonesMap, "Europe/Sarajevo") == "Europe/Belgrade"
  {
    SarajevoInFirstBlock();
    ResolveInFirstBlock("Europe/Sarajevo");
  }

  /** "Europe/Belgrade" is listed at line 266 before line 268, so it resolves to "Europe/Budapest". */
  lemma BelgradeInFirstBlock()
    ensures WellFormed(Block0) && Resolve(Block0, "Europe/Belgrade") == "Europe/Budapest"
  {
    Block0WellFormed();
    FirstIndexIsFirstMatch(Block0, "Europe/Belgrade", 5);
  }

  lemma BelgradeResolvesToBudapest()
    ensures WellFormed(TimeZonesMap)
    ensures Resolve(TimeZonesMap, "Europe/Belgrade") == "Europe/Budapest"
  {
    BelgradeInFirstBlock();
    ResolveInFirstBlock("Europe/Belgrade");
  }

  /** "Europe/Belgrade" is listed at line 266 and is the representative at line 268: the groups overlap. */
  lemma CatalogueGroupsOverlap()
    ensures !Disjoint(TimeZonesMap)
  {
    FirstBlockRow(5);
    FirstBlockRow(7);
    assert TimeZonesMap[7].0[0] == TimeZonesMap[5].0[1];
    assert TimeZonesMap[7].0[0] in TimeZonesMap[5].0;
  }

  /**
   * The representative of the group at line 268 is not a fixed point of
   * resolution: resolving "Europe/Sarajevo" twice does not give the same
   * answer as resolving it once. ResolveIdempotentWhenDisjoint does not
   * apply, since the groups overlap.
   */
  lemma CatalogueResolutionNotIdempotent()
    ensures WellFormed(TimeZonesMap)
    ensures Resolve(TimeZonesMap, Resolve(TimeZonesMap, "Europe/Sarajevo")) != Resolve(TimeZonesMap, "Europe/Sarajevo")
  {
    SarajevoResolvesToBelgrade();
    BelgradeResolvesToBudapest();
  }

  /** The one that is not a fixed point is the representative of line 268. */
  lemma SarajevoGroupRepresentative()
    ensures TimeZonesMap[7].0[0] == "Europe/Belgrade" && "Europe/Sarajevo" in TimeZonesMap[7].0
  {
    FirstBlockRow(7);
  }

  lemma Block0Lacks()
    ensures Unlisted(Block0, "Mars/OlympusMons")
  {
  }

  lemma Block1Lacks()
    ensures Unlisted(Block1, "Mars/OlympusMons")
  {
  }

  lemma Block2Lacks()
    ensures Unlisted(Block2, "Mars/OlympusMons")
  {
  }

  lemma Block3Lacks()
    ensures Unlisted(Block3, "Mars/OlympusMons")
  {
  }

  /** An identifier that no group lists resolves to "". */
  lemma UnknownTimeZoneUnresolved()
    ensures WellFormed(TimeZonesMap)
    ensures Resolve(TimeZonesMap, "Mars/OlympusMons") == ""
  {
    var tz := "Mars/OlympusMons";
    CatalogueWellFormed();
    Block0Lacks();
    Block1Lacks();
    Block2Lacks();
    Block3Lacks();
    forall k | 0 <= k < |TimeZonesMap| ensures tz !in TimeZonesMap[k].0 {
      if k < 32 {
        assert TimeZonesMap[k] == Block0[k];
      } else if k < 64 {
        assert TimeZonesMap[k] == Block1[k - 32];
      } else if k < 96 {
        assert TimeZonesMap[k] == Block2[k - 64];
      } else {
        assert TimeZonesMap[k] == Block3[k - 96];
      }
    }
  }
}
