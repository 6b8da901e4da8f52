/**
 * What the cleaner does to each rule clause that the prompt builders append:
 * twelve clauses come off again, and three (front exterior, stacked and
 * side-by-side laundry) are left in the displayed prompt.
 */
module CleanerProperties {
  import opened Text
  import opened Rules
  import opened Cleaner

  /** The last characters of a clause are those of its text. */
  lemma ClauseEnd(t: string, m: nat)
    requires 1 <= m <= |t|
    ensures Clause(t)[|Clause(t)| - m] == t[|t| - m]
  {
  }

  /** After normalisation a clause of the right shape is still the end of the text. */
  lemma KeptTail(base: string, t: string)
    requires t != [] && !IsSpace(t[0]) && !IsSpace(t[|t| - 1]) && NoDoubleSpace(t)
    ensures EndsWith(Normalize(base + Clause(t)), t)
  {
    assert base + Clause(t) == (base + "\n\n") + t;
    NormalizeKeepsTail(base + "\n\n", t);
  }

  /** The night sentence has one full stop, at its end. */
  lemma NightModeTextEnding()
    ensures EndsWithOnlyStop(NightModeText)
    ensures NightModeText[|NightModeText| - 2] == 'g' && NightModeText[|NightModeText| - 5] == 't'
  {
    NightModeTextFacts();
    NightModeTextStops();
    assert NightModeText[..|NightModeText| - 1] == NightModeTextBody;
    assert NightModeText4[14] == 'g' && NightModeText4[11] == 't';
  }

  // NoPoolInGarageText

  lemma NoPoolInGarageFound0(rest: Removals)
    ensures ErasedBy(Then(Spaced(FrontExteriorPattern), Then(Spaced(NoPoolInGarageText), Then(Spaced(NoGarageInBackyardText), rest))), Clause(NoPoolInGarageText), Spaced(NoPoolInGarageText))
  {
    NoPoolInGarageTextFacts();
    NoPoolInGarageTextSeparated1();
    FrontExteriorPatternFacts();
    ApartNoNewMatch(FrontExteriorPattern, NoPoolInGarageText);
    assert ErasedBy(Then(Spaced(NoPoolInGarageText), Then(Spaced(NoGarageInBackyardText), rest)), Clause(NoPoolInGarageText), Spaced(NoPoolInGarageText));
  }

  lemma NoPoolInGarageSeen()
    ensures ErasedBy(Catalog, Clause(NoPoolInGarageText), Spaced(NoPoolInGarageText))
  {
    NoPoolInGarageFound0(CatalogFrom3);
  }


  // NoGarageInBackyardText

  lemma NoGarageInBackyardFound0(rest: Removals)
    ensures ErasedBy(Then(Spaced(FrontExteriorPattern), Then(Spaced(NoPoolInGarageText), Then(Spaced(NoGarageInBackyardText), rest))), Clause(NoGarageInBackyardText), Spaced(NoGarageInBackyardText))
  {
    NoGarageInBackyardTextFacts();
    NoGarageInBackyardTextSeparated1();
    FrontExteriorPatternFacts();
    ApartNoNewMatch(FrontExteriorPattern, NoGarageInBackyardText);
    NoPoolInGarageTextFacts();
    ApartNoNewMatch(NoPoolInGarageText, NoGarageInBackyardText);
    assert ErasedBy(Then(Spaced(NoGarageInBackyardText), rest), Clause(NoGarageInBackyardText), Spaced(NoGarageInBackyardText));
    assert ErasedBy(Then(Spaced(NoPoolInGarageText), Then(Spaced(NoGarageInBackyardText), rest)), Clause(NoGarageInBackyardText), Spaced(NoGarageInBackyardText));
  }

  lemma NoGarageInBackyardSeen()
    ensures ErasedBy(Catalog, Clause(NoGarageInBackyardText), Spaced(NoGarageInBackyardText))
  {
    NoGarageInBackyardFound0(CatalogFrom3);
  }


  // NoLakeInFrontText

  lemma NoLakeInFrontPasses0(rest: Removals)
    requires ErasedBy(rest, Clause(NoLakeInFrontText), Spaced(NoLakeInFrontText))
    ensures ErasedBy(Then(Spaced(FrontExteriorPattern), Then(Spaced(NoPoolInGarageText), Then(Spaced(NoGarageInBackyardText), rest))), Clause(NoLakeInFrontText), Spaced(NoLakeInFrontText))
  {
    NoLakeInFrontTextFacts();
    NoLakeInFrontTextSeparated1();
    FrontExteriorPatternFacts();
    ApartNoNewMatch(FrontExteriorPattern, NoLakeInFrontText);
    NoPoolInGarageTextFacts();
    ApartNoNewMatch(NoPoolInGarageText, NoLakeInFrontText);
    NoGarageInBackyardTextFacts();
    ApartNoNewMatch(NoGarageInBackyardText, NoLakeInFrontText);
    assert ErasedBy(Then(Spaced(NoGarageInBackyardText), rest), Clause(NoLakeInFrontText), Spaced(NoLakeInFrontText));
    assert ErasedBy(Then(Spaced(NoPoolInGarageText), Then(Spaced(NoGarageInBackyardText), rest)), Clause(NoLakeInFrontText), Spaced(NoLakeInFrontText));
  }

  lemma NoLakeInFrontFound3(rest: Removals)
    ensures ErasedBy(Then(Spaced(NoLakeInFrontText), Then(Spaced(ProjectorText), Then(Spaced(TheaterSeatingText), rest))), Clause(NoLakeInFrontText), Spaced(NoLakeInFrontText))
  {
  }

  lemma NoLakeInFrontSeen()
    ensures ErasedBy(Catalog, Clause(NoLakeInFrontText), Spaced(NoLakeInFrontText))
  {
    NoLakeInFrontFound3(CatalogFrom6);
    NoLakeInFrontPasses0(CatalogFrom3);
  }


  // ProjectorText

  lemma ProjectorPasses0(rest: Removals)
    requires ErasedBy(rest, Clause(ProjectorText), Spaced(ProjectorText))
    ensures ErasedBy(Then(Spaced(FrontExteriorPattern), Then(Spaced(NoPoolInGarageText), Then(Spaced(NoGarageInBackyardText), rest))), Clause(ProjectorText), Spaced(ProjectorText))
  {
    ProjectorTextFacts();
    ProjectorTextSeparated1();
    FrontExteriorPatternFacts();
    ApartNoNewMatch(FrontExteriorPattern, ProjectorText);
    NoPoolInGarageTextFacts();
    ApartNoNewMatch(NoPoolInGarageText, ProjectorText);
    NoGarageInBackyardTextFacts();
    ApartNoNewMatch(NoGarageInBackyardText, ProjectorText);
    assert ErasedBy(Then(Spaced(NoGarageInBackyardText), rest), Clause(ProjectorText), Spaced(ProjectorText));
    assert ErasedBy(Then(Spaced(NoPoolInGarageText), Then(Spaced(NoGarageInBackyardText), rest)), Clause(ProjectorText), Spaced(ProjectorText));
  }

  lemma ProjectorFound3(rest: Removals)
    ensures ErasedBy(Then(Spaced(NoLakeInFrontText), Then(Spaced(ProjectorText), Then(Spaced(TheaterSeatingText), rest))), Clause(ProjectorText), Spaced(ProjectorText))
  {
    ProjectorTextFacts();
    ProjectorTextSeparated2();
    NoLakeInFrontTextFacts();
    ApartNoNewMatch(NoLakeInFrontText, ProjectorText);
    assert ErasedBy(Then(Spaced(ProjectorText), Then(Spaced(TheaterSeatingText), rest)), Clause(ProjectorText), Spaced(ProjectorText));
  }

  lemma ProjectorSeen()
    ensures ErasedBy(Catalog, Clause(ProjectorText), Spaced(ProjectorText))
  {
    ProjectorFound3(CatalogFrom6);
    ProjectorPasses0(CatalogFrom3);
  }


  // TheaterSeatingText

  lemma TheaterSeatingPasses0(rest: Removals)
    requires ErasedBy(rest, Clause(TheaterSeatingText), Spaced(TheaterSeatingText))
    ensures ErasedBy(Then(Spaced(FrontExteriorPattern), Then(Spaced(NoPoolInGarageText), Then(Spaced(NoGarageInBackyardText), rest))), Clause(TheaterSeatingText), Spaced(TheaterSeatingText))
  {
    TheaterSeatingTextFacts();
    TheaterSeatingTextSeparated1();
    FrontExteriorPatternFacts();
    ApartNoNewMatch(FrontExteriorPattern, TheaterSeatingText);
    NoPoolInGarageTextFacts();
    ApartNoNewMatch(NoPoolInGarageText, TheaterSeatingText);
    NoGarageInBackyardTextFacts();
    ApartNoNewMatch(NoGarageInBackyardText, TheaterSeatingText);
    assert ErasedBy(Then(Spaced(NoGarageInBackyardText), rest), Clause(TheaterSeatingText), Spaced(TheaterSeatingText));
    assert ErasedBy(Then(Spaced(NoPoolInGarageText), Then(Spaced(NoGarageInBackyardText), rest)), Clause(TheaterSeatingText), Spaced(TheaterSeatingText));
  }

  lemma TheaterSeatingFound3(rest: Removals)
    ensures ErasedBy(Then(Spaced(NoLakeInFrontText), Then(Spaced(ProjectorText), Then(Spaced(TheaterSeatingText), rest))), Clause(TheaterSeatingText), Spaced(TheaterSeatingText))
  {
    TheaterSeatingTextFacts();
    TheaterSeatingTextSeparated2();
    NoLakeInFrontTextFacts();
    ApartNoNewMatch(NoLakeInFrontText, TheaterSeatingText);
    ProjectorTextFacts();
    ApartNoNewMatch(ProjectorText, TheaterSeatingText);
    assert ErasedBy(Then(Spaced(TheaterSeatingText), rest), Clause(TheaterSeatingText), Spaced(TheaterSeatingText));
    assert ErasedBy(Then(Spaced(ProjectorText), Then(Spaced(TheaterSeatingText), rest)), Clause(TheaterSeatingText), Spaced(TheaterSeatingText));
  }

  lemma TheaterSeatingSeen()
    ensures ErasedBy(Catalog, Clause(TheaterSeatingText), Spaced(TheaterSeatingText))
  {
    TheaterSeatingFound3(CatalogFrom6);
    TheaterSeatingPasses0(CatalogFrom3);
  }


  // RanchStyleText

  lemma RanchStylePasses0(rest: Removals)
    requires ErasedBy(rest, Clause(RanchStyleText), Spaced(RanchStyleText))
    ensures ErasedBy(Then(Spaced(FrontExteriorPattern), Then(Spaced(NoPoolInGarageText), Then(Spaced(NoGarageInBackyardText), rest))), Clause(RanchStyleText), Spaced(RanchStyleText))
  {
    RanchStyleTextFacts();
    RanchStyleTextSeparated1();
    FrontExteriorPatternFacts();
    ApartNoNewMatch(FrontExteriorPattern, RanchStyleText);
    NoPoolInGarageTextFacts();
    ApartNoNewMatch(NoPoolInGarageText, RanchStyleText);
    NoGarageInBackyardTextFacts();
    ApartNoNewMatch(NoGarageInBackyardText, RanchStyleText);
    assert ErasedBy(Then(Spaced(NoGarageInBackyardText), rest), Clause(RanchStyleText), Spaced(RanchStyleText));
    assert ErasedBy(Then(Spaced(NoPoolInGarageText), Then(Spaced(NoGarageInBackyardText), rest)), Clause(RanchStyleText), Spaced(RanchStyleText));
  }

  lemma RanchStylePasses3(rest: Removals)
    requires ErasedBy(rest, Clause(RanchStyleText), Spaced(RanchStyleText))
    ensures ErasedBy(Then(Spaced(NoLakeInFrontText), Then(Spaced(ProjectorText), Then(Spaced(TheaterSeatingText), rest))), Clause(RanchStyleText), Spaced(RanchStyleText))
  {
    RanchStyleTextFacts();
    RanchStyleTextSeparated2();
    NoLakeInFrontTextFacts();
    ApartNoNewMatch(NoLakeInFrontText, RanchStyleText);
    ProjectorTextFacts();
    ApartNoNewMatch(ProjectorText, RanchStyleText);
    TheaterSeatingTextFacts();
    ApartNoNewMatch(TheaterSeatingText, RanchStyleText);
    assert ErasedBy(Then(Spaced(TheaterSeatingText), rest), Clause(RanchStyleText), Spaced(RanchStyleText));
    assert ErasedBy(Then(Spaced(ProjectorText), Then(Spaced(TheaterSeatingText), rest)), Clause(RanchStyleText), Spaced(RanchStyleText));
  }

  lemma RanchStyleFound6(rest: Removals)
    ensures ErasedBy(Then(Spaced(RanchStyleText), Then(Spaced(CarPlacementText), Then(Spaced(NoPuttingGreenInRoomText), rest))), Clause(RanchStyleText), Spaced(RanchStyleText))
  {
  }

  lemma RanchStyleSeen()
    ensures ErasedBy(Catalog, Clause(RanchStyleText), Spaced(RanchStyleText))
  {
    RanchStyleFound6(CatalogFrom9);
    RanchStylePasses3(CatalogFrom6);
    RanchStylePasses0(CatalogFrom3);
  }


  // CarPlacementText

  lemma CarPlacementPasses0(rest: Removals)
    requires ErasedBy(rest, Clause(CarPlacementText), Spaced(CarPlacementText))
    ensures ErasedBy(Then(Spaced(FrontExteriorPattern), Then(Spaced(NoPoolInGarageText), Then(Spaced(NoGarageInBackyardText), rest))), Clause(CarPlacementText), Spaced(CarPlacementText))
  {
    CarPlacementTextFacts();
    CarPlacementTextSeparated1();
    FrontExteriorPatternFacts();
    ApartNoNewMatch(FrontExteriorPattern, CarPlacementText);
    NoPoolInGarageTextFacts();
    ApartNoNewMatch(NoPoolInGarageText, CarPlacementText);
    NoGarageInBackyardTextFacts();
    ApartNoNewMatch(NoGarageInBackyardText, CarPlacementText);
    assert ErasedBy(Then(Spaced(NoGarageInBackyardText), rest), Clause(CarPlacementText), Spaced(CarPlacementText));
    assert ErasedBy(Then(Spaced(NoPoolInGarageText), Then(Spaced(NoGarageInBackyardText), rest)), Clause(CarPlacementText), Spaced(CarPlacementText));
  }

  lemma CarPlacementPasses3(rest: Removals)
    requires ErasedBy(rest, Clause(CarPlacementText), Spaced(CarPlacementText))
    ensures ErasedBy(Then(Spaced(NoLakeInFrontText), Then(Spaced(ProjectorText), Then(Spaced(TheaterSeatingText), rest))), Clause(CarPlacementText), Spaced(CarPlacementText))
  {
    CarPlacementTextFacts();
    CarPlacementTextSeparated2();
    NoLakeInFrontTextFacts();
    ApartNoNewMatch(NoLakeInFrontText, CarPlacementText);
    ProjectorTextFacts();
    ApartNoNewMatch(ProjectorText, CarPlacementText);
    TheaterSeatingTextFacts();
    ApartNoNewMatch(TheaterSeatingText, CarPlacementText);
    assert ErasedBy(Then(Spaced(TheaterSeatingText), rest), Clause(CarPlacementText), Spaced(CarPlacementText));
    assert ErasedBy(Then(Spaced(ProjectorText), Then(Spaced(TheaterSeatingText), rest)), Clause(CarPlacementText), Spaced(CarPlacementText));
  }

  lemma CarPlacementFound6(rest: Removals)
    ensures ErasedBy(Then(Spaced(RanchStyleText), Then(Spaced(CarPlacementText), Then(Spaced(NoPuttingGreenInRoomText), rest))), Clause(CarPlacementText), Spaced(CarPlacementText))
  {
    CarPlacementTextFacts();
    CarPlacementTextSeparated3();
    RanchStyleTextFacts();
    ApartNoNewMatch(RanchStyleText, CarPlacementText);
    assert ErasedBy(Then(Spaced(CarPlacementText), Then(Spaced(NoPuttingGreenInRoomText), rest)), Clause(CarPlacementText), Spaced(CarPlacementText));
  }

  lemma CarPlacementSeen()
    ensures ErasedBy(Catalog, Clause(CarPlacementText), Spaced(CarPlacementText))
  {
    CarPlacementFound6(CatalogFrom9);
    CarPlacementPasses3(CatalogFrom6);
    CarPlacementPasses0(CatalogFrom3);
  }


  // NoPuttingGreenInRoomText

  lemma NoPuttingGreenInRoomPasses0(rest: Removals)
    requires ErasedBy(rest, Clause(NoPuttingGreenInRoomText), Spaced(NoPuttingGreenInRoomText))
    ensures ErasedBy(Then(Spaced(FrontExteriorPattern), Then(Spaced(NoPoolInGarageText), Then(Spaced(NoGarageInBackyardText), rest))), Clause(NoPuttingGreenInRoomText), Spaced(NoPuttingGreenInRoomText))
  {
    NoPuttingGreenInRoomTextFacts();
    NoPuttingGreenInRoomTextSeparated1();
    FrontExteriorPatternFacts();
    ApartNoNewMatch(FrontExteriorPattern, NoPuttingGreenInRoomText);
    NoPoolInGarageTextFacts();
    ApartNoNewMatch(NoPoolInGarageText, NoPuttingGreenInRoomText);
    NoGarageInBackyardTextFacts();
    ApartNoNewMatch(NoGarageInBackyardText, NoPuttingGreenInRoomText);
    assert ErasedBy(Then(Spaced(NoGarageInBackyardText), rest), Clause(NoPuttingGreenInRoomText), Spaced(NoPuttingGreenInRoomText));
    assert ErasedBy(Then(Spaced(NoPoolInGarageText), Then(Spaced(NoGarageInBackyardText), rest)), Clause(NoPuttingGreenInRoomText), Spaced(NoPuttingGreenInRoomText));
  }

  lemma NoPuttingGreenInRoomPasses3(rest: Removals)
    requires ErasedBy(rest, Clause(NoPuttingGreenInRoomText), Spaced(NoPuttingGreenInRoomText))
    ensures ErasedBy(Then(Spaced(NoLakeInFrontText), Then(Spaced(ProjectorText), Then(Spaced(TheaterSeatingText), rest))), Clause(NoPuttingGreenInRoomText), Spaced(NoPuttingGreenInRoomText))
  {
    NoPuttingGreenInRoomTextFacts();
    NoPuttingGreenInRoomTextSeparated2();
    NoLakeInFrontTextFacts();
    ApartNoNewMatch(NoLakeInFrontText, NoPuttingGreenInRoomText);
    ProjectorTextFacts();
    ApartNoNewMatch(ProjectorText, NoPuttingGreenInRoomText);
    TheaterSeatingTextFacts();
    ApartNoNewMatch(TheaterSeatingText, NoPuttingGreenInRoomText);
    assert ErasedBy(Then(Spaced(TheaterSeatingText), rest), Clause(NoPuttingGreenInRoomText), Spaced(NoPuttingGreenInRoomText));
    assert ErasedBy(Then(Spaced(ProjectorText), Then(Spaced(TheaterSeatingText), rest)), Clause(NoPuttingGreenInRoomText), Spaced(NoPuttingGreenInRoomText));
  }

  lemma NoPuttingGreenInRoomFound6(rest: Removals)
    ensures ErasedBy(Then(Spaced(RanchStyleText), Then(Spaced(CarPlacementText), Then(Spaced(NoPuttingGreenInRoomText), rest))), Clause(NoPuttingGreenInRoomText), Spaced(NoPuttingGreenInRoomText))
  {
    NoPuttingGreenInRoomTextFacts();
    NoPuttingGreenInRoomTextSeparated3();
    RanchStyleTextFacts();
    ApartNoNewMatch(RanchStyleText, NoPuttingGreenInRoomText);
    CarPlacementTextFacts();
    ApartNoNewMatch(CarPlacementText, NoPuttingGreenInRoomText);
    assert ErasedBy(Then(Spaced(NoPuttingGreenInRoomText), rest), Clause(NoPuttingGreenInRoomText), Spaced(NoPuttingGreenInRoomText));
    assert ErasedBy(Then(Spaced(CarPlacementText), Then(Spaced(NoPuttingGreenInRoomText), rest)), Clause(NoPuttingGreenInRoomText), Spaced(NoPuttingGreenInRoomText));
  }

  lemma NoPuttingGreenInRoomSeen()
    ensures ErasedBy(Catalog, Clause(NoPuttingGreenInRoomText), Spaced(NoPuttingGreenInRoomText))
  {
    NoPuttingGreenInRoomFound6(CatalogFrom9);
    NoPuttingGreenInRoomPasses3(CatalogFrom6);
    NoPuttingGreenInRoomPasses0(CatalogFrom3);
  }


  // NoFireplaceAboveBedText

  lemma NoFireplaceAboveBedPasses0(rest: Removals)
    requires ErasedBy(rest, Clause(NoFireplaceAboveBedText), Spaced(NoFireplaceAboveBedText))
    ensures ErasedBy(Then(Spaced(FrontExteriorPattern), Then(Spaced(NoPoolInGarageText), Then(Spaced(NoGarageInBackyardText), rest))), Clause(NoFireplaceAboveBedText), Spaced(NoFireplaceAboveBedText))
  {
    NoFireplaceAboveBedTextFacts();
    NoFireplaceAboveBedTextSeparated1();
    FrontExteriorPatternFacts();
    ApartNoNewMatch(FrontExteriorPattern, NoFireplaceAboveBedText);
    NoPoolInGarageTextFacts();
    ApartNoNewMatch(NoPoolInGarageText, NoFireplaceAboveBedText);
    NoGarageInBackyardTextFacts();
    ApartNoNewMatch(NoGarageInBackyardText, NoFireplaceAboveBedText);
    assert ErasedBy(Then(Spaced(NoGarageInBackyardText), rest), Clause(NoFireplaceAboveBedText), Spaced(NoFireplaceAboveBedText));
    assert ErasedBy(Then(Spaced(NoPoolInGarageText), Then(Spaced(NoGarageInBackyardText), rest)), Clause(NoFireplaceAboveBedText), Spaced(NoFireplaceAboveBedText));
  }

  lemma NoFireplaceAboveBedPasses3(rest: Removals)
    requires ErasedBy(rest, Clause(NoFireplaceAboveBedText), Spaced(NoFireplaceAboveBedText))
    ensures ErasedBy(Then(Spaced(NoLakeInFrontText), Then(Spaced(ProjectorText), Then(Spaced(TheaterSeatingText), rest))), Clause(NoFireplaceAboveBedText), Spaced(NoFireplaceAboveBedText))
  {
    NoFireplaceAboveBedTextFacts();
    NoFireplaceAboveBedTextSeparated2();
    NoLakeInFrontTextFacts();
    ApartNoNewMatch(NoLakeInFrontText, NoFireplaceAboveBedText);
    ProjectorTextFacts();
    ApartNoNewMatch(ProjectorText, NoFireplaceAboveBedText);
    TheaterSeatingTextFacts();
    ApartNoNewMatch(TheaterSeatingText, NoFireplaceAboveBedText);
    assert ErasedBy(Then(Spaced(TheaterSeatingText), rest), Clause(NoFireplaceAboveBedText), Spaced(NoFireplaceAboveBedText));
    assert ErasedBy(Then(Spaced(ProjectorText), Then(Spaced(TheaterSeatingText), rest)), Clause(NoFireplaceAboveBedText), Spaced(NoFireplaceAboveBedText));
  }

  lemma NoFireplaceAboveBedPasses6(rest: Removals)
    requires ErasedBy(rest, Clause(NoFireplaceAboveBedText), Spaced(NoFireplaceAboveBedText))
    ensures ErasedBy(Then(Spaced(RanchStyleText), Then(Spaced(CarPlacementText), Then(Spaced(NoPuttingGreenInRoomText), rest))), Clause(NoFireplaceAboveBedText), Spaced(NoFireplaceAboveBedText))
  {
    NoFireplaceAboveBedTextFacts();
    NoFireplaceAboveBedTextSeparated3();
    RanchStyleTextFacts();
    ApartNoNewMatch(RanchStyleText, NoFireplaceAboveBedText);
    CarPlacementTextFacts();
    ApartNoNewMatch(CarPlacementText, NoFireplaceAboveBedText);
    NoPuttingGreenInRoomTextFacts();
    ApartNoNewMatch(NoPuttingGreenInRoomText, NoFireplaceAboveBedText);
    assert ErasedBy(Then(Spaced(NoPuttingGreenInRoomText), rest), Clause(NoFireplaceAboveBedText), Spaced(NoFireplaceAboveBedText));
    assert ErasedBy(Then(Spaced(CarPlacementText), Then(Spaced(NoPuttingGreenInRoomText), rest)), Clause(NoFireplaceAboveBedText), Spaced(NoFireplaceAboveBedText));
  }

  lemma NoFireplaceAboveBedFound9()
    ensures ErasedBy(CatalogFrom9, Clause(NoFireplaceAboveBedText), Spaced(NoFireplaceAboveBedText))
  {
  }

  lemma NoFireplaceAboveBedSeen()
    ensures ErasedBy(Catalog, Clause(NoFireplaceAboveBedText), Spaced(NoFireplaceAboveBedText))
  {
    NoFireplaceAboveBedFound9();
    NoFireplaceAboveBedPasses6(CatalogFrom9);
    NoFireplaceAboveBedPasses3(CatalogFrom6);
    NoFireplaceAboveBedPasses0(CatalogFrom3);
  }


  // BackExteriorPoolText

  lemma BackExteriorPoolPasses0(rest: Removals)
    requires ErasedBy(rest, Clause(BackExteriorPoolText), Literal(Clause(BackExteriorPoolText)))
    ensures ErasedBy(Then(Spaced(FrontExteriorPattern), Then(Spaced(NoPoolInGarageText), Then(Spaced(NoGarageInBackyardText), rest))), Clause(BackExteriorPoolText), Literal(Clause(BackExteriorPoolText)))
  {
    BackExteriorPoolTextFacts();
    BackExteriorPoolTextSeparated1();
    FrontExteriorPatternFacts();
    ApartNoNewMatch(FrontExteriorPattern, BackExteriorPoolText);
    NoPoolInGarageTextFacts();
    ApartNoNewMatch(NoPoolInGarageText, BackExteriorPoolText);
    NoGarageInBackyardTextFacts();
    ApartNoNewMatch(NoGarageInBackyardText, BackExteriorPoolText);
    assert ErasedBy(Then(Spaced(NoGarageInBackyardText), rest), Clause(BackExteriorPoolText), Literal(Clause(BackExteriorPoolText)));
    assert ErasedBy(Then(Spaced(NoPoolInGarageText), Then(Spaced(NoGarageInBackyardText), rest)), Clause(BackExteriorPoolText), Literal(Clause(BackExteriorPoolText)));
  }

  lemma BackExteriorPoolPasses3(rest: Removals)
    requires ErasedBy(rest, Clause(BackExteriorPoolText), Literal(Clause(BackExteriorPoolText)))
    ensures ErasedBy(Then(Spaced(NoLakeInFrontText), Then(Spaced(ProjectorText), Then(Spaced(TheaterSeatingText), rest))), Clause(BackExteriorPoolText), Literal(Clause(BackExteriorPoolText)))
  {
    BackExteriorPoolTextFacts();
    BackExteriorPoolTextSeparated2();
    NoLakeInFrontTextFacts();
    ApartNoNewMatch(NoLakeInFrontText, BackExteriorPoolText);
    ProjectorTextFacts();
    ApartNoNewMatch(ProjectorText, BackExteriorPoolText);
    TheaterSeatingTextFacts();
    ApartNoNewMatch(TheaterSeatingText, BackExteriorPoolText);
    assert ErasedBy(Then(Spaced(TheaterSeatingText), rest), Clause(BackExteriorPoolText), Literal(Clause(BackExteriorPoolText)));
    assert ErasedBy(Then(Spaced(ProjectorText), Then(Spaced(TheaterSeatingText), rest)), Clause(BackExteriorPoolText), Literal(Clause(BackExteriorPoolText)));
  }

  lemma BackExteriorPoolPasses6(rest: Removals)
    requires ErasedBy(rest, Clause(BackExteriorPoolText), Literal(Clause(BackExteriorPoolText)))
    ensures ErasedBy(Then(Spaced(RanchStyleText), Then(Spaced(CarPlacementText), Then(Spaced(NoPuttingGreenInRoomText), rest))), Clause(BackExteriorPoolText), Literal(Clause(BackExteriorPoolText)))
  {
    BackExteriorPoolTextFacts();
    BackExteriorPoolTextSeparated3();
    RanchStyleTextFacts();
    ApartNoNewMatch(RanchStyleText, BackExteriorPoolText);
    CarPlacementTextFacts();
    ApartNoNewMatch(CarPlacementText, BackExteriorPoolText);
    NoPuttingGreenInRoomTextFacts();
    ApartNoNewMatch(NoPuttingGreenInRoomText, BackExteriorPoolText);
    assert ErasedBy(Then(Spaced(NoPuttingGreenInRoomText), rest), Clause(BackExteriorPoolText), Literal(Clause(BackExteriorPoolText)));
    assert ErasedBy(Then(Spaced(CarPlacementText), Then(Spaced(NoPuttingGreenInRoomText), rest)), Clause(BackExteriorPoolText), Literal(Clause(BackExteriorPoolText)));
  }

  lemma BackExteriorPoolFound9()
    ensures ErasedBy(CatalogFrom9, Clause(BackExteriorPoolText), Literal(Clause(BackExteriorPoolText)))
  {
    BackExteriorPoolTextFacts();
    BackExteriorPoolTextSeparated4();
    NoFireplaceAboveBedTextFacts();
    ApartNoNewMatch(NoFireplaceAboveBedText, BackExteriorPoolText);
    assert ErasedBy(Then(Literal(Clause(BackExteriorPoolText)), Then(Literal(Clause(BackExteriorLakeAndBoatText)), Then(Literal(NightModeText), Done))), Clause(BackExteriorPoolText), Literal(Clause(BackExteriorPoolText)));
  }

  lemma BackExteriorPoolSeen()
    ensures ErasedBy(Catalog, Clause(BackExteriorPoolText), Literal(Clause(BackExteriorPoolText)))
  {
    BackExteriorPoolFound9();
    BackExteriorPoolPasses6(CatalogFrom9);
    BackExteriorPoolPasses3(CatalogFrom6);
    BackExteriorPoolPasses0(CatalogFrom3);
  }


  // BackExteriorLakeAndBoatText

  lemma BackExteriorLakeAndBoatPasses0(rest: Removals)
    requires ErasedBy(rest, Clause(BackExteriorLakeAndBoatText), Literal(Clause(BackExteriorLakeAndBoatText)))
    ensures ErasedBy(Then(Spaced(FrontExteriorPattern), Then(Spaced(NoPoolInGarageText), Then(Spaced(NoGarageInBackyardText), rest))), Clause(BackExteriorLakeAndBoatText), Literal(Clause(BackExteriorLakeAndBoatText)))
  {
    BackExteriorLakeAndBoatTextFacts();
    BackExteriorLakeAndBoatTextSeparated1();
    FrontExteriorPatternFacts();
    ApartNoNewMatch(FrontExteriorPattern, BackExteriorLakeAndBoatText);
    NoPoolInGarageTextFacts();
    ApartNoNewMatch(NoPoolInGarageText, BackExteriorLakeAndBoatText);
    NoGarageInBackyardTextFacts();
    ApartNoNewMatch(NoGarageInBackyardText, BackExteriorLakeAndBoatText);
    assert ErasedBy(Then(Spaced(NoGarageInBackyardText), rest), Clause(BackExteriorLakeAndBoatText), Literal(Clause(BackExteriorLakeAndBoatText)));
    assert ErasedBy(Then(Spaced(NoPoolInGarageText), Then(Spaced(NoGarageInBackyardText), rest)), Clause(BackExteriorLakeAndBoatText), Literal(Clause(BackExteriorLakeAndBoatText)));
  }

  lemma BackExteriorLakeAndBoatPasses3(rest: Removals)
    requires ErasedBy(rest, Clause(BackExteriorLakeAndBoatText), Literal(Clause(BackExteriorLakeAndBoatText)))
    ensures ErasedBy(Then(Spaced(NoLakeInFrontText), Then(Spaced(ProjectorText), Then(Spaced(TheaterSeatingText), rest))), Clause(BackExteriorLakeAndBoatText), Literal(Clause(BackExteriorLakeAndBoatText)))
  {
    BackExteriorLakeAndBoatTextFacts();
    BackExteriorLakeAndBoatTextSeparated2();
    NoLakeInFrontTextFacts();
    ApartNoNewMatch(NoLakeInFrontText, BackExteriorLakeAndBoatText);
    ProjectorTextFacts();
    ApartNoNewMatch(ProjectorText, BackExteriorLakeAndBoatText);
    TheaterSeatingTextFacts();
    ApartNoNewMatch(TheaterSeatingText, BackExteriorLakeAndBoatText);
    assert ErasedBy(Then(Spaced(TheaterSeatingText), rest), Clause(BackExteriorLakeAndBoatText), Literal(Clause(BackExteriorLakeAndBoatText)));
    assert ErasedBy(Then(Spaced(ProjectorText), Then(Spaced(TheaterSeatingText), rest)), Clause(BackExteriorLakeAndBoatText), Literal(Clause(BackExteriorLakeAndBoatText)));
  }

  lemma BackExteriorLakeAndBoatPasses6(rest: Removals)
    requires ErasedBy(rest, Clause(BackExteriorLakeAndBoatText), Literal(Clause(BackExteriorLakeAndBoatText)))
    ensures ErasedBy(Then(Spaced(RanchStyleText), Then(Spaced(CarPlacementText), Then(Spaced(NoPuttingGreenInRoomText), rest))), Clause(BackExteriorLakeAndBoatText), Literal(Clause(BackExteriorLakeAndBoatText)))
  {
    BackExteriorLakeAndBoatTextFacts();
    BackExteriorLakeAndBoatTextSeparated3();
    RanchStyleTextFacts();
    ApartNoNewMatch(RanchStyleText, BackExteriorLakeAndBoatText);
    CarPlacementTextFacts();
    ApartNoNewMatch(CarPlacementText, BackExteriorLakeAndBoatText);
    NoPuttingGreenInRoomTextFacts();
    ApartNoNewMatch(NoPuttingGreenInRoomText, BackExteriorLakeAndBoatText);
    assert ErasedBy(Then(Spaced(NoPuttingGreenInRoomText), rest), Clause(BackExteriorLakeAndBoatText), Literal(Clause(BackExteriorLakeAndBoatText)));
    assert ErasedBy(Then(Spaced(CarPlacementText), Then(Spaced(NoPuttingGreenInRoomText), rest)), Clause(BackExteriorLakeAndBoatText), Literal(Clause(BackExteriorLakeAndBoatText)));
  }

  lemma BackExteriorLakeAndBoatFound9()
    ensures ErasedBy(CatalogFrom9, Clause(BackExteriorLakeAndBoatText), Literal(Clause(BackExteriorLakeAndBoatText)))
  {
    BackExteriorLakeAndBoatTextFacts();
    BackExteriorLakeAndBoatTextSeparated4();
    NoFireplaceAboveBedTextFacts();
    ApartNoNewMatch(NoFireplaceAboveBedText, BackExteriorLakeAndBoatText);
    BackExteriorPoolTextFacts();
    ApartNoNewMatch(Clause(BackExteriorPoolText), BackExteriorLakeAndBoatText);
    assert ErasedBy(Then(Literal(Clause(BackExteriorLakeAndBoatText)), Then(Literal(NightModeText), Done)), Clause(BackExteriorLakeAndBoatText), Literal(Clause(BackExteriorLakeAndBoatText)));
    assert ErasedBy(Then(Literal(Clause(BackExteriorPoolText)), Then(Literal(Clause(BackExteriorLakeAndBoatText)), Then(Literal(NightModeText), Done))), Clause(BackExteriorLakeAndBoatText), Literal(Clause(BackExteriorLakeAndBoatText)));
  }

  lemma BackExteriorLakeAndBoatSeen()
    ensures ErasedBy(Catalog, Clause(BackExteriorLakeAndBoatText), Literal(Clause(BackExteriorLakeAndBoatText)))
  {
    BackExteriorLakeAndBoatFound9();
    BackExteriorLakeAndBoatPasses6(CatalogFrom9);
    BackExteriorLakeAndBoatPasses3(CatalogFrom6);
    BackExteriorLakeAndBoatPasses0(CatalogFrom3);
  }


  // NightModeText

  lemma NightModeApart0()
    ensures NoNewMatch(FrontExteriorPattern, " " + NightModeText)
  {
    NightModeTextEnding();
    FrontExteriorPatternFacts();
    EndsDiffer(FrontExteriorPattern, NightModeText, 2);
    DotNoNewMatch(FrontExteriorPattern, NightModeText);
  }

  lemma NightModeApart1()
    ensures NoNewMatch(NoPoolInGarageText, " " + NightModeText)
  {
    NightModeTextEnding();
    NoPoolInGarageTextFacts();
    EndsDiffer(NoPoolInGarageText, NightModeText, 2);
    DotNoNewMatch(NoPoolInGarageText, NightModeText);
  }

  lemma NightModeApart2()
    ensures NoNewMatch(NoGarageInBackyardText, " " + NightModeText)
  {
    NightModeTextEnding();
    NoGarageInBackyardTextFacts();
    EndsDiffer(NoGarageInBackyardText, NightModeText, 5);
    DotNoNewMatch(NoGarageInBackyardText, NightModeText);
  }

  lemma NightModeApart3()
    ensures NoNewMatch(NoLakeInFrontText, " " + NightModeText)
  {
    NightModeTextEnding();
    NoLakeInFrontTextFacts();
    EndsDiffer(NoLakeInFrontText, NightModeText, 2);
    DotNoNewMatch(NoLakeInFrontText, NightModeText);
  }

  lemma NightModeApart4()
    ensures NoNewMatch(ProjectorText, " " + NightModeText)
  {
    NightModeTextEnding();
    ProjectorTextFacts();
    EndsDiffer(ProjectorText, NightModeText, 2);
    DotNoNewMatch(ProjectorText, NightModeText);
  }

  lemma NightModeApart5()
    ensures NoNewMatch(TheaterSeatingText, " " + NightModeText)
  {
    NightModeTextEnding();
    TheaterSeatingTextFacts();
    EndsDiffer(TheaterSeatingText, NightModeText, 2);
    DotNoNewMatch(TheaterSeatingText, NightModeText);
  }

  lemma NightModeApart6()
    ensures NoNewMatch(RanchStyleText, " " + NightModeText)
  {
    NightModeTextEnding();
    RanchStyleTextFacts();
    EndsDiffer(RanchStyleText, NightModeText, 2);
    DotNoNewMatch(RanchStyleText, NightModeText);
  }

  lemma NightModeApart7()
    ensures NoNewMatch(CarPlacementText, " " + NightModeText)
  {
    NightModeTextEnding();
    CarPlacementTextFacts();
    EndsDiffer(CarPlacementText, NightModeText, 2);
    DotNoNewMatch(CarPlacementText, NightModeText);
  }

  lemma NightModeApart8()
    ensures NoNewMatch(NoPuttingGreenInRoomText, " " + NightModeText)
  {
    NightModeTextEnding();
    NoPuttingGreenInRoomTextFacts();
    EndsDiffer(NoPuttingGreenInRoomText, NightModeText, 2);
    DotNoNewMatch(NoPuttingGreenInRoomText, NightModeText);
  }

  lemma NightModeApart9()
    ensures NoNewMatch(NoFireplaceAboveBedText, " " + NightModeText)
  {
    NightModeTextEnding();
    NoFireplaceAboveBedTextFacts();
    EndsDiffer(NoFireplaceAboveBedText, NightModeText, 2);
    DotNoNewMatch(NoFireplaceAboveBedText, NightModeText);
  }

  lemma NightModeApart10()
    ensures NoNewMatch(Clause(BackExteriorPoolText), " " + NightModeText)
  {
    NightModeTextEnding();
    BackExteriorPoolTextFacts();
    ClauseEnd(BackExteriorPoolText, 1);
    ClauseEnd(BackExteriorPoolText, 5);
    EndsDiffer(Clause(BackExteriorPoolText), NightModeText, 5);
    DotNoNewMatch(Clause(BackExteriorPoolText), NightModeText);
  }

  lemma NightModeApart11()
    ensures NoNewMatch(Clause(BackExteriorLakeAndBoatText), " " + NightModeText)
  {
    NightModeTextEnding();
    BackExteriorLakeAndBoatTextFacts();
    ClauseEnd(BackExteriorLakeAndBoatText, 1);
    ClauseEnd(BackExteriorLakeAndBoatText, 5);
    EndsDiffer(Clause(BackExteriorLakeAndBoatText), NightModeText, 5);
    DotNoNewMatch(Clause(BackExteriorLakeAndBoatText), NightModeText);
  }

  // NightModeText

  lemma NightModePasses0(rest: Removals)
    requires ErasedLast(rest, " " + NightModeText, Literal(NightModeText))
    ensures ErasedLast(Then(Spaced(FrontExteriorPattern), Then(Spaced(NoPoolInGarageText), Then(Spaced(NoGarageInBackyardText), rest))), " " + NightModeText, Literal(NightModeText))
  {
    NightModeApart0();
    NightModeApart1();
    NightModeApart2();
    assert ErasedLast(Then(Spaced(NoGarageInBackyardText), rest), " " + NightModeText, Literal(NightModeText));
    assert ErasedLast(Then(Spaced(NoPoolInGarageText), Then(Spaced(NoGarageInBackyardText), rest)), " " + NightModeText, Literal(NightModeText));
  }

  lemma NightModePasses3(rest: Removals)
    requires ErasedLast(rest, " " + NightModeText, Literal(NightModeText))
    ensures ErasedLast(Then(Spaced(NoLakeInFrontText), Then(Spaced(ProjectorText), Then(Spaced(TheaterSeatingText), rest))), " " + NightModeText, Literal(NightModeText))
  {
    NightModeApart3();
    NightModeApart4();
    NightModeApart5();
    assert ErasedLast(Then(Spaced(TheaterSeatingText), rest), " " + NightModeText, Literal(NightModeText));
    assert ErasedLast(Then(Spaced(ProjectorText), Then(Spaced(TheaterSeatingText), rest)), " " + NightModeText, Literal(NightModeText));
  }

  lemma NightModePasses6(rest: Removals)
    requires ErasedLast(rest, " " + NightModeText, Literal(NightModeText))
    ensures ErasedLast(Then(Spaced(RanchStyleText), Then(Spaced(CarPlacementText), Then(Spaced(NoPuttingGreenInRoomText), rest))), " " + NightModeText, Literal(NightModeText))
  {
    NightModeApart6();
    NightModeApart7();
    NightModeApart8();
    assert ErasedLast(Then(Spaced(NoPuttingGreenInRoomText), rest), " " + NightModeText, Literal(NightModeText));
    assert ErasedLast(Then(Spaced(CarPlacementText), Then(Spaced(NoPuttingGreenInRoomText), rest)), " " + NightModeText, Literal(NightModeText));
  }

  lemma NightModeFound9()
    ensures ErasedLast(CatalogFrom9, " " + NightModeText, Literal(NightModeText))
  {
    NightModeApart9();
    NightModeApart10();
    NightModeApart11();
    assert ErasedLast(Then(Literal(NightModeText), Done), " " + NightModeText, Literal(NightModeText));
    assert ErasedLast(Then(Literal(Clause(BackExteriorLakeAndBoatText)), Then(Literal(NightModeText), Done)), " " + NightModeText, Literal(NightModeText));
    assert ErasedLast(Then(Literal(Clause(BackExteriorPoolText)), Then(Literal(Clause(BackExteriorLakeAndBoatText)), Then(Literal(NightModeText), Done))), " " + NightModeText, Literal(NightModeText));
  }

  lemma NightModeSeen()
    ensures ErasedLast(Catalog, " " + NightModeText, Literal(NightModeText))
  {
    NightModeFound9();
    NightModePasses6(CatalogFrom9);
    NightModePasses3(CatalogFrom6);
    NightModePasses0(CatalogFrom3);
  }


  // FrontExteriorText

  lemma FrontExteriorPasses0(rest: Removals)
    requires Keeps(rest, Clause(FrontExteriorText))
    ensures Keeps(Then(Spaced(FrontExteriorPattern), Then(Spaced(NoPoolInGarageText), Then(Spaced(NoGarageInBackyardText), rest))), Clause(FrontExteriorText))
  {
    FrontExteriorTextFacts();
    FrontExteriorTextSeparated1();
    FrontExteriorPatternFacts();
    ApartNoNewMatch(FrontExteriorPattern, FrontExteriorText);
    NoPoolInGarageTextFacts();
    ApartNoNewMatch(NoPoolInGarageText, FrontExteriorText);
    NoGarageInBackyardTextFacts();
    ApartNoNewMatch(NoGarageInBackyardText, FrontExteriorText);
    assert Keeps(Then(Spaced(NoGarageInBackyardText), rest), Clause(FrontExteriorText));
    assert Keeps(Then(Spaced(NoPoolInGarageText), Then(Spaced(NoGarageInBackyardText), rest)), Clause(FrontExteriorText));
  }

  lemma FrontExteriorPasses3(rest: Removals)
    requires Keeps(rest, Clause(FrontExteriorText))
    ensures Keeps(Then(Spaced(NoLakeInFrontText), Then(Spaced(ProjectorText), Then(Spaced(TheaterSeatingText), rest))), Clause(FrontExteriorText))
  {
    FrontExteriorTextFacts();
    FrontExteriorTextSeparated2();
    NoLakeInFrontTextFacts();
    ApartNoNewMatch(NoLakeInFrontText, FrontExteriorText);
    ProjectorTextFacts();
    ApartNoNewMatch(ProjectorText, FrontExteriorText);
    TheaterSeatingTextFacts();
    ApartNoNewMatch(TheaterSeatingText, FrontExteriorText);
    assert Keeps(Then(Spaced(TheaterSeatingText), rest), Clause(FrontExteriorText));
    assert Keeps(Then(Spaced(ProjectorText), Then(Spaced(TheaterSeatingText), rest)), Clause(FrontExteriorText));
  }

  lemma FrontExteriorPasses6(rest: Removals)
    requires Keeps(rest, Clause(FrontExteriorText))
    ensures Keeps(Then(Spaced(RanchStyleText), Then(Spaced(CarPlacementText), Then(Spaced(NoPuttingGreenInRoomText), rest))), Clause(FrontExteriorText))
  {
    FrontExteriorTextFacts();
    FrontExteriorTextSeparated3();
    RanchStyleTextFacts();
    ApartNoNewMatch(RanchStyleText, FrontExteriorText);
    CarPlacementTextFacts();
    ApartNoNewMatch(CarPlacementText, FrontExteriorText);
    NoPuttingGreenInRoomTextFacts();
    ApartNoNewMatch(NoPuttingGreenInRoomText, FrontExteriorText);
    assert Keeps(Then(Spaced(NoPuttingGreenInRoomText), rest), Clause(FrontExteriorText));
    assert Keeps(Then(Spaced(CarPlacementText), Then(Spaced(NoPuttingGreenInRoomText), rest)), Clause(FrontExteriorText));
  }

  lemma FrontExteriorPasses9(rest: Removals)
    requires Keeps(rest, Clause(FrontExteriorText))
    ensures Keeps(Then(Spaced(NoFireplaceAboveBedText), Then(Literal(Clause(BackExteriorPoolText)), rest)), Clause(FrontExteriorText))
  {
    FrontExteriorTextFacts();
    FrontExteriorTextSeparated4();
    NoFireplaceAboveBedTextFacts();
    ApartNoNewMatch(NoFireplaceAboveBedText, FrontExteriorText);
    BackExteriorPoolTextFacts();
    ApartNoNewMatch(Clause(BackExteriorPoolText), FrontExteriorText);
    assert Keeps(Then(Literal(Clause(BackExteriorPoolText)), rest), Clause(FrontExteriorText));
  }

  lemma FrontExteriorFound11()
    ensures Keeps(Then(Literal(Clause(BackExteriorLakeAndBoatText)), Then(Literal(NightModeText), Done)), Clause(FrontExteriorText))
  {
    FrontExteriorTextFacts();
    FrontExteriorTextSeparated4();
    FrontExteriorTextSeparated5();
    BackExteriorLakeAndBoatTextFacts();
    ApartNoNewMatch(Clause(BackExteriorLakeAndBoatText), FrontExteriorText);
    NightModeTextFacts();
    ApartNoNewMatch(NightModeText, FrontExteriorText);
    assert Keeps(Then(Literal(NightModeText), Done), Clause(FrontExteriorText));
  }

  lemma FrontExteriorSeen()
    ensures Keeps(Catalog, Clause(FrontExteriorText))
  {
    FrontExteriorFound11();
    FrontExteriorPasses9(Then(Literal(Clause(BackExteriorLakeAndBoatText)), Then(Literal(NightModeText), Done)));
    FrontExteriorPasses6(CatalogFrom9);
    FrontExteriorPasses3(CatalogFrom6);
    FrontExteriorPasses0(CatalogFrom3);
  }


  // StackedLaundryText

  lemma StackedLaundryPasses0(rest: Removals)
    requires Keeps(rest, Clause(StackedLaundryText))
    ensures Keeps(Then(Spaced(FrontExteriorPattern), Then(Spaced(NoPoolInGarageText), Then(Spaced(NoGarageInBackyardText), rest))), Clause(StackedLaundryText))
  {
    StackedLaundryTextFacts();
    StackedLaundryTextSeparated1();
    FrontExteriorPatternFacts();
    ApartNoNewMatch(FrontExteriorPattern, StackedLaundryText);
    NoPoolInGarageTextFacts();
    ApartNoNewMatch(NoPoolInGarageText, StackedLaundryText);
    NoGarageInBackyardTextFacts();
    ApartNoNewMatch(NoGarageInBackyardText, StackedLaundryText);
    assert Keeps(Then(Spaced(NoGarageInBackyardText), rest), Clause(StackedLaundryText));
    assert Keeps(Then(Spaced(NoPoolInGarageText), Then(Spaced(NoGarageInBackyardText), rest)), Clause(StackedLaundryText));
  }

  lemma StackedLaundryPasses3(rest: Removals)
    requires Keeps(rest, Clause(StackedLaundryText))
    ensures Keeps(Then(Spaced(NoLakeInFrontText), Then(Spaced(ProjectorText), Then(Spaced(TheaterSeatingText), rest))), Clause(StackedLaundryText))
  {
    StackedLaundryTextFacts();
    StackedLaundryTextSeparated2();
    NoLakeInFrontTextFacts();
    ApartNoNewMatch(NoLakeInFrontText, StackedLaundryText);
    ProjectorTextFacts();
    ApartNoNewMatch(ProjectorText, StackedLaundryText);
    TheaterSeatingTextFacts();
    ApartNoNewMatch(TheaterSeatingText, StackedLaundryText);
    assert Keeps(Then(Spaced(TheaterSeatingText), rest), Clause(StackedLaundryText));
    assert Keeps(Then(Spaced(ProjectorText), Then(Spaced(TheaterSeatingText), rest)), Clause(StackedLaundryText));
  }

  lemma StackedLaundryPasses6(rest: Removals)
    requires Keeps(rest, Clause(StackedLaundryText))
    ensures Keeps(Then(Spaced(RanchStyleText), Then(Spaced(CarPlacementText), Then(Spaced(NoPuttingGreenInRoomText), rest))), Clause(StackedLaundryText))
  {
    StackedLaundryTextFacts();
    StackedLaundryTextSeparated3();
    RanchStyleTextFacts();
    ApartNoNewMatch(RanchStyleText, StackedLaundryText);
    CarPlacementTextFacts();
    ApartNoNewMatch(CarPlacementText, StackedLaundryText);
    NoPuttingGreenInRoomTextFacts();
    ApartNoNewMatch(NoPuttingGreenInRoomText, StackedLaundryText);
    assert Keeps(Then(Spaced(NoPuttingGreenInRoomText), rest), Clause(StackedLaundryText));
    assert Keeps(Then(Spaced(CarPlacementText), Then(Spaced(NoPuttingGreenInRoomText), rest)), Clause(StackedLaundryText));
  }

  lemma StackedLaundryPasses9(rest: Removals)
    requires Keeps(rest, Clause(StackedLaundryText))
    ensures Keeps(Then(Spaced(NoFireplaceAboveBedText), Then(Literal(Clause(BackExteriorPoolText)), rest)), Clause(StackedLaundryText))
  {
    StackedLaundryTextFacts();
    StackedLaundryTextSeparated4();
    NoFireplaceAboveBedTextFacts();
    ApartNoNewMatch(NoFireplaceAboveBedText, StackedLaundryText);
    BackExteriorPoolTextFacts();
    ApartNoNewMatch(Clause(BackExteriorPoolText), StackedLaundryText);
    assert Keeps(Then(Literal(Clause(BackExteriorPoolText)), rest), Clause(StackedLaundryText));
  }

  lemma StackedLaundryFound11()
    ensures Keeps(Then(Literal(Clause(BackExteriorLakeAndBoatText)), Then(Literal(NightModeText), Done)), Clause(StackedLaundryText))
  {
    StackedLaundryTextFacts();
    StackedLaundryTextSeparated4();
    StackedLaundryTextSeparated5();
    BackExteriorLakeAndBoatTextFacts();
    ApartNoNewMatch(Clause(BackExteriorLakeAndBoatText), StackedLaundryText);
    NightModeTextFacts();
    ApartNoNewMatch(NightModeText, StackedLaundryText);
    assert Keeps(Then(Literal(NightModeText), Done), Clause(StackedLaundryText));
  }

  lemma StackedLaundrySeen()
    ensures Keeps(Catalog, Clause(StackedLaundryText))
  {
    StackedLaundryFound11();
    StackedLaundryPasses9(Then(Literal(Clause(BackExteriorLakeAndBoatText)), Then(Literal(NightModeText), Done)));
    StackedLaundryPasses6(CatalogFrom9);
    StackedLaundryPasses3(CatalogFrom6);
    StackedLaundryPasses0(CatalogFrom3);
  }


  // SideBySideLaundryText

  lemma SideBySideLaundryPasses0(rest: Removals)
    requires Keeps(rest, Clause(SideBySideLaundryText))
    ensures Keeps(Then(Spaced(FrontExteriorPattern), Then(Spaced(NoPoolInGarageText), Then(Spaced(NoGarageInBackyardText), rest))), Clause(SideBySideLaundryText))
  {
    SideBySideLaundryTextFacts();
    SideBySideLaundryTextSeparated1();
    FrontExteriorPatternFacts();
    ApartNoNewMatch(FrontExteriorPattern, SideBySideLaundryText);
    NoPoolInGarageTextFacts();
    ApartNoNewMatch(NoPoolInGarageText, SideBySideLaundryText);
    NoGarageInBackyardTextFacts();
    ApartNoNewMatch(NoGarageInBackyardText, SideBySideLaundryText);
    assert Keeps(Then(Spaced(NoGarageInBackyardText), rest), Clause(SideBySideLaundryText));
    assert Keeps(Then(Spaced(NoPoolInGarageText), Then(Spaced(NoGarageInBackyardText), rest)), Clause(SideBySideLaundryText));
  }

  lemma SideBySideLaundryPasses3(rest: Removals)
    requires Keeps(rest, Clause(SideBySideLaundryText))
    ensures Keeps(Then(Spaced(NoLakeInFrontText), Then(Spaced(ProjectorText), Then(Spaced(TheaterSeatingText), rest))), Clause(SideBySideLaundryText))
  {
    SideBySideLaundryTextFacts();
    SideBySideLaundryTextSeparated2();
    NoLakeInFrontTextFacts();
    ApartNoNewMatch(NoLakeInFrontText, SideBySideLaundryText);
    ProjectorTextFacts();
    ApartNoNewMatch(ProjectorText, SideBySideLaundryText);
    TheaterSeatingTextFacts();
    ApartNoNewMatch(TheaterSeatingText, SideBySideLaundryText);
    assert Keeps(Then(Spaced(TheaterSeatingText), rest), Clause(SideBySideLaundryText));
    assert Keeps(Then(Spaced(ProjectorText), Then(Spaced(TheaterSeatingText), rest)), Clause(SideBySideLaundryText));
  }

  lemma SideBySideLaundryPasses6(rest: Removals)
    requires Keeps(rest, Clause(SideBySideLaundryText))
    ensures Keeps(Then(Spaced(RanchStyleText), Then(Spaced(CarPlacementText), Then(Spaced(NoPuttingGreenInRoomText), rest))), Clause(SideBySideLaundryText))
  {
    SideBySideLaundryTextFacts();
    SideBySideLaundryTextSeparated3();
    RanchStyleTextFacts();
    ApartNoNewMatch(RanchStyleText, SideBySideLaundryText);
    CarPlacementTextFacts();
    ApartNoNewMatch(CarPlacementText, SideBySideLaundryText);
    NoPuttingGreenInRoomTextFacts();
    ApartNoNewMatch(NoPuttingGreenInRoomText, SideBySideLaundryText);
    assert Keeps(Then(Spaced(NoPuttingGreenInRoomText), rest), Clause(SideBySideLaundryText));
    assert Keeps(Then(Spaced(CarPlacementText), Then(Spaced(NoPuttingGreenInRoomText), rest)), Clause(SideBySideLaundryText));
  }

  lemma SideBySideLaundryPasses9(rest: Removals)
    requires Keeps(rest, Clause(SideBySideLaundryText))
    ensures Keeps(Then(Spaced(NoFireplaceAboveBedText), Then(Literal(Clause(BackExteriorPoolText)), rest)), Clause(SideBySideLaundryText))
  {
    SideBySideLaundryTextFacts();
    SideBySideLaundryTextSeparated4();
    NoFireplaceAboveBedTextFacts();
    ApartNoNewMatch(NoFireplaceAboveBedText, SideBySideLaundryText);
    BackExteriorPoolTextFacts();
    ApartNoNewMatch(Clause(BackExteriorPoolText), SideBySideLaundryText);
    assert Keeps(Then(Literal(Clause(BackExteriorPoolText)), rest), Clause(SideBySideLaundryText));
  }

  lemma SideBySideLaundryFound11()
    ensures Keeps(Then(Literal(Clause(BackExteriorLakeAndBoatText)), Then(Literal(NightModeText), Done)), Clause(SideBySideLaundryText))
  {
    SideBySideLaundryTextFacts();
    SideBySideLaundryTextSeparated4();
    SideBySideLaundryTextSeparated5();
    BackExteriorLakeAndBoatTextFacts();
    ApartNoNewMatch(Clause(BackExteriorLakeAndBoatText), SideBySideLaundryText);
    NightModeTextFacts();
    ApartNoNewMatch(NightModeText, SideBySideLaundryText);
    assert Keeps(Then(Literal(NightModeText), Done), Clause(SideBySideLaundryText));
  }

  lemma SideBySideLaundrySeen()
    ensures Keeps(Catalog, Clause(SideBySideLaundryText))
  {
    SideBySideLaundryFound11();
    SideBySideLaundryPasses9(Then(Literal(Clause(BackExteriorLakeAndBoatText)), Then(Literal(NightModeText), Done)));
    SideBySideLaundryPasses6(CatalogFrom9);
    SideBySideLaundryPasses3(CatalogFrom6);
    SideBySideLaundryPasses0(CatalogFrom3);
  }


  lemma NoPoolInGarageShape()
    ensures NoPoolInGarageText != [] && !IsSpace(NoPoolInGarageText[0]) && '\n' !in NoPoolInGarageText
  {
    NoPoolInGarageTextFacts();
  }

  /** The clause `NoPoolInGarageText` appended to a prompt without rule text is removed again by the cleaner. */
  lemma NoPoolInGarageRoundTrip(base: string)
    requires NoRuleText(base)
    ensures Clean(base + Clause(NoPoolInGarageText)) == Clean(base)
  {
    NoPoolInGarageSeen();
    NoPoolInGarageShape();
    CleanSpacedClause(base, NoPoolInGarageText);
  }

  lemma NoGarageInBackyardShape()
    ensures NoGarageInBackyardText != [] && !IsSpace(NoGarageInBackyardText[0]) && '\n' !in NoGarageInBackyardText
  {
    NoGarageInBackyardTextFacts();
  }

  /** The clause `NoGarageInBackyardText` appended to a prompt without rule text is removed again by the cleaner. */
  lemma NoGarageInBackyardRoundTrip(base: string)
    requires NoRuleText(base)
    ensures Clean(base + Clause(NoGarageInBackyardText)) == Clean(base)
  {
    NoGarageInBackyardSeen();
    NoGarageInBackyardShape();
    CleanSpacedClause(base, NoGarageInBackyardText);
  }

  lemma NoLakeInFrontShape()
    ensures NoLakeInFrontText != [] && !IsSpace(NoLakeInFrontText[0]) && '\n' !in NoLakeInFrontText
  {
    NoLakeInFrontTextFacts();
  }

  /** The clause `NoLakeInFrontText` appended to a prompt without rule text is removed again by the cleaner. */
  lemma NoLakeInFrontRoundTrip(base: string)
    requires NoRuleText(base)
    ensures Clean(base + Clause(NoLakeInFrontText)) == Clean(base)
  {
    NoLakeInFrontSeen();
    NoLakeInFrontShape();
    CleanSpacedClause(base, NoLakeInFrontText);
  }

  lemma ProjectorShape()
    ensures ProjectorText != [] && !IsSpace(ProjectorText[0]) && '\n' !in ProjectorText
  {
    ProjectorTextFacts();
  }

  /** The clause `ProjectorText` appended to a prompt without rule text is removed again by the cleaner. */
  lemma ProjectorRoundTrip(base: string)
    requires NoRuleText(base)
    ensures Clean(base + Clause(ProjectorText)) == Clean(base)
  {
    ProjectorSeen();
    ProjectorShape();
    CleanSpacedClause(base, ProjectorText);
  }

  lemma TheaterSeatingShape()
    ensures TheaterSeatingText != [] && !IsSpace(TheaterSeatingText[0]) && '\n' !in TheaterSeatingText
  {
    TheaterSeatingTextFacts();
  }

  /** The clause `TheaterSeatingText` appended to a prompt without rule text is removed again by the cleaner. */
  lemma TheaterSeatingRoundTrip(base: string)
    requires NoRuleText(base)
    ensures Clean(base + Clause(TheaterSeatingText)) == Clean(base)
  {
    TheaterSeatingSeen();
    TheaterSeatingShape();
    CleanSpacedClause(base, TheaterSeatingText);
  }

  lemma RanchStyleShape()
    ensures RanchStyleText != [] && !IsSpace(RanchStyleText[0]) && '\n' !in RanchStyleText
  {
    RanchStyleTextFacts();
  }

  /** The clause `RanchStyleText` appended to a prompt without rule text is removed again by the cleaner. */
  lemma RanchStyleRoundTrip(base: string)
    requires NoRuleText(base)
    ensures Clean(base + Clause(RanchStyleText)) == Clean(base)
  {
    RanchStyleSeen();
    RanchStyleShape();
    CleanSpacedClause(base, RanchStyleText);
  }

  lemma CarPlacementShape()
    ensures CarPlacementText != [] && !IsSpace(CarPlacementText[0]) && '\n' !in CarPlacementText
  {
    CarPlacementTextFacts();
  }

  /** The clause `CarPlacementText` appended to a prompt without rule text is removed again by the cleaner. */
  lemma CarPlacementRoundTrip(base: string)
    requires NoRuleText(base)
    ensures Clean(base + Clause(CarPlacementText)) == Clean(base)
  {
    CarPlacementSeen();
    CarPlacementShape();
    CleanSpacedClause(base, CarPlacementText);
  }

  lemma NoPuttingGreenInRoomShape()
    ensures NoPuttingGreenInRoomText != [] && !IsSpace(NoPuttingGreenInRoomText[0]) && '\n' !in NoPuttingGreenInRoomText
  {
    NoPuttingGreenInRoomTextFacts();
  }

  /** The clause `NoPuttingGreenInRoomText` appended to a prompt without rule text is removed again by the cleaner. */
  lemma NoPuttingGreenInRoomRoundTrip(base: string)
    requires NoRuleText(base)
    ensures Clean(base + Clause(NoPuttingGreenInRoomText)) == Clean(base)
  {
    NoPuttingGreenInRoomSeen();
    NoPuttingGreenInRoomShape();
    CleanSpacedClause(base, NoPuttingGreenInRoomText);
  }

  lemma NoFireplaceAboveBedShape()
    ensures NoFireplaceAboveBedText != [] && !IsSpace(NoFireplaceAboveBedText[0]) && '\n' !in NoFireplaceAboveBedText
  {
    NoFireplaceAboveBedTextFacts();
  }

  /** The clause `NoFireplaceAboveBedText` appended to a prompt without rule text is removed again by the cleaner. */
  lemma NoFireplaceAboveBedRoundTrip(base: string)
    requires NoRuleText(base)
    ensures Clean(base + Clause(NoFireplaceAboveBedText)) == Clean(base)
  {
    NoFireplaceAboveBedSeen();
    NoFireplaceAboveBedShape();
    CleanSpacedClause(base, NoFireplaceAboveBedText);
  }

  lemma BackExteriorPoolShape()
    ensures BackExteriorPoolText != [] && '\n' !in BackExteriorPoolText
  {
    BackExteriorPoolTextFacts();
  }

  /** The clause `BackExteriorPoolText` appended to a prompt without rule text is removed again by the cleaner. */
  lemma BackExteriorPoolRoundTrip(base: string)
    requires NoRuleText(base)
    ensures Clean(base + Clause(BackExteriorPoolText)) == Clean(base)
  {
    BackExteriorPoolSeen();
    BackExteriorPoolShape();
    CleanLiteralClause(base, BackExteriorPoolText);
  }

  lemma BackExteriorLakeAndBoatShape()
    ensures BackExteriorLakeAndBoatText != [] && '\n' !in BackExteriorLakeAndBoatText
  {
    BackExteriorLakeAndBoatTextFacts();
  }

  /** The clause `BackExteriorLakeAndBoatText` appended to a prompt without rule text is removed again by the cleaner. */
  lemma BackExteriorLakeAndBoatRoundTrip(base: string)
    requires NoRuleText(base)
    ensures Clean(base + Clause(BackExteriorLakeAndBoatText)) == Clean(base)
  {
    BackExteriorLakeAndBoatSeen();
    BackExteriorLakeAndBoatShape();
    CleanLiteralClause(base, BackExteriorLakeAndBoatText);
  }

  /** The night sentence appended to a prompt without rule text is removed again by the cleaner. */
  lemma NightModeRoundTrip(base: string)
    requires NoRuleText(base)
    ensures Clean(base + " " + NightModeText) == Clean(base)
  {
    NightModeSeen();
    NightModeTextEnding();
    CleanNightClause(base, NightModeText);
  }

  lemma FrontExteriorShape()
    ensures FrontExteriorText != [] && !IsSpace(FrontExteriorText[0]) && !IsSpace(FrontExteriorText[|FrontExteriorText| - 1]) && NoDoubleSpace(FrontExteriorText)
  {
    FrontExteriorTextFacts();
    FrontExteriorTextSpacing();
  }

  /** No removal of the cleaner touches the clause `FrontExteriorText`: it is only normalised, and the displayed prompt still ends with it. */
  lemma FrontExteriorSurvives(base: string)
    requires NoRuleText(base)
    ensures Clean(base + Clause(FrontExteriorText)) == Normalize(base + Clause(FrontExteriorText))
    ensures EndsWith(Clean(base + Clause(FrontExteriorText)), FrontExteriorText)
  {
    FrontExteriorSeen();
    CleanKeptClause(base, Clause(FrontExteriorText));
    FrontExteriorShape();
    KeptTail(base, FrontExteriorText);
  }

  lemma StackedLaundryShape()
    ensures StackedLaundryText != [] && !IsSpace(StackedLaundryText[0]) && !IsSpace(StackedLaundryText[|StackedLaundryText| - 1]) && NoDoubleSpace(StackedLaundryText)
  {
    StackedLaundryTextFacts();
    StackedLaundryTextSpacing();
  }

  /** No removal of the cleaner touches the clause `StackedLaundryText`: it is only normalised, and the displayed prompt still ends with it. */
  lemma StackedLaundrySurvives(base: string)
    requires NoRuleText(base)
    ensures Clean(base + Clause(StackedLaundryText)) == Normalize(base + Clause(StackedLaundryText))
    ensures EndsWith(Clean(base + Clause(StackedLaundryText)), StackedLaundryText)
  {
    StackedLaundrySeen();
    CleanKeptClause(base, Clause(StackedLaundryText));
    StackedLaundryShape();
    KeptTail(base, StackedLaundryText);
  }

  lemma SideBySideLaundryShape()
    ensures SideBySideLaundryText != [] && !IsSpace(SideBySideLaundryText[0]) && !IsSpace(SideBySideLaundryText[|SideBySideLaundryText| - 1]) && NoDoubleSpace(SideBySideLaundryText)
  {
    SideBySideLaundryTextFacts();
    SideBySideLaundryTextSpacing();
  }

  /** No removal of the cleaner touches the clause `SideBySideLaundryText`: it is only normalised, and the displayed prompt still ends with it. */
  lemma SideBySideLaundrySurvives(base: string)
    requires NoRuleText(base)
    ensures Clean(base + Clause(SideBySideLaundryText)) == Normalize(base + Clause(SideBySideLaundryText))
    ensures EndsWith(Clean(base + Clause(SideBySideLaundryText)), SideBySideLaundryText)
  {
    SideBySideLaundrySeen();
    CleanKeptClause(base, Clause(SideBySideLaundryText));
    SideBySideLaundryShape();
    KeptTail(base, SideBySideLaundryText);
  }
}
