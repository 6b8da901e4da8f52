/**
 * The rule catalog of the prompt engine: the fixed instruction clauses that the
 * prompt builders append, and the literals of the removal patterns that the
 * display cleaner deletes again (App.tsx:21-52, and the two laundry layout
 * clauses written inline at App.tsx:362 and App.tsx:364).
 *
 * Every text is kept without the paragraph break "\n\n" that the clause
 * constants start with; `Clause` adds it back.  Each text is written as a body
 * of short pieces followed by its final full stop.  The facts the cleaner needs
 * about the texts (no line break, a first character that is not whitespace,
 * characters or character pairs that tell two texts apart) are proved piece by
 * piece, which keeps every proof obligation small.
 */
module Rules {
  import opened Text

  /** A clause as the builders append it: a paragraph break, then the text. */
  function Clause(text: string): (c: string)
    ensures |c| == |text| + 2 && c[2..] == text
    ensures c[..2] == "\n\n"
  {
    "\n\n" + text
  }


  // NightModeText
  const NightModeText0: string := "It is nighttime, with a dark sky, "
  const NightModeText1: string := "visible stars, and warm, inviting "
  const NightModeText2: string := "light glowing from the interior "
  const NightModeText3: string := "windows and strategic exterior "
  const NightModeText4: string := "accent lighting"
  const NightModeTextBody: string := NightModeText0 + (NightModeText1 + (NightModeText2 + (NightModeText3 + (NightModeText4))))
  /** The night-mode sentence that the night toggle appends. */
  const NightModeText: string := NightModeTextBody + "."

  // FrontExteriorText
  const FrontExteriorText0: string := "CRITICAL INSTRUCTION: You are "
  const FrontExteriorText1: string := "generating a 'Front Exterior' "
  const FrontExteriorText2: string := "view. The overall house "
  const FrontExteriorText3: string := "description is provided for style "
  const FrontExteriorText4: string := "context ONLY. This description "
  const FrontExteriorText5: string := "might also mention backyard "
  const FrontExteriorText6: string := "elements like a swimming pool. "
  const FrontExteriorText7: string := "You are to COMPLETELY IGNORE any "
  const FrontExteriorText8: string := "mention of a pool or other "
  const FrontExteriorText9: string := "backyard features. This image "
  const FrontExteriorText10: string := "must ONLY show the front, "
  const FrontExteriorText11: string := "street-facing side of the house. "
  const FrontExteriorText12: string := "DO NOT include a swimming pool "
  const FrontExteriorText13: string := "under ANY circumstances"
  const FrontExteriorTextBody: string := FrontExteriorText0 + (FrontExteriorText1 + (FrontExteriorText2 + (FrontExteriorText3 + (FrontExteriorText4 + (FrontExteriorText5 + (FrontExteriorText6 + (FrontExteriorText7 + (FrontExteriorText8 + (FrontExteriorText9 + (FrontExteriorText10 + (FrontExteriorText11 + (FrontExteriorText12 + (FrontExteriorText13)))))))))))))
  /** The front-exterior clause (no pool or other backyard features). */
  const FrontExteriorText: string := FrontExteriorTextBody + "."

  // FrontExteriorPattern
  const FrontExteriorPattern0: string := "CRITICAL INSTRUCTION: You are "
  const FrontExteriorPattern1: string := "generating a 'Front Exterior' "
  const FrontExteriorPattern2: string := "view. The overall house "
  const FrontExteriorPattern3: string := "description is provided for style "
  const FrontExteriorPattern4: string := "context ONLY. This description "
  const FrontExteriorPattern5: string := "might also mention backyard "
  const FrontExteriorPattern6: string := "elements like a swimming pool. "
  const FrontExteriorPattern7: string := "You are to COMPLETELY IGIGNORE "
  const FrontExteriorPattern8: string := "any mention of a pool or other "
  const FrontExteriorPattern9: string := "backyard features. This image "
  const FrontExteriorPattern10: string := "must ONLY show the front, "
  const FrontExteriorPattern11: string := "street-facing side of the house. "
  const FrontExteriorPattern12: string := "DO NOT include a swimming pool "
  const FrontExteriorPattern13: string := "under ANY circumstances"
  const FrontExteriorPatternBody: string := FrontExteriorPattern0 + (FrontExteriorPattern1 + (FrontExteriorPattern2 + (FrontExteriorPattern3 + (FrontExteriorPattern4 + (FrontExteriorPattern5 + (FrontExteriorPattern6 + (FrontExteriorPattern7 + (FrontExteriorPattern8 + (FrontExteriorPattern9 + (FrontExteriorPattern10 + (FrontExteriorPattern11 + (FrontExteriorPattern12 + (FrontExteriorPattern13)))))))))))))
  /** The literal of the front-exterior removal pattern. It spells "IGIGNORE" where the clause has "IGNORE". */
  const FrontExteriorPattern: string := FrontExteriorPatternBody + "."

  // BackExteriorPoolText
  const BackExteriorPoolText0: string := "IMPORTANT: This is a 'Back "
  const BackExteriorPoolText1: string := "Exterior' view. The main house "
  const BackExteriorPoolText2: string := "description mentions a swimming "
  const BackExteriorPoolText3: string := "pool. Please ensure the pool is "
  const BackExteriorPoolText4: string := "prominently featured in this "
  const BackExteriorPoolText5: string := "rendering"
  const BackExteriorPoolTextBody: string := BackExteriorPoolText0 + (BackExteriorPoolText1 + (BackExteriorPoolText2 + (BackExteriorPoolText3 + (BackExteriorPoolText4 + (BackExteriorPoolText5)))))
  /** The back-exterior pool clause. */
  const BackExteriorPoolText: string := BackExteriorPoolTextBody + "."

  // NoPoolInGarageText
  const NoPoolInGarageText0: string := "CRITICAL INSTRUCTION: You are "
  const NoPoolInGarageText1: string := "rendering a 'Garage'. Garages are "
  const NoPoolInGarageText2: string := "for cars and storage. DO NOT "
  const NoPoolInGarageText3: string := "include a swimming pool, hot tub, "
  const NoPoolInGarageText4: string := "or any water features in this "
  const NoPoolInGarageText5: string := "image"
  const NoPoolInGarageTextBody: string := NoPoolInGarageText0 + (NoPoolInGarageText1 + (NoPoolInGarageText2 + (NoPoolInGarageText3 + (NoPoolInGarageText4 + (NoPoolInGarageText5)))))
  /** The no-pool-in-garage clause. */
  const NoPoolInGarageText: string := NoPoolInGarageTextBody + "."

  // NoGarageInBackyardText
  const NoGarageInBackyardText0: string := "CRITICAL INSTRUCTION: You are "
  const NoGarageInBackyardText1: string := "rendering a 'Backyard' or 'Back "
  const NoGarageInBackyardText2: string := "Exterior' view. It is "
  const NoGarageInBackyardText3: string := "architecturally incorrect for a "
  const NoGarageInBackyardText4: string := "garage to be visible from this "
  const NoGarageInBackyardText5: string := "viewpoint. DO NOT include a "
  const NoGarageInBackyardText6: string := "garage, garage doors, or cars "
  const NoGarageInBackyardText7: string := "inside a garage in this rendering"
  const NoGarageInBackyardTextBody: string := NoGarageInBackyardText0 + (NoGarageInBackyardText1 + (NoGarageInBackyardText2 + (NoGarageInBackyardText3 + (NoGarageInBackyardText4 + (NoGarageInBackyardText5 + (NoGarageInBackyardText6 + (NoGarageInBackyardText7)))))))
  /** The no-garage-in-backyard clause. */
  const NoGarageInBackyardText: string := NoGarageInBackyardTextBody + "."

  // NoLakeInFrontText
  const NoLakeInFrontText0: string := "CRITICAL INSTRUCTION: You are "
  const NoLakeInFrontText1: string := "generating a 'Front Exterior' "
  const NoLakeInFrontText2: string := "view. The image must ONLY show "
  const NoLakeInFrontText3: string := "the front, street-facing side of "
  const NoLakeInFrontText4: string := "the house. DO NOT include a lake, "
  const NoLakeInFrontText5: string := "boat, or any large body of water "
  const NoLakeInFrontText6: string := "under ANY circumstances"
  const NoLakeInFrontTextBody: string := NoLakeInFrontText0 + (NoLakeInFrontText1 + (NoLakeInFrontText2 + (NoLakeInFrontText3 + (NoLakeInFrontText4 + (NoLakeInFrontText5 + (NoLakeInFrontText6))))))
  /** The no-lake-in-front clause. */
  const NoLakeInFrontText: string := NoLakeInFrontTextBody + "."

  // BackExteriorLakeAndBoatText
  const BackExteriorLakeAndBoatText0: string := "IMPORTANT: This is a 'Back "
  const BackExteriorLakeAndBoatText1: string := "Exterior' view. The main house "
  const BackExteriorLakeAndBoatText2: string := "description mentions a lake. "
  const BackExteriorLakeAndBoatText3: string := "Please ensure a lake with a boat "
  const BackExteriorLakeAndBoatText4: string := "is prominently featured in this "
  const BackExteriorLakeAndBoatText5: string := "rendering"
  const BackExteriorLakeAndBoatTextBody: string := BackExteriorLakeAndBoatText0 + (BackExteriorLakeAndBoatText1 + (BackExteriorLakeAndBoatText2 + (BackExteriorLakeAndBoatText3 + (BackExteriorLakeAndBoatText4 + (BackExteriorLakeAndBoatText5)))))
  /** The back-exterior lake-and-boat clause. */
  const BackExteriorLakeAndBoatText: string := BackExteriorLakeAndBoatTextBody + "."

  // ProjectorText
  const ProjectorText0: string := "ABSOLUTELY CRITICAL: You are "
  const ProjectorText1: string := "rendering a home theater. The "
  const ProjectorText2: string := "projector's orientation is "
  const ProjectorText3: string := "paramount. There must be exactly "
  const ProjectorText4: string := "one projector. It MUST be mounted "
  const ProjectorText5: string := "on the ceiling. It MUST be "
  const ProjectorText6: string := "positioned on the opposite side "
  const ProjectorText7: string := "of the room from the screen. The "
  const ProjectorText8: string := "projector lens MUST point "
  const ProjectorText9: string := "directly at the center of the "
  const ProjectorText10: string := "screen. Under NO circumstances "
  const ProjectorText11: string := "should the projector be aimed "
  const ProjectorText12: string := "sideways, backwards, or away from "
  const ProjectorText13: string := "the screen. A projector facing "
  const ProjectorText14: string := "away from the screen is a "
  const ProjectorText15: string := "critical failure and must be "
  const ProjectorText16: string := "avoided"
  const ProjectorTextBody: string := ProjectorText0 + (ProjectorText1 + (ProjectorText2 + (ProjectorText3 + (ProjectorText4 + (ProjectorText5 + (ProjectorText6 + (ProjectorText7 + (ProjectorText8 + (ProjectorText9 + (ProjectorText10 + (ProjectorText11 + (ProjectorText12 + (ProjectorText13 + (ProjectorText14 + (ProjectorText15 + (ProjectorText16))))))))))))))))
  /** The home-theater projector clause. */
  const ProjectorText: string := ProjectorTextBody + "."

  // TheaterSeatingText
  const TheaterSeatingText0: string := "ABSOLUTELY CRITICAL: You are "
  const TheaterSeatingText1: string := "rendering a home theater. All "
  const TheaterSeatingText2: string := "seating (every chair, sofa, and "
  const TheaterSeatingText3: string := "recliner) MUST face the screen. "
  const TheaterSeatingText4: string := "The primary purpose of this room "
  const TheaterSeatingText5: string := "is media viewing. Seating should "
  const TheaterSeatingText6: string := "be arranged in rows or an arc, "
  const TheaterSeatingText7: string := "all focused on the screen. DO NOT "
  const TheaterSeatingText8: string := "render any seats facing each "
  const TheaterSeatingText9: string := "other, away from the screen, or "
  const TheaterSeatingText10: string := "in a conversational layout. All "
  const TheaterSeatingText11: string := "seating MUST have a clear line of "
  const TheaterSeatingText12: string := "sight to the screen"
  const TheaterSeatingTextBody: string := TheaterSeatingText0 + (TheaterSeatingText1 + (TheaterSeatingText2 + (TheaterSeatingText3 + (TheaterSeatingText4 + (TheaterSeatingText5 + (TheaterSeatingText6 + (TheaterSeatingText7 + (TheaterSeatingText8 + (TheaterSeatingText9 + (TheaterSeatingText10 + (TheaterSeatingText11 + (TheaterSeatingText12))))))))))))
  /** The home-theater seating clause. */
  const TheaterSeatingText: string := TheaterSeatingTextBody + "."

  // RanchStyleText
  const RanchStyleText0: string := "CRITICAL ARCHITECTURAL RULE: The "
  const RanchStyleText1: string := "project is a \"Ranch style\" house. "
  const RanchStyleText2: string := "Ranch houses are single-story. "
  const RanchStyleText3: string := "The rendering MUST show a "
  const RanchStyleText4: string := "one-level building. DO NOT create "
  const RanchStyleText5: string := "a two-story or multi-level design"
  const RanchStyleTextBody: string := RanchStyleText0 + (RanchStyleText1 + (RanchStyleText2 + (RanchStyleText3 + (RanchStyleText4 + (RanchStyleText5)))))
  /** The ranch-style clause. */
  const RanchStyleText: string := RanchStyleTextBody + "."

  // CarPlacementText
  const CarPlacementText0: string := "CRITICAL VEHICLE PLACEMENT RULE: "
  const CarPlacementText1: string := "You are generating a 'Front "
  const CarPlacementText2: string := "Exterior' view. If a vehicle "
  const CarPlacementText3: string := "(like a car) is included in the "
  const CarPlacementText4: string := "image, it MUST be placed in a "
  const CarPlacementText5: string := "realistic location, such as on "
  const CarPlacementText6: string := "the driveway or on the street. "
  const CarPlacementText7: string := "Under NO circumstances should a "
  const CarPlacementText8: string := "vehicle be rendered inside any "
  const CarPlacementText9: string := "part of the house structure "
  const CarPlacementText10: string := "itself. A car inside a living "
  const CarPlacementText11: string := "room, hallway, or any other room "
  const CarPlacementText12: string := "is a critical failure and must be "
  const CarPlacementText13: string := "avoided"
  const CarPlacementTextBody: string := CarPlacementText0 + (CarPlacementText1 + (CarPlacementText2 + (CarPlacementText3 + (CarPlacementText4 + (CarPlacementText5 + (CarPlacementText6 + (CarPlacementText7 + (CarPlacementText8 + (CarPlacementText9 + (CarPlacementText10 + (CarPlacementText11 + (CarPlacementText12 + (CarPlacementText13)))))))))))))
  /** The vehicle-placement clause. */
  const CarPlacementText: string := CarPlacementTextBody + "."

  // NoPuttingGreenInRoomText
  const NoPuttingGreenInRoomText0: string := "CRITICAL ARCHITECTURAL RULE: You "
  const NoPuttingGreenInRoomText1: string := "are rendering an interior room of "
  const NoPuttingGreenInRoomText2: string := "a house. A putting green is an "
  const NoPuttingGreenInRoomText3: string := "outdoor feature. DO NOT include a "
  const NoPuttingGreenInRoomText4: string := "putting green, golf holes, or any "
  const NoPuttingGreenInRoomText5: string := "related golfing equipment inside "
  const NoPuttingGreenInRoomText6: string := "this room under ANY circumstances"
  const NoPuttingGreenInRoomTextBody: string := NoPuttingGreenInRoomText0 + (NoPuttingGreenInRoomText1 + (NoPuttingGreenInRoomText2 + (NoPuttingGreenInRoomText3 + (NoPuttingGreenInRoomText4 + (NoPuttingGreenInRoomText5 + (NoPuttingGreenInRoomText6))))))
  /** The no-putting-green-in-a-room clause. */
  const NoPuttingGreenInRoomText: string := NoPuttingGreenInRoomTextBody + "."

  // NoFireplaceAboveBedText
  const NoFireplaceAboveBedText0: string := "CRITICAL SAFETY & DESIGN RULE: "
  const NoFireplaceAboveBedText1: string := "You are rendering a bedroom. "
  const NoFireplaceAboveBedText2: string := "Under NO circumstances should a "
  const NoFireplaceAboveBedText3: string := "fireplace be placed on the wall "
  const NoFireplaceAboveBedText4: string := "directly above the bed's "
  const NoFireplaceAboveBedText5: string := "headboard. This is a fire hazard "
  const NoFireplaceAboveBedText6: string := "and poor design. If a fireplace "
  const NoFireplaceAboveBedText7: string := "is included, it MUST be on a "
  const NoFireplaceAboveBedText8: string := "different wall from the bed"
  const NoFireplaceAboveBedTextBody: string := NoFireplaceAboveBedText0 + (NoFireplaceAboveBedText1 + (NoFireplaceAboveBedText2 + (NoFireplaceAboveBedText3 + (NoFireplaceAboveBedText4 + (NoFireplaceAboveBedText5 + (NoFireplaceAboveBedText6 + (NoFireplaceAboveBedText7 + (NoFireplaceAboveBedText8))))))))
  /** The no-fireplace-above-the-bed clause. */
  const NoFireplaceAboveBedText: string := NoFireplaceAboveBedTextBody + "."

  // StackedLaundryText
  const StackedLaundryText0: string := "CRITICAL LAYOUT INSTRUCTION: The "
  const StackedLaundryText1: string := "laundry area must feature a "
  const StackedLaundryText2: string := "vertically stacked washer and "
  const StackedLaundryText3: string := "dryer unit. The dryer MUST be on "
  const StackedLaundryText4: string := "top of the washer. The units MUST "
  const StackedLaundryText5: string := "be white. Under no circumstances "
  const StackedLaundryText6: string := "should the units be placed "
  const StackedLaundryText7: string := "side-by-side"
  const StackedLaundryTextBody: string := StackedLaundryText0 + (StackedLaundryText1 + (StackedLaundryText2 + (StackedLaundryText3 + (StackedLaundryText4 + (StackedLaundryText5 + (StackedLaundryText6 + (StackedLaundryText7)))))))
  /** The stacked washer-and-dryer layout clause. */
  const StackedLaundryText: string := StackedLaundryTextBody + "."

  // SideBySideLaundryText
  const SideBySideLaundryText0: string := "CRITICAL LAYOUT INSTRUCTION: The "
  const SideBySideLaundryText1: string := "laundry area must feature a "
  const SideBySideLaundryText2: string := "separate washer and a separate "
  const SideBySideLaundryText3: string := "dryer placed side-by-side on the "
  const SideBySideLaundryText4: string := "floor. The units MUST have a "
  const SideBySideLaundryText5: string := "chrome finish. Under no "
  const SideBySideLaundryText6: string := "circumstances should the units be "
  const SideBySideLaundryText7: string := "stacked vertically"
  const SideBySideLaundryTextBody: string := SideBySideLaundryText0 + (SideBySideLaundryText1 + (SideBySideLaundryText2 + (SideBySideLaundryText3 + (SideBySideLaundryText4 + (SideBySideLaundryText5 + (SideBySideLaundryText6 + (SideBySideLaundryText7)))))))
  /** The side-by-side washer-and-dryer layout clause. */
  const SideBySideLaundryText: string := SideBySideLaundryTextBody + "."

  lemma NightModeText0Basic()
    ensures '\n' !in NightModeText0
  {
  }
  lemma NightModeText0NoStop()
    ensures '.' !in NightModeText0
  {
  }
  lemma NightModeText1Basic()
    ensures '\n' !in NightModeText1
  {
  }
  lemma NightModeText1NoStop()
    ensures '.' !in NightModeText1
  {
  }
  lemma NightModeText2Basic()
    ensures '\n' !in NightModeText2
  {
  }
  lemma NightModeText2NoStop()
    ensures '.' !in NightModeText2
  {
  }
  lemma NightModeText3Basic()
    ensures '\n' !in NightModeText3
  {
  }
  lemma NightModeText3NoStop()
    ensures '.' !in NightModeText3
  {
  }
  lemma NightModeText4Basic()
    ensures '\n' !in NightModeText4
  {
  }
  lemma NightModeText4NoStop()
    ensures '.' !in NightModeText4
  {
  }

  lemma FrontExteriorText0Basic()
    ensures AsciiText(FrontExteriorText0)
  {
  }
  lemma FrontExteriorText0Lacks()
    ensures 'B' !in FrontExteriorText0
    ensures 'H' !in FrontExteriorText0
  {
  }
  lemma FrontExteriorText0Lacks2()
    ensures NoPair(FrontExteriorText0, ' ', 'w')
  {
  }
  lemma FrontExteriorText0Spacing()
    ensures NoPair(FrontExteriorText0, ' ', ' ')
  {
  }
  lemma FrontExteriorText1Basic()
    ensures AsciiText(FrontExteriorText1)
  {
  }
  lemma FrontExteriorText1Lacks()
    ensures 'B' !in FrontExteriorText1
    ensures 'H' !in FrontExteriorText1
  {
  }
  lemma FrontExteriorText1Lacks2()
    ensures NoPair(FrontExteriorText1, ' ', 'w')
  {
  }
  lemma FrontExteriorText1Spacing()
    ensures NoPair(FrontExteriorText1, ' ', ' ')
  {
  }
  lemma FrontExteriorText2Basic()
    ensures AsciiText(FrontExteriorText2)
  {
  }
  lemma FrontExteriorText2Lacks()
    ensures 'B' !in FrontExteriorText2
    ensures 'H' !in FrontExteriorText2
  {
  }
  lemma FrontExteriorText2Lacks2()
    ensures NoPair(FrontExteriorText2, ' ', 'w')
  {
  }
  lemma FrontExteriorText2Spacing()
    ensures NoPair(FrontExteriorText2, ' ', ' ')
  {
  }
  lemma FrontExteriorText3Basic()
    ensures AsciiText(FrontExteriorText3)
  {
  }
  lemma FrontExteriorText3Lacks()
    ensures 'B' !in FrontExteriorText3
    ensures 'H' !in FrontExteriorText3
  {
  }
  lemma FrontExteriorText3Lacks2()
    ensures NoPair(FrontExteriorText3, ' ', 'w')
  {
  }
  lemma FrontExteriorText3Spacing()
    ensures NoPair(FrontExteriorText3, ' ', ' ')
  {
  }
  lemma FrontExteriorText4Basic()
    ensures AsciiText(FrontExteriorText4)
  {
  }
  lemma FrontExteriorText4Lacks()
    ensures 'B' !in FrontExteriorText4
    ensures 'H' !in FrontExteriorText4
  {
  }
  lemma FrontExteriorText4Lacks2()
    ensures NoPair(FrontExteriorText4, ' ', 'w')
  {
  }
  lemma FrontExteriorText4Spacing()
    ensures NoPair(FrontExteriorText4, ' ', ' ')
  {
  }
  lemma FrontExteriorText5Basic()
    ensures AsciiText(FrontExteriorText5)
  {
  }
  lemma FrontExteriorText5Lacks()
    ensures 'B' !in FrontExteriorText5
    ensures 'H' !in FrontExteriorText5
  {
  }
  lemma FrontExteriorText5Lacks2()
    ensures NoPair(FrontExteriorText5, ' ', 'w')
  {
  }
  lemma FrontExteriorText5Spacing()
    ensures NoPair(FrontExteriorText5, ' ', ' ')
  {
  }
  lemma FrontExteriorText6Basic()
    ensures AsciiText(FrontExteriorText6)
  {
  }
  lemma FrontExteriorText6Lacks()
    ensures 'B' !in FrontExteriorText6
    ensures 'H' !in FrontExteriorText6
  {
  }
  lemma FrontExteriorText6Lacks2()
    ensures NoPair(FrontExteriorText6, ' ', 'w')
  {
  }
  lemma FrontExteriorText6Spacing()
    ensures NoPair(FrontExteriorText6, ' ', ' ')
  {
  }
  lemma FrontExteriorText7Basic()
    ensures AsciiText(FrontExteriorText7)
  {
  }
  lemma FrontExteriorText7Lacks()
    ensures 'B' !in FrontExteriorText7
    ensures 'H' !in FrontExteriorText7
  {
  }
  lemma FrontExteriorText7Lacks2()
    ensures NoPair(FrontExteriorText7, ' ', 'w')
  {
  }
  lemma FrontExteriorText7Spacing()
    ensures NoPair(FrontExteriorText7, ' ', ' ')
  {
  }
  lemma FrontExteriorText8Basic()
    ensures AsciiText(FrontExteriorText8)
  {
  }
  lemma FrontExteriorText8Lacks()
    ensures 'B' !in FrontExteriorText8
    ensures 'H' !in FrontExteriorText8
  {
  }
  lemma FrontExteriorText8Lacks2()
    ensures NoPair(FrontExteriorText8, ' ', 'w')
  {
  }
  lemma FrontExteriorText8Spacing()
    ensures NoPair(FrontExteriorText8, ' ', ' ')
  {
  }
  lemma FrontExteriorText9Basic()
    ensures AsciiText(FrontExteriorText9)
  {
  }
  lemma FrontExteriorText9Lacks()
    ensures 'B' !in FrontExteriorText9
    ensures 'H' !in FrontExteriorText9
  {
  }
  lemma FrontExteriorText9Lacks2()
    ensures NoPair(FrontExteriorText9, ' ', 'w')
  {
  }
  lemma FrontExteriorText9Spacing()
    ensures NoPair(FrontExteriorText9, ' ', ' ')
  {
  }
  lemma FrontExteriorText10Basic()
    ensures AsciiText(FrontExteriorText10)
  {
  }
  lemma FrontExteriorText10Lacks()
    ensures 'B' !in FrontExteriorText10
    ensures 'H' !in FrontExteriorText10
  {
  }
  lemma FrontExteriorText10Lacks2()
    ensures NoPair(FrontExteriorText10, ' ', 'w')
  {
  }
  lemma FrontExteriorText10Spacing()
    ensures NoPair(FrontExteriorText10, ' ', ' ')
  {
  }
  lemma FrontExteriorText11Basic()
    ensures AsciiText(FrontExteriorText11)
  {
  }
  lemma FrontExteriorText11Lacks()
    ensures 'B' !in FrontExteriorText11
    ensures 'H' !in FrontExteriorText11
  {
  }
  lemma FrontExteriorText11Lacks2()
    ensures NoPair(FrontExteriorText11, ' ', 'w')
  {
  }
  lemma FrontExteriorText11Spacing()
    ensures NoPair(FrontExteriorText11, ' ', ' ')
  {
  }
  lemma FrontExteriorText12Basic()
    ensures AsciiText(FrontExteriorText12)
  {
  }
  lemma FrontExteriorText12Lacks()
    ensures 'B' !in FrontExteriorText12
    ensures 'H' !in FrontExteriorText12
  {
  }
  lemma FrontExteriorText12Lacks2()
    ensures NoPair(FrontExteriorText12, ' ', 'w')
  {
  }
  lemma FrontExteriorText12Spacing()
    ensures NoPair(FrontExteriorText12, ' ', ' ')
  {
  }
  lemma FrontExteriorText13Basic()
    ensures AsciiText(FrontExteriorText13)
  {
  }
  lemma FrontExteriorText13Lacks()
    ensures 'B' !in FrontExteriorText13
    ensures 'H' !in FrontExteriorText13
  {
  }
  lemma FrontExteriorText13Lacks2()
    ensures NoPair(FrontExteriorText13, ' ', 'w')
  {
  }
  lemma FrontExteriorText13Spacing()
    ensures NoPair(FrontExteriorText13, ' ', ' ')
  {
  }

  lemma FrontExteriorPattern0Basic()
    ensures '\n' !in FrontExteriorPattern0
  {
  }
  lemma FrontExteriorPattern1Basic()
    ensures '\n' !in FrontExteriorPattern1
  {
  }
  lemma FrontExteriorPattern2Basic()
    ensures '\n' !in FrontExteriorPattern2
  {
  }
  lemma FrontExteriorPattern3Basic()
    ensures '\n' !in FrontExteriorPattern3
  {
  }
  lemma FrontExteriorPattern4Basic()
    ensures '\n' !in FrontExteriorPattern4
  {
  }
  lemma FrontExteriorPattern5Basic()
    ensures '\n' !in FrontExteriorPattern5
  {
  }
  lemma FrontExteriorPattern6Basic()
    ensures '\n' !in FrontExteriorPattern6
  {
  }
  lemma FrontExteriorPattern7Basic()
    ensures '\n' !in FrontExteriorPattern7
  {
  }
  lemma FrontExteriorPattern8Basic()
    ensures '\n' !in FrontExteriorPattern8
  {
  }
  lemma FrontExteriorPattern9Basic()
    ensures '\n' !in FrontExteriorPattern9
  {
  }
  lemma FrontExteriorPattern10Basic()
    ensures '\n' !in FrontExteriorPattern10
  {
  }
  lemma FrontExteriorPattern11Basic()
    ensures '\n' !in FrontExteriorPattern11
  {
  }
  lemma FrontExteriorPattern12Basic()
    ensures '\n' !in FrontExteriorPattern12
  {
  }
  lemma FrontExteriorPattern13Basic()
    ensures '\n' !in FrontExteriorPattern13
  {
  }

  lemma BackExteriorPoolText0Basic()
    ensures '\n' !in BackExteriorPoolText0
  {
  }
  lemma BackExteriorPoolText1Basic()
    ensures '\n' !in BackExteriorPoolText1
  {
  }
  lemma BackExteriorPoolText2Basic()
    ensures '\n' !in BackExteriorPoolText2
  {
  }
  lemma BackExteriorPoolText3Basic()
    ensures '\n' !in BackExteriorPoolText3
  {
  }
  lemma BackExteriorPoolText4Basic()
    ensures '\n' !in BackExteriorPoolText4
  {
  }
  lemma BackExteriorPoolText5Basic()
    ensures '\n' !in BackExteriorPoolText5
  {
  }

  lemma NoPoolInGarageText0Basic()
    ensures '\n' !in NoPoolInGarageText0
  {
  }
  lemma NoPoolInGarageText1Basic()
    ensures '\n' !in NoPoolInGarageText1
  {
  }
  lemma NoPoolInGarageText2Basic()
    ensures '\n' !in NoPoolInGarageText2
  {
  }
  lemma NoPoolInGarageText3Basic()
    ensures '\n' !in NoPoolInGarageText3
  {
  }
  lemma NoPoolInGarageText4Basic()
    ensures '\n' !in NoPoolInGarageText4
  {
  }
  lemma NoPoolInGarageText5Basic()
    ensures '\n' !in NoPoolInGarageText5
  {
  }

  lemma NoGarageInBackyardText0Basic()
    ensures '\n' !in NoGarageInBackyardText0
  {
  }
  lemma NoGarageInBackyardText0Lacks()
    ensures 'G' !in NoGarageInBackyardText0
  {
  }
  lemma NoGarageInBackyardText1Basic()
    ensures '\n' !in NoGarageInBackyardText1
  {
  }
  lemma NoGarageInBackyardText1Lacks()
    ensures 'G' !in NoGarageInBackyardText1
  {
  }
  lemma NoGarageInBackyardText2Basic()
    ensures '\n' !in NoGarageInBackyardText2
  {
  }
  lemma NoGarageInBackyardText2Lacks()
    ensures 'G' !in NoGarageInBackyardText2
  {
  }
  lemma NoGarageInBackyardText3Basic()
    ensures '\n' !in NoGarageInBackyardText3
  {
  }
  lemma NoGarageInBackyardText3Lacks()
    ensures 'G' !in NoGarageInBackyardText3
  {
  }
  lemma NoGarageInBackyardText4Basic()
    ensures '\n' !in NoGarageInBackyardText4
  {
  }
  lemma NoGarageInBackyardText4Lacks()
    ensures 'G' !in NoGarageInBackyardText4
  {
  }
  lemma NoGarageInBackyardText5Basic()
    ensures '\n' !in NoGarageInBackyardText5
  {
  }
  lemma NoGarageInBackyardText5Lacks()
    ensures 'G' !in NoGarageInBackyardText5
  {
  }
  lemma NoGarageInBackyardText6Basic()
    ensures '\n' !in NoGarageInBackyardText6
  {
  }
  lemma NoGarageInBackyardText6Lacks()
    ensures 'G' !in NoGarageInBackyardText6
  {
  }
  lemma NoGarageInBackyardText7Basic()
    ensures '\n' !in NoGarageInBackyardText7
  {
  }
  lemma NoGarageInBackyardText7Lacks()
    ensures 'G' !in NoGarageInBackyardText7
  {
  }

  lemma NoLakeInFrontText0Basic()
    ensures '\n' !in NoLakeInFrontText0
  {
  }
  lemma NoLakeInFrontText0Lacks()
    ensures 'G' !in NoLakeInFrontText0
  {
  }
  lemma NoLakeInFrontText1Basic()
    ensures '\n' !in NoLakeInFrontText1
  {
  }
  lemma NoLakeInFrontText1Lacks()
    ensures 'G' !in NoLakeInFrontText1
  {
  }
  lemma NoLakeInFrontText2Basic()
    ensures '\n' !in NoLakeInFrontText2
  {
  }
  lemma NoLakeInFrontText2Lacks()
    ensures 'G' !in NoLakeInFrontText2
  {
  }
  lemma NoLakeInFrontText3Basic()
    ensures '\n' !in NoLakeInFrontText3
  {
  }
  lemma NoLakeInFrontText3Lacks()
    ensures 'G' !in NoLakeInFrontText3
  {
  }
  lemma NoLakeInFrontText4Basic()
    ensures '\n' !in NoLakeInFrontText4
  {
  }
  lemma NoLakeInFrontText4Lacks()
    ensures 'G' !in NoLakeInFrontText4
  {
  }
  lemma NoLakeInFrontText5Basic()
    ensures '\n' !in NoLakeInFrontText5
  {
  }
  lemma NoLakeInFrontText5Lacks()
    ensures 'G' !in NoLakeInFrontText5
  {
  }
  lemma NoLakeInFrontText6Basic()
    ensures '\n' !in NoLakeInFrontText6
  {
  }
  lemma NoLakeInFrontText6Lacks()
    ensures 'G' !in NoLakeInFrontText6
  {
  }

  lemma BackExteriorLakeAndBoatText0Basic()
    ensures '\n' !in BackExteriorLakeAndBoatText0
  {
  }
  lemma BackExteriorLakeAndBoatText0Lacks()
    ensures NoPair(BackExteriorLakeAndBoatText0, ' ', 's')
  {
  }
  lemma BackExteriorLakeAndBoatText1Basic()
    ensures '\n' !in BackExteriorLakeAndBoatText1
  {
  }
  lemma BackExteriorLakeAndBoatText1Lacks()
    ensures NoPair(BackExteriorLakeAndBoatText1, ' ', 's')
  {
  }
  lemma BackExteriorLakeAndBoatText2Basic()
    ensures '\n' !in BackExteriorLakeAndBoatText2
  {
  }
  lemma BackExteriorLakeAndBoatText2Lacks()
    ensures NoPair(BackExteriorLakeAndBoatText2, ' ', 's')
  {
  }
  lemma BackExteriorLakeAndBoatText3Basic()
    ensures '\n' !in BackExteriorLakeAndBoatText3
  {
  }
  lemma BackExteriorLakeAndBoatText3Lacks()
    ensures NoPair(BackExteriorLakeAndBoatText3, ' ', 's')
  {
  }
  lemma BackExteriorLakeAndBoatText4Basic()
    ensures '\n' !in BackExteriorLakeAndBoatText4
  {
  }
  lemma BackExteriorLakeAndBoatText4Lacks()
    ensures NoPair(BackExteriorLakeAndBoatText4, ' ', 's')
  {
  }
  lemma BackExteriorLakeAndBoatText5Basic()
    ensures '\n' !in BackExteriorLakeAndBoatText5
  {
  }
  lemma BackExteriorLakeAndBoatText5Lacks()
    ensures NoPair(BackExteriorLakeAndBoatText5, ' ', 's')
  {
  }

  lemma ProjectorText0Basic()
    ensures '\n' !in ProjectorText0
  {
  }
  lemma ProjectorText0Lacks()
    ensures 'D' !in ProjectorText0
  {
  }
  lemma ProjectorText1Basic()
    ensures '\n' !in ProjectorText1
  {
  }
  lemma ProjectorText1Lacks()
    ensures 'D' !in ProjectorText1
  {
  }
  lemma ProjectorText2Basic()
    ensures '\n' !in ProjectorText2
  {
  }
  lemma ProjectorText2Lacks()
    ensures 'D' !in ProjectorText2
  {
  }
  lemma ProjectorText3Basic()
    ensures '\n' !in ProjectorText3
  {
  }
  lemma ProjectorText3Lacks()
    ensures 'D' !in ProjectorText3
  {
  }
  lemma ProjectorText4Basic()
    ensures '\n' !in ProjectorText4
  {
  }
  lemma ProjectorText4Lacks()
    ensures 'D' !in ProjectorText4
  {
  }
  lemma ProjectorText5Basic()
    ensures '\n' !in ProjectorText5
  {
  }
  lemma ProjectorText5Lacks()
    ensures 'D' !in ProjectorText5
  {
  }
  lemma ProjectorText6Basic()
    ensures '\n' !in ProjectorText6
  {
  }
  lemma ProjectorText6Lacks()
    ensures 'D' !in ProjectorText6
  {
  }
  lemma ProjectorText7Basic()
    ensures '\n' !in ProjectorText7
  {
  }
  lemma ProjectorText7Lacks()
    ensures 'D' !in ProjectorText7
  {
  }
  lemma ProjectorText8Basic()
    ensures '\n' !in ProjectorText8
  {
  }
  lemma ProjectorText8Lacks()
    ensures 'D' !in ProjectorText8
  {
  }
  lemma ProjectorText9Basic()
    ensures '\n' !in ProjectorText9
  {
  }
  lemma ProjectorText9Lacks()
    ensures 'D' !in ProjectorText9
  {
  }
  lemma ProjectorText10Basic()
    ensures '\n' !in ProjectorText10
  {
  }
  lemma ProjectorText10Lacks()
    ensures 'D' !in ProjectorText10
  {
  }
  lemma ProjectorText11Basic()
    ensures '\n' !in ProjectorText11
  {
  }
  lemma ProjectorText11Lacks()
    ensures 'D' !in ProjectorText11
  {
  }
  lemma ProjectorText12Basic()
    ensures '\n' !in ProjectorText12
  {
  }
  lemma ProjectorText12Lacks()
    ensures 'D' !in ProjectorText12
  {
  }
  lemma ProjectorText13Basic()
    ensures '\n' !in ProjectorText13
  {
  }
  lemma ProjectorText13Lacks()
    ensures 'D' !in ProjectorText13
  {
  }
  lemma ProjectorText14Basic()
    ensures '\n' !in ProjectorText14
  {
  }
  lemma ProjectorText14Lacks()
    ensures 'D' !in ProjectorText14
  {
  }
  lemma ProjectorText15Basic()
    ensures '\n' !in ProjectorText15
  {
  }
  lemma ProjectorText15Lacks()
    ensures 'D' !in ProjectorText15
  {
  }
  lemma ProjectorText16Basic()
    ensures '\n' !in ProjectorText16
  {
  }
  lemma ProjectorText16Lacks()
    ensures 'D' !in ProjectorText16
  {
  }

  lemma TheaterSeatingText0Basic()
    ensures '\n' !in TheaterSeatingText0
  {
  }
  lemma TheaterSeatingText0Lacks()
    ensures '\'' !in TheaterSeatingText0
  {
  }
  lemma TheaterSeatingText1Basic()
    ensures '\n' !in TheaterSeatingText1
  {
  }
  lemma TheaterSeatingText1Lacks()
    ensures '\'' !in TheaterSeatingText1
  {
  }
  lemma TheaterSeatingText2Basic()
    ensures '\n' !in TheaterSeatingText2
  {
  }
  lemma TheaterSeatingText2Lacks()
    ensures '\'' !in TheaterSeatingText2
  {
  }
  lemma TheaterSeatingText3Basic()
    ensures '\n' !in TheaterSeatingText3
  {
  }
  lemma TheaterSeatingText3Lacks()
    ensures '\'' !in TheaterSeatingText3
  {
  }
  lemma TheaterSeatingText4Basic()
    ensures '\n' !in TheaterSeatingText4
  {
  }
  lemma TheaterSeatingText4Lacks()
    ensures '\'' !in TheaterSeatingText4
  {
  }
  lemma TheaterSeatingText5Basic()
    ensures '\n' !in TheaterSeatingText5
  {
  }
  lemma TheaterSeatingText5Lacks()
    ensures '\'' !in TheaterSeatingText5
  {
  }
  lemma TheaterSeatingText6Basic()
    ensures '\n' !in TheaterSeatingText6
  {
  }
  lemma TheaterSeatingText6Lacks()
    ensures '\'' !in TheaterSeatingText6
  {
  }
  lemma TheaterSeatingText7Basic()
    ensures '\n' !in TheaterSeatingText7
  {
  }
  lemma TheaterSeatingText7Lacks()
    ensures '\'' !in TheaterSeatingText7
  {
  }
  lemma TheaterSeatingText8Basic()
    ensures '\n' !in TheaterSeatingText8
  {
  }
  lemma TheaterSeatingText8Lacks()
    ensures '\'' !in TheaterSeatingText8
  {
  }
  lemma TheaterSeatingText9Basic()
    ensures '\n' !in TheaterSeatingText9
  {
  }
  lemma TheaterSeatingText9Lacks()
    ensures '\'' !in TheaterSeatingText9
  {
  }
  lemma TheaterSeatingText10Basic()
    ensures '\n' !in TheaterSeatingText10
  {
  }
  lemma TheaterSeatingText10Lacks()
    ensures '\'' !in TheaterSeatingText10
  {
  }
  lemma TheaterSeatingText11Basic()
    ensures '\n' !in TheaterSeatingText11
  {
  }
  lemma TheaterSeatingText11Lacks()
    ensures '\'' !in TheaterSeatingText11
  {
  }
  lemma TheaterSeatingText12Basic()
    ensures '\n' !in TheaterSeatingText12
  {
  }
  lemma TheaterSeatingText12Lacks()
    ensures '\'' !in TheaterSeatingText12
  {
  }

  lemma RanchStyleText0Basic()
    ensures '\n' !in RanchStyleText0
  {
  }
  lemma RanchStyleText0Lacks()
    ensures '\'' !in RanchStyleText0
  {
  }
  lemma RanchStyleText1Basic()
    ensures '\n' !in RanchStyleText1
  {
  }
  lemma RanchStyleText1Lacks()
    ensures '\'' !in RanchStyleText1
  {
  }
  lemma RanchStyleText2Basic()
    ensures '\n' !in RanchStyleText2
  {
  }
  lemma RanchStyleText2Lacks()
    ensures '\'' !in RanchStyleText2
  {
  }
  lemma RanchStyleText3Basic()
    ensures '\n' !in RanchStyleText3
  {
  }
  lemma RanchStyleText3Lacks()
    ensures '\'' !in RanchStyleText3
  {
  }
  lemma RanchStyleText4Basic()
    ensures '\n' !in RanchStyleText4
  {
  }
  lemma RanchStyleText4Lacks()
    ensures '\'' !in RanchStyleText4
  {
  }
  lemma RanchStyleText5Basic()
    ensures '\n' !in RanchStyleText5
  {
  }
  lemma RanchStyleText5Lacks()
    ensures '\'' !in RanchStyleText5
  {
  }

  lemma CarPlacementText0Basic()
    ensures '\n' !in CarPlacementText0
  {
  }
  lemma CarPlacementText0Lacks()
    ensures 'D' !in CarPlacementText0
  {
  }
  lemma CarPlacementText1Basic()
    ensures '\n' !in CarPlacementText1
  {
  }
  lemma CarPlacementText1Lacks()
    ensures 'D' !in CarPlacementText1
  {
  }
  lemma CarPlacementText2Basic()
    ensures '\n' !in CarPlacementText2
  {
  }
  lemma CarPlacementText2Lacks()
    ensures 'D' !in CarPlacementText2
  {
  }
  lemma CarPlacementText3Basic()
    ensures '\n' !in CarPlacementText3
  {
  }
  lemma CarPlacementText3Lacks()
    ensures 'D' !in CarPlacementText3
  {
  }
  lemma CarPlacementText4Basic()
    ensures '\n' !in CarPlacementText4
  {
  }
  lemma CarPlacementText4Lacks()
    ensures 'D' !in CarPlacementText4
  {
  }
  lemma CarPlacementText5Basic()
    ensures '\n' !in CarPlacementText5
  {
  }
  lemma CarPlacementText5Lacks()
    ensures 'D' !in CarPlacementText5
  {
  }
  lemma CarPlacementText6Basic()
    ensures '\n' !in CarPlacementText6
  {
  }
  lemma CarPlacementText6Lacks()
    ensures 'D' !in CarPlacementText6
  {
  }
  lemma CarPlacementText7Basic()
    ensures '\n' !in CarPlacementText7
  {
  }
  lemma CarPlacementText7Lacks()
    ensures 'D' !in CarPlacementText7
  {
  }
  lemma CarPlacementText8Basic()
    ensures '\n' !in CarPlacementText8
  {
  }
  lemma CarPlacementText8Lacks()
    ensures 'D' !in CarPlacementText8
  {
  }
  lemma CarPlacementText9Basic()
    ensures '\n' !in CarPlacementText9
  {
  }
  lemma CarPlacementText9Lacks()
    ensures 'D' !in CarPlacementText9
  {
  }
  lemma CarPlacementText10Basic()
    ensures '\n' !in CarPlacementText10
  {
  }
  lemma CarPlacementText10Lacks()
    ensures 'D' !in CarPlacementText10
  {
  }
  lemma CarPlacementText11Basic()
    ensures '\n' !in CarPlacementText11
  {
  }
  lemma CarPlacementText11Lacks()
    ensures 'D' !in CarPlacementText11
  {
  }
  lemma CarPlacementText12Basic()
    ensures '\n' !in CarPlacementText12
  {
  }
  lemma CarPlacementText12Lacks()
    ensures 'D' !in CarPlacementText12
  {
  }
  lemma CarPlacementText13Basic()
    ensures '\n' !in CarPlacementText13
  {
  }
  lemma CarPlacementText13Lacks()
    ensures 'D' !in CarPlacementText13
  {
  }

  lemma NoPuttingGreenInRoomText0Basic()
    ensures '\n' !in NoPuttingGreenInRoomText0
  {
  }
  lemma NoPuttingGreenInRoomText0Lacks()
    ensures 'S' !in NoPuttingGreenInRoomText0
  {
  }
  lemma NoPuttingGreenInRoomText1Basic()
    ensures '\n' !in NoPuttingGreenInRoomText1
  {
  }
  lemma NoPuttingGreenInRoomText1Lacks()
    ensures 'S' !in NoPuttingGreenInRoomText1
  {
  }
  lemma NoPuttingGreenInRoomText2Basic()
    ensures '\n' !in NoPuttingGreenInRoomText2
  {
  }
  lemma NoPuttingGreenInRoomText2Lacks()
    ensures 'S' !in NoPuttingGreenInRoomText2
  {
  }
  lemma NoPuttingGreenInRoomText3Basic()
    ensures '\n' !in NoPuttingGreenInRoomText3
  {
  }
  lemma NoPuttingGreenInRoomText3Lacks()
    ensures 'S' !in NoPuttingGreenInRoomText3
  {
  }
  lemma NoPuttingGreenInRoomText4Basic()
    ensures '\n' !in NoPuttingGreenInRoomText4
  {
  }
  lemma NoPuttingGreenInRoomText4Lacks()
    ensures 'S' !in NoPuttingGreenInRoomText4
  {
  }
  lemma NoPuttingGreenInRoomText5Basic()
    ensures '\n' !in NoPuttingGreenInRoomText5
  {
  }
  lemma NoPuttingGreenInRoomText5Lacks()
    ensures 'S' !in NoPuttingGreenInRoomText5
  {
  }
  lemma NoPuttingGreenInRoomText6Basic()
    ensures '\n' !in NoPuttingGreenInRoomText6
  {
  }
  lemma NoPuttingGreenInRoomText6Lacks()
    ensures 'S' !in NoPuttingGreenInRoomText6
  {
  }

  lemma NoFireplaceAboveBedText0Basic()
    ensures '\n' !in NoFireplaceAboveBedText0
  {
  }
  lemma NoFireplaceAboveBedText0Lacks()
    ensures NoPair(NoFireplaceAboveBedText0, 'C', 'T')
  {
  }
  lemma NoFireplaceAboveBedText1Basic()
    ensures '\n' !in NoFireplaceAboveBedText1
  {
  }
  lemma NoFireplaceAboveBedText1Lacks()
    ensures NoPair(NoFireplaceAboveBedText1, 'C', 'T')
  {
  }
  lemma NoFireplaceAboveBedText2Basic()
    ensures '\n' !in NoFireplaceAboveBedText2
  {
  }
  lemma NoFireplaceAboveBedText2Lacks()
    ensures NoPair(NoFireplaceAboveBedText2, 'C', 'T')
  {
  }
  lemma NoFireplaceAboveBedText3Basic()
    ensures '\n' !in NoFireplaceAboveBedText3
  {
  }
  lemma NoFireplaceAboveBedText3Lacks()
    ensures NoPair(NoFireplaceAboveBedText3, 'C', 'T')
  {
  }
  lemma NoFireplaceAboveBedText4Basic()
    ensures '\n' !in NoFireplaceAboveBedText4
  {
  }
  lemma NoFireplaceAboveBedText4Lacks()
    ensures NoPair(NoFireplaceAboveBedText4, 'C', 'T')
  {
  }
  lemma NoFireplaceAboveBedText5Basic()
    ensures '\n' !in NoFireplaceAboveBedText5
  {
  }
  lemma NoFireplaceAboveBedText5Lacks()
    ensures NoPair(NoFireplaceAboveBedText5, 'C', 'T')
  {
  }
  lemma NoFireplaceAboveBedText6Basic()
    ensures '\n' !in NoFireplaceAboveBedText6
  {
  }
  lemma NoFireplaceAboveBedText6Lacks()
    ensures NoPair(NoFireplaceAboveBedText6, 'C', 'T')
  {
  }
  lemma NoFireplaceAboveBedText7Basic()
    ensures '\n' !in NoFireplaceAboveBedText7
  {
  }
  lemma NoFireplaceAboveBedText7Lacks()
    ensures NoPair(NoFireplaceAboveBedText7, 'C', 'T')
  {
  }
  lemma NoFireplaceAboveBedText8Basic()
    ensures '\n' !in NoFireplaceAboveBedText8
  {
  }
  lemma NoFireplaceAboveBedText8Lacks()
    ensures NoPair(NoFireplaceAboveBedText8, 'C', 'T')
  {
  }

  lemma StackedLaundryText0Basic()
    ensures AsciiText(StackedLaundryText0)
  {
  }
  lemma StackedLaundryText0Lacks()
    ensures 'g' !in StackedLaundryText0
  {
  }
  lemma StackedLaundryText0Spacing()
    ensures NoPair(StackedLaundryText0, ' ', ' ')
  {
  }
  lemma StackedLaundryText1Basic()
    ensures AsciiText(StackedLaundryText1)
  {
  }
  lemma StackedLaundryText1Lacks()
    ensures 'g' !in StackedLaundryText1
  {
  }
  lemma StackedLaundryText1Spacing()
    ensures NoPair(StackedLaundryText1, ' ', ' ')
  {
  }
  lemma StackedLaundryText2Basic()
    ensures AsciiText(StackedLaundryText2)
  {
  }
  lemma StackedLaundryText2Lacks()
    ensures 'g' !in StackedLaundryText2
  {
  }
  lemma StackedLaundryText2Spacing()
    ensures NoPair(StackedLaundryText2, ' ', ' ')
  {
  }
  lemma StackedLaundryText3Basic()
    ensures AsciiText(StackedLaundryText3)
  {
  }
  lemma StackedLaundryText3Lacks()
    ensures 'g' !in StackedLaundryText3
  {
  }
  lemma StackedLaundryText3Spacing()
    ensures NoPair(StackedLaundryText3, ' ', ' ')
  {
  }
  lemma StackedLaundryText4Basic()
    ensures AsciiText(StackedLaundryText4)
  {
  }
  lemma StackedLaundryText4Lacks()
    ensures 'g' !in StackedLaundryText4
  {
  }
  lemma StackedLaundryText4Spacing()
    ensures NoPair(StackedLaundryText4, ' ', ' ')
  {
  }
  lemma StackedLaundryText5Basic()
    ensures AsciiText(StackedLaundryText5)
  {
  }
  lemma StackedLaundryText5Lacks()
    ensures 'g' !in StackedLaundryText5
  {
  }
  lemma StackedLaundryText5Spacing()
    ensures NoPair(StackedLaundryText5, ' ', ' ')
  {
  }
  lemma StackedLaundryText6Basic()
    ensures AsciiText(StackedLaundryText6)
  {
  }
  lemma StackedLaundryText6Lacks()
    ensures 'g' !in StackedLaundryText6
  {
  }
  lemma StackedLaundryText6Spacing()
    ensures NoPair(StackedLaundryText6, ' ', ' ')
  {
  }
  lemma StackedLaundryText7Basic()
    ensures AsciiText(StackedLaundryText7)
  {
  }
  lemma StackedLaundryText7Lacks()
    ensures 'g' !in StackedLaundryText7
  {
  }
  lemma StackedLaundryText7Spacing()
    ensures NoPair(StackedLaundryText7, ' ', ' ')
  {
  }

  lemma SideBySideLaundryText0Basic()
    ensures AsciiText(SideBySideLaundryText0)
  {
  }
  lemma SideBySideLaundryText0Lacks()
    ensures 'g' !in SideBySideLaundryText0
  {
  }
  lemma SideBySideLaundryText0Spacing()
    ensures NoPair(SideBySideLaundryText0, ' ', ' ')
  {
  }
  lemma SideBySideLaundryText1Basic()
    ensures AsciiText(SideBySideLaundryText1)
  {
  }
  lemma SideBySideLaundryText1Lacks()
    ensures 'g' !in SideBySideLaundryText1
  {
  }
  lemma SideBySideLaundryText1Spacing()
    ensures NoPair(SideBySideLaundryText1, ' ', ' ')
  {
  }
  lemma SideBySideLaundryText2Basic()
    ensures AsciiText(SideBySideLaundryText2)
  {
  }
  lemma SideBySideLaundryText2Lacks()
    ensures 'g' !in SideBySideLaundryText2
  {
  }
  lemma SideBySideLaundryText2Spacing()
    ensures NoPair(SideBySideLaundryText2, ' ', ' ')
  {
  }
  lemma SideBySideLaundryText3Basic()
    ensures AsciiText(SideBySideLaundryText3)
  {
  }
  lemma SideBySideLaundryText3Lacks()
    ensures 'g' !in SideBySideLaundryText3
  {
  }
  lemma SideBySideLaundryText3Spacing()
    ensures NoPair(SideBySideLaundryText3, ' ', ' ')
  {
  }
  lemma SideBySideLaundryText4Basic()
    ensures AsciiText(SideBySideLaundryText4)
  {
  }
  lemma SideBySideLaundryText4Lacks()
    ensures 'g' !in SideBySideLaundryText4
  {
  }
  lemma SideBySideLaundryText4Spacing()
    ensures NoPair(SideBySideLaundryText4, ' ', ' ')
  {
  }
  lemma SideBySideLaundryText5Basic()
    ensures AsciiText(SideBySideLaundryText5)
  {
  }
  lemma SideBySideLaundryText5Lacks()
    ensures 'g' !in SideBySideLaundryText5
  {
  }
  lemma SideBySideLaundryText5Spacing()
    ensures NoPair(SideBySideLaundryText5, ' ', ' ')
  {
  }
  lemma SideBySideLaundryText6Basic()
    ensures AsciiText(SideBySideLaundryText6)
  {
  }
  lemma SideBySideLaundryText6Lacks()
    ensures 'g' !in SideBySideLaundryText6
  {
  }
  lemma SideBySideLaundryText6Spacing()
    ensures NoPair(SideBySideLaundryText6, ' ', ' ')
  {
  }
  lemma SideBySideLaundryText7Basic()
    ensures AsciiText(SideBySideLaundryText7)
  {
  }
  lemma SideBySideLaundryText7Lacks()
    ensures 'g' !in SideBySideLaundryText7
  {
  }
  lemma SideBySideLaundryText7Spacing()
    ensures NoPair(SideBySideLaundryText7, ' ', ' ')
  {
  }

  /** Length, first and last character of `NightModeText`; it has no line break. */
  lemma NightModeTextFacts()
    ensures |NightModeText| == 147 && NightModeText[0] == 'I' && NightModeText[|NightModeText| - 1] == '.'
    ensures '\n' !in NightModeText
  {
    NightModeText0Basic();
    NightModeText1Basic();
    NightModeText2Basic();
    NightModeText3Basic();
    NightModeText4Basic();
  }

  /** Characters that occur in `NightModeText`. */
  lemma NightModeTextHas()
    ensures 'g' in NightModeText
  {
    assert NightModeText0[8] == 'g';
  }

  /** A character pair that occurs in `NightModeText`. */
  lemma NightModeTextHasPair()
    ensures !NoPair(NightModeText, ' ', 'w')
  {
    assert NightModeText0[16] == ' ' && NightModeText0[17] == 'w';
    PairInLeft(NightModeText0, NightModeText1 + (NightModeText2 + (NightModeText3 + (NightModeText4))), ' ', 'w');
    PairInLeft(NightModeTextBody, ".", ' ', 'w');
  }

  /** The only full stop of `NightModeText` is its last character. */
  lemma NightModeTextStops()
    ensures '.' !in NightModeTextBody
  {
    NightModeText0NoStop();
    NightModeText1NoStop();
    NightModeText2NoStop();
    NightModeText3NoStop();
    NightModeText4NoStop();
  }

  /** Length, first and last character of `FrontExteriorText`; it has no line break. */
  lemma FrontExteriorTextFacts()
    ensures |FrontExteriorText| == 412 && FrontExteriorText[0] == 'C' && FrontExteriorText[|FrontExteriorText| - 1] == '.'
    ensures '\n' !in FrontExteriorText
  {
    FrontExteriorText0Basic();
    FrontExteriorText1Basic();
    FrontExteriorText2Basic();
    FrontExteriorText3Basic();
    FrontExteriorText4Basic();
    FrontExteriorText5Basic();
    FrontExteriorText6Basic();
    FrontExteriorText7Basic();
    FrontExteriorText8Basic();
    FrontExteriorText9Basic();
    FrontExteriorText10Basic();
    FrontExteriorText11Basic();
    FrontExteriorText12Basic();
    FrontExteriorText13Basic();
    AsciiNoNewline(FrontExteriorText0);
    AsciiNoNewline(FrontExteriorText1);
    AsciiNoNewline(FrontExteriorText2);
    AsciiNoNewline(FrontExteriorText3);
    AsciiNoNewline(FrontExteriorText4);
    AsciiNoNewline(FrontExteriorText5);
    AsciiNoNewline(FrontExteriorText6);
    AsciiNoNewline(FrontExteriorText7);
    AsciiNoNewline(FrontExteriorText8);
    AsciiNoNewline(FrontExteriorText9);
    AsciiNoNewline(FrontExteriorText10);
    AsciiNoNewline(FrontExteriorText11);
    AsciiNoNewline(FrontExteriorText12);
    AsciiNoNewline(FrontExteriorText13);
  }

  /** Characters and character pairs that `FrontExteriorText` lacks. */
  lemma FrontExteriorTextLacks()
    ensures 'B' !in FrontExteriorText
    ensures 'H' !in FrontExteriorText
    ensures NoPair(FrontExteriorText, ' ', 'w')
  {
    FrontExteriorText0Lacks();
    FrontExteriorText0Lacks2();
    FrontExteriorText1Lacks();
    FrontExteriorText1Lacks2();
    FrontExteriorText2Lacks();
    FrontExteriorText2Lacks2();
    FrontExteriorText3Lacks();
    FrontExteriorText3Lacks2();
    FrontExteriorText4Lacks();
    FrontExteriorText4Lacks2();
    FrontExteriorText5Lacks();
    FrontExteriorText5Lacks2();
    FrontExteriorText6Lacks();
    FrontExteriorText6Lacks2();
    FrontExteriorText7Lacks();
    FrontExteriorText7Lacks2();
    FrontExteriorText8Lacks();
    FrontExteriorText8Lacks2();
    FrontExteriorText9Lacks();
    FrontExteriorText9Lacks2();
    FrontExteriorText10Lacks();
    FrontExteriorText10Lacks2();
    FrontExteriorText11Lacks();
    FrontExteriorText11Lacks2();
    FrontExteriorText12Lacks();
    FrontExteriorText12Lacks2();
    FrontExteriorText13Lacks();
    FrontExteriorText13Lacks2();
    NoPairAppend(FrontExteriorText12, FrontExteriorText13, ' ', 'w');
    NoPairAppend(FrontExteriorText11, FrontExteriorText12 + (FrontExteriorText13), ' ', 'w');
    NoPairAppend(FrontExteriorText10, FrontExteriorText11 + (FrontExteriorText12 + (FrontExteriorText13)), ' ', 'w');
    NoPairAppend(FrontExteriorText9, FrontExteriorText10 + (FrontExteriorText11 + (FrontExteriorText12 + (FrontExteriorText13))), ' ', 'w');
    NoPairAppend(FrontExteriorText8, FrontExteriorText9 + (FrontExteriorText10 + (FrontExteriorText11 + (FrontExteriorText12 + (FrontExteriorText13)))), ' ', 'w');
    NoPairAppend(FrontExteriorText7, FrontExteriorText8 + (FrontExteriorText9 + (FrontExteriorText10 + (FrontExteriorText11 + (FrontExteriorText12 + (FrontExteriorText13))))), ' ', 'w');
    NoPairAppend(FrontExteriorText6, FrontExteriorText7 + (FrontExteriorText8 + (FrontExteriorText9 + (FrontExteriorText10 + (FrontExteriorText11 + (FrontExteriorText12 + (FrontExteriorText13)))))), ' ', 'w');
    NoPairAppend(FrontExteriorText5, FrontExteriorText6 + (FrontExteriorText7 + (FrontExteriorText8 + (FrontExteriorText9 + (FrontExteriorText10 + (FrontExteriorText11 + (FrontExteriorText12 + (FrontExteriorText13))))))), ' ', 'w');
    NoPairAppend(FrontExteriorText4, FrontExteriorText5 + (FrontExteriorText6 + (FrontExteriorText7 + (FrontExteriorText8 + (FrontExteriorText9 + (FrontExteriorText10 + (FrontExteriorText11 + (FrontExteriorText12 + (FrontExteriorText13)))))))), ' ', 'w');
    NoPairAppend(FrontExteriorText3, FrontExteriorText4 + (FrontExteriorText5 + (FrontExteriorText6 + (FrontExteriorText7 + (FrontExteriorText8 + (FrontExteriorText9 + (FrontExteriorText10 + (FrontExteriorText11 + (FrontExteriorText12 + (FrontExteriorText13))))))))), ' ', 'w');
    NoPairAppend(FrontExteriorText2, FrontExteriorText3 + (FrontExteriorText4 + (FrontExteriorText5 + (FrontExteriorText6 + (FrontExteriorText7 + (FrontExteriorText8 + (FrontExteriorText9 + (FrontExteriorText10 + (FrontExteriorText11 + (FrontExteriorText12 + (FrontExteriorText13)))))))))), ' ', 'w');
    NoPairAppend(FrontExteriorText1, FrontExteriorText2 + (FrontExteriorText3 + (FrontExteriorText4 + (FrontExteriorText5 + (FrontExteriorText6 + (FrontExteriorText7 + (FrontExteriorText8 + (FrontExteriorText9 + (FrontExteriorText10 + (FrontExteriorText11 + (FrontExteriorText12 + (FrontExteriorText13))))))))))), ' ', 'w');
    NoPairAppend(FrontExteriorText0, FrontExteriorText1 + (FrontExteriorText2 + (FrontExteriorText3 + (FrontExteriorText4 + (FrontExteriorText5 + (FrontExteriorText6 + (FrontExteriorText7 + (FrontExteriorText8 + (FrontExteriorText9 + (FrontExteriorText10 + (FrontExteriorText11 + (FrontExteriorText12 + (FrontExteriorText13)))))))))))), ' ', 'w');
    NoPairAppend(FrontExteriorTextBody, ".", ' ', 'w');
  }

  /** `FrontExteriorText` has no two whitespace characters in a row. */
  lemma FrontExteriorTextSpacing()
    ensures NoDoubleSpace(FrontExteriorText)
  {
    FrontExteriorText0Basic();
    FrontExteriorText1Basic();
    FrontExteriorText2Basic();
    FrontExteriorText3Basic();
    FrontExteriorText4Basic();
    FrontExteriorText5Basic();
    FrontExteriorText6Basic();
    FrontExteriorText7Basic();
    FrontExteriorText8Basic();
    FrontExteriorText9Basic();
    FrontExteriorText10Basic();
    FrontExteriorText11Basic();
    FrontExteriorText12Basic();
    FrontExteriorText13Basic();
    FrontExteriorText0Spacing();
    FrontExteriorText1Spacing();
    FrontExteriorText2Spacing();
    FrontExteriorText3Spacing();
    FrontExteriorText4Spacing();
    FrontExteriorText5Spacing();
    FrontExteriorText6Spacing();
    FrontExteriorText7Spacing();
    FrontExteriorText8Spacing();
    FrontExteriorText9Spacing();
    FrontExteriorText10Spacing();
    FrontExteriorText11Spacing();
    FrontExteriorText12Spacing();
    FrontExteriorText13Spacing();
    AsciiNoDoubleSpace(FrontExteriorText0);
    AsciiNoDoubleSpace(FrontExteriorText1);
    AsciiNoDoubleSpace(FrontExteriorText2);
    AsciiNoDoubleSpace(FrontExteriorText3);
    AsciiNoDoubleSpace(FrontExteriorText4);
    AsciiNoDoubleSpace(FrontExteriorText5);
    AsciiNoDoubleSpace(FrontExteriorText6);
    AsciiNoDoubleSpace(FrontExteriorText7);
    AsciiNoDoubleSpace(FrontExteriorText8);
    AsciiNoDoubleSpace(FrontExteriorText9);
    AsciiNoDoubleSpace(FrontExteriorText10);
    AsciiNoDoubleSpace(FrontExteriorText11);
    AsciiNoDoubleSpace(FrontExteriorText12);
    AsciiNoDoubleSpace(FrontExteriorText13);
    NoDoubleSpaceAppend(FrontExteriorText12, FrontExteriorText13);
    NoDoubleSpaceAppend(FrontExteriorText11, FrontExteriorText12 + (FrontExteriorText13));
    NoDoubleSpaceAppend(FrontExteriorText10, FrontExteriorText11 + (FrontExteriorText12 + (FrontExteriorText13)));
    NoDoubleSpaceAppend(FrontExteriorText9, FrontExteriorText10 + (FrontExteriorText11 + (FrontExteriorText12 + (FrontExteriorText13))));
    NoDoubleSpaceAppend(FrontExteriorText8, FrontExteriorText9 + (FrontExteriorText10 + (FrontExteriorText11 + (FrontExteriorText12 + (FrontExteriorText13)))));
    NoDoubleSpaceAppend(FrontExteriorText7, FrontExteriorText8 + (FrontExteriorText9 + (FrontExteriorText10 + (FrontExteriorText11 + (FrontExteriorText12 + (FrontExteriorText13))))));
    NoDoubleSpaceAppend(FrontExteriorText6, FrontExteriorText7 + (FrontExteriorText8 + (FrontExteriorText9 + (FrontExteriorText10 + (FrontExteriorText11 + (FrontExteriorText12 + (FrontExteriorText13)))))));
    NoDoubleSpaceAppend(FrontExteriorText5, FrontExteriorText6 + (FrontExteriorText7 + (FrontExteriorText8 + (FrontExteriorText9 + (FrontExteriorText10 + (FrontExteriorText11 + (FrontExteriorText12 + (FrontExteriorText13))))))));
    NoDoubleSpaceAppend(FrontExteriorText4, FrontExteriorText5 + (FrontExteriorText6 + (FrontExteriorText7 + (FrontExteriorText8 + (FrontExteriorText9 + (FrontExteriorText10 + (FrontExteriorText11 + (FrontExteriorText12 + (FrontExteriorText13)))))))));
    NoDoubleSpaceAppend(FrontExteriorText3, FrontExteriorText4 + (FrontExteriorText5 + (FrontExteriorText6 + (FrontExteriorText7 + (FrontExteriorText8 + (FrontExteriorText9 + (FrontExteriorText10 + (FrontExteriorText11 + (FrontExteriorText12 + (FrontExteriorText13))))))))));
    NoDoubleSpaceAppend(FrontExteriorText2, FrontExteriorText3 + (FrontExteriorText4 + (FrontExteriorText5 + (FrontExteriorText6 + (FrontExteriorText7 + (FrontExteriorText8 + (FrontExteriorText9 + (FrontExteriorText10 + (FrontExteriorText11 + (FrontExteriorText12 + (FrontExteriorText13)))))))))));
    NoDoubleSpaceAppend(FrontExteriorText1, FrontExteriorText2 + (FrontExteriorText3 + (FrontExteriorText4 + (FrontExteriorText5 + (FrontExteriorText6 + (FrontExteriorText7 + (FrontExteriorText8 + (FrontExteriorText9 + (FrontExteriorText10 + (FrontExteriorText11 + (FrontExteriorText12 + (FrontExteriorText13))))))))))));
    NoDoubleSpaceAppend(FrontExteriorText0, FrontExteriorText1 + (FrontExteriorText2 + (FrontExteriorText3 + (FrontExteriorText4 + (FrontExteriorText5 + (FrontExteriorText6 + (FrontExteriorText7 + (FrontExteriorText8 + (FrontExteriorText9 + (FrontExteriorText10 + (FrontExteriorText11 + (FrontExteriorText12 + (FrontExteriorText13)))))))))))));
    NoDoubleSpaceAppend(FrontExteriorTextBody, ".");
  }

  /** Length, first and last character of `FrontExteriorPattern`; it has no line break. */
  lemma FrontExteriorPatternFacts()
    ensures |FrontExteriorPattern| == 414 && FrontExteriorPattern[0] == 'C' && FrontExteriorPattern[|FrontExteriorPattern| - 1] == '.'
    ensures FrontExteriorPattern[|FrontExteriorPattern| - 2] == 's'
    ensures '\n' !in FrontExteriorPattern
  {
    FrontExteriorPattern0Basic();
    FrontExteriorPattern1Basic();
    FrontExteriorPattern2Basic();
    FrontExteriorPattern3Basic();
    FrontExteriorPattern4Basic();
    FrontExteriorPattern5Basic();
    FrontExteriorPattern6Basic();
    FrontExteriorPattern7Basic();
    FrontExteriorPattern8Basic();
    FrontExteriorPattern9Basic();
    FrontExteriorPattern10Basic();
    FrontExteriorPattern11Basic();
    FrontExteriorPattern12Basic();
    FrontExteriorPattern13Basic();
  }

  /** Characters that occur in `FrontExteriorPattern`. */
  lemma FrontExteriorPatternHas()
    ensures 'D' in FrontExteriorPattern
  {
    assert FrontExteriorPattern12[0] == 'D';
  }

  /** Length, first and last character of `BackExteriorPoolText`; it has no line break. */
  lemma BackExteriorPoolTextFacts()
    ensures |BackExteriorPoolText| == 161 && BackExteriorPoolText[0] == 'I' && BackExteriorPoolText[|BackExteriorPoolText| - 1] == '.'
    ensures BackExteriorPoolText[|BackExteriorPoolText| - 5] == 'r'
    ensures '\n' !in BackExteriorPoolText
  {
    BackExteriorPoolText0Basic();
    BackExteriorPoolText1Basic();
    BackExteriorPoolText2Basic();
    BackExteriorPoolText3Basic();
    BackExteriorPoolText4Basic();
    BackExteriorPoolText5Basic();
  }

  /** Characters that occur in `BackExteriorPoolText`. */
  lemma BackExteriorPoolTextHas()
    ensures 'B' in BackExteriorPoolText
    ensures 'g' in BackExteriorPoolText
  {
    assert BackExteriorPoolText0[22] == 'B';
    assert BackExteriorPoolText2[30] == 'g';
  }

  /** A character pair that occurs in `BackExteriorPoolText`. */
  lemma BackExteriorPoolTextHasPair()
    ensures !NoPair(BackExteriorPoolText, ' ', 's')
  {
    assert BackExteriorPoolText2[22] == ' ' && BackExteriorPoolText2[23] == 's';
    PairInLeft(BackExteriorPoolText2, BackExteriorPoolText3 + (BackExteriorPoolText4 + (BackExteriorPoolText5)), ' ', 's');
    PairInRight(BackExteriorPoolText1, BackExteriorPoolText2 + (BackExteriorPoolText3 + (BackExteriorPoolText4 + (BackExteriorPoolText5))), ' ', 's');
    PairInRight(BackExteriorPoolText0, BackExteriorPoolText1 + (BackExteriorPoolText2 + (BackExteriorPoolText3 + (BackExteriorPoolText4 + (BackExteriorPoolText5)))), ' ', 's');
    PairInLeft(BackExteriorPoolTextBody, ".", ' ', 's');
  }

  /** Length, first and last character of `NoPoolInGarageText`; it has no line break. */
  lemma NoPoolInGarageTextFacts()
    ensures |NoPoolInGarageText| == 163 && NoPoolInGarageText[0] == 'C' && NoPoolInGarageText[|NoPoolInGarageText| - 1] == '.'
    ensures NoPoolInGarageText[|NoPoolInGarageText| - 2] == 'e'
    ensures '\n' !in NoPoolInGarageText
  {
    NoPoolInGarageText0Basic();
    NoPoolInGarageText1Basic();
    NoPoolInGarageText2Basic();
    NoPoolInGarageText3Basic();
    NoPoolInGarageText4Basic();
    NoPoolInGarageText5Basic();
  }

  /** Characters that occur in `NoPoolInGarageText`. */
  lemma NoPoolInGarageTextHas()
    ensures '\'' in NoPoolInGarageText
    ensures 'D' in NoPoolInGarageText
    ensures 'G' in NoPoolInGarageText
  {
    assert NoPoolInGarageText1[12] == '\'';
    assert NoPoolInGarageText2[22] == 'D';
    assert NoPoolInGarageText1[13] == 'G';
  }

  /** Characters that occur in `NoPoolInGarageText`. */
  lemma NoPoolInGarageTextHas2()
    ensures 'S' in NoPoolInGarageText
    ensures 'g' in NoPoolInGarageText
  {
    assert NoPoolInGarageText0[11] == 'S';
    assert NoPoolInGarageText1[8] == 'g';
  }

  /** A character pair that occurs in `NoPoolInGarageText`. */
  lemma NoPoolInGarageTextHasPair()
    ensures !NoPair(NoPoolInGarageText, ' ', 'w')
  {
    assert NoPoolInGarageText4[6] == ' ' && NoPoolInGarageText4[7] == 'w';
    PairInLeft(NoPoolInGarageText4, NoPoolInGarageText5, ' ', 'w');
    PairInRight(NoPoolInGarageText3, NoPoolInGarageText4 + (NoPoolInGarageText5), ' ', 'w');
    PairInRight(NoPoolInGarageText2, NoPoolInGarageText3 + (NoPoolInGarageText4 + (NoPoolInGarageText5)), ' ', 'w');
    PairInRight(NoPoolInGarageText1, NoPoolInGarageText2 + (NoPoolInGarageText3 + (NoPoolInGarageText4 + (NoPoolInGarageText5))), ' ', 'w');
    PairInRight(NoPoolInGarageText0, NoPoolInGarageText1 + (NoPoolInGarageText2 + (NoPoolInGarageText3 + (NoPoolInGarageText4 + (NoPoolInGarageText5)))), ' ', 'w');
    PairInLeft(NoPoolInGarageTextBody, ".", ' ', 'w');
  }

  /** A character pair that occurs in `NoPoolInGarageText`. */
  lemma NoPoolInGarageTextHasPair2()
    ensures !NoPair(NoPoolInGarageText, 'C', 'T')
  {
    assert NoPoolInGarageText0[15] == 'C' && NoPoolInGarageText0[16] == 'T';
    PairInLeft(NoPoolInGarageText0, NoPoolInGarageText1 + (NoPoolInGarageText2 + (NoPoolInGarageText3 + (NoPoolInGarageText4 + (NoPoolInGarageText5)))), 'C', 'T');
    PairInLeft(NoPoolInGarageTextBody, ".", 'C', 'T');
  }

  /** Length, first and last character of `NoGarageInBackyardText`; it has no line break. */
  lemma NoGarageInBackyardTextFacts()
    ensures |NoGarageInBackyardText| == 239 && NoGarageInBackyardText[0] == 'C' && NoGarageInBackyardText[|NoGarageInBackyardText| - 1] == '.'
    ensures NoGarageInBackyardText[|NoGarageInBackyardText| - 5] == 'r'
    ensures '\n' !in NoGarageInBackyardText
  {
    NoGarageInBackyardText0Basic();
    NoGarageInBackyardText1Basic();
    NoGarageInBackyardText2Basic();
    NoGarageInBackyardText3Basic();
    NoGarageInBackyardText4Basic();
    NoGarageInBackyardText5Basic();
    NoGarageInBackyardText6Basic();
    NoGarageInBackyardText7Basic();
  }

  /** Characters and character pairs that `NoGarageInBackyardText` lacks. */
  lemma NoGarageInBackyardTextLacks()
    ensures 'G' !in NoGarageInBackyardText
  {
    NoGarageInBackyardText0Lacks();
    NoGarageInBackyardText1Lacks();
    NoGarageInBackyardText2Lacks();
    NoGarageInBackyardText3Lacks();
    NoGarageInBackyardText4Lacks();
    NoGarageInBackyardText5Lacks();
    NoGarageInBackyardText6Lacks();
    NoGarageInBackyardText7Lacks();
  }

  /** Characters that occur in `NoGarageInBackyardText`. */
  lemma NoGarageInBackyardTextHas()
    ensures '\'' in NoGarageInBackyardText
    ensures 'B' in NoGarageInBackyardText
    ensures 'D' in NoGarageInBackyardText
  {
    assert NoGarageInBackyardText1[12] == '\'';
    assert NoGarageInBackyardText1[13] == 'B';
    assert NoGarageInBackyardText5[11] == 'D';
  }

  /** A character pair that occurs in `NoGarageInBackyardText`. */
  lemma NoGarageInBackyardTextHasPair()
    ensures !NoPair(NoGarageInBackyardText, 'C', 'T')
  {
    assert NoGarageInBackyardText0[15] == 'C' && NoGarageInBackyardText0[16] == 'T';
    PairInLeft(NoGarageInBackyardText0, NoGarageInBackyardText1 + (NoGarageInBackyardText2 + (NoGarageInBackyardText3 + (NoGarageInBackyardText4 + (NoGarageInBackyardText5 + (NoGarageInBackyardText6 + (NoGarageInBackyardText7)))))), 'C', 'T');
    PairInLeft(NoGarageInBackyardTextBody, ".", 'C', 'T');
  }

  /** Length, first and last character of `NoLakeInFrontText`; it has no line break. */
  lemma NoLakeInFrontTextFacts()
    ensures |NoLakeInFrontText| == 215 && NoLakeInFrontText[0] == 'C' && NoLakeInFrontText[|NoLakeInFrontText| - 1] == '.'
    ensures NoLakeInFrontText[|NoLakeInFrontText| - 2] == 's'
    ensures '\n' !in NoLakeInFrontText
  {
    NoLakeInFrontText0Basic();
    NoLakeInFrontText1Basic();
    NoLakeInFrontText2Basic();
    NoLakeInFrontText3Basic();
    NoLakeInFrontText4Basic();
    NoLakeInFrontText5Basic();
    NoLakeInFrontText6Basic();
  }

  /** Characters and character pairs that `NoLakeInFrontText` lacks. */
  lemma NoLakeInFrontTextLacks()
    ensures 'G' !in NoLakeInFrontText
  {
    NoLakeInFrontText0Lacks();
    NoLakeInFrontText1Lacks();
    NoLakeInFrontText2Lacks();
    NoLakeInFrontText3Lacks();
    NoLakeInFrontText4Lacks();
    NoLakeInFrontText5Lacks();
    NoLakeInFrontText6Lacks();
  }

  /** Characters that occur in `NoLakeInFrontText`. */
  lemma NoLakeInFrontTextHas()
    ensures '\'' in NoLakeInFrontText
    ensures 'D' in NoLakeInFrontText
    ensures 'S' in NoLakeInFrontText
  {
    assert NoLakeInFrontText1[13] == '\'';
    assert NoLakeInFrontText4[11] == 'D';
    assert NoLakeInFrontText0[11] == 'S';
  }

  /** Characters that occur in `NoLakeInFrontText`. */
  lemma NoLakeInFrontTextHas2()
    ensures 'g' in NoLakeInFrontText
  {
    assert NoLakeInFrontText1[0] == 'g';
  }

  /** A character pair that occurs in `NoLakeInFrontText`. */
  lemma NoLakeInFrontTextHasPair()
    ensures !NoPair(NoLakeInFrontText, ' ', 'w')
  {
    assert NoLakeInFrontText5[26] == ' ' && NoLakeInFrontText5[27] == 'w';
    PairInLeft(NoLakeInFrontText5, NoLakeInFrontText6, ' ', 'w');
    PairInRight(NoLakeInFrontText4, NoLakeInFrontText5 + (NoLakeInFrontText6), ' ', 'w');
    PairInRight(NoLakeInFrontText3, NoLakeInFrontText4 + (NoLakeInFrontText5 + (NoLakeInFrontText6)), ' ', 'w');
    PairInRight(NoLakeInFrontText2, NoLakeInFrontText3 + (NoLakeInFrontText4 + (NoLakeInFrontText5 + (NoLakeInFrontText6))), ' ', 'w');
    PairInRight(NoLakeInFrontText1, NoLakeInFrontText2 + (NoLakeInFrontText3 + (NoLakeInFrontText4 + (NoLakeInFrontText5 + (NoLakeInFrontText6)))), ' ', 'w');
    PairInRight(NoLakeInFrontText0, NoLakeInFrontText1 + (NoLakeInFrontText2 + (NoLakeInFrontText3 + (NoLakeInFrontText4 + (NoLakeInFrontText5 + (NoLakeInFrontText6))))), ' ', 'w');
    PairInLeft(NoLakeInFrontTextBody, ".", ' ', 'w');
  }

  /** A character pair that occurs in `NoLakeInFrontText`. */
  lemma NoLakeInFrontTextHasPair2()
    ensures !NoPair(NoLakeInFrontText, 'C', 'T')
  {
    assert NoLakeInFrontText0[15] == 'C' && NoLakeInFrontText0[16] == 'T';
    PairInLeft(NoLakeInFrontText0, NoLakeInFrontText1 + (NoLakeInFrontText2 + (NoLakeInFrontText3 + (NoLakeInFrontText4 + (NoLakeInFrontText5 + (NoLakeInFrontText6))))), 'C', 'T');
    PairInLeft(NoLakeInFrontTextBody, ".", 'C', 'T');
  }

  /** Length, first and last character of `BackExteriorLakeAndBoatText`; it has no line break. */
  lemma BackExteriorLakeAndBoatTextFacts()
    ensures |BackExteriorLakeAndBoatText| == 162 && BackExteriorLakeAndBoatText[0] == 'I' && BackExteriorLakeAndBoatText[|BackExteriorLakeAndBoatText| - 1] == '.'
    ensures BackExteriorLakeAndBoatText[|BackExteriorLakeAndBoatText| - 5] == 'r'
    ensures '\n' !in BackExteriorLakeAndBoatText
  {
    BackExteriorLakeAndBoatText0Basic();
    BackExteriorLakeAndBoatText1Basic();
    BackExteriorLakeAndBoatText2Basic();
    BackExteriorLakeAndBoatText3Basic();
    BackExteriorLakeAndBoatText4Basic();
    BackExteriorLakeAndBoatText5Basic();
  }

  /** Characters and character pairs that `BackExteriorLakeAndBoatText` lacks. */
  lemma BackExteriorLakeAndBoatTextLacks()
    ensures NoPair(BackExteriorLakeAndBoatText, ' ', 's')
  {
    BackExteriorLakeAndBoatText0Lacks();
    BackExteriorLakeAndBoatText1Lacks();
    BackExteriorLakeAndBoatText2Lacks();
    BackExteriorLakeAndBoatText3Lacks();
    BackExteriorLakeAndBoatText4Lacks();
    BackExteriorLakeAndBoatText5Lacks();
    NoPairAppend(BackExteriorLakeAndBoatText4, BackExteriorLakeAndBoatText5, ' ', 's');
    NoPairAppend(BackExteriorLakeAndBoatText3, BackExteriorLakeAndBoatText4 + (BackExteriorLakeAndBoatText5), ' ', 's');
    NoPairAppend(BackExteriorLakeAndBoatText2, BackExteriorLakeAndBoatText3 + (BackExteriorLakeAndBoatText4 + (BackExteriorLakeAndBoatText5)), ' ', 's');
    NoPairAppend(BackExteriorLakeAndBoatText1, BackExteriorLakeAndBoatText2 + (BackExteriorLakeAndBoatText3 + (BackExteriorLakeAndBoatText4 + (BackExteriorLakeAndBoatText5))), ' ', 's');
    NoPairAppend(BackExteriorLakeAndBoatText0, BackExteriorLakeAndBoatText1 + (BackExteriorLakeAndBoatText2 + (BackExteriorLakeAndBoatText3 + (BackExteriorLakeAndBoatText4 + (BackExteriorLakeAndBoatText5)))), ' ', 's');
    NoPairAppend(BackExteriorLakeAndBoatTextBody, ".", ' ', 's');
  }

  /** Characters that occur in `BackExteriorLakeAndBoatText`. */
  lemma BackExteriorLakeAndBoatTextHas()
    ensures 'B' in BackExteriorLakeAndBoatText
    ensures 'g' in BackExteriorLakeAndBoatText
  {
    assert BackExteriorLakeAndBoatText0[22] == 'B';
    assert BackExteriorLakeAndBoatText5[8] == 'g';
  }

  /** Length, first and last character of `ProjectorText`; it has no line break. */
  lemma ProjectorTextFacts()
    ensures |ProjectorText| == 490 && ProjectorText[0] == 'A' && ProjectorText[|ProjectorText| - 1] == '.'
    ensures ProjectorText[|ProjectorText| - 2] == 'd'
    ensures '\n' !in ProjectorText
  {
    ProjectorText0Basic();
    ProjectorText1Basic();
    ProjectorText2Basic();
    ProjectorText3Basic();
    ProjectorText4Basic();
    ProjectorText5Basic();
    ProjectorText6Basic();
    ProjectorText7Basic();
    ProjectorText8Basic();
    ProjectorText9Basic();
    ProjectorText10Basic();
    ProjectorText11Basic();
    ProjectorText12Basic();
    ProjectorText13Basic();
    ProjectorText14Basic();
    ProjectorText15Basic();
    ProjectorText16Basic();
  }

  /** Characters and character pairs that `ProjectorText` lacks. */
  lemma ProjectorTextLacks()
    ensures 'D' !in ProjectorText
  {
    ProjectorText0Lacks();
    ProjectorText1Lacks();
    ProjectorText2Lacks();
    ProjectorText3Lacks();
    ProjectorText4Lacks();
    ProjectorText5Lacks();
    ProjectorText6Lacks();
    ProjectorText7Lacks();
    ProjectorText8Lacks();
    ProjectorText9Lacks();
    ProjectorText10Lacks();
    ProjectorText11Lacks();
    ProjectorText12Lacks();
    ProjectorText13Lacks();
    ProjectorText14Lacks();
    ProjectorText15Lacks();
    ProjectorText16Lacks();
  }

  /** Length, first and last character of `TheaterSeatingText`; it has no line break. */
  lemma TheaterSeatingTextFacts()
    ensures |TheaterSeatingText| == 401 && TheaterSeatingText[0] == 'A' && TheaterSeatingText[|TheaterSeatingText| - 1] == '.'
    ensures TheaterSeatingText[|TheaterSeatingText| - 2] == 'n'
    ensures '\n' !in TheaterSeatingText
  {
    TheaterSeatingText0Basic();
    TheaterSeatingText1Basic();
    TheaterSeatingText2Basic();
    TheaterSeatingText3Basic();
    TheaterSeatingText4Basic();
    TheaterSeatingText5Basic();
    TheaterSeatingText6Basic();
    TheaterSeatingText7Basic();
    TheaterSeatingText8Basic();
    TheaterSeatingText9Basic();
    TheaterSeatingText10Basic();
    TheaterSeatingText11Basic();
    TheaterSeatingText12Basic();
  }

  /** Characters and character pairs that `TheaterSeatingText` lacks. */
  lemma TheaterSeatingTextLacks()
    ensures '\'' !in TheaterSeatingText
  {
    TheaterSeatingText0Lacks();
    TheaterSeatingText1Lacks();
    TheaterSeatingText2Lacks();
    TheaterSeatingText3Lacks();
    TheaterSeatingText4Lacks();
    TheaterSeatingText5Lacks();
    TheaterSeatingText6Lacks();
    TheaterSeatingText7Lacks();
    TheaterSeatingText8Lacks();
    TheaterSeatingText9Lacks();
    TheaterSeatingText10Lacks();
    TheaterSeatingText11Lacks();
    TheaterSeatingText12Lacks();
  }

  /** Characters that occur in `TheaterSeatingText`. */
  lemma TheaterSeatingTextHas()
    ensures 'B' in TheaterSeatingText
    ensures 'D' in TheaterSeatingText
  {
    assert TheaterSeatingText0[1] == 'B';
    assert TheaterSeatingText7[27] == 'D';
  }

  /** Length, first and last character of `RanchStyleText`; it has no line break. */
  lemma RanchStyleTextFacts()
    ensures |RanchStyleText| == 192 && RanchStyleText[0] == 'C' && RanchStyleText[|RanchStyleText| - 1] == '.'
    ensures RanchStyleText[|RanchStyleText| - 2] == 'n'
    ensures '\n' !in RanchStyleText
  {
    RanchStyleText0Basic();
    RanchStyleText1Basic();
    RanchStyleText2Basic();
    RanchStyleText3Basic();
    RanchStyleText4Basic();
    RanchStyleText5Basic();
  }

  /** Characters and character pairs that `RanchStyleText` lacks. */
  lemma RanchStyleTextLacks()
    ensures '\'' !in RanchStyleText
  {
    RanchStyleText0Lacks();
    RanchStyleText1Lacks();
    RanchStyleText2Lacks();
    RanchStyleText3Lacks();
    RanchStyleText4Lacks();
    RanchStyleText5Lacks();
  }

  /** Characters that occur in `RanchStyleText`. */
  lemma RanchStyleTextHas()
    ensures 'D' in RanchStyleText
    ensures 'H' in RanchStyleText
    ensures 'S' in RanchStyleText
  {
    assert RanchStyleText4[20] == 'D';
    assert RanchStyleText0[12] == 'H';
    assert RanchStyleText3[16] == 'S';
  }

  /** Characters that occur in `RanchStyleText`. */
  lemma RanchStyleTextHas2()
    ensures 'g' in RanchStyleText
  {
    assert RanchStyleText2[20] == 'g';
  }

  /** A character pair that occurs in `RanchStyleText`. */
  lemma RanchStyleTextHasPair()
    ensures !NoPair(RanchStyleText, 'C', 'T')
  {
    assert RanchStyleText0[16] == 'C' && RanchStyleText0[17] == 'T';
    PairInLeft(RanchStyleText0, RanchStyleText1 + (RanchStyleText2 + (RanchStyleText3 + (RanchStyleText4 + (RanchStyleText5)))), 'C', 'T');
    PairInLeft(RanchStyleTextBody, ".", 'C', 'T');
  }

  /** Length, first and last character of `CarPlacementText`; it has no line break. */
  lemma CarPlacementTextFacts()
    ensures |CarPlacementText| == 410 && CarPlacementText[0] == 'C' && CarPlacementText[|CarPlacementText| - 1] == '.'
    ensures CarPlacementText[|CarPlacementText| - 2] == 'd'
    ensures '\n' !in CarPlacementText
  {
    CarPlacementText0Basic();
    CarPlacementText1Basic();
    CarPlacementText2Basic();
    CarPlacementText3Basic();
    CarPlacementText4Basic();
    CarPlacementText5Basic();
    CarPlacementText6Basic();
    CarPlacementText7Basic();
    CarPlacementText8Basic();
    CarPlacementText9Basic();
    CarPlacementText10Basic();
    CarPlacementText11Basic();
    CarPlacementText12Basic();
    CarPlacementText13Basic();
  }

  /** Characters and character pairs that `CarPlacementText` lacks. */
  lemma CarPlacementTextLacks()
    ensures 'D' !in CarPlacementText
  {
    CarPlacementText0Lacks();
    CarPlacementText1Lacks();
    CarPlacementText2Lacks();
    CarPlacementText3Lacks();
    CarPlacementText4Lacks();
    CarPlacementText5Lacks();
    CarPlacementText6Lacks();
    CarPlacementText7Lacks();
    CarPlacementText8Lacks();
    CarPlacementText9Lacks();
    CarPlacementText10Lacks();
    CarPlacementText11Lacks();
    CarPlacementText12Lacks();
    CarPlacementText13Lacks();
  }

  /** Characters that occur in `CarPlacementText`. */
  lemma CarPlacementTextHas()
    ensures 'H' in CarPlacementText
  {
    assert CarPlacementText0[11] == 'H';
  }

  /** Length, first and last character of `NoPuttingGreenInRoomText`; it has no line break. */
  lemma NoPuttingGreenInRoomTextFacts()
    ensures |NoPuttingGreenInRoomText| == 233 && NoPuttingGreenInRoomText[0] == 'C' && NoPuttingGreenInRoomText[|NoPuttingGreenInRoomText| - 1] == '.'
    ensures NoPuttingGreenInRoomText[|NoPuttingGreenInRoomText| - 2] == 's'
    ensures '\n' !in NoPuttingGreenInRoomText
  {
    NoPuttingGreenInRoomText0Basic();
    NoPuttingGreenInRoomText1Basic();
    NoPuttingGreenInRoomText2Basic();
    NoPuttingGreenInRoomText3Basic();
    NoPuttingGreenInRoomText4Basic();
    NoPuttingGreenInRoomText5Basic();
    NoPuttingGreenInRoomText6Basic();
  }

  /** Characters and character pairs that `NoPuttingGreenInRoomText` lacks. */
  lemma NoPuttingGreenInRoomTextLacks()
    ensures 'S' !in NoPuttingGreenInRoomText
  {
    NoPuttingGreenInRoomText0Lacks();
    NoPuttingGreenInRoomText1Lacks();
    NoPuttingGreenInRoomText2Lacks();
    NoPuttingGreenInRoomText3Lacks();
    NoPuttingGreenInRoomText4Lacks();
    NoPuttingGreenInRoomText5Lacks();
    NoPuttingGreenInRoomText6Lacks();
  }

  /** Characters that occur in `NoPuttingGreenInRoomText`. */
  lemma NoPuttingGreenInRoomTextHas()
    ensures 'H' in NoPuttingGreenInRoomText
  {
    assert NoPuttingGreenInRoomText0[12] == 'H';
  }

  /** A character pair that occurs in `NoPuttingGreenInRoomText`. */
  lemma NoPuttingGreenInRoomTextHasPair()
    ensures !NoPair(NoPuttingGreenInRoomText, 'C', 'T')
  {
    assert NoPuttingGreenInRoomText0[16] == 'C' && NoPuttingGreenInRoomText0[17] == 'T';
    PairInLeft(NoPuttingGreenInRoomText0, NoPuttingGreenInRoomText1 + (NoPuttingGreenInRoomText2 + (NoPuttingGreenInRoomText3 + (NoPuttingGreenInRoomText4 + (NoPuttingGreenInRoomText5 + (NoPuttingGreenInRoomText6))))), 'C', 'T');
    PairInLeft(NoPuttingGreenInRoomTextBody, ".", 'C', 'T');
  }

  /** Length, first and last character of `NoFireplaceAboveBedText`; it has no line break. */
  lemma NoFireplaceAboveBedTextFacts()
    ensures |NoFireplaceAboveBedText| == 271 && NoFireplaceAboveBedText[0] == 'C' && NoFireplaceAboveBedText[|NoFireplaceAboveBedText| - 1] == '.'
    ensures NoFireplaceAboveBedText[|NoFireplaceAboveBedText| - 2] == 'd'
    ensures '\n' !in NoFireplaceAboveBedText
  {
    NoFireplaceAboveBedText0Basic();
    NoFireplaceAboveBedText1Basic();
    NoFireplaceAboveBedText2Basic();
    NoFireplaceAboveBedText3Basic();
    NoFireplaceAboveBedText4Basic();
    NoFireplaceAboveBedText5Basic();
    NoFireplaceAboveBedText6Basic();
    NoFireplaceAboveBedText7Basic();
    NoFireplaceAboveBedText8Basic();
  }

  /** Characters and character pairs that `NoFireplaceAboveBedText` lacks. */
  lemma NoFireplaceAboveBedTextLacks()
    ensures NoPair(NoFireplaceAboveBedText, 'C', 'T')
  {
    NoFireplaceAboveBedText0Lacks();
    NoFireplaceAboveBedText1Lacks();
    NoFireplaceAboveBedText2Lacks();
    NoFireplaceAboveBedText3Lacks();
    NoFireplaceAboveBedText4Lacks();
    NoFireplaceAboveBedText5Lacks();
    NoFireplaceAboveBedText6Lacks();
    NoFireplaceAboveBedText7Lacks();
    NoFireplaceAboveBedText8Lacks();
    NoPairAppend(NoFireplaceAboveBedText7, NoFireplaceAboveBedText8, 'C', 'T');
    NoPairAppend(NoFireplaceAboveBedText6, NoFireplaceAboveBedText7 + (NoFireplaceAboveBedText8), 'C', 'T');
    NoPairAppend(NoFireplaceAboveBedText5, NoFireplaceAboveBedText6 + (NoFireplaceAboveBedText7 + (NoFireplaceAboveBedText8)), 'C', 'T');
    NoPairAppend(NoFireplaceAboveBedText4, NoFireplaceAboveBedText5 + (NoFireplaceAboveBedText6 + (NoFireplaceAboveBedText7 + (NoFireplaceAboveBedText8))), 'C', 'T');
    NoPairAppend(NoFireplaceAboveBedText3, NoFireplaceAboveBedText4 + (NoFireplaceAboveBedText5 + (NoFireplaceAboveBedText6 + (NoFireplaceAboveBedText7 + (NoFireplaceAboveBedText8)))), 'C', 'T');
    NoPairAppend(NoFireplaceAboveBedText2, NoFireplaceAboveBedText3 + (NoFireplaceAboveBedText4 + (NoFireplaceAboveBedText5 + (NoFireplaceAboveBedText6 + (NoFireplaceAboveBedText7 + (NoFireplaceAboveBedText8))))), 'C', 'T');
    NoPairAppend(NoFireplaceAboveBedText1, NoFireplaceAboveBedText2 + (NoFireplaceAboveBedText3 + (NoFireplaceAboveBedText4 + (NoFireplaceAboveBedText5 + (NoFireplaceAboveBedText6 + (NoFireplaceAboveBedText7 + (NoFireplaceAboveBedText8)))))), 'C', 'T');
    NoPairAppend(NoFireplaceAboveBedText0, NoFireplaceAboveBedText1 + (NoFireplaceAboveBedText2 + (NoFireplaceAboveBedText3 + (NoFireplaceAboveBedText4 + (NoFireplaceAboveBedText5 + (NoFireplaceAboveBedText6 + (NoFireplaceAboveBedText7 + (NoFireplaceAboveBedText8))))))), 'C', 'T');
    NoPairAppend(NoFireplaceAboveBedTextBody, ".", 'C', 'T');
  }

  /** A character pair that occurs in `NoFireplaceAboveBedText`. */
  lemma NoFireplaceAboveBedTextHasPair()
    ensures !NoPair(NoFireplaceAboveBedText, ' ', 'w')
  {
    assert NoFireplaceAboveBedText3[26] == ' ' && NoFireplaceAboveBedText3[27] == 'w';
    PairInLeft(NoFireplaceAboveBedText3, NoFireplaceAboveBedText4 + (NoFireplaceAboveBedText5 + (NoFireplaceAboveBedText6 + (NoFireplaceAboveBedText7 + (NoFireplaceAboveBedText8)))), ' ', 'w');
    PairInRight(NoFireplaceAboveBedText2, NoFireplaceAboveBedText3 + (NoFireplaceAboveBedText4 + (NoFireplaceAboveBedText5 + (NoFireplaceAboveBedText6 + (NoFireplaceAboveBedText7 + (NoFireplaceAboveBedText8))))), ' ', 'w');
    PairInRight(NoFireplaceAboveBedText1, NoFireplaceAboveBedText2 + (NoFireplaceAboveBedText3 + (NoFireplaceAboveBedText4 + (NoFireplaceAboveBedText5 + (NoFireplaceAboveBedText6 + (NoFireplaceAboveBedText7 + (NoFireplaceAboveBedText8)))))), ' ', 'w');
    PairInRight(NoFireplaceAboveBedText0, NoFireplaceAboveBedText1 + (NoFireplaceAboveBedText2 + (NoFireplaceAboveBedText3 + (NoFireplaceAboveBedText4 + (NoFireplaceAboveBedText5 + (NoFireplaceAboveBedText6 + (NoFireplaceAboveBedText7 + (NoFireplaceAboveBedText8))))))), ' ', 'w');
    PairInLeft(NoFireplaceAboveBedTextBody, ".", ' ', 'w');
  }

  /** Length, first and last character of `StackedLaundryText`; it has no line break. */
  lemma StackedLaundryTextFacts()
    ensures |StackedLaundryText| == 231 && StackedLaundryText[0] == 'C' && StackedLaundryText[|StackedLaundryText| - 1] == '.'
    ensures '\n' !in StackedLaundryText
  {
    StackedLaundryText0Basic();
    StackedLaundryText1Basic();
    StackedLaundryText2Basic();
    StackedLaundryText3Basic();
    StackedLaundryText4Basic();
    StackedLaundryText5Basic();
    StackedLaundryText6Basic();
    StackedLaundryText7Basic();
    AsciiNoNewline(StackedLaundryText0);
    AsciiNoNewline(StackedLaundryText1);
    AsciiNoNewline(StackedLaundryText2);
    AsciiNoNewline(StackedLaundryText3);
    AsciiNoNewline(StackedLaundryText4);
    AsciiNoNewline(StackedLaundryText5);
    AsciiNoNewline(StackedLaundryText6);
    AsciiNoNewline(StackedLaundryText7);
  }

  /** Characters and character pairs that `StackedLaundryText` lacks. */
  lemma StackedLaundryTextLacks()
    ensures 'g' !in StackedLaundryText
  {
    StackedLaundryText0Lacks();
    StackedLaundryText1Lacks();
    StackedLaundryText2Lacks();
    StackedLaundryText3Lacks();
    StackedLaundryText4Lacks();
    StackedLaundryText5Lacks();
    StackedLaundryText6Lacks();
    StackedLaundryText7Lacks();
  }

  /** `StackedLaundryText` has no two whitespace characters in a row. */
  lemma StackedLaundryTextSpacing()
    ensures NoDoubleSpace(StackedLaundryText)
  {
    StackedLaundryText0Basic();
    StackedLaundryText1Basic();
    StackedLaundryText2Basic();
    StackedLaundryText3Basic();
    StackedLaundryText4Basic();
    StackedLaundryText5Basic();
    StackedLaundryText6Basic();
    StackedLaundryText7Basic();
    StackedLaundryText0Spacing();
    StackedLaundryText1Spacing();
    StackedLaundryText2Spacing();
    StackedLaundryText3Spacing();
    StackedLaundryText4Spacing();
    StackedLaundryText5Spacing();
    StackedLaundryText6Spacing();
    StackedLaundryText7Spacing();
    AsciiNoDoubleSpace(StackedLaundryText0);
    AsciiNoDoubleSpace(StackedLaundryText1);
    AsciiNoDoubleSpace(StackedLaundryText2);
    AsciiNoDoubleSpace(StackedLaundryText3);
    AsciiNoDoubleSpace(StackedLaundryText4);
    AsciiNoDoubleSpace(StackedLaundryText5);
    AsciiNoDoubleSpace(StackedLaundryText6);
    AsciiNoDoubleSpace(StackedLaundryText7);
    NoDoubleSpaceAppend(StackedLaundryText6, StackedLaundryText7);
    NoDoubleSpaceAppend(StackedLaundryText5, StackedLaundryText6 + (StackedLaundryText7));
    NoDoubleSpaceAppend(StackedLaundryText4, StackedLaundryText5 + (StackedLaundryText6 + (StackedLaundryText7)));
    NoDoubleSpaceAppend(StackedLaundryText3, StackedLaundryText4 + (StackedLaundryText5 + (StackedLaundryText6 + (StackedLaundryText7))));
    NoDoubleSpaceAppend(StackedLaundryText2, StackedLaundryText3 + (StackedLaundryText4 + (StackedLaundryText5 + (StackedLaundryText6 + (StackedLaundryText7)))));
    NoDoubleSpaceAppend(StackedLaundryText1, StackedLaundryText2 + (StackedLaundryText3 + (StackedLaundryText4 + (StackedLaundryText5 + (StackedLaundryText6 + (StackedLaundryText7))))));
    NoDoubleSpaceAppend(StackedLaundryText0, StackedLaundryText1 + (StackedLaundryText2 + (StackedLaundryText3 + (StackedLaundryText4 + (StackedLaundryText5 + (StackedLaundryText6 + (StackedLaundryText7)))))));
    NoDoubleSpaceAppend(StackedLaundryTextBody, ".");
  }

  /** Length, first and last character of `SideBySideLaundryText`; it has no line break. */
  lemma SideBySideLaundryTextFacts()
    ensures |SideBySideLaundryText| == 231 && SideBySideLaundryText[0] == 'C' && SideBySideLaundryText[|SideBySideLaundryText| - 1] == '.'
    ensures '\n' !in SideBySideLaundryText
  {
    SideBySideLaundryText0Basic();
    SideBySideLaundryText1Basic();
    SideBySideLaundryText2Basic();
    SideBySideLaundryText3Basic();
    SideBySideLaundryText4Basic();
    SideBySideLaundryText5Basic();
    SideBySideLaundryText6Basic();
    SideBySideLaundryText7Basic();
    AsciiNoNewline(SideBySideLaundryText0);
    AsciiNoNewline(SideBySideLaundryText1);
    AsciiNoNewline(SideBySideLaundryText2);
    AsciiNoNewline(SideBySideLaundryText3);
    AsciiNoNewline(SideBySideLaundryText4);
    AsciiNoNewline(SideBySideLaundryText5);
    AsciiNoNewline(SideBySideLaundryText6);
    AsciiNoNewline(SideBySideLaundryText7);
  }

  /** Characters and character pairs that `SideBySideLaundryText` lacks. */
  lemma SideBySideLaundryTextLacks()
    ensures 'g' !in SideBySideLaundryText
  {
    SideBySideLaundryText0Lacks();
    SideBySideLaundryText1Lacks();
    SideBySideLaundryText2Lacks();
    SideBySideLaundryText3Lacks();
    SideBySideLaundryText4Lacks();
    SideBySideLaundryText5Lacks();
    SideBySideLaundryText6Lacks();
    SideBySideLaundryText7Lacks();
  }

  /** `SideBySideLaundryText` has no two whitespace characters in a row. */
  lemma SideBySideLaundryTextSpacing()
    ensures NoDoubleSpace(SideBySideLaundryText)
  {
    SideBySideLaundryText0Basic();
    SideBySideLaundryText1Basic();
    SideBySideLaundryText2Basic();
    SideBySideLaundryText3Basic();
    SideBySideLaundryText4Basic();
    SideBySideLaundryText5Basic();
    SideBySideLaundryText6Basic();
    SideBySideLaundryText7Basic();
    SideBySideLaundryText0Spacing();
    SideBySideLaundryText1Spacing();
    SideBySideLaundryText2Spacing();
    SideBySideLaundryText3Spacing();
    SideBySideLaundryText4Spacing();
    SideBySideLaundryText5Spacing();
    SideBySideLaundryText6Spacing();
    SideBySideLaundryText7Spacing();
    AsciiNoDoubleSpace(SideBySideLaundryText0);
    AsciiNoDoubleSpace(SideBySideLaundryText1);
    AsciiNoDoubleSpace(SideBySideLaundryText2);
    AsciiNoDoubleSpace(SideBySideLaundryText3);
    AsciiNoDoubleSpace(SideBySideLaundryText4);
    AsciiNoDoubleSpace(SideBySideLaundryText5);
    AsciiNoDoubleSpace(SideBySideLaundryText6);
    AsciiNoDoubleSpace(SideBySideLaundryText7);
    NoDoubleSpaceAppend(SideBySideLaundryText6, SideBySideLaundryText7);
    NoDoubleSpaceAppend(SideBySideLaundryText5, SideBySideLaundryText6 + (SideBySideLaundryText7));
    NoDoubleSpaceAppend(SideBySideLaundryText4, SideBySideLaundryText5 + (SideBySideLaundryText6 + (SideBySideLaundryText7)));
    NoDoubleSpaceAppend(SideBySideLaundryText3, SideBySideLaundryText4 + (SideBySideLaundryText5 + (SideBySideLaundryText6 + (SideBySideLaundryText7))));
    NoDoubleSpaceAppend(SideBySideLaundryText2, SideBySideLaundryText3 + (SideBySideLaundryText4 + (SideBySideLaundryText5 + (SideBySideLaundryText6 + (SideBySideLaundryText7)))));
    NoDoubleSpaceAppend(SideBySideLaundryText1, SideBySideLaundryText2 + (SideBySideLaundryText3 + (SideBySideLaundryText4 + (SideBySideLaundryText5 + (SideBySideLaundryText6 + (SideBySideLaundryText7))))));
    NoDoubleSpaceAppend(SideBySideLaundryText0, SideBySideLaundryText1 + (SideBySideLaundryText2 + (SideBySideLaundryText3 + (SideBySideLaundryText4 + (SideBySideLaundryText5 + (SideBySideLaundryText6 + (SideBySideLaundryText7)))))));
    NoDoubleSpaceAppend(SideBySideLaundryTextBody, ".");
  }

  // Texts that tell the catalog entries apart

  /** No removal literal that the cleaner applies before `NoPoolInGarageText` occurs inside it. */
  lemma NoPoolInGarageTextSeparated()
    ensures !Occurs(NoPoolInGarageText, FrontExteriorPattern)
  {
    NoPoolInGarageTextSeparated1();
  }

  lemma NoPoolInGarageTextSeparated1()
    ensures !Occurs(NoPoolInGarageText, FrontExteriorPattern)
  {
    NoPoolInGarageTextFacts();
    FrontExteriorPatternFacts();
    NotOccursLength(NoPoolInGarageText, FrontExteriorPattern);
  }

  /** No removal literal that the cleaner applies before `NoGarageInBackyardText` occurs inside it. */
  lemma NoGarageInBackyardTextSeparated()
    ensures !Occurs(NoGarageInBackyardText, FrontExteriorPattern)
    ensures !Occurs(NoGarageInBackyardText, NoPoolInGarageText)
  {
    NoGarageInBackyardTextSeparated1();
  }

  lemma NoGarageInBackyardTextSeparated1()
    ensures !Occurs(NoGarageInBackyardText, FrontExteriorPattern)
    ensures !Occurs(NoGarageInBackyardText, NoPoolInGarageText)
  {
    NoGarageInBackyardTextFacts();
    NoGarageInBackyardTextLacks();
    FrontExteriorPatternFacts();
    NotOccursLength(NoGarageInBackyardText, FrontExteriorPattern);
    NoPoolInGarageTextHas();
    NotOccursChar(NoGarageInBackyardText, NoPoolInGarageText, 'G');
  }

  /** No removal literal that the cleaner applies before `NoLakeInFrontText` occurs inside it. */
  lemma NoLakeInFrontTextSeparated()
    ensures !Occurs(NoLakeInFrontText, FrontExteriorPattern)
    ensures !Occurs(NoLakeInFrontText, NoPoolInGarageText)
    ensures !Occurs(NoLakeInFrontText, NoGarageInBackyardText)
  {
    NoLakeInFrontTextSeparated1();
  }

  lemma NoLakeInFrontTextSeparated1()
    ensures !Occurs(NoLakeInFrontText, FrontExteriorPattern)
    ensures !Occurs(NoLakeInFrontText, NoPoolInGarageText)
    ensures !Occurs(NoLakeInFrontText, NoGarageInBackyardText)
  {
    NoLakeInFrontTextFacts();
    NoLakeInFrontTextLacks();
    FrontExteriorPatternFacts();
    NotOccursLength(NoLakeInFrontText, FrontExteriorPattern);
    NoPoolInGarageTextHas();
    NotOccursChar(NoLakeInFrontText, NoPoolInGarageText, 'G');
    NoGarageInBackyardTextFacts();
    NotOccursLength(NoLakeInFrontText, NoGarageInBackyardText);
  }

  /** No removal literal that the cleaner applies before `ProjectorText` occurs inside it. */
  lemma ProjectorTextSeparated()
    ensures !Occurs(ProjectorText, FrontExteriorPattern)
    ensures !Occurs(ProjectorText, NoPoolInGarageText)
    ensures !Occurs(ProjectorText, NoGarageInBackyardText)
    ensures !Occurs(ProjectorText, NoLakeInFrontText)
  {
    ProjectorTextSeparated1();
    ProjectorTextSeparated2();
  }

  lemma ProjectorTextSeparated1()
    ensures !Occurs(ProjectorText, FrontExteriorPattern)
    ensures !Occurs(ProjectorText, NoPoolInGarageText)
    ensures !Occurs(ProjectorText, NoGarageInBackyardText)
  {
    ProjectorTextFacts();
    ProjectorTextLacks();
    FrontExteriorPatternHas();
    NotOccursChar(ProjectorText, FrontExteriorPattern, 'D');
    NoPoolInGarageTextHas();
    NotOccursChar(ProjectorText, NoPoolInGarageText, 'D');
    NoGarageInBackyardTextHas();
    NotOccursChar(ProjectorText, NoGarageInBackyardText, 'D');
  }

  lemma ProjectorTextSeparated2()
    ensures !Occurs(ProjectorText, NoLakeInFrontText)
  {
    ProjectorTextFacts();
    ProjectorTextLacks();
    NoLakeInFrontTextHas();
    NotOccursChar(ProjectorText, NoLakeInFrontText, 'D');
  }

  /** No removal literal that the cleaner applies before `TheaterSeatingText` occurs inside it. */
  lemma TheaterSeatingTextSeparated()
    ensures !Occurs(TheaterSeatingText, FrontExteriorPattern)
    ensures !Occurs(TheaterSeatingText, NoPoolInGarageText)
    ensures !Occurs(TheaterSeatingText, NoGarageInBackyardText)
    ensures !Occurs(TheaterSeatingText, NoLakeInFrontText)
    ensures !Occurs(TheaterSeatingText, ProjectorText)
  {
    TheaterSeatingTextSeparated1();
    TheaterSeatingTextSeparated2();
  }

  lemma TheaterSeatingTextSeparated1()
    ensures !Occurs(TheaterSeatingText, FrontExteriorPattern)
    ensures !Occurs(TheaterSeatingText, NoPoolInGarageText)
    ensures !Occurs(TheaterSeatingText, NoGarageInBackyardText)
  {
    TheaterSeatingTextFacts();
    TheaterSeatingTextLacks();
    FrontExteriorPatternFacts();
    NotOccursLength(TheaterSeatingText, FrontExteriorPattern);
    NoPoolInGarageTextHas();
    NotOccursChar(TheaterSeatingText, NoPoolInGarageText, '\'');
    NoGarageInBackyardTextHas();
    NotOccursChar(TheaterSeatingText, NoGarageInBackyardText, '\'');
  }

  lemma TheaterSeatingTextSeparated2()
    ensures !Occurs(TheaterSeatingText, NoLakeInFrontText)
    ensures !Occurs(TheaterSeatingText, ProjectorText)
  {
    TheaterSeatingTextFacts();
    TheaterSeatingTextLacks();
    NoLakeInFrontTextHas();
    NotOccursChar(TheaterSeatingText, NoLakeInFrontText, '\'');
    ProjectorTextFacts();
    NotOccursLength(TheaterSeatingText, ProjectorText);
  }

  /** No removal literal that the cleaner applies before `RanchStyleText` occurs inside it. */
  lemma RanchStyleTextSeparated()
    ensures !Occurs(RanchStyleText, FrontExteriorPattern)
    ensures !Occurs(RanchStyleText, NoPoolInGarageText)
    ensures !Occurs(RanchStyleText, NoGarageInBackyardText)
    ensures !Occurs(RanchStyleText, NoLakeInFrontText)
    ensures !Occurs(RanchStyleText, ProjectorText)
    ensures !Occurs(RanchStyleText, TheaterSeatingText)
  {
    RanchStyleTextSeparated1();
    RanchStyleTextSeparated2();
  }

  lemma RanchStyleTextSeparated1()
    ensures !Occurs(RanchStyleText, FrontExteriorPattern)
    ensures !Occurs(RanchStyleText, NoPoolInGarageText)
    ensures !Occurs(RanchStyleText, NoGarageInBackyardText)
  {
    RanchStyleTextFacts();
    RanchStyleTextLacks();
    FrontExteriorPatternFacts();
    NotOccursLength(RanchStyleText, FrontExteriorPattern);
    NoPoolInGarageTextHas();
    NotOccursChar(RanchStyleText, NoPoolInGarageText, '\'');
    NoGarageInBackyardTextFacts();
    NotOccursLength(RanchStyleText, NoGarageInBackyardText);
  }

  lemma RanchStyleTextSeparated2()
    ensures !Occurs(RanchStyleText, NoLakeInFrontText)
    ensures !Occurs(RanchStyleText, ProjectorText)
    ensures !Occurs(RanchStyleText, TheaterSeatingText)
  {
    RanchStyleTextFacts();
    NoLakeInFrontTextFacts();
    NotOccursLength(RanchStyleText, NoLakeInFrontText);
    ProjectorTextFacts();
    NotOccursLength(RanchStyleText, ProjectorText);
    TheaterSeatingTextFacts();
    NotOccursLength(RanchStyleText, TheaterSeatingText);
  }

  /** No removal literal that the cleaner applies before `CarPlacementText` occurs inside it. */
  lemma CarPlacementTextSeparated()
    ensures !Occurs(CarPlacementText, FrontExteriorPattern)
    ensures !Occurs(CarPlacementText, NoPoolInGarageText)
    ensures !Occurs(CarPlacementText, NoGarageInBackyardText)
    ensures !Occurs(CarPlacementText, NoLakeInFrontText)
    ensures !Occurs(CarPlacementText, ProjectorText)
    ensures !Occurs(CarPlacementText, TheaterSeatingText)
    ensures !Occurs(CarPlacementText, RanchStyleText)
  {
    CarPlacementTextSeparated1();
    CarPlacementTextSeparated2();
    CarPlacementTextSeparated3();
  }

  lemma CarPlacementTextSeparated1()
    ensures !Occurs(CarPlacementText, FrontExteriorPattern)
    ensures !Occurs(CarPlacementText, NoPoolInGarageText)
    ensures !Occurs(CarPlacementText, NoGarageInBackyardText)
  {
    CarPlacementTextFacts();
    CarPlacementTextLacks();
    FrontExteriorPatternFacts();
    NotOccursLength(CarPlacementText, FrontExteriorPattern);
    NoPoolInGarageTextHas();
    NotOccursChar(CarPlacementText, NoPoolInGarageText, 'D');
    NoGarageInBackyardTextHas();
    NotOccursChar(CarPlacementText, NoGarageInBackyardText, 'D');
  }

  lemma CarPlacementTextSeparated2()
    ensures !Occurs(CarPlacementText, NoLakeInFrontText)
    ensures !Occurs(CarPlacementText, ProjectorText)
    ensures !Occurs(CarPlacementText, TheaterSeatingText)
  {
    CarPlacementTextFacts();
    CarPlacementTextLacks();
    NoLakeInFrontTextHas();
    NotOccursChar(CarPlacementText, NoLakeInFrontText, 'D');
    ProjectorTextFacts();
    NotOccursLength(CarPlacementText, ProjectorText);
    TheaterSeatingTextHas();
    NotOccursChar(CarPlacementText, TheaterSeatingText, 'D');
  }

  lemma CarPlacementTextSeparated3()
    ensures !Occurs(CarPlacementText, RanchStyleText)
  {
    CarPlacementTextFacts();
    CarPlacementTextLacks();
    RanchStyleTextHas();
    NotOccursChar(CarPlacementText, RanchStyleText, 'D');
  }

  /** No removal literal that the cleaner applies before `NoPuttingGreenInRoomText` occurs inside it. */
  lemma NoPuttingGreenInRoomTextSeparated()
    ensures !Occurs(NoPuttingGreenInRoomText, FrontExteriorPattern)
    ensures !Occurs(NoPuttingGreenInRoomText, NoPoolInGarageText)
    ensures !Occurs(NoPuttingGreenInRoomText, NoGarageInBackyardText)
    ensures !Occurs(NoPuttingGreenInRoomText, NoLakeInFrontText)
    ensures !Occurs(NoPuttingGreenInRoomText, ProjectorText)
    ensures !Occurs(NoPuttingGreenInRoomText, TheaterSeatingText)
    ensures !Occurs(NoPuttingGreenInRoomText, RanchStyleText)
    ensures !Occurs(NoPuttingGreenInRoomText, CarPlacementText)
  {
    NoPuttingGreenInRoomTextSeparated1();
    NoPuttingGreenInRoomTextSeparated2();
    NoPuttingGreenInRoomTextSeparated3();
  }

  lemma NoPuttingGreenInRoomTextSeparated1()
    ensures !Occurs(NoPuttingGreenInRoomText, FrontExteriorPattern)
    ensures !Occurs(NoPuttingGreenInRoomText, NoPoolInGarageText)
    ensures !Occurs(NoPuttingGreenInRoomText, NoGarageInBackyardText)
  {
    NoPuttingGreenInRoomTextFacts();
    NoPuttingGreenInRoomTextLacks();
    FrontExteriorPatternFacts();
    NotOccursLength(NoPuttingGreenInRoomText, FrontExteriorPattern);
    NoPoolInGarageTextHas2();
    NotOccursChar(NoPuttingGreenInRoomText, NoPoolInGarageText, 'S');
    NoGarageInBackyardTextFacts();
    NotOccursLength(NoPuttingGreenInRoomText, NoGarageInBackyardText);
  }

  lemma NoPuttingGreenInRoomTextSeparated2()
    ensures !Occurs(NoPuttingGreenInRoomText, NoLakeInFrontText)
    ensures !Occurs(NoPuttingGreenInRoomText, ProjectorText)
    ensures !Occurs(NoPuttingGreenInRoomText, TheaterSeatingText)
  {
    NoPuttingGreenInRoomTextFacts();
    NoPuttingGreenInRoomTextLacks();
    NoLakeInFrontTextHas();
    NotOccursChar(NoPuttingGreenInRoomText, NoLakeInFrontText, 'S');
    ProjectorTextFacts();
    NotOccursLength(NoPuttingGreenInRoomText, ProjectorText);
    TheaterSeatingTextFacts();
    NotOccursLength(NoPuttingGreenInRoomText, TheaterSeatingText);
  }

  lemma NoPuttingGreenInRoomTextSeparated3()
    ensures !Occurs(NoPuttingGreenInRoomText, RanchStyleText)
    ensures !Occurs(NoPuttingGreenInRoomText, CarPlacementText)
  {
    NoPuttingGreenInRoomTextFacts();
    NoPuttingGreenInRoomTextLacks();
    RanchStyleTextHas();
    NotOccursChar(NoPuttingGreenInRoomText, RanchStyleText, 'S');
    CarPlacementTextFacts();
    NotOccursLength(NoPuttingGreenInRoomText, CarPlacementText);
  }

  /** No removal literal that the cleaner applies before `NoFireplaceAboveBedText` occurs inside it. */
  lemma NoFireplaceAboveBedTextSeparated()
    ensures !Occurs(NoFireplaceAboveBedText, FrontExteriorPattern)
    ensures !Occurs(NoFireplaceAboveBedText, NoPoolInGarageText)
    ensures !Occurs(NoFireplaceAboveBedText, NoGarageInBackyardText)
    ensures !Occurs(NoFireplaceAboveBedText, NoLakeInFrontText)
    ensures !Occurs(NoFireplaceAboveBedText, ProjectorText)
    ensures !Occurs(NoFireplaceAboveBedText, TheaterSeatingText)
    ensures !Occurs(NoFireplaceAboveBedText, RanchStyleText)
    ensures !Occurs(NoFireplaceAboveBedText, CarPlacementText)
    ensures !Occurs(NoFireplaceAboveBedText, NoPuttingGreenInRoomText)
  {
    NoFireplaceAboveBedTextSeparated1();
    NoFireplaceAboveBedTextSeparated2();
    NoFireplaceAboveBedTextSeparated3();
  }

  lemma NoFireplaceAboveBedTextSeparated1()
    ensures !Occurs(NoFireplaceAboveBedText, FrontExteriorPattern)
    ensures !Occurs(NoFireplaceAboveBedText, NoPoolInGarageText)
    ensures !Occurs(NoFireplaceAboveBedText, NoGarageInBackyardText)
  {
    NoFireplaceAboveBedTextFacts();
    NoFireplaceAboveBedTextLacks();
    FrontExteriorPatternFacts();
    NotOccursLength(NoFireplaceAboveBedText, FrontExteriorPattern);
    NoPoolInGarageTextHasPair2();
    NotOccursPair(NoFireplaceAboveBedText, NoPoolInGarageText, 'C', 'T');
    NoGarageInBackyardTextHasPair();
    NotOccursPair(NoFireplaceAboveBedText, NoGarageInBackyardText, 'C', 'T');
  }

  lemma NoFireplaceAboveBedTextSeparated2()
    ensures !Occurs(NoFireplaceAboveBedText, NoLakeInFrontText)
    ensures !Occurs(NoFireplaceAboveBedText, ProjectorText)
    ensures !Occurs(NoFireplaceAboveBedText, TheaterSeatingText)
  {
    NoFireplaceAboveBedTextFacts();
    NoFireplaceAboveBedTextLacks();
    NoLakeInFrontTextHasPair2();
    NotOccursPair(NoFireplaceAboveBedText, NoLakeInFrontText, 'C', 'T');
    ProjectorTextFacts();
    NotOccursLength(NoFireplaceAboveBedText, ProjectorText);
    TheaterSeatingTextFacts();
    NotOccursLength(NoFireplaceAboveBedText, TheaterSeatingText);
  }

  lemma NoFireplaceAboveBedTextSeparated3()
    ensures !Occurs(NoFireplaceAboveBedText, RanchStyleText)
    ensures !Occurs(NoFireplaceAboveBedText, CarPlacementText)
    ensures !Occurs(NoFireplaceAboveBedText, NoPuttingGreenInRoomText)
  {
    NoFireplaceAboveBedTextFacts();
    NoFireplaceAboveBedTextLacks();
    RanchStyleTextHasPair();
    NotOccursPair(NoFireplaceAboveBedText, RanchStyleText, 'C', 'T');
    CarPlacementTextFacts();
    NotOccursLength(NoFireplaceAboveBedText, CarPlacementText);
    NoPuttingGreenInRoomTextHasPair();
    NotOccursPair(NoFireplaceAboveBedText, NoPuttingGreenInRoomText, 'C', 'T');
  }

  /** No removal literal that the cleaner applies before `BackExteriorPoolText` occurs inside it. */
  lemma BackExteriorPoolTextSeparated()
    ensures !Occurs(BackExteriorPoolText, FrontExteriorPattern)
    ensures !Occurs(BackExteriorPoolText, NoPoolInGarageText)
    ensures !Occurs(BackExteriorPoolText, NoGarageInBackyardText)
    ensures !Occurs(BackExteriorPoolText, NoLakeInFrontText)
    ensures !Occurs(BackExteriorPoolText, ProjectorText)
    ensures !Occurs(BackExteriorPoolText, TheaterSeatingText)
    ensures !Occurs(BackExteriorPoolText, RanchStyleText)
    ensures !Occurs(BackExteriorPoolText, CarPlacementText)
    ensures !Occurs(BackExteriorPoolText, NoPuttingGreenInRoomText)
    ensures !Occurs(BackExteriorPoolText, NoFireplaceAboveBedText)
  {
    BackExteriorPoolTextSeparated1();
    BackExteriorPoolTextSeparated2();
    BackExteriorPoolTextSeparated3();
    BackExteriorPoolTextSeparated4();
  }

  lemma BackExteriorPoolTextSeparated1()
    ensures !Occurs(BackExteriorPoolText, FrontExteriorPattern)
    ensures !Occurs(BackExteriorPoolText, NoPoolInGarageText)
    ensures !Occurs(BackExteriorPoolText, NoGarageInBackyardText)
  {
    BackExteriorPoolTextFacts();
    FrontExteriorPatternFacts();
    NotOccursLength(BackExteriorPoolText, FrontExteriorPattern);
    NoPoolInGarageTextFacts();
    NotOccursLength(BackExteriorPoolText, NoPoolInGarageText);
    NoGarageInBackyardTextFacts();
    NotOccursLength(BackExteriorPoolText, NoGarageInBackyardText);
  }

  lemma BackExteriorPoolTextSeparated2()
    ensures !Occurs(BackExteriorPoolText, NoLakeInFrontText)
    ensures !Occurs(BackExteriorPoolText, ProjectorText)
    ensures !Occurs(BackExteriorPoolText, TheaterSeatingText)
  {
    BackExteriorPoolTextFacts();
    NoLakeInFrontTextFacts();
    NotOccursLength(BackExteriorPoolText, NoLakeInFrontText);
    ProjectorTextFacts();
    NotOccursLength(BackExteriorPoolText, ProjectorText);
    TheaterSeatingTextFacts();
    NotOccursLength(BackExteriorPoolText, TheaterSeatingText);
  }

  lemma BackExteriorPoolTextSeparated3()
    ensures !Occurs(BackExteriorPoolText, RanchStyleText)
    ensures !Occurs(BackExteriorPoolText, CarPlacementText)
    ensures !Occurs(BackExteriorPoolText, NoPuttingGreenInRoomText)
  {
    BackExteriorPoolTextFacts();
    RanchStyleTextFacts();
    NotOccursLength(BackExteriorPoolText, RanchStyleText);
    CarPlacementTextFacts();
    NotOccursLength(BackExteriorPoolText, CarPlacementText);
    NoPuttingGreenInRoomTextFacts();
    NotOccursLength(BackExteriorPoolText, NoPuttingGreenInRoomText);
  }

  lemma BackExteriorPoolTextSeparated4()
    ensures !Occurs(BackExteriorPoolText, NoFireplaceAboveBedText)
  {
    BackExteriorPoolTextFacts();
    NoFireplaceAboveBedTextFacts();
    NotOccursLength(BackExteriorPoolText, NoFireplaceAboveBedText);
  }

  /** No removal literal that the cleaner applies before `BackExteriorLakeAndBoatText` occurs inside it. */
  lemma BackExteriorLakeAndBoatTextSeparated()
    ensures !Occurs(BackExteriorLakeAndBoatText, FrontExteriorPattern)
    ensures !Occurs(BackExteriorLakeAndBoatText, NoPoolInGarageText)
    ensures !Occurs(BackExteriorLakeAndBoatText, NoGarageInBackyardText)
    ensures !Occurs(BackExteriorLakeAndBoatText, NoLakeInFrontText)
    ensures !Occurs(BackExteriorLakeAndBoatText, ProjectorText)
    ensures !Occurs(BackExteriorLakeAndBoatText, TheaterSeatingText)
    ensures !Occurs(BackExteriorLakeAndBoatText, RanchStyleText)
    ensures !Occurs(BackExteriorLakeAndBoatText, CarPlacementText)
    ensures !Occurs(BackExteriorLakeAndBoatText, NoPuttingGreenInRoomText)
    ensures !Occurs(BackExteriorLakeAndBoatText, NoFireplaceAboveBedText)
    ensures !Occurs(BackExteriorLakeAndBoatText, BackExteriorPoolText)
  {
    BackExteriorLakeAndBoatTextSeparated1();
    BackExteriorLakeAndBoatTextSeparated2();
    BackExteriorLakeAndBoatTextSeparated3();
    BackExteriorLakeAndBoatTextSeparated4();
  }

  lemma BackExteriorLakeAndBoatTextSeparated1()
    ensures !Occurs(BackExteriorLakeAndBoatText, FrontExteriorPattern)
    ensures !Occurs(BackExteriorLakeAndBoatText, NoPoolInGarageText)
    ensures !Occurs(BackExteriorLakeAndBoatText, NoGarageInBackyardText)
  {
    BackExteriorLakeAndBoatTextFacts();
    FrontExteriorPatternFacts();
    NotOccursLength(BackExteriorLakeAndBoatText, FrontExteriorPattern);
    NoPoolInGarageTextFacts();
    NotOccursLength(BackExteriorLakeAndBoatText, NoPoolInGarageText);
    NoGarageInBackyardTextFacts();
    NotOccursLength(BackExteriorLakeAndBoatText, NoGarageInBackyardText);
  }

  lemma BackExteriorLakeAndBoatTextSeparated2()
    ensures !Occurs(BackExteriorLakeAndBoatText, NoLakeInFrontText)
    ensures !Occurs(BackExteriorLakeAndBoatText, ProjectorText)
    ensures !Occurs(BackExteriorLakeAndBoatText, TheaterSeatingText)
  {
    BackExteriorLakeAndBoatTextFacts();
    NoLakeInFrontTextFacts();
    NotOccursLength(BackExteriorLakeAndBoatText, NoLakeInFrontText);
    ProjectorTextFacts();
    NotOccursLength(BackExteriorLakeAndBoatText, ProjectorText);
    TheaterSeatingTextFacts();
    NotOccursLength(BackExteriorLakeAndBoatText, TheaterSeatingText);
  }

  lemma BackExteriorLakeAndBoatTextSeparated3()
    ensures !Occurs(BackExteriorLakeAndBoatText, RanchStyleText)
    ensures !Occurs(BackExteriorLakeAndBoatText, CarPlacementText)
    ensures !Occurs(BackExteriorLakeAndBoatText, NoPuttingGreenInRoomText)
  {
    BackExteriorLakeAndBoatTextFacts();
    RanchStyleTextFacts();
    NotOccursLength(BackExteriorLakeAndBoatText, RanchStyleText);
    CarPlacementTextFacts();
    NotOccursLength(BackExteriorLakeAndBoatText, CarPlacementText);
    NoPuttingGreenInRoomTextFacts();
    NotOccursLength(BackExteriorLakeAndBoatText, NoPuttingGreenInRoomText);
  }

  lemma BackExteriorLakeAndBoatTextSeparated4()
    ensures !Occurs(BackExteriorLakeAndBoatText, NoFireplaceAboveBedText)
    ensures !Occurs(BackExteriorLakeAndBoatText, BackExteriorPoolText)
  {
    BackExteriorLakeAndBoatTextFacts();
    BackExteriorLakeAndBoatTextLacks();
    NoFireplaceAboveBedTextFacts();
    NotOccursLength(BackExteriorLakeAndBoatText, NoFireplaceAboveBedText);
    BackExteriorPoolTextHasPair();
    NotOccursPair(BackExteriorLakeAndBoatText, BackExteriorPoolText, ' ', 's');
  }

  /** No removal literal of the cleaner occurs inside `FrontExteriorText`. */
  lemma FrontExteriorTextSeparated()
    ensures !Occurs(FrontExteriorText, FrontExteriorPattern)
    ensures !Occurs(FrontExteriorText, NoPoolInGarageText)
    ensures !Occurs(FrontExteriorText, NoGarageInBackyardText)
    ensures !Occurs(FrontExteriorText, NoLakeInFrontText)
    ensures !Occurs(FrontExteriorText, ProjectorText)
    ensures !Occurs(FrontExteriorText, TheaterSeatingText)
    ensures !Occurs(FrontExteriorText, RanchStyleText)
    ensures !Occurs(FrontExteriorText, CarPlacementText)
    ensures !Occurs(FrontExteriorText, NoPuttingGreenInRoomText)
    ensures !Occurs(FrontExteriorText, NoFireplaceAboveBedText)
    ensures !Occurs(FrontExteriorText, BackExteriorPoolText)
    ensures !Occurs(FrontExteriorText, BackExteriorLakeAndBoatText)
    ensures !Occurs(FrontExteriorText, NightModeText)
  {
    FrontExteriorTextSeparated1();
    FrontExteriorTextSeparated2();
    FrontExteriorTextSeparated3();
    FrontExteriorTextSeparated4();
    FrontExteriorTextSeparated5();
  }

  lemma FrontExteriorTextSeparated1()
    ensures !Occurs(FrontExteriorText, FrontExteriorPattern)
    ensures !Occurs(FrontExteriorText, NoPoolInGarageText)
    ensures !Occurs(FrontExteriorText, NoGarageInBackyardText)
  {
    FrontExteriorTextFacts();
    FrontExteriorTextLacks();
    FrontExteriorPatternFacts();
    NotOccursLength(FrontExteriorText, FrontExteriorPattern);
    NoPoolInGarageTextHasPair();
    NotOccursPair(FrontExteriorText, NoPoolInGarageText, ' ', 'w');
    NoGarageInBackyardTextHas();
    NotOccursChar(FrontExteriorText, NoGarageInBackyardText, 'B');
  }

  lemma FrontExteriorTextSeparated2()
    ensures !Occurs(FrontExteriorText, NoLakeInFrontText)
    ensures !Occurs(FrontExteriorText, ProjectorText)
    ensures !Occurs(FrontExteriorText, TheaterSeatingText)
  {
    FrontExteriorTextFacts();
    FrontExteriorTextLacks();
    NoLakeInFrontTextHasPair();
    NotOccursPair(FrontExteriorText, NoLakeInFrontText, ' ', 'w');
    ProjectorTextFacts();
    NotOccursLength(FrontExteriorText, ProjectorText);
    TheaterSeatingTextHas();
    NotOccursChar(FrontExteriorText, TheaterSeatingText, 'B');
  }

  lemma FrontExteriorTextSeparated3()
    ensures !Occurs(FrontExteriorText, RanchStyleText)
    ensures !Occurs(FrontExteriorText, CarPlacementText)
    ensures !Occurs(FrontExteriorText, NoPuttingGreenInRoomText)
  {
    FrontExteriorTextFacts();
    FrontExteriorTextLacks();
    RanchStyleTextHas();
    NotOccursChar(FrontExteriorText, RanchStyleText, 'H');
    CarPlacementTextHas();
    NotOccursChar(FrontExteriorText, CarPlacementText, 'H');
    NoPuttingGreenInRoomTextHas();
    NotOccursChar(FrontExteriorText, NoPuttingGreenInRoomText, 'H');
  }

  lemma FrontExteriorTextSeparated4()
    ensures !Occurs(FrontExteriorText, NoFireplaceAboveBedText)
    ensures !Occurs(FrontExteriorText, BackExteriorPoolText)
    ensures !Occurs(FrontExteriorText, BackExteriorLakeAndBoatText)
  {
    FrontExteriorTextFacts();
    FrontExteriorTextLacks();
    NoFireplaceAboveBedTextHasPair();
    NotOccursPair(FrontExteriorText, NoFireplaceAboveBedText, ' ', 'w');
    BackExteriorPoolTextHas();
    NotOccursChar(FrontExteriorText, BackExteriorPoolText, 'B');
    BackExteriorLakeAndBoatTextHas();
    NotOccursChar(FrontExteriorText, BackExteriorLakeAndBoatText, 'B');
  }

  lemma FrontExteriorTextSeparated5()
    ensures !Occurs(FrontExteriorText, NightModeText)
  {
    FrontExteriorTextFacts();
    FrontExteriorTextLacks();
    NightModeTextHasPair();
    NotOccursPair(FrontExteriorText, NightModeText, ' ', 'w');
  }

  /** No removal literal of the cleaner occurs inside `StackedLaundryText`. */
  lemma StackedLaundryTextSeparated()
    ensures !Occurs(StackedLaundryText, FrontExteriorPattern)
    ensures !Occurs(StackedLaundryText, NoPoolInGarageText)
    ensures !Occurs(StackedLaundryText, NoGarageInBackyardText)
    ensures !Occurs(StackedLaundryText, NoLakeInFrontText)
    ensures !Occurs(StackedLaundryText, ProjectorText)
    ensures !Occurs(StackedLaundryText, TheaterSeatingText)
    ensures !Occurs(StackedLaundryText, RanchStyleText)
    ensures !Occurs(StackedLaundryText, CarPlacementText)
    ensures !Occurs(StackedLaundryText, NoPuttingGreenInRoomText)
    ensures !Occurs(StackedLaundryText, NoFireplaceAboveBedText)
    ensures !Occurs(StackedLaundryText, BackExteriorPoolText)
    ensures !Occurs(StackedLaundryText, BackExteriorLakeAndBoatText)
    ensures !Occurs(StackedLaundryText, NightModeText)
  {
    StackedLaundryTextSeparated1();
    StackedLaundryTextSeparated2();
    StackedLaundryTextSeparated3();
    StackedLaundryTextSeparated4();
    StackedLaundryTextSeparated5();
  }

  lemma StackedLaundryTextSeparated1()
    ensures !Occurs(StackedLaundryText, FrontExteriorPattern)
    ensures !Occurs(StackedLaundryText, NoPoolInGarageText)
    ensures !Occurs(StackedLaundryText, NoGarageInBackyardText)
  {
    StackedLaundryTextFacts();
    StackedLaundryTextLacks();
    FrontExteriorPatternFacts();
    NotOccursLength(StackedLaundryText, FrontExteriorPattern);
    NoPoolInGarageTextHas2();
    NotOccursChar(StackedLaundryText, NoPoolInGarageText, 'g');
    NoGarageInBackyardTextFacts();
    NotOccursLength(StackedLaundryText, NoGarageInBackyardText);
  }

  lemma StackedLaundryTextSeparated2()
    ensures !Occurs(StackedLaundryText, NoLakeInFrontText)
    ensures !Occurs(StackedLaundryText, ProjectorText)
    ensures !Occurs(StackedLaundryText, TheaterSeatingText)
  {
    StackedLaundryTextFacts();
    StackedLaundryTextLacks();
    NoLakeInFrontTextHas2();
    NotOccursChar(StackedLaundryText, NoLakeInFrontText, 'g');
    ProjectorTextFacts();
    NotOccursLength(StackedLaundryText, ProjectorText);
    TheaterSeatingTextFacts();
    NotOccursLength(StackedLaundryText, TheaterSeatingText);
  }

  lemma StackedLaundryTextSeparated3()
    ensures !Occurs(StackedLaundryText, RanchStyleText)
    ensures !Occurs(StackedLaundryText, CarPlacementText)
    ensures !Occurs(StackedLaundryText, NoPuttingGreenInRoomText)
  {
    StackedLaundryTextFacts();
    StackedLaundryTextLacks();
    RanchStyleTextHas2();
    NotOccursChar(StackedLaundryText, RanchStyleText, 'g');
    CarPlacementTextFacts();
    NotOccursLength(StackedLaundryText, CarPlacementText);
    NoPuttingGreenInRoomTextFacts();
    NotOccursLength(StackedLaundryText, NoPuttingGreenInRoomText);
  }

  lemma StackedLaundryTextSeparated4()
    ensures !Occurs(StackedLaundryText, NoFireplaceAboveBedText)
    ensures !Occurs(StackedLaundryText, BackExteriorPoolText)
    ensures !Occurs(StackedLaundryText, BackExteriorLakeAndBoatText)
  {
    StackedLaundryTextFacts();
    StackedLaundryTextLacks();
    NoFireplaceAboveBedTextFacts();
    NotOccursLength(StackedLaundryText, NoFireplaceAboveBedText);
    BackExteriorPoolTextHas();
    NotOccursChar(StackedLaundryText, BackExteriorPoolText, 'g');
    BackExteriorLakeAndBoatTextHas();
    NotOccursChar(StackedLaundryText, BackExteriorLakeAndBoatText, 'g');
  }

  lemma StackedLaundryTextSeparated5()
    ensures !Occurs(StackedLaundryText, NightModeText)
  {
    StackedLaundryTextFacts();
    StackedLaundryTextLacks();
    NightModeTextHas();
    NotOccursChar(StackedLaundryText, NightModeText, 'g');
  }

  /** No removal literal of the cleaner occurs inside `SideBySideLaundryText`. */
  lemma SideBySideLaundryTextSeparated()
    ensures !Occurs(SideBySideLaundryText, FrontExteriorPattern)
    ensures !Occurs(SideBySideLaundryText, NoPoolInGarageText)
    ensures !Occurs(SideBySideLaundryText, NoGarageInBackyardText)
    ensures !Occurs(SideBySideLaundryText, NoLakeInFrontText)
    ensures !Occurs(SideBySideLaundryText, ProjectorText)
    ensures !Occurs(SideBySideLaundryText, TheaterSeatingText)
    ensures !Occurs(SideBySideLaundryText, RanchStyleText)
    ensures !Occurs(SideBySideLaundryText, CarPlacementText)
    ensures !Occurs(SideBySideLaundryText, NoPuttingGreenInRoomText)
    ensures !Occurs(SideBySideLaundryText, NoFireplaceAboveBedText)
    ensures !Occurs(SideBySideLaundryText, BackExteriorPoolText)
    ensures !Occurs(SideBySideLaundryText, BackExteriorLakeAndBoatText)
    ensures !Occurs(SideBySideLaundryText, NightModeText)
  {
    SideBySideLaundryTextSeparated1();
    SideBySideLaundryTextSeparated2();
    SideBySideLaundryTextSeparated3();
    SideBySideLaundryTextSeparated4();
    SideBySideLaundryTextSeparated5();
  }

  lemma SideBySideLaundryTextSeparated1()
    ensures !Occurs(SideBySideLaundryText, FrontExteriorPattern)
    ensures !Occurs(SideBySideLaundryText, NoPoolInGarageText)
    ensures !Occurs(SideBySideLaundryText, NoGarageInBackyardText)
  {
    SideBySideLaundryTextFacts();
    SideBySideLaundryTextLacks();
    FrontExteriorPatternFacts();
    NotOccursLength(SideBySideLaundryText, FrontExteriorPattern);
    NoPoolInGarageTextHas2();
    NotOccursChar(SideBySideLaundryText, NoPoolInGarageText, 'g');
    NoGarageInBackyardTextFacts();
    NotOccursLength(SideBySideLaundryText, NoGarageInBackyardText);
  }

  lemma SideBySideLaundryTextSeparated2()
    ensures !Occurs(SideBySideLaundryText, NoLakeInFrontText)
    ensures !Occurs(SideBySideLaundryText, ProjectorText)
    ensures !Occurs(SideBySideLaundryText, TheaterSeatingText)
  {
    SideBySideLaundryTextFacts();
    SideBySideLaundryTextLacks();
    NoLakeInFrontTextHas2();
    NotOccursChar(SideBySideLaundryText, NoLakeInFrontText, 'g');
    ProjectorTextFacts();
    NotOccursLength(SideBySideLaundryText, ProjectorText);
    TheaterSeatingTextFacts();
    NotOccursLength(SideBySideLaundryText, TheaterSeatingText);
  }

  lemma SideBySideLaundryTextSeparated3()
    ensures !Occurs(SideBySideLaundryText, RanchStyleText)
    ensures !Occurs(SideBySideLaundryText, CarPlacementText)
    ensures !Occurs(SideBySideLaundryText, NoPuttingGreenInRoomText)
  {
    SideBySideLaundryTextFacts();
    SideBySideLaundryTextLacks();
    RanchStyleTextHas2();
    NotOccursChar(SideBySideLaundryText, RanchStyleText, 'g');
    CarPlacementTextFacts();
    NotOccursLength(SideBySideLaundryText, CarPlacementText);
    NoPuttingGreenInRoomTextFacts();
    NotOccursLength(SideBySideLaundryText, NoPuttingGreenInRoomText);
  }

  lemma SideBySideLaundryTextSeparated4()
    ensures !Occurs(SideBySideLaundryText, NoFireplaceAboveBedText)
    ensures !Occurs(SideBySideLaundryText, BackExteriorPoolText)
    ensures !Occurs(SideBySideLaundryText, BackExteriorLakeAndBoatText)
  {
    SideBySideLaundryTextFacts();
    SideBySideLaundryTextLacks();
    NoFireplaceAboveBedTextFacts();
    NotOccursLength(SideBySideLaundryText, NoFireplaceAboveBedText);
    BackExteriorPoolTextHas();
    NotOccursChar(SideBySideLaundryText, BackExteriorPoolText, 'g');
    BackExteriorLakeAndBoatTextHas();
    NotOccursChar(SideBySideLaundryText, BackExteriorLakeAndBoatText, 'g');
  }

  lemma SideBySideLaundryTextSeparated5()
    ensures !Occurs(SideBySideLaundryText, NightModeText)
  {
    SideBySideLaundryTextFacts();
    SideBySideLaundryTextLacks();
    NightModeTextHas();
    NotOccursChar(SideBySideLaundryText, NightModeText, 'g');
  }

}