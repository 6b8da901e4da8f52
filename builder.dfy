/**
 * The two prompt builders: the automatic first rendering of an area
 * (App.tsx:177-209) and the manual regeneration with customizations
 * (App.tsx:287-366).  Both start from the same introduction and grow it by
 * appending rule clauses; a front exterior is passed through the sanitizer
 * before its clauses are added.
 *
 * The specification functions describe a prompt as a lead (the introduction,
 * the customization block, sanitized for a front exterior) followed by one
 * paragraph per rule of a list of rules; the properties are stated about that
 * list, which says which clauses were appended, in which order and how often.
 * The texts of the rules come from a catalog; `Texts` is the application's
 * catalog (App.tsx:21-52 and the two laundry texts of App.tsx:362-364).  The
 * builders are stated over any catalog, so that their proofs are about the
 * order and choice of clauses and not about the clauses' wording; the
 * application uses `Texts`.
 */
module Builder {
  import opened Text
  import opened Wrappers
  import opened Types
  import opened Rules
  import opened Sanitizer
  import opened Customize

  // ---------------------------------------------------------------------------
  // The introduction and the conditions the builders test

  const IntroOpen: string := "Generate a photorealistic 3D " + "architectural rendering of the "
  const IntroPlan: string := ".\nThis area is part of a house " + "with the overall description: \""
  const IntroArea: string := "\".\nThe area itself is described " + "as: \""
  const IntroClose: string := "\"."

  /** The three-line introduction both builders start from. */
  function Intro(area: Area, plan: HousePlan): (s: string)
    ensures StartsWith(s, IntroOpen + LowerStr(area.name))
  {
    IntroOpen + LowerStr(area.name) + IntroPlan + plan.description + IntroArea + area.description + IntroClose
  }

  /** The lower-cased area name contains `word`. */
  predicate Names(area: Area, word: string) {
    Occurs(LowerStr(area.name), word)
  }

  predicate IsFront(area: Area) {
    Names(area, "front")
  }

  predicate IsBack(area: Area) {
    Names(area, "back") || Names(area, "backyard")
  }

  /** The lower-cased house description contains `word`. */
  predicate Mentions(plan: HousePlan, word: string) {
    Occurs(LowerStr(plan.description), word)
  }

  const PuttingGreenKey: string := "putting_green"
  const WasherKey: string := "washer_and_dryer"
  const AddPuttingGreen: string := "Add a Putting Green"
  const StackableUnits: string := "Stackable white units"
  const SideBySideUnits: string := "Side-by-side chrome units"

  /** The user explicitly asked for a putting green (a strict comparison: a
      list value never matches). */
  predicate WantsPuttingGreen(c: Customizations) {
    Lookup(c, PuttingGreenKey) == Some(Str(AddPuttingGreen))
  }

  // ---------------------------------------------------------------------------
  // Rules and their texts

  datatype Rule =
    | NoPuttingGreenInRoom | FrontExterior | NoLakeInFront | CarPlacement
    | BackExteriorPool | BackExteriorLakeAndBoat | NoGarageInBackyard | RanchStyle
    | NoFireplaceAboveBed | NoPoolInGarage | Projector | TheaterSeating
    | StackedLaundry | SideBySideLaundry

  /** A text for every rule. */
  datatype Catalog = Catalog(
    noPuttingGreenInRoom: string, frontExterior: string, noLakeInFront: string,
    carPlacement: string, backExteriorPool: string, backExteriorLakeAndBoat: string,
    noGarageInBackyard: string, ranchStyle: string, noFireplaceAboveBed: string,
    noPoolInGarage: string, projector: string, theaterSeating: string,
    stackedLaundry: string, sideBySideLaundry: string)

  /** The application's clause texts. */
  const Texts: Catalog := Catalog(
    NoPuttingGreenInRoomText, FrontExteriorText, NoLakeInFrontText,
    CarPlacementText, BackExteriorPoolText, BackExteriorLakeAndBoatText,
    NoGarageInBackyardText, RanchStyleText, NoFireplaceAboveBedText,
    NoPoolInGarageText, ProjectorText, TheaterSeatingText,
    StackedLaundryText, SideBySideLaundryText)

  function RuleText(k: Catalog, r: Rule): string {
    match r
    case NoPuttingGreenInRoom => k.noPuttingGreenInRoom
    case FrontExterior => k.frontExterior
    case NoLakeInFront => k.noLakeInFront
    case CarPlacement => k.carPlacement
    case BackExteriorPool => k.backExteriorPool
    case BackExteriorLakeAndBoat => k.backExteriorLakeAndBoat
    case NoGarageInBackyard => k.noGarageInBackyard
    case RanchStyle => k.ranchStyle
    case NoFireplaceAboveBed => k.noFireplaceAboveBed
    case NoPoolInGarage => k.noPoolInGarage
    case Projector => k.projector
    case TheaterSeating => k.theaterSeating
    case StackedLaundry => k.stackedLaundry
    case SideBySideLaundry => k.sideBySideLaundry
  }

  /** One paragraph per rule, in order. */
  function Paragraphs(k: Catalog, rs: seq<Rule>): string {
    if rs == [] then "" else Clause(RuleText(k, rs[0])) + Paragraphs(k, rs[1..])
  }

  // ---------------------------------------------------------------------------
  // The rule lists

  function RoomRules(area: Area, wantsPuttingGreen: bool): seq<Rule> {
    if area.kind == Room && !wantsPuttingGreen then [NoPuttingGreenInRoom] else []
  }

  function FrontRules(area: Area): seq<Rule> {
    if IsFront(area) then [FrontExterior, NoLakeInFront, CarPlacement] else []
  }

  function BackRules(area: Area, plan: HousePlan): seq<Rule> {
    if IsBack(area) then
      (if Mentions(plan, "pool") then [BackExteriorPool] else [])
      + (if Mentions(plan, "lake") then [BackExteriorLakeAndBoat] else [])
      + [NoGarageInBackyard]
    else []
  }

  function RanchRules(plan: HousePlan): seq<Rule> {
    if Mentions(plan, "ranch style") then [RanchStyle] else []
  }

  /** The clauses that only an exterior gets. */
  function ExteriorRules(area: Area, plan: HousePlan): seq<Rule> {
    if area.kind == Exterior then FrontRules(area) + BackRules(area, plan) + RanchRules(plan) else []
  }

  /** The clauses chosen by the area name alone, whatever the area type. */
  function NameRules(area: Area): seq<Rule> {
    (if Names(area, "bedroom") then [NoFireplaceAboveBed] else [])
    + (if Names(area, "garage") then [NoPoolInGarage] else [])
    + (if Names(area, "theater") then [Projector, TheaterSeating] else [])
  }

  /** The washer-and-dryer layout of a laundry, chosen by the exact value. */
  function LaundryRules(area: Area, c: Customizations): seq<Rule> {
    if Names(area, "laundry") then
      if Lookup(c, WasherKey) == Some(Str(StackableUnits)) then [StackedLaundry]
      else if Lookup(c, WasherKey) == Some(Str(SideBySideUnits)) then [SideBySideLaundry]
      else []
    else []
  }

  function InitialRules(area: Area, plan: HousePlan): seq<Rule> {
    RoomRules(area, false) + ExteriorRules(area, plan)
  }

  function RegeneratedRules(area: Area, plan: HousePlan, c: Customizations): seq<Rule> {
    RoomRules(area, WantsPuttingGreen(c)) + ExteriorRules(area, plan) + NameRules(area) + LaundryRules(area, c)
  }

  /** The text before the first clause: sanitized for a front exterior. */
  function Lead(head: string, area: Area): string {
    if area.kind == Exterior && IsFront(area) then SanitizeForFrontView(head) else head
  }

  /** The prompt of the first rendering of an area. */
  function InitialPrompt(k: Catalog, area: Area, plan: HousePlan): string {
    Lead(Intro(area, plan), area) + Paragraphs(k, InitialRules(area, plan))
  }

  /** The prompt of a regeneration; it fails where the described change is a list. */
  function RegeneratedPrompt(k: Catalog, area: Area, plan: HousePlan, c: Customizations): Result<string, Failure> {
    match CustomizationsText(c)
    case Err(e) => Err(e)
    case Ok(text) => Ok(Lead(Intro(area, plan) + Block(text), area) + Paragraphs(k, RegeneratedRules(area, plan, c)))
  }

  // ---------------------------------------------------------------------------
  // Paragraph arithmetic

  lemma {:induction false} ParagraphsAppend(k: Catalog, a: seq<Rule>, b: seq<Rule>)
    ensures Paragraphs(k, a + b) == Paragraphs(k, a) + Paragraphs(k, b)
  {
    if a == [] {
      assert a + b == b;
    } else {
      assert (a + b)[1..] == a[1..] + b;
      ParagraphsAppend(k, a[1..], b);
      Assoc(Clause(RuleText(k, a[0])), Paragraphs(k, a[1..]), Paragraphs(k, b));
    }
  }

  lemma ParagraphsOne(k: Catalog, r: Rule)
    ensures Paragraphs(k, [r]) == Clause(RuleText(k, r))
  {
    assert [r][1..] == [];
    assert Clause(RuleText(k, r)) + "" == Clause(RuleText(k, r));
  }

  lemma ParagraphsNone(k: Catalog, s: string)
    ensures s + Paragraphs(k, []) == s
  {
    assert s + "" == s;
  }

  /** A clause appended only when `cond` holds. */
  lemma Optional(k: Catalog, s: string, cond: bool, r: Rule)
    ensures (if cond then s + Clause(RuleText(k, r)) else s) == s + Paragraphs(k, if cond then [r] else [])
  {
    ParagraphsNone(k, s);
    ParagraphsOne(k, r);
  }

  /** Two clauses appended one after the other. */
  lemma Pair(k: Catalog, s: string, a: Rule, b: Rule)
    ensures (s + Clause(RuleText(k, a))) + Clause(RuleText(k, b)) == s + Paragraphs(k, [a, b])
  {
    ParagraphsOne(k, a);
    ParagraphsOne(k, b);
    ParagraphsAppend(k, [a], [b]);
    assert [a] + [b] == [a, b];
    Assoc(s, Clause(RuleText(k, a)), Clause(RuleText(k, b)));
  }

  /** Three clauses appended one after the other. */
  lemma Triple(k: Catalog, s: string, a: Rule, b: Rule, c: Rule)
    ensures ((s + Clause(RuleText(k, a))) + Clause(RuleText(k, b))) + Clause(RuleText(k, c)) == s + Paragraphs(k, [a, b, c])
  {
    Pair(k, s, a, b);
    ParagraphsOne(k, c);
    ParagraphsAppend(k, [a, b], [c]);
    assert [a, b] + [c] == [a, b, c];
    Assoc(s, Paragraphs(k, [a, b]), Clause(RuleText(k, c)));
  }

  lemma Two(k: Catalog, s: string, a: seq<Rule>, b: seq<Rule>)
    ensures (s + Paragraphs(k, a)) + Paragraphs(k, b) == s + Paragraphs(k, a + b)
  {
    ParagraphsAppend(k, a, b);
    Assoc(s, Paragraphs(k, a), Paragraphs(k, b));
  }

  lemma Three(k: Catalog, s: string, a: seq<Rule>, b: seq<Rule>, c: seq<Rule>)
    ensures ((s + Paragraphs(k, a)) + Paragraphs(k, b)) + Paragraphs(k, c) == s + Paragraphs(k, a + b + c)
  {
    Two(k, s, a, b);
    Two(k, s, a + b, c);
  }

  // ---------------------------------------------------------------------------
  // The builders, step by step.  Each block of `+=` statements of the source is
  // one method over a catalog; both builders share the exterior block.

  /** A room gets the no-putting-green clause unless a putting green is wanted. */
  method AppendRoomRule(k: Catalog, prompt: string, area: Area, wantsPuttingGreen: bool) returns (r: string)
    ensures r == prompt + Paragraphs(k, RoomRules(area, wantsPuttingGreen))
  {
    r := prompt;
    if area.kind == Room {
      if !wantsPuttingGreen {
        r := r + Clause(k.noPuttingGreenInRoom);
      }
    }
    Optional(k, prompt, area.kind == Room && !wantsPuttingGreen, NoPuttingGreenInRoom);
  }

  /** A front exterior: sanitize what was composed so far, then the front,
      no-lake and car clauses. */
  method AppendFrontRules(k: Catalog, prompt: string, area: Area) returns (r: string)
    requires area.kind == Exterior
    ensures r == Lead(prompt, area) + Paragraphs(k, FrontRules(area))
  {
    r := prompt;
    if Occurs(LowerStr(area.name), "front") {
      r := SanitizeForFrontView(r);
      ghost var lead := r;
      r := r + Clause(k.frontExterior);
      r := r + Clause(k.noLakeInFront);
      r := r + Clause(k.carPlacement);
      Triple(k, lead, FrontExterior, NoLakeInFront, CarPlacement);
    } else {
      ParagraphsNone(k, r);
    }
  }

  /** A back exterior: the pool and lake clauses as the house description
      asks, then the no-garage clause. */
  method AppendBackRules(k: Catalog, prompt: string, area: Area, plan: HousePlan) returns (r: string)
    ensures r == prompt + Paragraphs(k, BackRules(area, plan))
  {
    r := prompt;
    var areaNameLower := LowerStr(area.name);
    if Occurs(areaNameLower, "back") || Occurs(areaNameLower, "backyard") {
      var description := LowerStr(plan.description);
      var pool := Occurs(description, "pool");
      var lake := Occurs(description, "lake");
      if pool {
        r := r + Clause(k.backExteriorPool);
      }
      Optional(k, prompt, pool, BackExteriorPool);
      ghost var afterPool := r;
      if lake {
        r := r + Clause(k.backExteriorLakeAndBoat);
      }
      Optional(k, afterPool, lake, BackExteriorLakeAndBoat);
      ghost var afterLake := r;
      r := r + Clause(k.noGarageInBackyard);
      Optional(k, afterLake, true, NoGarageInBackyard);
      Three(k, prompt, if pool then [BackExteriorPool] else [],
            if lake then [BackExteriorLakeAndBoat] else [], [NoGarageInBackyard]);
    } else {
      ParagraphsNone(k, r);
    }
  }

  /** The ranch-style clause, for a house described as ranch style. */
  method AppendRanchRule(k: Catalog, prompt: string, plan: HousePlan) returns (r: string)
    ensures r == prompt + Paragraphs(k, RanchRules(plan))
  {
    r := prompt;
    var ranch := Occurs(LowerStr(plan.description), "ranch style");
    if ranch {
      r := r + Clause(k.ranchStyle);
    }
    Optional(k, prompt, ranch, RanchStyle);
  }

  /** The exterior block of both builders. */
  method AppendExteriorRules(k: Catalog, prompt: string, area: Area, plan: HousePlan) returns (r: string)
    ensures r == Lead(prompt, area) + Paragraphs(k, ExteriorRules(area, plan))
  {
    if area.kind == Exterior {
      r := AppendFrontRules(k, prompt, area);
      r := AppendBackRules(k, r, area, plan);
      r := AppendRanchRule(k, r, plan);
      Three(k, Lead(prompt, area), FrontRules(area), BackRules(area, plan), RanchRules(plan));
    } else {
      r := prompt;
      ParagraphsNone(k, r);
    }
  }

  /** The clauses of a regeneration chosen by the area name. */
  method AppendNameRules(k: Catalog, prompt: string, area: Area) returns (r: string)
    ensures r == prompt + Paragraphs(k, NameRules(area))
  {
    var areaNameLower := LowerStr(area.name);
    ghost var bedroomRules: seq<Rule> := if Names(area, "bedroom") then [NoFireplaceAboveBed] else [];
    ghost var garageRules: seq<Rule> := if Names(area, "garage") then [NoPoolInGarage] else [];
    ghost var theaterRules: seq<Rule> := if Names(area, "theater") then [Projector, TheaterSeating] else [];
    r := prompt;
    if Occurs(areaNameLower, "bedroom") {
      r := r + Clause(k.noFireplaceAboveBed);
      ParagraphsOne(k, NoFireplaceAboveBed);
    } else {
      ParagraphsNone(k, r);
    }
    assert r == prompt + Paragraphs(k, bedroomRules);
    ghost var afterBedroom := r;
    if Occurs(areaNameLower, "garage") {
      r := r + Clause(k.noPoolInGarage);
      ParagraphsOne(k, NoPoolInGarage);
    } else {
      ParagraphsNone(k, r);
    }
    assert r == afterBedroom + Paragraphs(k, garageRules);
    ghost var afterGarage := r;
    if Occurs(areaNameLower, "theater") {
      r := r + Clause(k.projector);
      r := r + Clause(k.theaterSeating);
      Pair(k, afterGarage, Projector, TheaterSeating);
    } else {
      ParagraphsNone(k, r);
    }
    assert r == afterGarage + Paragraphs(k, theaterRules);
    Three(k, prompt, bedroomRules, garageRules, theaterRules);
  }

  /** The washer-and-dryer layout of a laundry, from the exact option chosen. */
  method AppendLaundryRule(k: Catalog, prompt: string, area: Area, c: Customizations) returns (r: string)
    ensures r == prompt + Paragraphs(k, LaundryRules(area, c))
  {
    r := prompt;
    if Occurs(LowerStr(area.name), "laundry") {
      var choice := Lookup(c, WasherKey);
      if choice == Some(Str(StackableUnits)) {
        r := r + Clause(k.stackedLaundry);
        ParagraphsOne(k, StackedLaundry);
      } else if choice == Some(Str(SideBySideUnits)) {
        r := r + Clause(k.sideBySideLaundry);
        ParagraphsOne(k, SideBySideLaundry);
      } else {
        ParagraphsNone(k, r);
      }
    } else {
      ParagraphsNone(k, r);
    }
  }

  /** The customization text, computed as `handleGenerateImage` does: the
      rendered entries, then the described change; a described change that is
      a list fails. The entries come from an object, so their keys are distinct. */
  method ComposeCustomizationsText(c: Customizations) returns (result: Result<string, Failure>)
    requires KeysUnique(c)
    ensures result == CustomizationsText(c)
  {
    var text := KeyValueText(c);
    var describedChange := DescribedChange(c);
    if describedChange.Err? {
      return Err(describedChange.error);
    }
    if describedChange.value != "" {
      text := text + (". Additional modifications: " + describedChange.value + ".");
    } else {
      assert text + "" == text;
    }
    return Ok(text);
  }

  /** The prompt of `generateInitialImageForArea`. */
  method BuildInitialPrompt(k: Catalog, area: Area, plan: HousePlan) returns (prompt: string)
    ensures prompt == InitialPrompt(k, area, plan)
  {
    prompt := Intro(area, plan);
    ghost var intro := prompt;
    prompt := AppendRoomRule(k, prompt, area, false);
    prompt := AppendExteriorRules(k, prompt, area, plan);
    InitialShape(k, intro, area, plan);
  }

  /** The prompt of `handleGenerateImage`: the introduction with its
      customization block, then the room, exterior, name and laundry clauses. */
  method BuildRegeneratedPrompt(k: Catalog, area: Area, plan: HousePlan, c: Customizations)
    returns (result: Result<string, Failure>)
    requires KeysUnique(c)
    ensures result == RegeneratedPrompt(k, area, plan, c)
  {
    var text := ComposeCustomizationsText(c);
    if text.Err? {
      return Err(text.error);
    }
    var prompt := Intro(area, plan);
    if text.value != "" {
      prompt := prompt + Block(text.value);
    } else {
      assert prompt + Block(text.value) == prompt;
    }
    ghost var head := prompt;
    var wantsPuttingGreen := Lookup(c, PuttingGreenKey) == Some(Str(AddPuttingGreen));
    prompt := AppendRoomRule(k, prompt, area, wantsPuttingGreen);
    prompt := AppendExteriorRules(k, prompt, area, plan);
    prompt := AppendNameRules(k, prompt, area);
    prompt := AppendLaundryRule(k, prompt, area, c);
    RegeneratedShape(k, head, area, plan, c);
    return Ok(prompt);
  }

  /** The room block followed by the exterior block is the lead followed by
      both rule lists: a room is never sanitized, and an exterior has no room
      clause. */
  lemma LeadShape(k: Catalog, head: string, area: Area, room: seq<Rule>, ext: seq<Rule>)
    requires area.kind == Exterior ==> room == []
    requires area.kind != Exterior ==> ext == []
    ensures Lead(head + Paragraphs(k, room), area) + Paragraphs(k, ext)
         == Lead(head, area) + Paragraphs(k, room + ext)
  {
    if area.kind == Exterior {
      ParagraphsNone(k, head);
      assert room + ext == ext;
    } else {
      ParagraphsNone(k, head + Paragraphs(k, room));
      assert room + ext == room;
    }
  }

  lemma InitialShape(k: Catalog, head: string, area: Area, plan: HousePlan)
    ensures Lead(head + Paragraphs(k, RoomRules(area, false)), area) + Paragraphs(k, ExteriorRules(area, plan))
         == Lead(head, area) + Paragraphs(k, InitialRules(area, plan))
  {
    LeadShape(k, head, area, RoomRules(area, false), ExteriorRules(area, plan));
  }

  lemma RegeneratedShape(k: Catalog, head: string, area: Area, plan: HousePlan, c: Customizations)
    ensures
      var room := RoomRules(area, WantsPuttingGreen(c));
      (Lead(head + Paragraphs(k, room), area) + Paragraphs(k, ExteriorRules(area, plan)))
        + Paragraphs(k, NameRules(area)) + Paragraphs(k, LaundryRules(area, c))
      == Lead(head, area) + Paragraphs(k, RegeneratedRules(area, plan, c))
  {
    var room := RoomRules(area, WantsPuttingGreen(c));
    var ext := ExteriorRules(area, plan);
    LeadShape(k, head, area, room, ext);
    Three(k, Lead(head, area), room + ext, NameRules(area), LaundryRules(area, c));
  }
}
