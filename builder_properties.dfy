/**
 * What the two prompt builders promise, stated about the rule lists that the
 * specification functions of `Builder` choose and about the prompts they
 * compose: which clauses each kind of area gets and how many times, the order
 * of the front block, that every chosen clause is in the prompt, that a front
 * view's lead is sanitized (customizations included), and that a regeneration
 * without customizations repeats the first rendering.
 */
module BuilderProperties {
  import opened Text
  import opened Wrappers
  import opened Types
  import opened Sanitizer
  import opened Customize
  import opened Rules
  import opened Builder

  /** 1 when `b` holds, else 0. */
  function Ind(b: bool): nat {
    if b then 1 else 0
  }

  // ---------------------------------------------------------------------------
  // How often each clause is chosen

  /** How many times `r` is in `rs`. */
  function Count(rs: seq<Rule>, r: Rule): nat {
    if rs == [] then 0 else Ind(rs[0] == r) + Count(rs[1..], r)
  }

  lemma {:induction false} CountAppend(a: seq<Rule>, b: seq<Rule>, r: Rule)
    ensures Count(a + b, r) == Count(a, r) + Count(b, r)
  {
    if a == [] {
      assert a + b == b;
    } else {
      assert (a + b)[1..] == a[1..] + b;
      CountAppend(a[1..], b, r);
    }
  }

  /** A rule appended only under `cond`. */
  lemma CountOptional(cond: bool, x: Rule, r: Rule)
    ensures Count(if cond then [x] else [], r) == Ind(cond && x == r)
  {
    if cond {
      assert [x][1..] == [];
    }
  }

  lemma CountPair(x: Rule, y: Rule, r: Rule)
    ensures Count([x, y], r) == Ind(x == r) + Ind(y == r)
  {
    assert [x, y][1..] == [y];
    CountOptional(true, y, r);
  }

  /** When the exterior block chooses a rule, read rule by rule. */
  predicate ExteriorChooses(area: Area, plan: HousePlan, r: Rule) {
    area.kind == Exterior &&
    match r
    case FrontExterior => IsFront(area)
    case NoLakeInFront => IsFront(area)
    case CarPlacement => IsFront(area)
    case BackExteriorPool => IsBack(area) && Mentions(plan, "pool")
    case BackExteriorLakeAndBoat => IsBack(area) && Mentions(plan, "lake")
    case NoGarageInBackyard => IsBack(area)
    case RanchStyle => Mentions(plan, "ranch style")
    case _ => false
  }

  /** When the first rendering chooses a rule. */
  predicate InitiallyChosen(area: Area, plan: HousePlan, r: Rule) {
    if r == NoPuttingGreenInRoom then area.kind == Room else ExteriorChooses(area, plan, r)
  }

  /** When a regeneration chooses a rule. */
  predicate RegenerationChooses(area: Area, plan: HousePlan, c: Customizations, r: Rule) {
    match r
    case NoPuttingGreenInRoom => area.kind == Room && !WantsPuttingGreen(c)
    case NoFireplaceAboveBed => Names(area, "bedroom")
    case NoPoolInGarage => Names(area, "garage")
    case Projector => Names(area, "theater")
    case TheaterSeating => Names(area, "theater")
    case StackedLaundry => Names(area, "laundry") && Lookup(c, WasherKey) == Some(Str(StackableUnits))
    case SideBySideLaundry => Names(area, "laundry") && Lookup(c, WasherKey) == Some(Str(SideBySideUnits))
    case _ => ExteriorChooses(area, plan, r)
  }

  lemma FrontRuleCount(front: bool, r: Rule)
    ensures Count(if front then [FrontExterior, NoLakeInFront, CarPlacement] else [], r)
         == Ind(front && r in {FrontExterior, NoLakeInFront, CarPlacement})
  {
    if front {
      var rs := [FrontExterior, NoLakeInFront, CarPlacement];
      assert rs == [FrontExterior] + [NoLakeInFront, CarPlacement];
      CountAppend([FrontExterior], [NoLakeInFront, CarPlacement], r);
      CountOptional(true, FrontExterior, r);
      CountPair(NoLakeInFront, CarPlacement, r);
    }
  }

  lemma BackRuleCount(area: Area, plan: HousePlan, r: Rule)
    ensures Count(BackRules(area, plan), r)
         == Ind(IsBack(area) && (|| (r == BackExteriorPool && Mentions(plan, "pool"))
                                 || (r == BackExteriorLakeAndBoat && Mentions(plan, "lake"))
                                 || r == NoGarageInBackyard))
  {
    if IsBack(area) {
      var pool: seq<Rule> := if Mentions(plan, "pool") then [BackExteriorPool] else [];
      var lake: seq<Rule> := if Mentions(plan, "lake") then [BackExteriorLakeAndBoat] else [];
      CountAppend(pool, lake, r);
      CountAppend(pool + lake, [NoGarageInBackyard], r);
      CountOptional(Mentions(plan, "pool"), BackExteriorPool, r);
      CountOptional(Mentions(plan, "lake"), BackExteriorLakeAndBoat, r);
      CountOptional(true, NoGarageInBackyard, r);
    }
  }

  /** The choice of the exterior block, group by group. */
  lemma ExteriorChoosesSplit(area: Area, plan: HousePlan, r: Rule)
    requires area.kind == Exterior
    ensures Ind(ExteriorChooses(area, plan, r))
         == Ind(IsFront(area) && r in {FrontExterior, NoLakeInFront, CarPlacement})
          + Ind(IsBack(area) && (|| (r == BackExteriorPool && Mentions(plan, "pool"))
                                 || (r == BackExteriorLakeAndBoat && Mentions(plan, "lake"))
                                 || r == NoGarageInBackyard))
          + Ind(Mentions(plan, "ranch style") && RanchStyle == r)
  {
    match r {
      case NoPuttingGreenInRoom =>
      case FrontExterior =>
      case NoLakeInFront =>
      case CarPlacement =>
      case BackExteriorPool =>
      case BackExteriorLakeAndBoat =>
      case NoGarageInBackyard =>
      case RanchStyle =>
      case NoFireplaceAboveBed =>
      case NoPoolInGarage =>
      case Projector =>
      case TheaterSeating =>
      case StackedLaundry =>
      case SideBySideLaundry =>
    }
  }

  /** The exterior block holds each rule once when it chooses it, else never. */
  lemma ExteriorRuleCount(area: Area, plan: HousePlan, r: Rule)
    ensures Count(ExteriorRules(area, plan), r) == Ind(ExteriorChooses(area, plan, r))
  {
    if area.kind == Exterior {
      ExteriorChoosesSplit(area, plan, r);
      CountAppend(FrontRules(area), BackRules(area, plan), r);
      CountAppend(FrontRules(area) + BackRules(area, plan), RanchRules(plan), r);
      FrontRuleCount(IsFront(area), r);
      BackRuleCount(area, plan, r);
      CountOptional(Mentions(plan, "ranch style"), RanchStyle, r);
    }
  }

  /** The first rendering holds each rule once when it chooses it, else never:
      a room gets exactly the no-putting-green clause, an exterior its front,
      back and ranch clauses, and no area a clause chosen by name. */
  lemma InitialRuleCount(area: Area, plan: HousePlan, r: Rule)
    ensures Count(InitialRules(area, plan), r) == Ind(InitiallyChosen(area, plan, r))
  {
    CountAppend(RoomRules(area, false), ExteriorRules(area, plan), r);
    CountOptional(area.kind == Room, NoPuttingGreenInRoom, r);
    ExteriorRuleCount(area, plan, r);
  }

  lemma NameRuleCount(area: Area, r: Rule)
    ensures Count(NameRules(area), r)
         == Ind(|| (r == NoFireplaceAboveBed && Names(area, "bedroom"))
                || (r == NoPoolInGarage && Names(area, "garage"))
                || (r in {Projector, TheaterSeating} && Names(area, "theater")))
  {
    var bedroom: seq<Rule> := if Names(area, "bedroom") then [NoFireplaceAboveBed] else [];
    var garage: seq<Rule> := if Names(area, "garage") then [NoPoolInGarage] else [];
    var theater: seq<Rule> := if Names(area, "theater") then [Projector, TheaterSeating] else [];
    CountAppend(bedroom, garage, r);
    CountAppend(bedroom + garage, theater, r);
    CountOptional(Names(area, "bedroom"), NoFireplaceAboveBed, r);
    CountOptional(Names(area, "garage"), NoPoolInGarage, r);
    if Names(area, "theater") {
      CountPair(Projector, TheaterSeating, r);
    }
  }

  lemma LaundryRuleCount(area: Area, c: Customizations, r: Rule)
    ensures Count(LaundryRules(area, c), r)
         == Ind(Names(area, "laundry") && (|| (r == StackedLaundry && Lookup(c, WasherKey) == Some(Str(StackableUnits)))
                                          || (r == SideBySideLaundry && Lookup(c, WasherKey) == Some(Str(SideBySideUnits)))))
  {
    assert StackableUnits != SideBySideUnits;
    CountOptional(true, StackedLaundry, r);
    CountOptional(true, SideBySideLaundry, r);
  }

  /** The choice of a regeneration, group by group: at most one group holds
      any one rule. */
  lemma RegenerationChoosesSplit(area: Area, plan: HousePlan, c: Customizations, r: Rule)
    ensures Ind(RegenerationChooses(area, plan, c, r))
         == Ind(r == NoPuttingGreenInRoom && area.kind == Room && !WantsPuttingGreen(c))
          + Ind(ExteriorChooses(area, plan, r))
          + Ind(|| (r == NoFireplaceAboveBed && Names(area, "bedroom"))
                || (r == NoPoolInGarage && Names(area, "garage"))
                || (r in {Projector, TheaterSeating} && Names(area, "theater")))
          + Ind(Names(area, "laundry") && (|| (r == StackedLaundry && Lookup(c, WasherKey) == Some(Str(StackableUnits)))
                                           || (r == SideBySideLaundry && Lookup(c, WasherKey) == Some(Str(SideBySideUnits)))))
  {
    assert StackableUnits != SideBySideUnits;
    match r {
      case NoPuttingGreenInRoom =>
      case FrontExterior =>
      case NoLakeInFront =>
      case CarPlacement =>
      case BackExteriorPool =>
      case BackExteriorLakeAndBoat =>
      case NoGarageInBackyard =>
      case RanchStyle =>
      case NoFireplaceAboveBed =>
      case NoPoolInGarage =>
      case Projector =>
      case TheaterSeating =>
      case StackedLaundry =>
      case SideBySideLaundry =>
    }
  }

  /** A regeneration holds each rule once when it chooses it, else never: the
      room clause unless a putting green is asked for, the same exterior
      clauses, the bedroom, garage and theater clauses by name in any kind of
      area, and a laundry layout only for the exact option. */
  lemma RegeneratedRuleCount(area: Area, plan: HousePlan, c: Customizations, r: Rule)
    ensures Count(RegeneratedRules(area, plan, c), r) == Ind(RegenerationChooses(area, plan, c, r))
  {
    var room := RoomRules(area, WantsPuttingGreen(c));
    var ext := ExteriorRules(area, plan);
    var names := NameRules(area);
    var laundry := LaundryRules(area, c);
    assert RegeneratedRules(area, plan, c) == room + ext + names + laundry;
    CountAppend(room, ext, r);
    CountAppend(room + ext, names, r);
    CountAppend(room + ext + names, laundry, r);
    CountOptional(area.kind == Room && !WantsPuttingGreen(c), NoPuttingGreenInRoom, r);
    ExteriorRuleCount(area, plan, r);
    NameRuleCount(area, r);
    LaundryRuleCount(area, c, r);
    RegenerationChoosesSplit(area, plan, c, r);
  }

  /** At most one washer-and-dryer layout is described. */
  lemma OneLaundryLayout(area: Area, plan: HousePlan, c: Customizations)
    ensures Count(RegeneratedRules(area, plan, c), StackedLaundry)
          + Count(RegeneratedRules(area, plan, c), SideBySideLaundry) <= 1
  {
    RegeneratedRuleCount(area, plan, c, StackedLaundry);
    RegeneratedRuleCount(area, plan, c, SideBySideLaundry);
    assert StackableUnits != SideBySideUnits;
  }

  // ---------------------------------------------------------------------------
  // Order

  /** A front exterior's clauses start with the front, no-lake and car clauses,
      in that order, in both builders. */
  lemma FrontRulesFirst(area: Area, plan: HousePlan, c: Customizations)
    requires area.kind == Exterior && IsFront(area)
    ensures var rs := InitialRules(area, plan);
      |rs| >= 3 && rs[0] == FrontExterior && rs[1] == NoLakeInFront && rs[2] == CarPlacement
    ensures var rs := RegeneratedRules(area, plan, c);
      |rs| >= 3 && rs[0] == FrontExterior && rs[1] == NoLakeInFront && rs[2] == CarPlacement
  {
  }

  /** The seating clause comes right after the projector clause. */
  lemma TheaterClausesAdjacent(area: Area, plan: HousePlan, c: Customizations)
    requires Names(area, "theater")
    ensures exists i :: (0 <= i < |RegeneratedRules(area, plan, c)| - 1
      && RegeneratedRules(area, plan, c)[i] == Projector
      && RegeneratedRules(area, plan, c)[i + 1] == TheaterSeating)
  {
    var before := RoomRules(area, WantsPuttingGreen(c)) + ExteriorRules(area, plan)
      + (if Names(area, "bedroom") then [NoFireplaceAboveBed] else [])
      + (if Names(area, "garage") then [NoPoolInGarage] else []);
    var rs := RegeneratedRules(area, plan, c);
    assert rs == before + [Projector, TheaterSeating] + LaundryRules(area, c);
    assert rs[|before|] == Projector && rs[|before| + 1] == TheaterSeating;
  }

  /** Testing for "backyard" besides "back" changes nothing: every name that
      contains "backyard" contains "back". */
  lemma BackyardIsBack(area: Area)
    ensures IsBack(area) <==> Names(area, "back")
  {
    var s := LowerStr(area.name);
    if Occurs(s, "backyard") {
      var i := OccursWitness(s, "backyard");
      assert s[i..i + 4] == "backyard"[..4];
      OccursAt(s, "back", i);
    }
  }

  // ---------------------------------------------------------------------------
  // The prompts

  /** Every chosen rule's clause is in the paragraphs. */
  lemma {:induction false} ParagraphsContain(k: Catalog, rs: seq<Rule>, i: nat)
    requires i < |rs|
    ensures Occurs(Paragraphs(k, rs), Clause(RuleText(k, rs[i])))
  {
    var head := Clause(RuleText(k, rs[0]));
    if i == 0 {
      OccursAt(head, head, 0);
      OccursInLeft(head, Paragraphs(k, rs[1..]), head);
    } else {
      ParagraphsContain(k, rs[1..], i - 1);
      OccursInRight(head, Paragraphs(k, rs[1..]), Clause(RuleText(k, rs[i])));
    }
  }

  lemma InitialPromptHasClause(k: Catalog, area: Area, plan: HousePlan, r: Rule)
    requires r in InitialRules(area, plan)
    ensures Occurs(InitialPrompt(k, area, plan), Clause(RuleText(k, r)))
  {
    var rs := InitialRules(area, plan);
    var i :| 0 <= i < |rs| && rs[i] == r;
    ParagraphsContain(k, rs, i);
    OccursInRight(Lead(Intro(area, plan), area), Paragraphs(k, rs), Clause(RuleText(k, r)));
  }

  lemma RegeneratedPromptHasClause(k: Catalog, area: Area, plan: HousePlan, c: Customizations, r: Rule)
    requires r in RegeneratedRules(area, plan, c)
    requires RegeneratedPrompt(k, area, plan, c).Ok?
    ensures Occurs(RegeneratedPrompt(k, area, plan, c).value, Clause(RuleText(k, r)))
  {
    var rs := RegeneratedRules(area, plan, c);
    var i :| 0 <= i < |rs| && rs[i] == r;
    ParagraphsContain(k, rs, i);
    var text := CustomizationsText(c).value;
    OccursInRight(Lead(Intro(area, plan) + Block(text), area), Paragraphs(k, rs), Clause(RuleText(k, r)));
  }

  /** A front exterior's first prompt is the sanitized introduction followed by
      its clauses, and that lead names no pool, putting green, basketball
      court, lake or boat. */
  lemma InitialFrontLead(k: Catalog, area: Area, plan: HousePlan)
    requires area.kind == Exterior && IsFront(area)
    ensures var lead := SanitizeForFrontView(Intro(area, plan));
      && InitialPrompt(k, area, plan) == lead + Paragraphs(k, InitialRules(area, plan))
      && !HasWholeWord(lead, "pool") && !HasText(lead, "putting green")
      && !HasText(lead, "basketball court") && !HasText(lead, "lake") && !HasText(lead, "boat")
  {
    SanitizeClears(Intro(area, plan));
  }

  /** In a regeneration of a front exterior the customization block is
      sanitized together with the introduction: a customization that asks for
      a pool or a lake does not reach the prompt's lead. */
  lemma RegeneratedFrontLead(k: Catalog, area: Area, plan: HousePlan, c: Customizations)
    requires area.kind == Exterior && IsFront(area)
    requires CustomizationsText(c).Ok?
    ensures var lead := SanitizeForFrontView(Intro(area, plan) + Block(CustomizationsText(c).value));
      && RegeneratedPrompt(k, area, plan, c) == Ok(lead + Paragraphs(k, RegeneratedRules(area, plan, c)))
      && !HasWholeWord(lead, "pool") && !HasText(lead, "putting green")
      && !HasText(lead, "basketball court") && !HasText(lead, "lake") && !HasText(lead, "boat")
  {
    SanitizeClears(Intro(area, plan) + Block(CustomizationsText(c).value));
  }

  /** The prompts of any area other than a front exterior begin with the
      introduction (and customization block) exactly as written, followed by
      the rule paragraphs. */
  lemma OtherAreaKeepsIntro(k: Catalog, area: Area, plan: HousePlan, c: Customizations)
    requires !(area.kind == Exterior && IsFront(area))
    ensures InitialPrompt(k, area, plan) == Intro(area, plan) + Paragraphs(k, InitialRules(area, plan))
    ensures StartsWith(InitialPrompt(k, area, plan), Intro(area, plan))
    ensures CustomizationsText(c).Ok? ==>
      var head := Intro(area, plan) + Block(CustomizationsText(c).value);
      && RegeneratedPrompt(k, area, plan, c) == Ok(head + Paragraphs(k, RegeneratedRules(area, plan, c)))
      && StartsWith(RegeneratedPrompt(k, area, plan, c).value, head)
  {
  }

  /** Regenerating without customizations an area whose name selects no
      bedroom, garage, theater or laundry clause gives the first prompt again. */
  lemma RegeneratedWithoutCustomizations(k: Catalog, area: Area, plan: HousePlan)
    requires !Names(area, "bedroom") && !Names(area, "garage")
    requires !Names(area, "theater") && !Names(area, "laundry")
    ensures RegeneratedPrompt(k, area, plan, []) == Ok(InitialPrompt(k, area, plan))
  {
    NoCustomizationsNoText();
    var intro := Intro(area, plan);
    assert intro + Block("") == intro;
    assert !WantsPuttingGreen([]);
    var initial := InitialRules(area, plan);
    assert RegeneratedRules(area, plan, []) == initial + [] + [];
    assert initial + [] + [] == initial;
  }

  /** A regeneration of a bedroom always carries the no-fireplace clause, so
      even without customizations it differs from the first rendering's list. */
  lemma BedroomRegenerationDiffers(area: Area, plan: HousePlan)
    requires Names(area, "bedroom")
    ensures RegeneratedRules(area, plan, []) != InitialRules(area, plan)
  {
    InitialRuleCount(area, plan, NoFireplaceAboveBed);
    RegeneratedRuleCount(area, plan, [], NoFireplaceAboveBed);
  }
}
