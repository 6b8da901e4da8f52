/**
 * The shapes the prompt engine works on (types.ts:1-21): an area of a house
 * plan, the plan itself, the user's customizations of one rendering, and a
 * generated image.
 */
module Types {

  datatype AreaType = Room | Exterior

  datatype Area = Area(name: string, kind: AreaType, description: string)

  datatype HousePlan = HousePlan(projectName: string, description: string, areas: seq<Area>)

  /** A customization value: a text, or a list of chosen options. */
  datatype Value = Str(text: string) | List(items: seq<string>)

  /** The customizations object, as the sequence of its entries in
      enumeration order. Its keys are distinct (`Customize.KeysUnique`), and
      every state transition keeps them so. */
  type Customizations = seq<(string, Value)>

  datatype GeneratedImage = GeneratedImage(id: string, url: string, prompt: string)
}
