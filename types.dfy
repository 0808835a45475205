/**
 * The payload shapes of packages/model/types.ts, and the parsed JSON value that the gateway,
 * the cache and the session record carry around.
 */
module Types {

  datatype ClarificationResponse = ClarificationResponse(
    questions: seq<string>,
    isSufficient: bool,
    summary: string,
    confidence: real)

  datatype Mechanic = Mechanic(name: string, description: string)

  datatype Control = Control(input: string, action: string)

  /** `framework` is declared as "vanilla" | "phaser", but the value comes from parsed model output
      and is never checked, so any string can arrive here. */
  datatype PlanResponse = PlanResponse(
    title: string,
    description: string,
    framework: string,
    mechanics: seq<Mechanic>,
    controls: seq<Control>,
    systems: seq<string>,
    assetDescriptions: seq<string>,
    gameLoopDescription: string)

  /** `fileType` is the `type` field. */
  datatype CodeFile = CodeFile(filename: string, content: string, fileType: string)

  datatype BuildResponse = BuildResponse(files: seq<CodeFile>, entryPoint: string)

  /**
   * A parsed JSON value as the code sees it. The generic `generate<T>` and the casts
   * `as unknown as T` are unchecked, so one value type serves every stage: `Null` stands for
   * every falsy result (null, false, 0, ""), and `OtherObject` for a truthy value of none of
   * the three shapes, carrying none of the fields the stages read (each reads as `undefined`).
   */
  datatype Json =
    | Null
    | ClarificationJson(clarification: ClarificationResponse)
    | PlanJson(plan: PlanResponse)
    | BuildJson(build: BuildResponse)
    | OtherObject

  /** JavaScript truthiness, as checked by `if (response)` and `if (cached)`. */
  predicate Truthy(j: Json) {
    !j.Null?
  }
}
