/**
 * What the Zod object schemas of the controllers decide. `schema.parse`
 * checks every key in declaration order and collects one issue per failing
 * key; a controller answers 400 with the message of the first issue.
 */
module Schema {
  import opened Wrappers

  /** Zod's message for a key that must be present but is missing. */
  const Required := "Required"

  datatype Parsed<+T> = Valid(value: T) | Invalid(message: string)

  /** `z.string().min(n)`: at least `n` characters. */
  predicate AtLeast(s: string, n: nat) { |s| >= n }

  /** The issues of a required string key whose one check is `ok`. */
  function RequiredString(v: Option<string>, ok: string -> bool, message: string): (issues: seq<string>)
    ensures |issues| <= 1
    ensures issues == [] <==> v.Some? && ok(v.value)
    ensures v.None? ==> issues == [Required]
    ensures v.Some? && !ok(v.value) ==> issues == [message]
  {
    match v
    case None => [Required]
    case Some(s) => if ok(s) then [] else [message]
  }

  /** The message of a failing required key: Zod's "Required" when absent, the check's own message otherwise. */
  function KeyIssue<T>(v: Option<T>, message: string): string
  {
    if v.None? then Required else message
  }

  /** The issues of an optional key (`.optional()`): an absent key is never an issue. */
  function OptionalString(v: Option<string>, ok: string -> bool, message: string): (issues: seq<string>)
    ensures |issues| <= 1
    ensures issues == [] <==> v.None? || ok(v.value)
    ensures issues != [] ==> issues == [message]
  {
    match v
    case None => []
    case Some(s) => if ok(s) then [] else [message]
  }

  /** `z.number().positive().optional()`. */
  function OptionalPositive(v: Option<real>): (issues: seq<string>)
    ensures |issues| <= 1
    ensures issues == [] <==> v.None? || v.value > 0.0
    ensures issues != [] ==> issues == ["Number must be greater than 0"]
  {
    match v
    case None => []
    case Some(x) => if x > 0.0 then [] else ["Number must be greater than 0"]
  }

  /** Zod's message for a value outside a `z.enum([...])`. */
  function EnumMessage(options: seq<string>, received: string): string
  {
    "Invalid enum value. Expected " + QuotedAlternatives(options) + ", received '" + received + "'"
  }

  function QuotedAlternatives(options: seq<string>): string
    decreases |options|
  {
    if |options| == 0 then ""
    else if |options| == 1 then "'" + options[0] + "'"
    else "'" + options[0] + "' | " + QuotedAlternatives(options[1..])
  }

  /** The issues of a `z.enum(options)` key, required or optional. */
  function EnumIssue(v: Option<string>, options: seq<string>, optional: bool): (issues: seq<string>)
    ensures |issues| <= 1
    ensures issues == [] <==> (v.None? && optional) || (v.Some? && v.value in options)
    ensures v.None? && !optional ==> issues == [Required]
    ensures v.Some? && v.value !in options ==> issues == [EnumMessage(options, v.value)]
  {
    match v
    case None => if optional then [] else [Required]
    case Some(s) => if s in options then [] else [EnumMessage(options, s)]
  }
}
