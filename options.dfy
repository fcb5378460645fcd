/** The answers the interactive front end collects before scaffolding. */
module ProjectOptions {

  /** The option record handed to the generator: five yes/no answers. */
  datatype Options = Options(flow: bool, eslint: bool, mocha: bool, publish: bool, executable: bool)

  datatype Flag = Flow | Eslint | Mocha | Publish | Executable

  function IsOn(o: Options, f: Flag): bool {
    match f
    case Flow => o.flow
    case Eslint => o.eslint
    case Mocha => o.mocha
    case Publish => o.publish
    case Executable => o.executable
  }

  /** When a generation rule fires: always, on one answer, or on two answers together. */
  datatype Cond = Always | When(f: Flag) | WhenBoth(f: Flag, g: Flag)

  predicate Holds(o: Options, c: Cond) {
    match c
    case Always => true
    case When(f) => IsOn(o, f)
    case WhenBoth(f, g) => IsOn(o, f) && IsOn(o, g)
  }
}
