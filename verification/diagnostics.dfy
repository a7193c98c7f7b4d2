/** The errors the processors report through the compiler's logger. Each
    constructor stands for one `logger.error` call site; its fields carry what
    the message interpolates. */
module Diagnostics {

  datatype Diagnostic =
    | UnrecognisedMode(option: string)
    | UnsupportedPlatforms(mode: string)
    | MissingComponentPackage
    | NotClassOrFunction(symbol: string)
    | NotVisible(declaration: string)
    | ModifierRequired(fn: string)
    | NotUiOrPresenter(declaration: string)
    | ScreenTypeMismatch(expected: string, found: string)
    | NavigatorNotInjectable(parameter: string)
    | DuplicateAssisted(factoryName: string, typeName: string, name: string)
}
