/**
 * The macros a key can be bound to (src/macros/mod.rs and its two
 * implementations), as a closed choice: a shell command or a shortcut.
 */
module Macros {

  import Shortcut

  datatype Macro =
    | ShellMacro(command: string, uid: nat, args: seq<string>)
    | ShortCutMacro(shortcut: Shortcut.ShortCut)
}
