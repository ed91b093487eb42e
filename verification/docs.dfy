/** The documentation records the handlers read: one package page with its
    functions (plain functions and methods) and its types, in page order. */
module Docs {

  /** `docs.FnNormal` and `docs.FnMethod`. */
  datatype FnKind = FnNormal | FnMethod

  datatype Function = Function(
    name: string,
    kind: FnKind,
    methodOf: string,        // the receiver type; meaningful for methods only
    signature: string,
    comments: seq<string>,
    example: string)

  datatype Type = Type(name: string, signature: string, comments: seq<string>)

  datatype Doc = Doc(url: string, functions: seq<Function>, types: seq<Type>)
}
