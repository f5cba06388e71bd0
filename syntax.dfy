/**
  Abstract syntax that the `jo` attribute macro reads and writes.

  The macro never looks inside most of what it handles: it hands token
  streams to a Rust parser library and prints the result back with a
  quasi-quoting library. This module gives the values those libraries
  produce a shape that is just detailed enough to state what the macro
  keeps, what it adds and what it rejects.
 */
module Syntax {

  /** The outcome of a parse or of a macro expansion. */
  datatype Result<+T, +E> = Ok(value: T) | Err(error: E)

  /** Delimiters of a token group: `( )`, `[ ]`, `{ }`. */
  datatype Delimiter = Parenthesis | Bracket | Brace

  /**
    One token tree of a compiler token stream. Keywords such as `let`
    are identifiers at this level, as they are in the compiler's own
    token trees; `Literal` holds a string literal by its contents,
    without the quotes.
   */
  datatype Token =
    | Ident(name: string)
    | Punct(ch: char)
    | Literal(text: string)
    | Group(delimiter: Delimiter, stream: seq<Token>)

  /** An outer attribute `#[path tokens]` on an item. */
  datatype Attribute = Attribute(path: string, tokens: seq<Token>)

  /**
    `pub`; the bare `crate` visibility; `pub(crate)`, `pub(self)`,
    `pub(super)` or `pub(in path)`, held as their path; or nothing.
   */
  datatype Visibility = Public | Crate | Restricted(path: string) | Inherited

  /**
    A function signature: qualifiers, name, generics, parameters and
    return type. Everything except the name is kept as the tokens it
    was written with, since the macro only carries it through.
   */
  datatype Signature = Signature(
    qualifiers: seq<Token>,
    ident: string,
    generics: seq<Token>,
    inputs: seq<Token>,
    output: seq<Token>)

  /**
    A statement of a function body. `LockGuard` is the one statement
    form the macro synthesises,
      `let <binding> = <mutex>.lock().expect(<message>);`
    every statement the user wrote is `Opaque`, kept as its tokens.
   */
  datatype Stmt =
    | LockGuard(binding: string, mutex: string, message: string)
    | Opaque(tokens: seq<Token>)

  /** A braced block: the ordered statements of a body. */
  datatype Block = Block(stmts: seq<Stmt>)

  /** A function item with its body. */
  datatype ItemFn = ItemFn(attrs: seq<Attribute>, vis: Visibility, sig: Signature, block: Block)

  /**
    The item kinds other than a function with a body. `OtherItem` stands
    for the rest: traits, type aliases, unions, `extern crate`, `extern`
    blocks and macro invocations.
   */
  datatype ItemKind =
    | StructItem | EnumItem | ConstItem | StaticItem | ModItem | ImplItem | UseItem | BodilessFn
    | OtherItem

  /** The item an attribute is attached to. */
  datatype Item =
    | Fn(f: ItemFn)
    | NonFn(kind: ItemKind, tokens: seq<Token>)
}
