# jo: a model of the mutual-exclusion attribute macro

`jo` is a Rust attribute macro. Writing `#[jo(LOCK)]` on a function makes
the function's body begin with

    let guard = LOCK.lock().expect("Could not lock mutex");

so every call holds the mutex `LOCK` until the function returns. Functions
that name the same mutex therefore never run at the same time. This is
handy for tests that share global state.

The expansion has four steps. It reads one identifier from the attribute.
It parses the annotated item as a function. It builds the locking
statement and inserts it at index 0 of the body's statement vector. Then
it emits the function.

The model has four modules:

- `Syntax` (syntax.dfy) holds the values the parsing and quoting libraries
  produce. These are token trees, attributes, visibility, signatures,
  statements, blocks and items. A user's statement is kept as its tokens
  (`Opaque`). The macro's own statement is `LockGuard(binding, mutex, message)`.
- `StmtVectors` (stmt_vec.dfy) holds `StmtVec`, the body's growable
  statement vector. It is a class over an array with a length. `Insert`
  shifts the tail right in place, reallocating the array first when it is
  full.
- `JoMacro` (jo.dfy) holds the attribute parser (`ParseJo`), the whole
  attribute parse with its full-consumption check (`ParseAttr`), the item
  parse (`ParseItemFn`), the quoted tokens of the locking statement
  (`GuardTokens`) and the statement parser they go through (`ParseStmt`).
  `Expansion` is the specification function. `Expand` is the macro itself,
  written as a method that mutates a `StmtVec` and is proved equal to
  `Expansion`.
- `JoProperties` (jo_properties.dfy) holds the guarantees, stated for all
  inputs, plus a few concrete scenarios.

The three ways the expansion can fail are distinct `MacroError` variants:

- `MalformedAttribute(cause)`: the attribute is not one identifier. An
  identifier token that is `_` or a reserved word counts as no identifier.
- `NotAFunction`: the item is not a function.
- `GuardNotParsed`: the synthesised statement did not parse. A lemma shows
  this never happens.

Printing the function (src/lib.rs:72) cannot fail, so there is no error
for it. A malformed attribute is returned as an error token stream
(src/lib.rs:61). The other two failures are panics (src/lib.rs:64, 68).
The model gives each one an error variant.

## Model

| member | source | states |
|---|---|---|
| JoMacro.ParseJo | src/lib.rs:51-55 | Succeeds exactly when the first token is an identifier that is neither `_` nor a reserved word. The result carries that identifier and leaves the rest of the stream unread. An empty stream gives an end-of-input error. Any other first token gives an expected-identifier error. |
| JoMacro.ParseAttr | src/lib.rs:61 | The attribute parses exactly when it is one acceptable identifier token, and the result is that identifier. The three failure causes are told apart: empty, no acceptable identifier first, and trailing tokens. |
| JoMacro.ParseItemFn | src/lib.rs:64 | The item parses exactly when it is a function, and the function comes back unchanged. Any other item kind is refused. |
| JoMacro.GuardTokens | src/lib.rs:67 | The eleven tokens the quasi-quote builds: `let guard = <mutex>.lock().expect("Could not lock mutex");`. It has no contract of its own; what these tokens parse to is stated by `GuardTokensParse`. |
| JoMacro.ParseStmt | src/lib.rs:68 | The statement parse, narrowed to the one form the macro hands it. Whatever it accepts is a locking statement whose binding and mutex are both names the identifier parser accepts; anything it refuses fails with an expected-statement error. |
| JoMacro.GuardTokensParse | src/lib.rs:67-68 | For every mutex name the attribute parser accepts, the quoted statement parses back to the statement that binds `guard` and locks that mutex with the fixed message. So the internal-failure branch is never taken. |
| JoMacro.ExpansionOfFn | src/lib.rs:61-72 | On a well-formed attribute and a function, the output is the input function with the guard for the attribute's identifier in front of its body. |
| JoMacro.Expansion | src/lib.rs:59-73 | The specification function of the expansion. It has no contract of its own; `ExpansionOfFn` and the `JoProperties` lemmas state what it produces, and `Expand` is proved equal to it. |
| JoMacro.PrependToBody | src/lib.rs:64-69 | The body's statements go into a vector, the guard is inserted at index 0 in place, and the result is the input function whose body is the guard followed by the old statements; attributes, visibility and signature are unchanged. |
| JoMacro.Expand | src/lib.rs:59-73 | The macro's steps, carried out with an in-place insertion at index 0 of the body vector, give exactly the result of `Expansion`, on the error paths too. |
| StmtVectors.StmtVec.FromSeq | src/lib.rs:64 | The parsed body becomes a vector holding exactly its statements, in order. |
| StmtVectors.StmtVec.Reserve | src/lib.rs:69 | Makes room for one more statement. The contents are unchanged. The storage is either the old array or a fresh one. |
| StmtVectors.StmtVec.ShiftRight | src/lib.rs:69 | Statements below `index` stay where they are. Every statement from `index` to the last moves one cell right, into the spare cell. |
| StmtVectors.StmtVec.Insert | src/lib.rs:69 | The length grows by one and `x` sits at `index`. Statements before `index` are unchanged. Every statement from `index` on moves one place right. So the contents are the old contents with `x` spliced in. |
| StmtVectors.InsertedElementwise | src/lib.rs:69 | The element-by-element description of an insertion equals splicing the new element into the old sequence. |
| JoProperties.ExpandSucceedsIff | src/lib.rs:59-73 | The expansion succeeds if and only if the attribute is one acceptable identifier and the item is a function. |
| JoProperties.ExpandRejectsMalformedAttribute | src/lib.rs:53-61 | An attribute that is not one identifier fails with `MalformedAttribute` and the parser's cause, whatever the item is. No function is emitted. |
| JoProperties.ExpandRejectsNonFunction | src/lib.rs:64 | A well-formed attribute on a non-function fails with `NotAFunction`. |
| JoProperties.ExpandPrependsGuard | src/lib.rs:67-69 | On success the body has one more statement. Statement 0 binds `guard` and locks the attribute's identifier, whatever it is. The original statements follow, unchanged and in order, at indices 1..n. |
| JoProperties.ExpandKeepsSignature | src/lib.rs:64-72 | On success the attributes, visibility and signature are those of the input. |
| JoProperties.ExpandTwiceStacksGuards | src/lib.rs:69 | Expanding an already expanded function gives two locking statements before the original body. There is no deduplication. |
| JoProperties.ReapplyStacksGuards | src/lib.rs:69 | Annotating a function n times gives n locking statements before the original body, with nothing else changed. |
| JoProperties.ScenarioLockThenWork | src/lib.rs:59-73 | `#[jo(LOCK_A)] fn f() { do_work(); }` becomes `fn f() { let guard = LOCK_A.lock().expect(..); do_work(); }`. |
| JoProperties.ScenarioReservedNames | src/lib.rs:53-61 | `#[jo(_)]` and `#[jo(self)]` fail with an expected-identifier `MalformedAttribute`, whatever the item. |
| JoProperties.ScenarioTwoLocks | src/lib.rs:61 | `#[jo(LOCK_A, LOCK_B)]` fails with a trailing-token `MalformedAttribute`. |
| JoProperties.ScenarioStruct | src/lib.rs:64 | `#[jo(LOCK_A)]` on `struct S { x: i32 }` fails with `NotAFunction`. |
| JoProperties.ScenarioUserGuardBinding | src/lib.rs:67-69 | For every acceptable lock name, a body that itself binds `guard` keeps that statement untouched, after the inserted one. Nothing is renamed, so the user's binding shadows the macro's from there on. |

## Left out

- Parsing and printing by the Rust parsing and quoting libraries. The
  annotated item arrives already classified as `Fn` or `NonFn`, and the
  emitted function is the `ItemFn` value rather than printed tokens.
- `ParseStmt` handles only the one statement form the macro feeds it:
  `let <name> = <name>.lock().expect(<literal>);`. The real statement
  grammar is far larger, but no other input ever reaches this call.
- ParseAttr: the rejection of trailing tokens (`LOCK_A, LOCK_B`) comes
  from the attribute-input macro's full-consumption check. That check
  lives in the parsing library, outside the source. `ParseAttr` writes its
  behaviour out as an assumption.
- ParseJo: the reserved words are the list of the parser library's 1.x
  line. Raw identifiers such as `r#fn` are held as their written name and
  accepted. Other versions of the library may reserve a different list.
- Conversions between the compiler's and the library's token streams,
  spans and hygiene (src/lib.rs:41, 72).
- What the generated code does at run time: blocking on the mutex,
  failing on a poisoned mutex, releasing when `guard` is dropped, and the
  mutual exclusion that results. These belong to the standard library's
  mutex. The model covers only the statement that triggers them.
- The lazily initialised statics in the crate documentation
  (src/lib.rs:12-37). They are usage text, not logic.
- Panic and diagnostic message text. Each failure is one error variant.
- StmtVec.Reserve: the standard vector's exact growth policy is not
  modelled. The model grows a full vector to twice its capacity plus one.
