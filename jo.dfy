/**
  The `jo` attribute macro: `#[jo(LOCK)]` on a function makes the body
  start by locking the mutex `LOCK`, holding the guard until the function
  returns, so that functions naming the same mutex never run at the same
  time.

  The expansion reads one identifier from the attribute, parses the item
  as a function, builds the statement
    `let guard = LOCK.lock().expect("Could not lock mutex");`
  inserts it in front of the body's statements and emits the function.
 */
module JoMacro {
  import opened Syntax
  import opened StmtVectors

  /** The local name the lock guard is bound to. */
  const GuardBinding: string := "guard"

  /** The message the generated code fails with when the mutex is poisoned. */
  const LockFailureMessage: string := "Could not lock mutex"

  /** Why a token stream did not parse. */
  datatype ParseError =
    | UnexpectedEnd        // the stream ended where a token was needed
    | ExpectedIdent        // a token other than an identifier came first
    | UnexpectedToken      // tokens were left over after a complete parse
    | ExpectedFn           // the item is not a function with a body
    | ExpectedStatement    // the tokens do not form a statement

  /** Why an expansion produced no function. */
  datatype MacroError =
    | MalformedAttribute(cause: ParseError)  // the attribute is not one identifier
    | NotAFunction                           // the annotated item is not a function
    | GuardNotParsed                         // the synthesised statement did not parse

  /** The parsed attribute: the name of the mutex to lock. */
  datatype Jo = Jo(ident: string)

  /**
    Words the identifier parser refuses although the lexer makes them
    identifier tokens: `_` and Rust's strict, reserved and edition
    keywords, as listed by the parser library's 1.x line. They are
    looked up by their first character.
   */
  predicate Reserved(name: string)
  {
    |name| > 0 && name in ReservedStartingWith(name[0])
  }

  /** The reserved words that begin with `c`. */
  function ReservedStartingWith(c: char): (r: set<string>)
  {
    match c
    case '_' => {"_"}
    case 'a' => {"abstract", "as", "async", "await"}
    case 'b' => {"become", "box", "break"}
    case 'c' => {"const", "continue", "crate"}
    case 'd' => {"do", "dyn"}
    case 'e' => {"else", "enum", "extern"}
    case 'f' => {"false", "final", "fn", "for"}
    case 'i' => {"if", "impl", "in"}
    case 'l' => {"let", "loop"}
    case 'm' => {"macro", "match", "mod", "move", "mut"}
    case 'o' => {"override"}
    case 'p' => {"priv", "pub"}
    case 'r' => {"ref", "return"}
    case 'S' => {"Self"}
    case 's' => {"self", "static", "struct", "super"}
    case 't' => {"trait", "true", "try", "type", "typeof"}
    case 'u' => {"unsafe", "unsized", "use"}
    case 'v' => {"virtual"}
    case 'w' => {"where", "while"}
    case 'y' => {"yield"}
    case _ => {}
  }

  /** A token the identifier parser accepts: an identifier that is not reserved. */
  predicate IsIdent(t: Token)
  {
    t.Ident? && !Reserved(t.name)
  }

  /** The attribute arguments consist of exactly one acceptable identifier. */
  predicate SingleIdent(attr: seq<Token>)
  {
    |attr| == 1 && IsIdent(attr[0])
  }

  /**
    The attribute's parser: takes one identifier from the front of the
    stream and leaves the rest of the stream unread.
   */
  function ParseJo(input: seq<Token>): (r: Result<(Jo, seq<Token>), ParseError>)
    ensures r.Ok? <==> |input| > 0 && IsIdent(input[0])
    ensures r.Ok? ==> r.value.0.ident == input[0].name && r.value.1 == input[1..]
    ensures input == [] ==> r == Err(UnexpectedEnd)
    ensures input != [] && !IsIdent(input[0]) ==> r == Err(ExpectedIdent)
  {
    if |input| == 0 then Err(UnexpectedEnd)
    else match input[0]
      case Ident(name) => if Reserved(name) then Err(ExpectedIdent) else Ok((Jo(name), input[1..]))
      case _ => Err(ExpectedIdent)
  }

  /**
    Parsing the attribute arguments as a whole: the attribute's parser
    followed by the check that it consumed every token.
   */
  function ParseAttr(attr: seq<Token>): (r: Result<Jo, ParseError>)
    ensures r.Ok? <==> SingleIdent(attr)
    ensures r.Ok? ==> r.value == Jo(attr[0].name)
    ensures attr == [] ==> r == Err(UnexpectedEnd)
    ensures attr != [] && !IsIdent(attr[0]) ==> r == Err(ExpectedIdent)
    ensures |attr| > 1 && IsIdent(attr[0]) ==> r == Err(UnexpectedToken)
  {
    match ParseJo(attr)
    case Err(e) => Err(e)
    case Ok((jo, rest)) => if rest == [] then Ok(jo) else Err(UnexpectedToken)
  }

  /** Parsing the annotated item as a function with a body. */
  function ParseItemFn(item: Item): (r: Result<ItemFn, ParseError>)
    ensures r.Ok? <==> item.Fn?
    ensures item.Fn? ==> r.value == item.f
    ensures item.NonFn? ==> r.error == ExpectedFn
  {
    match item
    case Fn(f) => Ok(f)
    case NonFn(_, _) => Err(ExpectedFn)
  }

  /** The tokens the quasi-quote produces for the locking statement. */
  function GuardTokens(mutex: string): (ts: seq<Token>)
  {
    [ Ident("let"), Ident(GuardBinding), Punct('='),
      Ident(mutex), Punct('.'), Ident("lock"), Group(Parenthesis, []),
      Punct('.'), Ident("expect"), Group(Parenthesis, [Literal(LockFailureMessage)]),
      Punct(';') ]
  }

  /**
    Parsing a statement, narrowed to the one form the macro hands to the
    parser: `let <name> = <name>.lock().expect(<literal>);`, where both
    names must be acceptable identifiers. Every other token stream is
    refused.
   */
  function ParseStmt(ts: seq<Token>): (r: Result<Stmt, ParseError>)
    ensures r.Ok? ==> r.value.LockGuard? && !Reserved(r.value.binding) && !Reserved(r.value.mutex)
    ensures r.Err? ==> r.error == ExpectedStatement
  {
    if && |ts| == 11
       && ts[0] == Ident("let") && IsIdent(ts[1]) && ts[2] == Punct('=')
       && IsIdent(ts[3]) && ts[4] == Punct('.') && ts[5] == Ident("lock")
       && ts[6] == Group(Parenthesis, []) && ts[7] == Punct('.') && ts[8] == Ident("expect")
       && ts[9].Group? && ts[9].delimiter == Parenthesis
       && |ts[9].stream| == 1 && ts[9].stream[0].Literal?
       && ts[10] == Punct(';')
    then Ok(LockGuard(ts[1].name, ts[3].name, ts[9].stream[0].text))
    else Err(ExpectedStatement)
  }

  /** The locking statement for `mutex`, as the macro means it. */
  function GuardStmt(mutex: string): (s: Stmt)
  {
    LockGuard(GuardBinding, mutex, LockFailureMessage)
  }

  /**
    The quasi-quoted locking statement always parses back to the
    statement that binds the guard and locks exactly `mutex`, for every
    name the attribute parser accepts: the internal-failure branch of the
    expansion is never taken.
   */
  lemma GuardTokensParse(mutex: string)
    requires !Reserved(mutex)
    ensures ParseStmt(GuardTokens(mutex)) == Ok(GuardStmt(mutex))
  {
  }

  /**
    What an expansion produces: an error for a malformed attribute (which
    is checked first), an error for an item that is not a function, an
    internal error should the synthesised statement not parse, and
    otherwise the function with that statement in front of its body.
   */
  function Expansion(attr: seq<Token>, item: Item): (r: Result<ItemFn, MacroError>)
  {
    match ParseAttr(attr)
    case Err(e) => Err(MalformedAttribute(e))
    case Ok(jo) =>
      match ParseItemFn(item)
      case Err(_) => Err(NotAFunction)
      case Ok(f) =>
        match ParseStmt(GuardTokens(jo.ident))
        case Err(_) => Err(GuardNotParsed)
        case Ok(guard) => Ok(f.(block := Block([guard] + f.block.stmts)))
  }

  /**
    On a well-formed attribute and a function, the expansion is that
    function with the guard for the attribute's identifier in front of
    its body.
   */
  lemma ExpansionOfFn(attr: seq<Token>, f: ItemFn)
    requires SingleIdent(attr)
    ensures Expansion(attr, Fn(f)) == Ok(f.(block := Block([GuardStmt(attr[0].name)] + f.block.stmts)))
  {
    GuardTokensParse(attr[0].name);
  }

  /**
    The macro: parse the attribute, parse the item as a function, build
    the locking statement, insert it at index 0 of the body's statement
    vector and emit the function.
   */
  method Expand(attr: seq<Token>, item: Item) returns (out: Result<ItemFn, MacroError>)
    ensures out == Expansion(attr, item)
  {
    var parsedAttr := ParseAttr(attr);
    if parsedAttr.Err? {
      return Err(MalformedAttribute(parsedAttr.error));
    }
    var ident := parsedAttr.value.ident;

    var parsedItem := ParseItemFn(item);
    if parsedItem.Err? {
      return Err(NotAFunction);
    }
    var fn := parsedItem.value;

    var quoted := GuardTokens(ident);
    var stmt := ParseStmt(quoted);
    if stmt.Err? {
      return Err(GuardNotParsed);
    }
    var guarded := PrependToBody(fn, stmt.value);
    out := Ok(guarded);
  }

  /**
    Puts `s` in front of the body of `fn`: the body's statements are moved
    into a vector, `s` is inserted at index 0 in place, and the vector
    becomes the new body. Nothing else of the function changes.
   */
  method PrependToBody(fn: ItemFn, s: Stmt) returns (g: ItemFn)
    ensures g.attrs == fn.attrs && g.vis == fn.vis && g.sig == fn.sig
    ensures g.block.stmts == [s] + fn.block.stmts
  {
    var stmts := new StmtVec.FromSeq(fn.block.stmts);
    stmts.Insert(0, s);
    var body := stmts.buf[..stmts.len];
    assert body == stmts.Contents() == [s] + fn.block.stmts;
    g := ItemFn(fn.attrs, fn.vis, fn.sig, Block(body));
  }
}
