/**
  What the `jo` expansion guarantees, for every attribute and item:
  when it fails, when it succeeds, what it adds to the body and what it
  leaves alone, and that it never deduplicates the locking statement.
 */
module JoProperties {
  import opened Syntax
  import opened JoMacro

  /**
    The expansion succeeds exactly when the attribute is one identifier
    and the item is a function.
   */
  lemma ExpandSucceedsIff(attr: seq<Token>, item: Item)
    ensures Expansion(attr, item).Ok? <==> SingleIdent(attr) && item.Fn?
  {
    if SingleIdent(attr) {
      GuardTokensParse(attr[0].name);
    }
  }

  /**
    An attribute that is not one identifier (empty, a non-identifier or
    reserved word first, or trailing tokens) fails the expansion with the parser's
    error, whatever the item is: no function is emitted.
   */
  lemma ExpandRejectsMalformedAttribute(attr: seq<Token>, item: Item)
    requires !SingleIdent(attr)
    ensures Expansion(attr, item).Err?
    ensures Expansion(attr, item).error == MalformedAttribute(ParseAttr(attr).error)
    ensures attr == [] ==> Expansion(attr, item).error.cause == UnexpectedEnd
    ensures attr != [] && !IsIdent(attr[0]) ==> Expansion(attr, item).error.cause == ExpectedIdent
    ensures |attr| > 1 && IsIdent(attr[0]) ==> Expansion(attr, item).error.cause == UnexpectedToken
  {
  }

  /** A well-formed attribute on an item that is not a function fails with `NotAFunction`. */
  lemma ExpandRejectsNonFunction(attr: seq<Token>, item: Item)
    requires SingleIdent(attr) && item.NonFn?
    ensures Expansion(attr, item) == Err(NotAFunction)
  {
  }

  /**
    On success the body has exactly one statement more; statement 0 binds
    `guard` to the lock of the attribute's identifier, whatever it is; the
    original statements follow unchanged and in order, shifted by one.
   */
  lemma ExpandPrependsGuard(attr: seq<Token>, f: ItemFn)
    requires SingleIdent(attr)
    ensures Expansion(attr, Fn(f)).Ok?
    ensures |Expansion(attr, Fn(f)).value.block.stmts| == |f.block.stmts| + 1
    ensures Expansion(attr, Fn(f)).value.block.stmts[0] == GuardStmt(attr[0].name)
    ensures forall k :: 0 <= k < |f.block.stmts| ==>
              Expansion(attr, Fn(f)).value.block.stmts[k + 1] == f.block.stmts[k]
    ensures Expansion(attr, Fn(f)).value.block.stmts[1..] == f.block.stmts
  {
    ExpansionOfFn(attr, f);
    var stmts := Expansion(attr, Fn(f)).value.block.stmts;
    assert stmts == [GuardStmt(attr[0].name)] + f.block.stmts;
    assert stmts[1..] == f.block.stmts;
  }

  /** On success the attributes, visibility and signature are those of the input. */
  lemma ExpandKeepsSignature(attr: seq<Token>, f: ItemFn)
    requires SingleIdent(attr)
    ensures Expansion(attr, Fn(f)).Ok?
    ensures Expansion(attr, Fn(f)).value.attrs == f.attrs
    ensures Expansion(attr, Fn(f)).value.vis == f.vis
    ensures Expansion(attr, Fn(f)).value.sig == f.sig
  {
    ExpansionOfFn(attr, f);
  }

  /**
    Expanding an already expanded function adds a second locking
    statement in front of the first: there is no deduplication.
   */
  lemma ExpandTwiceStacksGuards(attr: seq<Token>, f: ItemFn)
    requires SingleIdent(attr)
    ensures Expansion(attr, Fn(f)).Ok?
    ensures Expansion(attr, Fn(Expansion(attr, Fn(f)).value)).Ok?
    ensures Expansion(attr, Fn(Expansion(attr, Fn(f)).value)).value.block.stmts
            == [GuardStmt(attr[0].name), GuardStmt(attr[0].name)] + f.block.stmts
  {
    var once := f.(block := Block([GuardStmt(attr[0].name)] + f.block.stmts));
    ExpansionOfFn(attr, f);
    ExpansionOfFn(attr, once);
  }

  /** `n` locking statements for `mutex`. */
  function Guards(mutex: string, n: nat): (r: seq<Stmt>)
    ensures |r| == n
    ensures forall i :: 0 <= i < n ==> r[i] == GuardStmt(mutex)
  {
    if n == 0 then [] else Guards(mutex, n - 1) + [GuardStmt(mutex)]
  }

  /** The result of annotating `f` with the same attribute `n` times over. */
  function Reapply(attr: seq<Token>, f: ItemFn, n: nat): (r: Result<ItemFn, MacroError>)
    decreases n
  {
    if n == 0 then Ok(f)
    else
      match Expansion(attr, Fn(f))
      case Err(e) => Err(e)
      case Ok(g) => Reapply(attr, g, n - 1)
  }

  /**
    Annotating `n` times puts `n` locking statements in front of the
    original body and changes nothing else.
   */
  lemma {:induction false} ReapplyStacksGuards(attr: seq<Token>, f: ItemFn, n: nat)
    requires SingleIdent(attr)
    ensures Reapply(attr, f, n) == Ok(f.(block := Block(Guards(attr[0].name, n) + f.block.stmts)))
    decreases n
  {
    if n == 0 {
      assert Guards(attr[0].name, 0) + f.block.stmts == f.block.stmts;
    } else {
      var mutex := attr[0].name;
      var g := f.(block := Block([GuardStmt(mutex)] + f.block.stmts));
      ExpansionOfFn(attr, f);
      ReapplyStacksGuards(attr, g, n - 1);
      assert Guards(mutex, n - 1) + ([GuardStmt(mutex)] + f.block.stmts)
          == Guards(mutex, n) + f.block.stmts;
    }
  }

  /** `do_work();` */
  function DoWork(): (s: Stmt)
  {
    Opaque([Ident("do_work"), Group(Parenthesis, []), Punct(';')])
  }

  /** `fn f() { <stmts> }` */
  function PlainFn(stmts: seq<Stmt>): (f: ItemFn)
  {
    ItemFn([], Inherited, Signature([], "f", [], [], []), Block(stmts))
  }

  /** `#[jo(LOCK_A)] fn f() { do_work(); }` locks `LOCK_A`, then does the work. */
  lemma ScenarioLockThenWork()
    ensures Expansion([Ident("LOCK_A")], Fn(PlainFn([DoWork()])))
            == Ok(PlainFn([LockGuard("guard", "LOCK_A", "Could not lock mutex"), DoWork()]))
  {
    GuardTokensParse("LOCK_A");
    assert [GuardStmt("LOCK_A")] + [DoWork()] == [GuardStmt("LOCK_A"), DoWork()];
  }

  /** `#[jo(_)]` and `#[jo(self)]` are refused: neither is an identifier to the parser. */
  lemma ScenarioReservedNames(item: Item)
    ensures Expansion([Ident("_")], item) == Err(MalformedAttribute(ExpectedIdent))
    ensures Expansion([Ident("self")], item) == Err(MalformedAttribute(ExpectedIdent))
  {
  }

  /** `#[jo(LOCK_A, LOCK_B)]` is refused: one lock per annotation. */
  lemma ScenarioTwoLocks(item: Item)
    ensures Expansion([Ident("LOCK_A"), Punct(','), Ident("LOCK_B")], item)
            == Err(MalformedAttribute(UnexpectedToken))
  {
  }

  /** `#[jo(LOCK_A)] struct S { x: i32 }` is refused. */
  lemma ScenarioStruct()
    ensures Expansion([Ident("LOCK_A")],
              NonFn(StructItem, [Ident("struct"), Ident("S"),
                Group(Brace, [Ident("x"), Punct(':'), Ident("i32")])]))
            == Err(NotAFunction)
  {
  }

  /**
    A body that itself binds `guard` keeps that statement, untouched,
    after the inserted one: the user's binding shadows the name of the
    macro's guard from there on, and nothing is renamed. This holds for
    every lock name the identifier parser accepts.
   */
  lemma ScenarioUserGuardBinding(mutex: string)
    requires !Reserved(mutex)
    ensures var userLet := Opaque([Ident("let"), Ident("guard"), Punct('='), Literal("5"), Punct(';')]);
            Expansion([Ident(mutex)], Fn(PlainFn([userLet, DoWork()])))
            == Ok(PlainFn([GuardStmt(mutex), userLet, DoWork()]))
  {
    GuardTokensParse(mutex);
    var userLet := Opaque([Ident("let"), Ident("guard"), Punct('='), Literal("5"), Punct(';')]);
    assert [GuardStmt(mutex)] + [userLet, DoWork()] == [GuardStmt(mutex), userLet, DoWork()];
  }
}
