/** The code generator `impl` installs for a block: a field accessor over
    the declared keyed content, a `resolve` over the declared slots, and the
    interpretation of the implementation's result. The live block and the
    host generator are abstract: `HostBlock` carries the field values, the
    host's statement and value code, and the code of the block attached
    below. */
module CodeGen {
  import opened Wrappers
  import opened Shared
  import opened BlockBuilder
  import opened ContentBuilder

  /** A field value read from the live block (numbers and strings only). */
  datatype FieldValue = NumberValue(number: int) | TextValue(text: string)

  /** The errors the generator throws, each naming the key. */
  datatype Error = UnknownField(key: string) | Unresolvable(key: string)

  /** The message each error is thrown with. */
  function Message(e: Error): (m: string)
    ensures e.UnknownField? ==> m == "Failed to find input by key: " + e.key
    ensures e.Unresolvable? ==> m == "failed to resolve: " + e.key
  {
    match e
    case UnknownField(k) => "Failed to find input by key: " + k
    case Unresolvable(k) => "failed to resolve: " + k
  }

  /** The precedence used when `resolve` is given none, and the one given
      to a plain string returned by an expression block. */
  const DefaultOrder: int := 99

  /** The host seen from one generator call: the live block's field values,
      the host's code for a statement input and for a value input at an
      order, and the code of the block on the next connection (`None` when
      nothing is attached). */
  datatype HostBlock = HostBlock(
    fieldValue: string -> FieldValue,
    statementToCode: string -> string,
    valueToCode: (string, int) -> string,
    nextCode: Option<string>)

  /** Whether some element satisfies `p` (the source's `some`, scanning
      from the front). */
  function Any<T>(s: seq<T>, p: T -> bool): (r: bool)
    ensures r <==> exists i :: 0 <= i < |s| && p(s[i])
  {
    if |s| == 0 then false else p(s[0]) || Any(s[1..], p)
  }

  /** The item test of the field accessor: a keyed item named `key`. */
  predicate NamesKey(c: Content, key: string)
  {
    c.Keyed() && c.key == key
  }

  /** The row test of the field accessor: a non-statement row with an item
      naming `key`. */
  predicate RowNamesKey(f: Field, key: string)
  {
    !f.Stmt? && Any(f.content, (c: Content) => NamesKey(c, key))
  }

  /** The accessor's nested scan finds `key` exactly when it is declared. */
  lemma InputKeyScan(fields: seq<Field>, key: string)
    ensures Any(fields, (f: Field) => RowNamesKey(f, key)) <==> key in FieldKeys(fields)
  {
    if Any(fields, (f: Field) => RowNamesKey(f, key)) {
      var i :| 0 <= i < |fields| && RowNamesKey(fields[i], key);
      var j :| 0 <= j < |fields[i].content| && NamesKey(fields[i].content[j], key);
      assert RowItems(fields[i])[j] == fields[i].content[j];
    }
    if key in FieldKeys(fields) {
      var i, j :| 0 <= i < |fields| && 0 <= j < |RowItems(fields[i])| && RowItems(fields[i])[j].Keyed()
        && RowItems(fields[i])[j].key == key;
      assert NamesKey(fields[i].content[j], key);
      assert RowNamesKey(fields[i], key);
    }
  }

  /** Whether some non-statement row has a keyed item named `key`: the scan
      the field accessor runs on every property read. */
  function HasInputKey(fields: seq<Field>, key: string): (r: bool)
    ensures r <==> key in FieldKeys(fields)
  {
    InputKeyScan(fields, key);
    Any(fields, (f: Field) => RowNamesKey(f, key))
  }

  /** Reading field `key` through the accessor: the live block's value when
      some non-statement row declares a keyed item `key`, otherwise the
      "unknown field" error naming the key. Text items and statement rows
      never match. */
  function Lookup(fields: seq<Field>, host: HostBlock, key: string): (r: Result<FieldValue, Error>)
    ensures r.Success? <==> key in FieldKeys(fields)
    ensures r.Success? ==> r.value == host.fieldValue(key)
    ensures r.Failure? ==> r.error == UnknownField(key)
  {
    if HasInputKey(fields, key) then Success(host.fieldValue(key)) else Failure(UnknownField(key))
  }

  /** A custom call declares its key at the type level whatever its view
      pushes, but the field accessor only knows the keys of pushed items:
      a view that pushes nothing leaves a declared key unreadable. */
  lemma CustomKeyNotReadable(b: Builder, host: HostBlock, key: string, t: FieldType)
    requires key !in FieldKeys(b.fields)
    ensures key in Declared(map[], [CallCustom(key, t, [])])
    ensures Lookup(AddContent(b, [CallCustom(key, t, [])]).fields, host, key) == Failure(UnknownField(key))
  {
    var script := [CallCustom(key, t, [])];
    DeclaredExtends(map[], script);
    assert Flatten(script) == [];
    FieldKeysAppend(b.fields, InputOnly([]));
  }

  /** The keys of the statement slots. */
  ghost function StmtKeys(fields: seq<Field>): set<string>
  {
    set i | 0 <= i < |fields| && fields[i].Stmt? :: fields[i].key
  }

  /** The keys of the value slots. */
  ghost function SlotKeys(fields: seq<Field>): set<string>
  {
    set i | 0 <= i < |fields| && fields[i].Slot? :: fields[i].key
  }

  /** `resolve(key, order)`: a statement slot first, then a value slot (at
      `order`, or the default order when none is given), otherwise the
      "unresolvable" error naming the key. */
  function Resolve(fields: seq<Field>, host: HostBlock, key: string, order: Option<int>): (r: Result<string, Error>)
    ensures key in StmtKeys(fields) ==> r == Success(host.statementToCode(key))
    ensures key !in StmtKeys(fields) && key in SlotKeys(fields) ==>
      && r.Success?
      && (order.Some? ==> r.value == host.valueToCode(key, order.value))
      && (order.None? ==> r.value == host.valueToCode(key, DefaultOrder))
    ensures key !in StmtKeys(fields) && key !in SlotKeys(fields) ==> r == Failure(Unresolvable(key))
  {
    if Any(fields, (f: Field) => f.Stmt? && f.key == key) then
      Success(host.statementToCode(key))
    else if Any(fields, (f: Field) => f.Slot? && f.key == key) then
      Success(host.valueToCode(key, order.GetOr(DefaultOrder)))
    else
      Failure(Unresolvable(key))
  }

  /** A statement slot's code never depends on the order asked for. */
  lemma StatementIgnoresOrder(fields: seq<Field>, host: HostBlock, key: string, o1: Option<int>, o2: Option<int>)
    requires key in StmtKeys(fields)
    ensures Resolve(fields, host, key, o1) == Resolve(fields, host, key, o2)
  {
  }

  /** Omitting the order is the same as asking for order 99. */
  lemma DefaultOrderIs99(fields: seq<Field>, host: HostBlock, key: string)
    ensures Resolve(fields, host, key, None) == Resolve(fields, host, key, Some(99))
  {
  }

  /** What the implementation function returns: a plain string, or a value
      with its precedence. */
  datatype ImplOutput = ImplText(code: string) | ImplValue(value: string, order: int)

  /** What the generator returns to the host: an expression with its
      precedence (the source's `[code, order]` pair) or statement code. */
  datatype GenOutput = Expression(code: string, order: int) | Statement(code: string)

  /** A statement's code followed by the next block's code on its own line,
      but only when that code is present and non-empty. */
  function ChainNext(code: string, next: Option<string>): (r: string)
    ensures |r| >= |code| && r[..|code|] == code
    ensures next.None? || next.value == "" ==> r == code
    ensures next.Some? && next.value != "" ==> r[|code|..] == "\n" + next.value
  {
    if next.Some? && next.value != "" then code + "\n" + next.value else code
  }

  /** How the implementation's result becomes the generator's result. */
  function Interpret(output: Option<string>, res: ImplOutput, next: Option<string>): (r: GenOutput)
    ensures res.ImplValue? ==> r == Expression(res.value, res.order)
    ensures res.ImplText? && output.Some? ==> r == Expression(res.code, DefaultOrder)
    ensures res.ImplText? && output.None? ==> r == Statement(ChainNext(res.code, next))
  {
    match res
    case ImplValue(v, o) => Expression(v, o)
    case ImplText(s) => if output.Some? then Expression(s, DefaultOrder) else Statement(ChainNext(s, next))
  }

  /** Only a string result of a non-expression block looks at the next
      block's code; every other result is the same whatever is attached. */
  lemma NextOnlyForStatements(output: Option<string>, res: ImplOutput, n1: Option<string>, n2: Option<string>)
    requires res.ImplValue? || output.Some?
    ensures Interpret(output, res, n1) == Interpret(output, res, n2)
    ensures Interpret(output, res, n1).Expression?
  {
  }

  /** What the implementation function is given: the field accessor and
      `resolve`. */
  datatype BlockContext = BlockContext(
    fields: string -> Result<FieldValue, Error>,
    resolve: (string, Option<int>) -> Result<string, Error>)

  /** The user's implementation function; a `Failure` is an exception it
      lets escape (including one thrown by the accessor or `resolve`). */
  type ImplFn = BlockContext -> Result<ImplOutput, Error>

  /** What `impl` installs as the block's generator: the snapshot of the
      rows and the output type, and the implementation function. */
  datatype GeneratorDef = GeneratorDef(fields: seq<Field>, output: Option<string>, impl: ImplFn)

  /** The context built for one generator call. */
  function Context(fields: seq<Field>, host: HostBlock): (ctx: BlockContext)
    ensures forall key :: ctx.fields(key).Success? <==> key in FieldKeys(fields)
    ensures forall key, order :: ctx.resolve(key, order).Failure? <==> key !in StmtKeys(fields) && key !in SlotKeys(fields)
  {
    BlockContext(
      (key: string) => Lookup(fields, host, key),
      (key: string, order: Option<int>) => Resolve(fields, host, key, order))
  }

  /** One run of the generator on a live block. */
  function Generate(def: GeneratorDef, host: HostBlock): (r: Result<GenOutput, Error>)
    ensures def.impl(Context(def.fields, host)).Failure? ==> r == Failure(def.impl(Context(def.fields, host)).error)
    ensures def.impl(Context(def.fields, host)).Success? ==>
      r == Success(Interpret(def.output, def.impl(Context(def.fields, host)).value, host.nextCode))
  {
    match def.impl(Context(def.fields, host))
    case Failure(e) => Failure(e)
    case Success(out) => Success(Interpret(def.output, out, host.nextCode))
  }

  /** A statement block with one statement slot "BODY" whose implementation
      returns "doThing();" generates exactly that with nothing below it, and
      "doThing();\ndoOther();" under a block whose code is "doOther();". */
  lemma StatementScenario(host: HostBlock)
    ensures var def := GeneratorDef([Stmt("BODY", "*")], None, (ctx: BlockContext) => Success(ImplText("doThing();")));
            && Generate(def, host.(nextCode := None)) == Success(Statement("doThing();"))
            && Generate(def, host.(nextCode := Some("doOther();"))) == Success(Statement("doThing();\ndoOther();"))
  {
    assert "doThing();" + "\n" + "doOther();" == "doThing();\ndoOther();";
  }

  /** An expression block returning value "1+2" at order 5 hands exactly
      that pair to the host. */
  lemma ExpressionScenario(host: HostBlock)
    ensures var def := GeneratorDef([], Some("Number"), (ctx: BlockContext) => Success(ImplValue("1+2", 5)));
            Generate(def, host) == Success(Expression("1+2", 5))
  {
  }
}
