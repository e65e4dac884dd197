/** What a registered block's `init` does to a live block instance, as a
    description: the colour, the connection typing it sets (an absent entry
    means the setter is never called) and one input per row, in declaration
    order. Widget construction and rendering are not described. */
module BlockInit {
  import opened Wrappers
  import opened Shared
  import opened ContentBuilder
  import opened BlockBuilder

  /** The settings `impl` captures after the will-register hooks ran. */
  datatype Snapshot = Snapshot(
    fields: seq<Field>,
    colour: Colour,
    next: Option<string>,
    prev: Option<string>,
    output: Option<string>,
    inline: Option<bool>)

  function Capture(b: Builder): (s: Snapshot)
    ensures s.fields == b.fields && s.colour == b.colour && s.inline == b.inline
    ensures s.next == b.next && s.prev == b.prev && s.output == b.output
  {
    Snapshot(b.fields, b.colour, b.next, b.prev, b.output, b.inline)
  }

  /** One input appended by `init`. A `None` check is the host's "no check". */
  datatype InputDesc =
    | DummyInput(content: seq<Content>)
    | ValueInput(name: string, check: Option<string>, content: seq<Content>)
    | StatementInput(name: string, check: Option<string>)

  /** What `init` does: colour, empty tooltip and help URL, connection
      setters (called only for a present setting, with the setting verbatim),
      the inline flag (set only when present), then the inputs. */
  datatype InitPlan = InitPlan(
    colour: Colour,
    tooltip: string,
    helpUrl: string,
    next: Option<string>,
    prev: Option<string>,
    output: Option<string>,
    inline: Option<bool>,
    inputs: seq<InputDesc>)

  /** A row's type check as handed to the host: the wildcard becomes no
      check at all. */
  function CheckOf(check: string): (c: Option<string>)
    ensures c.None? <==> check == Wildcard
    ensures c.Some? ==> c.value == check
  {
    if check == Wildcard then None else Some(check)
  }

  /** The input one row yields. */
  function Describe(f: Field): InputDesc
  {
    match f
    case InputOnly(content) => DummyInput(content)
    case Slot(key, check, content) => ValueInput(key, CheckOf(check), content)
    case Stmt(key, check) => StatementInput(key, CheckOf(check))
  }

  /** `init` run on a snapshot. */
  function Init(s: Snapshot): (p: InitPlan)
    ensures p.colour == s.colour && p.tooltip == "" && p.helpUrl == ""
    ensures p.next == s.next && p.prev == s.prev && p.output == s.output && p.inline == s.inline
    ensures |p.inputs| == |s.fields|
    ensures forall i :: 0 <= i < |s.fields| ==>
      && (s.fields[i].InputOnly? <==> p.inputs[i].DummyInput?)
      && (s.fields[i].Slot? <==> p.inputs[i].ValueInput?)
      && (s.fields[i].Stmt? <==> p.inputs[i].StatementInput?)
    ensures forall i :: 0 <= i < |s.fields| && !s.fields[i].InputOnly? ==>
      && p.inputs[i].name == s.fields[i].key
      && (p.inputs[i].check.None? <==> s.fields[i].check == Wildcard)
      && (p.inputs[i].check.Some? ==> p.inputs[i].check.value == s.fields[i].check)
    ensures forall i :: 0 <= i < |s.fields| && !s.fields[i].Stmt? ==>
      p.inputs[i].content == s.fields[i].content
  {
    InitPlan(s.colour, "", "", s.next, s.prev, s.output, s.inline,
      seq(|s.fields|, i requires 0 <= i < |s.fields| => Describe(s.fields[i])))
  }

  /** A row appended to the builder adds exactly one input at the end of
      `init`'s inputs and leaves the earlier inputs as they were. */
  lemma InitAppend(b: Builder, f: Field)
    ensures var before := Init(Capture(b)).inputs;
            var after := Init(Capture(b.(fields := b.fields + [f]))).inputs;
            |after| == |before| + 1 && after[..|before|] == before && after[|before|] == Describe(f)
  {
  }

  /** `slot(key, {allow, content})` yields one value input named `key`
      whose check is `allow` (none for the wildcard) and whose row content
      is what the callback pushed. */
  lemma SlotYieldsValueInput(b: Builder, key: string, allow: string, script: seq<ContentCall>)
    ensures var inputs := Init(Capture(AddSlot(b, key, allow, script))).inputs;
            |inputs| == |b.fields| + 1 && inputs[|b.fields|] == ValueInput(key, CheckOf(allow), Flatten(script))
  {
  }

  /** `stmt(key, {allow})` yields one statement input named `key`. */
  lemma StmtYieldsStatementInput(b: Builder, key: string, allow: string)
    ensures var inputs := Init(Capture(AddStmt(b, key, allow))).inputs;
            |inputs| == |b.fields| + 1 && inputs[|b.fields|] == StatementInput(key, CheckOf(allow))
  {
  }

  /** A fresh builder registers a block of hue 120 that can be stacked in
      both directions with any block, has no output, leaves the inline
      layout to the host and has no inputs. */
  lemma FreshBuilderInit(name: string)
    ensures var p := Init(Capture(New(name)));
            && p.colour == Hue(120) && p.prev == Some("*") && p.next == Some("*")
            && p.output.None? && p.inline.None? && p.inputs == []
  {
  }

  /** An expression block never gets a previous or next connection. */
  lemma ExpressionHasNoStack(b: Builder, t: string)
    ensures var p := Init(Capture(Outputs(b, t)));
            p.prev.None? && p.next.None? && p.output == Some(t)
  {
  }
}
