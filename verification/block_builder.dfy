/** The block definition builder: connection typing, colour, inline flag,
    the plugin meta bag and the ordered list of input rows, each changed by
    one fluent call. */
module BlockBuilder {
  import opened Wrappers
  import opened Shared
  import opened ContentBuilder

  /** A default child block a toolbox entry pre-fills into one input. */
  datatype ShadowDef = ShadowDef(blockType: string, fields: map<string, string>)

  /** A value in the meta bag. Plugins choose the keys; the toolbox plugin
      reads a category name and a shadow map, other plugins store values
      this model does not look into. */
  datatype MetaValue =
    | MetaText(text: string)
    | MetaShadow(shadow: map<string, ShadowDef>)
    | MetaOpaque(tag: string)

  /** The builder's state. `None` stands for the source's `null`. */
  datatype Builder = Builder(
    name: string,
    prev: Option<string>,
    next: Option<string>,
    output: Option<string>,
    colour: Colour,
    inline: Option<bool>,
    meta: map<string, MetaValue>,
    fields: seq<Field>)

  /** The colour a fresh builder starts with. */
  const DefaultHue: int := 120

  /** A fresh builder for block `name`. */
  function New(name: string): (b: Builder)
    ensures b.name == name
    ensures b.colour == Hue(DefaultHue)
    ensures b.prev == Some(Wildcard) && b.next == Some(Wildcard)
    ensures b.output.None? && b.inline.None?
    ensures |b.fields| == 0 && |b.meta| == 0
  {
    Builder(name, Some(Wildcard), Some(Wildcard), None, Hue(DefaultHue), None, map[], [])
  }

  /** The connection setting a `follows`/`preceeds` argument selects:
      "none" clears it, anything else is kept verbatim. */
  function ConnectionOf(t: string): (c: Option<string>)
    ensures c.None? <==> t == NoConnection
    ensures c.Some? ==> c.value == t
  {
    if t == NoConnection then None else Some(t)
  }

  function Follows(b: Builder, t: string): (r: Builder)
    ensures r.prev.None? <==> t == NoConnection
    ensures r.prev.Some? ==> r.prev.value == t
    ensures r.(prev := b.prev) == b
  {
    b.(prev := ConnectionOf(t))
  }

  function Preceeds(b: Builder, t: string): (r: Builder)
    ensures r.next.None? <==> t == NoConnection
    ensures r.next.Some? ==> r.next.value == t
    ensures r.(next := b.next) == b
  {
    b.(next := ConnectionOf(t))
  }

  /** Makes the block an expression of type `t`: neither previous nor next
      connection survives, whatever was set before. */
  function Outputs(b: Builder, t: string): (r: Builder)
    ensures r.output == Some(t)
    ensures r.prev.None? && r.next.None?
    ensures r.(output := b.output, prev := b.prev, next := b.next) == b
  {
    b.(output := Some(t), next := None, prev := None)
  }

  function SetHue(b: Builder, hue: int): (r: Builder)
    ensures r.colour == Hue(hue)
    ensures r.(colour := b.colour) == b
  {
    b.(colour := Hue(hue))
  }

  function SetColour(b: Builder, c: Colour): (r: Builder)
    ensures r.colour == c
    ensures r.(colour := b.colour) == b
  {
    b.(colour := c)
  }

  function Inline(b: Builder): (r: Builder)
    ensures r.inline == Some(true)
    ensures r.(inline := b.inline) == b
  {
    b.(inline := Some(true))
  }

  function Extern(b: Builder): (r: Builder)
    ensures r.inline == Some(false)
    ensures r.(inline := b.inline) == b
  {
    b.(inline := Some(false))
  }

  /** Merges one entry into the meta bag. */
  function Meta(b: Builder, key: string, value: MetaValue): (r: Builder)
    ensures r.meta.Keys == b.meta.Keys + {key}
    ensures r.meta[key] == value
    ensures forall k :: k in b.meta && k != key ==> r.meta[k] == b.meta[k]
    ensures r.(meta := b.meta) == b
  {
    b.(meta := b.meta[key := value])
  }

  function GetMeta(b: Builder): (m: map<string, MetaValue>)
    ensures m.Keys == b.meta.Keys
    ensures forall k :: k in m ==> m[k] == b.meta[k]
  {
    b.meta
  }

  /** `fields'` is `fields` with exactly `f` appended. */
  predicate AppendedOne(fields: seq<Field>, fields': seq<Field>, f: Field)
  {
    |fields'| == |fields| + 1 && fields'[..|fields|] == fields && fields'[|fields|] == f
  }

  /** A content-only row holding what `script` pushes, in call order. */
  function AddContent(b: Builder, script: seq<ContentCall>): (r: Builder)
    ensures AppendedOne(b.fields, r.fields, InputOnly(Flatten(script)))
    ensures r.(fields := b.fields) == b
  {
    RunAppends(Fresh, script);
    b.(fields := b.fields + [InputOnly(Run(Fresh, script).items)])
  }

  /** A value slot `key` with check `allow`, holding what `script` pushes
      (an absent content callback is the empty script). */
  function AddSlot(b: Builder, key: string, allow: string, script: seq<ContentCall>): (r: Builder)
    ensures AppendedOne(b.fields, r.fields, Slot(key, allow, Flatten(script)))
    ensures r.(fields := b.fields) == b
  {
    RunAppends(Fresh, script);
    b.(fields := b.fields + [Slot(key, allow, Run(Fresh, script).items)])
  }

  /** A statement slot `key` with check `allow` and no content. */
  function AddStmt(b: Builder, key: string, allow: string): (r: Builder)
    ensures AppendedOne(b.fields, r.fields, Stmt(key, allow))
    ensures r.(fields := b.fields) == b
  {
    b.(fields := b.fields + [Stmt(key, allow)])
  }

  // ---------------------------------------------------------------------
  // Last call wins

  /** Two colour calls in a row: only the second is visible. */
  lemma ColourLastWins(b: Builder, c1: Colour, c2: Colour, hue: int)
    ensures SetColour(SetColour(b, c1), c2) == SetColour(b, c2)
    ensures SetHue(SetColour(b, c1), hue) == SetHue(b, hue)
    ensures SetColour(SetHue(b, hue), c2) == SetColour(b, c2)
  {
  }

  /** Two inline-flag calls in a row: only the second is visible. */
  lemma InlineLastWins(b: Builder)
    ensures Inline(Extern(b)) == Inline(b)
    ensures Extern(Inline(b)) == Extern(b)
  {
  }

  /** Two meta calls for one key: only the second is visible; for two
      different keys the order does not matter. */
  lemma MetaLastWins(b: Builder, k1: string, v1: MetaValue, k2: string, v2: MetaValue)
    ensures k1 == k2 ==> Meta(Meta(b, k1, v1), k2, v2) == Meta(b, k2, v2)
    ensures k1 != k2 ==> Meta(Meta(b, k1, v1), k2, v2) == Meta(Meta(b, k2, v2), k1, v1)
  {
  }

  /** The builder after the `meta(key, value)` calls `writes`, in call
      order. */
  function MetaCalls(b: Builder, writes: seq<(string, MetaValue)>): (r: Builder)
    ensures r.(meta := b.meta) == b
    decreases |writes|
  {
    if |writes| == 0 then b
    else
      var last := writes[|writes| - 1];
      Meta(MetaCalls(b, writes[..|writes| - 1]), last.0, last.1)
  }

  /** The value of the last call in `writes` that wrote `key`, if any. */
  function LastWrite(writes: seq<(string, MetaValue)>, key: string): Option<MetaValue>
    decreases |writes|
  {
    if |writes| == 0 then None
    else if writes[|writes| - 1].0 == key then Some(writes[|writes| - 1].1)
    else LastWrite(writes[..|writes| - 1], key)
  }

  /** The keys the calls `writes` write. */
  ghost function WrittenKeys(writes: seq<(string, MetaValue)>): set<string>
  {
    set i | 0 <= i < |writes| :: writes[i].0
  }

  /** One more call writes its own key besides the earlier ones. */
  lemma WrittenKeysSnoc(writes: seq<(string, MetaValue)>)
    requires |writes| > 0
    ensures WrittenKeys(writes) == WrittenKeys(writes[..|writes| - 1]) + {writes[|writes| - 1].0}
  {
    var init := writes[..|writes| - 1];
    forall k | k in WrittenKeys(writes) ensures k in WrittenKeys(init) + {writes[|writes| - 1].0} {
      var i :| 0 <= i < |writes| && writes[i].0 == k;
      if i < |init| {
        assert init[i].0 == k;
      }
    }
    forall k | k in WrittenKeys(init) ensures k in WrittenKeys(writes) {
      var i :| 0 <= i < |init| && init[i].0 == k;
      assert writes[i].0 == k;
    }
  }

  /** `getMeta()` after any sequence of `meta` calls on a fresh builder:
      its keys are exactly the keys written, each holding the value of the
      last call that wrote it. */
  lemma {:induction false} GetMetaAfterCalls(name: string, writes: seq<(string, MetaValue)>)
    ensures GetMeta(MetaCalls(New(name), writes)).Keys == WrittenKeys(writes)
    ensures var m := GetMeta(MetaCalls(New(name), writes));
            forall k :: LastWrite(writes, k) == (if k in m then Some(m[k]) else None)
    decreases |writes|
  {
    if |writes| > 0 {
      var init := writes[..|writes| - 1];
      var last := writes[|writes| - 1];
      GetMetaAfterCalls(name, init);
      WrittenKeysSnoc(writes);
      var m0 := MetaCalls(New(name), init).meta;
      var m := MetaCalls(New(name), writes).meta;
      assert m == m0[last.0 := last.1];
      forall k ensures LastWrite(writes, k) == (if k in m then Some(m[k]) else None) {
        if k != last.0 {
          assert LastWrite(writes, k) == LastWrite(init, k);
        }
      }
    }
  }

  /** `outputs` erases any earlier `follows`/`preceeds`. */
  lemma OutputsErasesConnections(b: Builder, t: string, p: string, n: string)
    ensures Outputs(Preceeds(Follows(b, p), n), t) == Outputs(b, t)
  {
  }

  // ---------------------------------------------------------------------
  // Declared keys

  /** The items of a row that the field lookup scans: none for a statement
      slot. */
  function RowItems(f: Field): (items: seq<Content>)
    ensures f.Stmt? ==> items == []
    ensures !f.Stmt? ==> items == f.content
  {
    if f.Stmt? then [] else f.content
  }

  /** The keys of the keyed items of the non-statement rows. */
  ghost function FieldKeys(fields: seq<Field>): set<string>
  {
    set i, j | 0 <= i < |fields| && 0 <= j < |RowItems(fields[i])| && RowItems(fields[i])[j].Keyed()
      :: RowItems(fields[i])[j].key
  }

  /** Appending a row adds exactly its item keys to the declared keys. */
  lemma FieldKeysAppend(fields: seq<Field>, f: Field)
    ensures FieldKeys(fields + [f]) == FieldKeys(fields) + ItemKeys(RowItems(f))
  {
    var fs := fields + [f];
    forall k | k in FieldKeys(fs) ensures k in FieldKeys(fields) + ItemKeys(RowItems(f)) {
      var i, j :| 0 <= i < |fs| && 0 <= j < |RowItems(fs[i])| && RowItems(fs[i])[j].Keyed()
        && RowItems(fs[i])[j].key == k;
      if i < |fields| {
        assert fs[i] == fields[i];
      }
    }
    forall k | k in FieldKeys(fields) ensures k in FieldKeys(fs) {
      var i, j :| 0 <= i < |fields| && 0 <= j < |RowItems(fields[i])| && RowItems(fields[i])[j].Keyed()
        && RowItems(fields[i])[j].key == k;
      assert fs[i] == fields[i];
    }
    forall k | k in ItemKeys(RowItems(f)) ensures k in FieldKeys(fs) {
      var j :| 0 <= j < |RowItems(f)| && RowItems(f)[j].Keyed() && RowItems(f)[j].key == k;
      assert fs[|fields|] == f;
    }
  }

  /** A content row adds to the declared field keys exactly the keys its
      callback declares at the type level (for callbacks without custom
      calls), so the field accessor accepts exactly the keys the type system
      lets the implementation name. */
  lemma ContentDeclaresKeys(b: Builder, script: seq<ContentCall>)
    requires Plain(script)
    ensures FieldKeys(AddContent(b, script).fields) == FieldKeys(b.fields) + Declared(map[], script).Keys
  {
    var r := AddContent(b, script);
    assert r.fields == b.fields + [InputOnly(Flatten(script))];
    FieldKeysAppend(b.fields, InputOnly(Flatten(script)));
    PlainKeysAreItemKeys(script);
    DeclaredExtends(map[], script);
  }

  /** A value slot adds to the declared field keys exactly the keys its
      content callback declares (for callbacks without custom calls); the
      slot's own key is a slot name, not a field key. */
  lemma SlotDeclaresKeys(b: Builder, key: string, allow: string, script: seq<ContentCall>)
    requires Plain(script)
    ensures FieldKeys(AddSlot(b, key, allow, script).fields) == FieldKeys(b.fields) + Declared(map[], script).Keys
  {
    var r := AddSlot(b, key, allow, script);
    assert r.fields == b.fields + [Slot(key, allow, Flatten(script))];
    FieldKeysAppend(b.fields, Slot(key, allow, Flatten(script)));
    PlainKeysAreItemKeys(script);
    DeclaredExtends(map[], script);
  }

  /** A statement slot declares no field key. */
  lemma StmtDeclaresNoFieldKey(b: Builder, key: string, allow: string)
    ensures FieldKeys(AddStmt(b, key, allow).fields) == FieldKeys(b.fields)
  {
  }
}
