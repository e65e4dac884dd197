/** The content assembler: each call appends one content item to the row
    being built, in call order, and (at the type level) extends the map from
    declared keys to value types. */
module ContentBuilder {
  import opened Shared

  /** The builder of one input row: the items pushed to its sink so far. */
  datatype ContentView = ContentView(items: seq<Content>)

  /** A builder whose sink has received nothing yet. */
  const Fresh: ContentView := ContentView([])

  /** `b` after one more item `c` reached the sink. */
  predicate PushedOne(b: ContentView, r: ContentView, c: Content)
  {
    |r.items| == |b.items| + 1 && r.items[..|b.items|] == b.items && r.items[|b.items|] == c
  }

  function Push(b: ContentView, c: Content): (r: ContentView)
    ensures PushedOne(b, r, c)
  {
    ContentView(b.items + [c])
  }

  /** A keyless text label. */
  function TextItem(b: ContentView, value: string): (r: ContentView)
    ensures PushedOne(b, r, Text(value))
    ensures !r.items[|b.items|].Keyed()
  {
    Push(b, Text(value))
  }

  /** A dropdown keyed `key`, its options kept exactly as given. */
  function DropdownItem(b: ContentView, key: string, options: DropdownOptions): (r: ContentView)
    ensures PushedOne(b, r, Dropdown(key, options))
    ensures r.items[|b.items|].Keyed() && r.items[|b.items|].key == key
  {
    Push(b, Dropdown(key, options))
  }

  /** A number box keyed `key` with default `value`. */
  function NumberItem(b: ContentView, key: string, value: int): (r: ContentView)
    ensures PushedOne(b, r, Number(key, value))
    ensures r.items[|b.items|].Keyed() && r.items[|b.items|].key == key
  {
    Push(b, Number(key, value))
  }

  /** A text box keyed `key` with default `value`. */
  function TextboxItem(b: ContentView, key: string, value: string): (r: ContentView)
    ensures PushedOne(b, r, Textbox(key, value))
    ensures r.items[|b.items|].Keyed() && r.items[|b.items|].key == key
  {
    Push(b, Textbox(key, value))
  }

  /** A variable picker keyed `key` whose variable types are exactly `types`. */
  function VariableItem(b: ContentView, key: string, types: seq<string>): (r: ContentView)
    ensures PushedOne(b, r, Variable(key, types))
    ensures r.items[|b.items|].Keyed() && r.items[|b.items|].varTypes == types
  {
    Push(b, Variable(key, types))
  }

  /** One call a content callback makes on the builder it is given. A custom
      call records the key it declares, the value type it declares for that
      key, and the calls its function makes on the same builder. */
  datatype ContentCall =
    | CallText(value: string)
    | CallDropdown(key: string, options: DropdownOptions)
    | CallNumber(key: string, number: int)
    | CallTextbox(key: string, text: string)
    | CallVariable(key: string, types: seq<string>)
    | CallCustom(key: string, declared: FieldType, body: seq<ContentCall>)

  /** The builder after one call. */
  function Apply(b: ContentView, c: ContentCall): ContentView
    decreases c, 0
  {
    match c
    case CallText(v) => TextItem(b, v)
    case CallDropdown(k, o) => DropdownItem(b, k, o)
    case CallNumber(k, n) => NumberItem(b, k, n)
    case CallTextbox(k, t) => TextboxItem(b, k, t)
    case CallVariable(k, ts) => VariableItem(b, k, ts)
    case CallCustom(_, _, body) => Run(b, body)
  }

  /** The builder after a callback's calls, made one after another. */
  function Run(b: ContentView, script: seq<ContentCall>): ContentView
    decreases script, 1
  {
    if |script| == 0 then b else Run(Apply(b, script[0]), script[1..])
  }

  /** Reference definition: the items one call pushes. */
  function ItemsOf(c: ContentCall): seq<Content>
    decreases c, 0
  {
    match c
    case CallText(v) => [Text(v)]
    case CallDropdown(k, o) => [Dropdown(k, o)]
    case CallNumber(k, n) => [Number(k, n)]
    case CallTextbox(k, t) => [Textbox(k, t)]
    case CallVariable(k, ts) => [Variable(k, ts)]
    case CallCustom(_, _, body) => Flatten(body)
  }

  /** Reference definition: the items a whole callback pushes, in call order. */
  function Flatten(script: seq<ContentCall>): seq<Content>
    decreases script, 1
  {
    if |script| == 0 then [] else ItemsOf(script[0]) + Flatten(script[1..])
  }

  /** One call appends exactly its own items and keeps everything before. */
  lemma {:induction false} ApplyAppends(b: ContentView, c: ContentCall)
    ensures Apply(b, c).items == b.items + ItemsOf(c)
    decreases c, 0
  {
    match c
    case CallCustom(_, _, body) => RunAppends(b, body);
    case _ =>
  }

  /** A callback appends exactly the items of its calls, in call order, and
      keeps every item pushed before it. */
  lemma {:induction false} RunAppends(b: ContentView, script: seq<ContentCall>)
    ensures Run(b, script).items == b.items + Flatten(script)
    decreases script, 1
  {
    if |script| > 0 {
      ApplyAppends(b, script[0]);
      RunAppends(Apply(b, script[0]), script[1..]);
      assert (b.items + ItemsOf(script[0])) + Flatten(script[1..])
          == b.items + (ItemsOf(script[0]) + Flatten(script[1..]));
    }
  }

  /** `custom(key, func)`: pushes nothing of its own; the calls `func` makes
      on the same builder when given `key` are all that reach the sink, and
      the builder itself is the result. */
  function Custom(b: ContentView, key: string, func: string -> seq<ContentCall>): (r: ContentView)
    ensures r.items == b.items + Flatten(func(key))
  {
    RunAppends(b, func(key));
    Run(b, func(key))
  }

  /** `createCustomContentView(view)`: a custom function that runs `view` with
      the key on its receiver and then returns that receiver, whatever `view`
      itself returns. */
  function CreateCustomContentView(view: string -> seq<ContentCall>): (w: (ContentView, string) -> ContentView)
    ensures forall b, key :: w(b, key).items == b.items + Flatten(view(key))
  {
    (b: ContentView, key: string) => Custom(b, key, view)
  }

  // ---------------------------------------------------------------------
  // The type-level key map

  /** The value type a keyed call declares for its key. */
  function CallType(c: ContentCall): FieldType
    requires !c.CallText?
  {
    match c
    case CallDropdown(_, o) => OneOf(OptionValues(o))
    case CallNumber(_, _) => NumberType
    case CallTextbox(_, _) => StringType
    case CallVariable(_, _) => StringType
    case CallCustom(_, v, _) => v
  }

  /** The key map after one call: a keyed call joins `{key: type}` on the
      right; a text call leaves the map alone. The calls inside a custom
      body do not reach the map. */
  ghost function DeclareCall(t: map<string, FieldType>, c: ContentCall): map<string, FieldType>
  {
    if c.CallText? then t else Join(t, map[c.key := CallType(c)])
  }

  /** The key map after a whole callback. */
  ghost function Declared(t: map<string, FieldType>, script: seq<ContentCall>): map<string, FieldType>
    decreases script
  {
    if |script| == 0 then t else Declared(DeclareCall(t, script[0]), script[1..])
  }

  /** The keys a callback's own calls declare. */
  ghost function CallKeys(script: seq<ContentCall>): set<string>
  {
    set i | 0 <= i < |script| && !script[i].CallText? :: script[i].key
  }

  /** The key map gains exactly the declared keys, and a key already in the
      map keeps its earlier type (the merge is left-biased). */
  lemma {:induction false} DeclaredExtends(t: map<string, FieldType>, script: seq<ContentCall>)
    ensures Declared(t, script).Keys == t.Keys + CallKeys(script)
    ensures forall k :: k in t ==> Declared(t, script)[k] == t[k]
    decreases script
  {
    if |script| > 0 {
      var t' := DeclareCall(t, script[0]);
      DeclaredExtends(t', script[1..]);
      assert CallKeys(script) == (if script[0].CallText? then {} else {script[0].key}) + CallKeys(script[1..]) by {
        forall k | k in CallKeys(script)
          ensures k in (if script[0].CallText? then {} else {script[0].key}) + CallKeys(script[1..])
        {
          var i :| 0 <= i < |script| && !script[i].CallText? && script[i].key == k;
          if i > 0 {
            assert script[1..][i - 1] == script[i];
          }
        }
        forall k | k in CallKeys(script[1..]) ensures k in CallKeys(script) {
          var i :| 0 <= i < |script[1..]| && !script[1..][i].CallText? && script[1..][i].key == k;
          assert script[i + 1] == script[1..][i];
        }
      }
    }
  }

  /** A key declared by a callback with no earlier declaration gets the type
      of its first declaring call. */
  lemma {:induction false} DeclaredFirstWins(t: map<string, FieldType>, script: seq<ContentCall>, i: nat)
    requires i < |script| && !script[i].CallText?
    requires script[i].key !in t
    requires forall j :: 0 <= j < i && !script[j].CallText? ==> script[j].key != script[i].key
    ensures script[i].key in Declared(t, script)
    ensures Declared(t, script)[script[i].key] == CallType(script[i])
    decreases script
  {
    var t' := DeclareCall(t, script[0]);
    if i == 0 {
      DeclaredExtends(t', script[1..]);
    } else {
      DeclaredFirstWins(t', script[1..], i - 1);
    }
  }

  /** The keys of the keyed items among `items`. */
  ghost function ItemKeys(items: seq<Content>): set<string>
  {
    set i | 0 <= i < |items| && items[i].Keyed() :: items[i].key
  }

  /** A callback without custom calls. */
  ghost predicate Plain(script: seq<ContentCall>)
  {
    forall i :: 0 <= i < |script| ==> !script[i].CallCustom?
  }

  lemma ItemKeysAppend(a: seq<Content>, b: seq<Content>)
    ensures ItemKeys(a + b) == ItemKeys(a) + ItemKeys(b)
  {
    forall k | k in ItemKeys(a + b) ensures k in ItemKeys(a) + ItemKeys(b) {
      var i :| 0 <= i < |a + b| && (a + b)[i].Keyed() && (a + b)[i].key == k;
      if i >= |a| {
        assert b[i - |a|] == (a + b)[i];
      }
    }
    forall k | k in ItemKeys(a) ensures k in ItemKeys(a + b) {
      var i :| 0 <= i < |a| && a[i].Keyed() && a[i].key == k;
      assert (a + b)[i] == a[i];
    }
    forall k | k in ItemKeys(b) ensures k in ItemKeys(a + b) {
      var i :| 0 <= i < |b| && b[i].Keyed() && b[i].key == k;
      assert (a + b)[i + |a|] == b[i];
    }
  }

  /** Without custom calls, the keys the type-level map gains are exactly the
      keys of the items that reach the sink. */
  lemma {:induction false} PlainKeysAreItemKeys(script: seq<ContentCall>)
    requires Plain(script)
    ensures CallKeys(script) == ItemKeys(Flatten(script))
  {
    if |script| > 0 {
      PlainKeysAreItemKeys(script[1..]);
      ItemKeysAppend(ItemsOf(script[0]), Flatten(script[1..]));
      var one := ItemsOf(script[0]);
      assert |one| == 1 && one[0].Keyed() == !script[0].CallText?;
      assert !script[0].CallText? ==> one[0].key == script[0].key;
      assert ItemKeys(one) == (if script[0].CallText? then {} else {script[0].key}) by {
        if !script[0].CallText? {
          assert one[0].key in ItemKeys(one);
        }
      }
      forall k | k in CallKeys(script)
        ensures k in (if script[0].CallText? then {} else {script[0].key}) + CallKeys(script[1..])
      {
        var i :| 0 <= i < |script| && !script[i].CallText? && script[i].key == k;
        if i > 0 {
          assert script[1..][i - 1] == script[i];
        }
      }
      forall k | k in CallKeys(script[1..]) ensures k in CallKeys(script) {
        var i :| 0 <= i < |script[1..]| && !script[1..][i].CallText? && script[1..][i].key == k;
        assert script[i + 1] == script[1..][i];
      }
    }
  }
}
