/** The toolbox plugin: a store of block name to meta, filled by the
    did-register hook (last write wins, insertion order kept), a
    will-register hook that recolours a block from its category, and the
    pure function that groups the stored blocks into categories. */
module Toolbox {
  import opened Wrappers
  import opened Shared
  import opened BlockBuilder
  import opened Registration

  type Meta = map<string, MetaValue>

  /** The meta key naming a block's category. */
  const CategoryKey: string := "category"

  /** The meta key holding a block's shadow inputs. */
  const ShadowKey: string := "shadow"

  /** The configured categories, in declaration order. A record cannot hold
      a name twice, so the names are distinct. */
  datatype ToolboxConfig = ToolboxConfig(categories: seq<(string, Colour)>)

  /** The block store: names in insertion order, each with the meta it was
      last registered with. */
  type Store = seq<(string, Meta)>

  ghost predicate DistinctNames(store: Store)
  {
    forall i, j :: 0 <= i < j < |store| ==> store[i].0 != store[j].0
  }

  /** The block's category, when its meta names one. */
  function CategoryOf(m: Meta): (c: Option<string>)
    ensures c.Some? <==> CategoryKey in m && m[CategoryKey].MetaText?
    ensures c.Some? ==> c.value == m[CategoryKey].text
  {
    if CategoryKey in m && m[CategoryKey].MetaText? then Some(m[CategoryKey].text) else None
  }

  /** The block's shadow inputs; none when its meta has no shadow map. */
  function ShadowOf(m: Meta): (s: map<string, ShadowDef>)
    ensures !(ShadowKey in m && m[ShadowKey].MetaShadow?) ==> s == map[]
    ensures ShadowKey in m && m[ShadowKey].MetaShadow? ==> s == m[ShadowKey].shadow
  {
    if ShadowKey in m && m[ShadowKey].MetaShadow? then m[ShadowKey].shadow else map[]
  }

  /** The position of `name` in the store: its first occurrence. */
  function IndexOf(store: Store, name: string): (r: Option<nat>)
    ensures r.Some? ==> r.value < |store| && store[r.value].0 == name
    ensures r.Some? ==> forall j :: 0 <= j < r.value ==> store[j].0 != name
    ensures r.None? ==> forall i :: 0 <= i < |store| ==> store[i].0 != name
  {
    if |store| == 0 then None
    else if store[0].0 == name then Some(0)
    else
      match IndexOf(store[1..], name)
      case None => None
      case Some(i) => Some(i + 1)
  }

  /** The meta stored for `name`. */
  function Get(store: Store, name: string): (r: Option<Meta>)
    ensures r.Some? <==> exists i :: 0 <= i < |store| && store[i].0 == name
    ensures DistinctNames(store) ==>
      forall i :: 0 <= i < |store| && store[i].0 == name ==> r == Some(store[i].1)
  {
    match IndexOf(store, name)
    case None => None
    case Some(i) => Some(store[i].1)
  }

  /** `store = {...store, [name]: meta}`: the entry for `name` is replaced
      where it stands, or added at the end when `name` is new. */
  function Put(store: Store, name: string, meta: Meta): (r: Store)
    ensures Get(r, name) == Some(meta)
    ensures forall n :: n != name ==> Get(r, n) == Get(store, n)
    ensures |r| == if Get(store, name).Some? then |store| else |store| + 1
    ensures forall i :: 0 <= i < |store| ==> r[i].0 == store[i].0
    ensures DistinctNames(store) ==> DistinctNames(r)
  {
    match IndexOf(store, name)
    case Some(i) =>
      var r := store[i := (name, meta)];
      assert IndexOf(r, name) == Some(i) by {
        assert r[i].0 == name;
        assert forall j :: 0 <= j < i ==> r[j].0 == store[j].0 != name;
        var k := IndexOf(r, name);
        assert k.Some?;
        assert k.value <= i;
      }
      forall n | n != name ensures Get(r, n) == Get(store, n) {
        SameNamesSameIndex(store, r, n);
      }
      r
    case None =>
      var r := store + [(name, meta)];
      assert IndexOf(r, name) == Some(|store|) by {
        assert r[|store|].0 == name;
        assert forall j :: 0 <= j < |store| ==> r[j].0 == store[j].0 != name;
        var k := IndexOf(r, name);
        assert k.Some?;
      }
      forall n | n != name ensures Get(r, n) == Get(store, n) {
        PrefixIndex(store, r, n);
      }
      r
  }

  /** Stores with the same names in the same places find each name at the
      same place. */
  lemma SameNamesSameIndex(s1: Store, s2: Store, n: string)
    requires |s1| == |s2| && forall i :: 0 <= i < |s1| ==> s1[i].0 == s2[i].0
    ensures IndexOf(s1, n) == IndexOf(s2, n)
    ensures forall i :: 0 <= i < |s1| && IndexOf(s1, n) == Some(i) && s1[i] == s2[i] ==> Get(s1, n) == Get(s2, n)
  {
  }

  /** Appending an entry for another name does not move any name found
      before. */
  lemma PrefixIndex(store: Store, r: Store, n: string)
    requires |r| == |store| + 1 && r[..|store|] == store && r[|store|].0 != n
    ensures Get(r, n) == Get(store, n)
  {
  }

  /** Storing a name twice keeps only the second meta. */
  lemma PutLastWins(store: Store, name: string, m1: Meta, m2: Meta)
    ensures Put(Put(store, name, m1), name, m2) == Put(store, name, m2)
  {
    var once := Put(store, name, m1);
    match IndexOf(store, name)
    case Some(i) =>
      SameNamesSameIndex(store, once, name);
    case None =>
      assert IndexOf(once, name) == Some(|store|) by {
        assert once[|store|].0 == name;
        assert forall j :: 0 <= j < |store| ==> once[j].0 == store[j].0 != name;
        assert IndexOf(once, name).Some?;
      }
  }

  /** The colour configured for `category`. */
  function ColourOf(config: ToolboxConfig, category: string): (r: Option<Colour>)
    ensures r.Some? <==> exists i :: 0 <= i < |config.categories| && config.categories[i].0 == category
    ensures r.Some? ==> exists i :: 0 <= i < |config.categories| && config.categories[i] == (category, r.value)
  {
    ColourFrom(config.categories, category)
  }

  function ColourFrom(categories: seq<(string, Colour)>, category: string): (r: Option<Colour>)
    ensures r.Some? <==> exists i :: 0 <= i < |categories| && categories[i].0 == category
    ensures r.Some? ==> exists i :: 0 <= i < |categories| && categories[i] == (category, r.value)
  {
    if |categories| == 0 then None
    else if categories[0].0 == category then Some(categories[0].1)
    else
      var r := ColourFrom(categories[1..], category);
      assert forall i :: 0 <= i < |categories| - 1 ==> categories[1..][i] == categories[i + 1];
      r
  }

  /** The `inputs` of a toolbox block entry: one shadow per shadow target. */
  datatype ShadowInput = ShadowInput(blockType: string, fields: map<string, string>)

  /** A toolbox block entry (kind "block"). */
  datatype BlockEntry = BlockEntry(blockType: string, inputs: map<string, ShadowInput>)

  /** A toolbox category entry (kind "category"). */
  datatype CategoryEntry = CategoryEntry(name: string, colour: Colour, contents: seq<BlockEntry>)

  /** A block's shadow map turned into toolbox inputs. */
  function Inputs(m: Meta): (r: map<string, ShadowInput>)
    ensures r.Keys == ShadowOf(m).Keys
    ensures forall t :: t in r ==> r[t] == ShadowInput(ShadowOf(m)[t].blockType, ShadowOf(m)[t].fields)
  {
    var shadow := ShadowOf(m);
    map t | t in shadow :: ShadowInput(shadow[t].blockType, shadow[t].fields)
  }

  /** A block entry for the stored block at `i`. */
  function EntryAt(store: Store, i: nat): BlockEntry
    requires i < |store|
  {
    BlockEntry(store[i].0, Inputs(store[i].1))
  }

  /** The entries of one category: the stored blocks whose category is
      `category`, in store order. */
  function Entries(store: Store, category: string): seq<BlockEntry>
  {
    if |store| == 0 then []
    else if CategoryOf(store[0].1) == Some(category) then [EntryAt(store, 0)] + Entries(store[1..], category)
    else Entries(store[1..], category)
  }

  /** Every entry of a category is a stored block of that category. */
  lemma {:induction false} EntriesSound(store: Store, category: string, j: nat)
    requires j < |Entries(store, category)|
    ensures exists i ::
      0 <= i < |store| && CategoryOf(store[i].1) == Some(category) && Entries(store, category)[j] == EntryAt(store, i)
  {
    var rest := Entries(store[1..], category);
    if CategoryOf(store[0].1) == Some(category) {
      if j == 0 {
        assert Entries(store, category)[0] == EntryAt(store, 0);
      } else {
        EntriesSound(store[1..], category, j - 1);
        var i :| 0 <= i < |store[1..]| && CategoryOf(store[1..][i].1) == Some(category)
          && rest[j - 1] == EntryAt(store[1..], i);
        assert Entries(store, category)[j] == rest[j - 1];
        assert EntryAt(store[1..], i) == EntryAt(store, i + 1);
      }
    } else {
      EntriesSound(store[1..], category, j);
      var i :| 0 <= i < |store[1..]| && CategoryOf(store[1..][i].1) == Some(category)
        && rest[j] == EntryAt(store[1..], i);
      assert EntryAt(store[1..], i) == EntryAt(store, i + 1);
    }
  }

  /** Every stored block of a category is among that category's entries. */
  lemma {:induction false} EntriesComplete(store: Store, category: string, i: nat)
    requires i < |store| && CategoryOf(store[i].1) == Some(category)
    ensures exists j :: 0 <= j < |Entries(store, category)| && Entries(store, category)[j] == EntryAt(store, i)
  {
    var rest := Entries(store[1..], category);
    if i == 0 {
      assert Entries(store, category)[0] == EntryAt(store, 0);
    } else {
      EntriesComplete(store[1..], category, i - 1);
      var j :| 0 <= j < |rest| && rest[j] == EntryAt(store[1..], i - 1);
      assert EntryAt(store[1..], i - 1) == EntryAt(store, i);
      if CategoryOf(store[0].1) == Some(category) {
        assert Entries(store, category)[j + 1] == rest[j];
      } else {
        assert Entries(store, category)[j] == rest[j];
      }
    }
  }

  /** `buildToolbox()`: one category entry per configured category, with its
      name, its colour and its stored blocks. */
  function BuildToolbox(config: ToolboxConfig, store: Store): (r: seq<CategoryEntry>)
    ensures |r| == |config.categories|
    ensures forall i :: 0 <= i < |r| ==>
      r[i].name == config.categories[i].0 && r[i].colour == config.categories[i].1
  {
    seq(|config.categories|, i requires 0 <= i < |config.categories| =>
      CategoryEntry(config.categories[i].0, config.categories[i].1, Entries(store, config.categories[i].0)))
  }

  /** A stored block is listed in a category exactly when its meta names that
      category, with its shadow map as inputs; a block without a category is
      listed nowhere. */
  lemma ListedIffCategory(config: ToolboxConfig, store: Store, k: nat, name: string)
    requires DistinctNames(store)
    requires k < |config.categories|
    ensures var contents := BuildToolbox(config, store)[k].contents;
            (exists j :: 0 <= j < |contents| && contents[j].blockType == name)
              <==> Get(store, name).Some? && CategoryOf(Get(store, name).value) == Some(config.categories[k].0)
    ensures var contents := BuildToolbox(config, store)[k].contents;
            forall j :: 0 <= j < |contents| && contents[j].blockType == name ==>
              Get(store, name).Some? && contents[j].inputs == Inputs(Get(store, name).value)
  {
    var category := config.categories[k].0;
    var contents := BuildToolbox(config, store)[k].contents;
    assert contents == Entries(store, category);
    if Get(store, name).Some? && CategoryOf(Get(store, name).value) == Some(category) {
      var i :| 0 <= i < |store| && store[i].0 == name;
      EntriesComplete(store, category, i);
      var j :| 0 <= j < |contents| && contents[j] == EntryAt(store, i);
      assert contents[j].blockType == name;
    }
    forall j | 0 <= j < |contents| && contents[j].blockType == name
      ensures Get(store, name).Some? && CategoryOf(Get(store, name).value) == Some(category)
      ensures contents[j].inputs == Inputs(Get(store, name).value)
    {
      EntriesSound(store, category, j);
      var i :| 0 <= i < |store| && CategoryOf(store[i].1) == Some(category) && contents[j] == EntryAt(store, i);
      assert store[i].0 == name;
    }
  }

  /** The will-register hook: the block takes its category's configured
      colour when it names a configured category, and is otherwise left as
      it was. */
  function BlockWillRegister(config: ToolboxConfig, b: Builder): (r: Builder)
    ensures CategoryOf(b.meta).Some? && ColourOf(config, CategoryOf(b.meta).value).Some? ==>
      r == SetColour(b, ColourOf(config, CategoryOf(b.meta).value).value)
    ensures CategoryOf(b.meta).None? || ColourOf(config, CategoryOf(b.meta).value).None? ==> r == b
  {
    match CategoryOf(b.meta)
    case None => b
    case Some(c) =>
      match ColourOf(config, c)
      case None => b
      case Some(colour) => SetColour(b, colour)
  }

  /** The did-register hook: the block's meta stored under its name. */
  function BlockDidRegister(store: Store, b: Builder): (r: Store)
    ensures Get(r, b.name) == Some(b.meta)
    ensures forall n :: n != b.name ==> Get(r, n) == Get(store, n)
  {
    Put(store, b.name, b.meta)
  }

  /** `register()`: the plugin with both hooks. */
  function ToolboxPlugin(config: ToolboxConfig): (p: Plugin<Store>)
    ensures p.willRegister.Some? && p.didRegister.Some?
    ensures forall b, s :: p.willRegister.value(b, s) == (BlockWillRegister(config, b), s)
    ensures forall b, s :: p.didRegister.value(b, s) == (b, BlockDidRegister(s, b))
  {
    Plugin("better-blockly/plugin-toolbox",
      Some((b: Builder, s: Store) => (BlockWillRegister(config, b), s)),
      Some((b: Builder, s: Store) => (b, BlockDidRegister(s, b))))
  }

  /** Registering a block with the toolbox plugin alone lists it under the
      configured category its meta names, and leaves every other stored
      block's entry as it was. */
  lemma RegisteredBlockListed(config: ToolboxConfig, b: Builder, store: Store, k: nat)
    requires DistinctNames(store)
    requires k < |config.categories|
    ensures var plugins := [ToolboxPlugin(config)];
            var (b1, s1) := RunWill(plugins, b, store);
            var store' := RunDid(plugins, b1, s1).1;
            var contents := BuildToolbox(config, store')[k].contents;
            && ((exists j :: 0 <= j < |contents| && contents[j].blockType == b.name)
                  <==> CategoryOf(b.meta) == Some(config.categories[k].0))
            && (forall n :: n != b.name ==> Get(store', n) == Get(store, n))
  {
    var plugins := [ToolboxPlugin(config)];
    assert plugins[..0] == [];
    var b1 := BlockWillRegister(config, b);
    assert RunWill(plugins, b, store) == (b1, store);
    var store' := BlockDidRegister(store, b1);
    assert RunDid(plugins, b1, store) == (b1, store');
    assert b1.meta == b.meta && b1.name == b.name;
    ListedIffCategory(config, store', k, b.name);
  }
}
