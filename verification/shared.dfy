/** The data shapes shared by the builder, the block initializer and the code
    generator: content items, fields, colours, the wildcard and no-connection
    type indicators and the left-biased key-map merge used for the
    type-level field map. */
module Shared {

  /** A block colour: a hue number or an explicit colour string. */
  datatype Colour = Hue(hue: int) | Hex(hex: string)

  /** The wildcard type indicator: accepts any type. */
  const Wildcard: string := "*"

  /** The type indicator that removes a connection altogether. */
  const NoConnection: string := "none"

  /** The option definition a dropdown is declared with, kept exactly as
      given: a list of values (each its own label), a label-to-value record,
      or a factory recomputed at render time whose declared value range is
      `range`. */
  datatype DropdownOptions =
    | ValueList(values: seq<string>)
    | LabelledValues(entries: seq<(string, string)>)
    | Computed(factory: string, range: set<string>)

  /** The values a dropdown can take: its option value type. */
  function OptionValues(o: DropdownOptions): (r: set<string>)
    ensures o.ValueList? ==> forall i :: 0 <= i < |o.values| ==> o.values[i] in r
    ensures o.LabelledValues? ==> forall i :: 0 <= i < |o.entries| ==> o.entries[i].1 in r
    ensures o.Computed? ==> r == o.range
  {
    match o
    case ValueList(vs) => set i | 0 <= i < |vs| :: vs[i]
    case LabelledValues(es) => set i | 0 <= i < |es| :: es[i].1
    case Computed(_, range) => range
  }

  /** One content item of an input row. Only `Text` has no key. */
  datatype Content =
    | Text(value: string)
    | Dropdown(key: string, options: DropdownOptions)
    | Number(key: string, number: int)
    | Textbox(key: string, text: string)
    | Variable(key: string, varTypes: seq<string>)
  {
    predicate Keyed() {
      !Text?
    }
  }

  /** One input row of a block: a content-only row, a value slot with a
      type check and its own content, or a statement slot. */
  datatype Field =
    | InputOnly(content: seq<Content>)
    | Slot(key: string, check: string, content: seq<Content>)
    | Stmt(key: string, check: string)

  /** The value type the type-level field map records for a key. */
  datatype FieldType = NumberType | StringType | OneOf(values: set<string>)

  /** Left-biased merge of two key maps: every key of either, with the type
      from `a` wherever `a` has the key. */
  function Join<K, V>(a: map<K, V>, b: map<K, V>): (r: map<K, V>)
    ensures r.Keys == a.Keys + b.Keys
    ensures forall k :: k in a ==> r[k] == a[k]
    ensures forall k :: k in b && k !in a ==> r[k] == b[k]
  {
    b + a
  }
}
