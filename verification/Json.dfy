/** JSON values as both sides see them. */
module Json {
  import opened Wrappers

  /** Numbers are kept as the text they print as. */
  datatype Json =
    | Null
    | Bool(b: bool)
    | Num(text: string)
    | Str(s: string)
    | Arr(items: seq<Json>)
    | Obj(fields: seq<Field>)

  datatype Field = Field(name: string, value: Json)

  /** What the host language supplies: a parser, the text of a value that is no string, and which number texts denote zero. */
  datatype Host = Host(parse: string -> Option<Json>, text: Json -> string, zero: string -> bool)

  /** The value under a name, or null; of repeated names the last one counts. */
  function LastField(fields: seq<Field>, name: string): Json {
    if fields == [] then Null
    else if fields[|fields| - 1].name == name then fields[|fields| - 1].value
    else LastField(fields[..|fields| - 1], name)
  }

  lemma LastFieldSnoc(fields: seq<Field>, f: Field, name: string)
    ensures LastField(fields + [f], name) == if f.name == name then f.value else LastField(fields, name)
  {
  }

  lemma LastFieldOfFour(a: Field, b: Field, c: Field, d: Field, name: string)
    ensures LastField([a, b, c, d], name) == (if d.name == name then d.value else if c.name == name then c.value
              else if b.name == name then b.value else if a.name == name then a.value else Null)
  {
    LastFieldSnoc([], a, name);
    LastFieldSnoc([a], b, name);
    LastFieldSnoc([a, b], c, name);
    LastFieldSnoc([a, b, c], d, name);
    assert [a, b, c, d] == [a, b, c] + [d] && [a, b, c] == [a, b] + [c] && [a, b] == [a] + [b] && [a] == [] + [a];
  }
}
