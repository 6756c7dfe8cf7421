/** The citations an agent gives with its answer: which of them can be shaped, and into what. */
module Citations {
  import opened Wrappers
  import opened Json
  import opened Text
  import opened SseWire
  import ReactAgent

  /** What is stripped must be text, or so empty that a default stands in for it. */
  predicate Strippable(host: Host, j: Json) { ReactAgent.Falsy(host, j) || j.Str? }

  /** A cited object can be shaped if the three values stripped in it can; a number or a list there raises. */
  predicate Shapeable(host: Host, fields: seq<Field>) {
    && Strippable(host, LastField(fields, "object_type"))
    && Strippable(host, LastField(fields, "title"))
    && Strippable(host, LastField(fields, "snippet"))
  }

  /** Shaping the citations raises nothing; what is no list is ignored, and so is what is no object in one. */
  predicate Citable(host: Host, citations: Json) {
    citations.Arr? ==> forall c :: c in citations.items && c.Obj? ==> Shapeable(host, c.fields)
  }

  function Stripped(host: Host, j: Json, otherwise: string): string
    requires Strippable(host, j)
  {
    Trim(IsPySpace, if ReactAgent.Falsy(host, j) then otherwise else j.s)
  }

  /** The identifier under either name, as text. */
  function IdOf(host: Host, show: Json -> string, fields: seq<Field>): string {
    var own, other := LastField(fields, "object_id"), LastField(fields, "document_id");
    var id := if ReactAgent.Falsy(host, own) then other else own;
    Trim(IsPySpace, if ReactAgent.Falsy(host, id) then "" else if id.Str? then id.s else show(id))
  }

  const EXTRAS: seq<string> := ["score", "chunk_id", "folder_id", "folder_name", "anchor_url"]

  /** Those of the optional values that are there. */
  function Extras(fields: seq<Field>, names: seq<string>): (r: seq<Field>)
    ensures forall f: Field :: f in r ==> f.name in names && f.value == LastField(fields, f.name)
  {
    if names == [] then []
    else
      (if LastField(fields, names[0]).Null? then [] else [Field(names[0], LastField(fields, names[0]))]) + Extras(fields, names[1..])
  }

  function Cite(host: Host, show: Json -> string, fields: seq<Field>): Json
    requires Shapeable(host, fields)
  {
    var kind := Stripped(host, LastField(fields, "object_type"), "document");
    var id := IdOf(host, show, fields);
    var core := Core(if kind != "" then kind else "document", if id != "" then id else "unknown",
                     Stripped(host, LastField(fields, "title"), "未命名"),
                     Take(Stripped(host, LastField(fields, "snippet"), ""), 500));
    Obj(core + Extras(fields, EXTRAS))
  }

  /** What every citation says. */
  function Core(kind: string, id: string, title: string, snippet: string): seq<Field> {
    [Field("object_type", Str(kind)), Field("object_id", Str(id)), Field("title", Str(title)), Field("snippet", Str(snippet))]
  }

  /** All citations in order, as far as they are objects; none if one of them raises. */
  function CiteAll(host: Host, show: Json -> string, raw: seq<Json>): Option<seq<Json>> {
    if raw == [] then Some([])
    else
      var rest := CiteAll(host, show, raw[1..]);
      if !raw[0].Obj? then rest
      else if !Shapeable(host, raw[0].fields) || rest.None? then None
      else Some([Cite(host, show, raw[0].fields)] + rest.value)
  }

  /** The citations come out exactly if every object among them can be shaped. */
  lemma {:induction false} CiteAllIff(host: Host, show: Json -> string, raw: seq<Json>)
    ensures CiteAll(host, show, raw).Some? <==> Citable(host, Arr(raw))
  {
    if raw != [] {
      CiteAllIff(host, show, raw[1..]);
      assert raw == [raw[0]] + raw[1..];
    }
  }

  /** What every shaped citation has: a kind, an identifier and a short snippet. */
  predicate Tidy(j: Json) {
    && j.Obj?
    && LastField(j.fields, "object_type").Str? && LastField(j.fields, "object_type").s != ""
    && LastField(j.fields, "object_id").Str? && LastField(j.fields, "object_id").s != ""
    && LastField(j.fields, "title").Str?
    && LastField(j.fields, "snippet").Str? && |LastField(j.fields, "snippet").s| <= 500
  }

  lemma {:induction false} LastFieldBefore(a: seq<Field>, b: seq<Field>, name: string)
    requires forall f: Field :: f in b ==> f.name != name
    ensures LastField(a + b, name) == LastField(a, name)
  {
    if b == [] {
      assert a + b == a;
    } else {
      var init, last := b[..|b| - 1], b[|b| - 1];
      assert last in b && a + b == (a + init) + [last];
      LastFieldSnoc(a + init, last, name);
      LastFieldBefore(a, init, name);
    }
  }

  lemma CoreField(a: Field, b: Field, c: Field, d: Field, extras: seq<Field>, name: string)
    requires forall f: Field :: f in extras ==> f.name != name
    ensures LastField([a, b, c, d] + extras, name)
         == (if d.name == name then d.value else if c.name == name then c.value
             else if b.name == name then b.value else if a.name == name then a.value else Null)
  {
    LastFieldBefore([a, b, c, d], extras, name);
    LastFieldOfFour(a, b, c, d, name);
  }

  lemma CoreIsTidy(kind: string, id: string, title: string, snippet: string, extras: seq<Field>)
    requires kind != "" && id != "" && |snippet| <= 500
    requires forall f: Field :: f in extras ==> f.name in EXTRAS
    ensures Tidy(Obj(Core(kind, id, title, snippet) + extras))
  {
    var a, b, c, d := Field("object_type", Str(kind)), Field("object_id", Str(id)), Field("title", Str(title)), Field("snippet", Str(snippet));
    CoreField(a, b, c, d, extras, "object_type");
    CoreField(a, b, c, d, extras, "object_id");
    CoreField(a, b, c, d, extras, "title");
    CoreField(a, b, c, d, extras, "snippet");
  }

  lemma CiteIsTidy(host: Host, show: Json -> string, fields: seq<Field>)
    requires Shapeable(host, fields)
    ensures Tidy(Cite(host, show, fields))
  {
    var kind, id := Stripped(host, LastField(fields, "object_type"), "document"), IdOf(host, show, fields);
    CoreIsTidy(if kind != "" then kind else "document", if id != "" then id else "unknown",
               Stripped(host, LastField(fields, "title"), "未命名"),
               Take(Stripped(host, LastField(fields, "snippet"), ""), 500), Extras(fields, EXTRAS));
  }

  lemma {:induction false} LastFieldIsPlain(fields: seq<Field>, name: string)
    requires PlainNumbers(Obj(fields))
    ensures PlainNumbers(LastField(fields, name))
  {
    if fields != [] {
      assert fields[|fields| - 1] in fields;
      LastFieldIsPlain(fields[..|fields| - 1], name);
    }
  }

  lemma CiteIsPlain(host: Host, show: Json -> string, fields: seq<Field>)
    requires Shapeable(host, fields) && PlainNumbers(Obj(fields))
    ensures PlainNumbers(Cite(host, show, fields))
  {
    forall f: Field | f in Extras(fields, EXTRAS) ensures PlainNumbers(f.value) {
      LastFieldIsPlain(fields, f.name);
    }
    var kind, id := Stripped(host, LastField(fields, "object_type"), "document"), IdOf(host, show, fields);
    CoreIsPlain(if kind != "" then kind else "document", if id != "" then id else "unknown",
                Stripped(host, LastField(fields, "title"), "未命名"),
                Take(Stripped(host, LastField(fields, "snippet"), ""), 500), Extras(fields, EXTRAS));
  }

  lemma CoreIsPlain(kind: string, id: string, title: string, snippet: string, extras: seq<Field>)
    requires PlainNumbers(Obj(extras))
    ensures PlainNumbers(Obj(Core(kind, id, title, snippet) + extras))
  {
  }

  /** Each citation that comes out names an object, and prints on one line if what it was made from did. */
  lemma {:induction false} CitationsAreTidy(host: Host, show: Json -> string, raw: seq<Json>)
    requires CiteAll(host, show, raw).Some?
    ensures forall c :: c in CiteAll(host, show, raw).value ==> Tidy(c) && (PlainNumbers(Arr(raw)) ==> PlainNumbers(c))
  {
    if raw != [] {
      CitationsAreTidy(host, show, raw[1..]);
      if raw[0].Obj? {
        CiteIsTidy(host, show, raw[0].fields);
        if PlainNumbers(Arr(raw)) {
          assert raw[0] in raw;
          CiteIsPlain(host, show, raw[0].fields);
        }
      }
    }
  }

  // ----- What a citation says of its object, in plain terms -----

  /** The text under a name, if there is any. */
  function TextOr(j: Json, otherwise: string): string { if j.Str? && |j.s| > 0 then j.s else otherwise }

  /** The first identifier that says something, as text; neither may. */
  function Named(host: Host, show: Json -> string, fields: seq<Field>): string {
    var own, other := LastField(fields, "object_id"), LastField(fields, "document_id");
    if !ReactAgent.Falsy(host, own) then (if own.Str? then own.s else show(own))
    else if !ReactAgent.Falsy(host, other) then (if other.Str? then other.s else show(other))
    else ""
  }

  /** The citation has the stripped kind, identifier and title of its object, the beginning of its snippet, each with its default, and whatever optional values it has. */
  predicate Describes(host: Host, show: Json -> string, j: Json, fields: seq<Field>) {
    var kind := Trim(IsPySpace, TextOr(LastField(fields, "object_type"), "document"));
    var id := Trim(IsPySpace, Named(host, show, fields));
    var title := Trim(IsPySpace, TextOr(LastField(fields, "title"), "未命名"));
    var snippet := Trim(IsPySpace, TextOr(LastField(fields, "snippet"), ""));
    && j.Obj?
    && LastField(j.fields, "object_type") == Str(if kind == "" then "document" else kind)
    && LastField(j.fields, "object_id") == Str(if id == "" then "unknown" else id)
    && LastField(j.fields, "title") == Str(title)
    && LastField(j.fields, "snippet") == Str(if |snippet| > 500 then snippet[..500] else snippet)
    && forall name :: name in {"score", "chunk_id", "folder_id", "folder_name", "anchor_url"} ==> LastField(j.fields, name) == LastField(fields, name)
  }

  lemma {:induction false} LastFieldOver(a: seq<Field>, b: seq<Field>, name: string)
    ensures LastField(a + b, name) == if exists f: Field :: f in b && f.name == name then LastField(b, name) else LastField(a, name)
  {
    if b == [] {
      assert a + b == a;
    } else {
      var init, last := b[..|b| - 1], b[|b| - 1];
      assert last in b && b == init + [last] && a + b == (a + init) + [last];
      LastFieldSnoc(a + init, last, name);
      LastFieldSnoc(init, last, name);
      LastFieldOver(a, init, name);
    }
  }

  lemma {:induction false} ExtrasTell(fields: seq<Field>, names: seq<string>, name: string)
    requires name in names
    ensures (exists f: Field :: f in Extras(fields, names) && f.name == name) <==> !LastField(fields, name).Null?
    ensures LastField(Extras(fields, names), name) == LastField(fields, name)
  {
    var first := if LastField(fields, names[0]).Null? then [] else [Field(names[0], LastField(fields, names[0]))];
    var rest := Extras(fields, names[1..]);
    LastFieldOver(first, rest, name);
    if first != [] {
      LastFieldSnoc([], first[0], name);
      assert first == [] + first && first[0] in Extras(fields, names);
    }
    if name in names[1..] {
      ExtrasTell(fields, names[1..], name);
      if f: Field :| f in rest && f.name == name {
        assert f in Extras(fields, names);
      }
    }
  }

  lemma CoreTells(kind: string, id: string, title: string, snippet: string, fields: seq<Field>)
    ensures var all := Core(kind, id, title, snippet) + Extras(fields, EXTRAS);
      && LastField(all, "object_type") == Str(kind) && LastField(all, "object_id") == Str(id)
      && LastField(all, "title") == Str(title) && LastField(all, "snippet") == Str(snippet)
  {
    var a, b, c, d := Field("object_type", Str(kind)), Field("object_id", Str(id)), Field("title", Str(title)), Field("snippet", Str(snippet));
    CoreField(a, b, c, d, Extras(fields, EXTRAS), "object_type");
    CoreField(a, b, c, d, Extras(fields, EXTRAS), "object_id");
    CoreField(a, b, c, d, Extras(fields, EXTRAS), "title");
    CoreField(a, b, c, d, Extras(fields, EXTRAS), "snippet");
  }

  lemma ExtraTells(kind: string, id: string, title: string, snippet: string, fields: seq<Field>, name: string)
    requires name in EXTRAS
    ensures LastField(Core(kind, id, title, snippet) + Extras(fields, EXTRAS), name) == LastField(fields, name)
  {
    var core := Core(kind, id, title, snippet);
    LastFieldOver(core, Extras(fields, EXTRAS), name);
    ExtrasTell(fields, EXTRAS, name);
    LastFieldOfFour(core[0], core[1], core[2], core[3], name);
    assert core == [core[0], core[1], core[2], core[3]];
  }

  lemma StrippedTells(host: Host, j: Json, otherwise: string)
    requires Strippable(host, j)
    ensures Stripped(host, j, otherwise) == Trim(IsPySpace, TextOr(j, otherwise))
  {
  }

  lemma CiteDescribes(host: Host, show: Json -> string, fields: seq<Field>)
    requires Shapeable(host, fields)
    ensures Describes(host, show, Cite(host, show, fields), fields)
  {
    var kind, id := Stripped(host, LastField(fields, "object_type"), "document"), IdOf(host, show, fields);
    kind, id := if kind != "" then kind else "document", if id != "" then id else "unknown";
    var title, snippet := Stripped(host, LastField(fields, "title"), "未命名"), Take(Stripped(host, LastField(fields, "snippet"), ""), 500);
    StrippedTells(host, LastField(fields, "object_type"), "document");
    StrippedTells(host, LastField(fields, "title"), "未命名");
    StrippedTells(host, LastField(fields, "snippet"), "");
    assert IdOf(host, show, fields) == Trim(IsPySpace, Named(host, show, fields));
    CoreTells(kind, id, title, snippet, fields);
    forall name | name in EXTRAS ensures LastField(Cite(host, show, fields).fields, name) == LastField(fields, name) {
      ExtraTells(kind, id, title, snippet, fields, name);
    }
  }

  /** The objects among the values given as citations, in order. */
  function ObjectsIn(raw: seq<Json>): seq<seq<Field>> {
    if raw == [] then []
    else
      var last := raw[|raw| - 1];
      ObjectsIn(raw[..|raw| - 1]) + if last.Obj? then [last.fields] else []
  }

  lemma {:induction false} ObjectInFront(first: Json, raw: seq<Json>)
    ensures ObjectsIn([first] + raw) == (if first.Obj? then [first.fields] else []) + ObjectsIn(raw)
  {
    var all := [first] + raw;
    if raw == [] {
      assert all[..0] == [];
    } else {
      assert all[..|raw|] == [first] + raw[..|raw| - 1];
      ObjectInFront(first, raw[..|raw| - 1]);
    }
  }

  /** These describe those objects, one for one and in order. */
  predicate DescribeAll(host: Host, show: Json -> string, cites: seq<Json>, objects: seq<seq<Field>>) {
    |cites| == |objects| && forall i :: 0 <= i < |objects| ==> Describes(host, show, cites[i], objects[i])
  }

  /** The citations that come out describe the objects that were given. */
  lemma {:induction false} CiteAllDescribes(host: Host, show: Json -> string, raw: seq<Json>)
    ensures CiteAll(host, show, raw).Some? ==> DescribeAll(host, show, CiteAll(host, show, raw).value, ObjectsIn(raw))
  {
    if raw != [] {
      CiteAllDescribes(host, show, raw[1..]);
      ObjectInFront(raw[0], raw[1..]);
      assert raw == [raw[0]] + raw[1..];
      if CiteAll(host, show, raw).Some? && raw[0].Obj? {
        CiteDescribes(host, show, raw[0].fields);
        DescribeInFront(host, show, Cite(host, show, raw[0].fields), raw[0].fields, CiteAll(host, show, raw[1..]).value, ObjectsIn(raw[1..]));
      }
    }
  }

  lemma DescribeInFront(host: Host, show: Json -> string, cite: Json, fields: seq<Field>, cites: seq<Json>, objects: seq<seq<Field>>)
    requires Describes(host, show, cite, fields) && DescribeAll(host, show, cites, objects)
    ensures DescribeAll(host, show, [cite] + cites, [fields] + objects)
  {
  }
}
