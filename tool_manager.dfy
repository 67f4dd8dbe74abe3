/** The tool catalogue manager: OpenAI function schemas built from the tool
    registry, the category lookup, the records handed to the vector store, and
    the listing and search operations over the two tables. The operations are
    stated for any registry and category table; the manager object holds the
    constant tables of `EcommerceTools`. The vector store itself is abstracted:
    what it answers for a query is a parameter. */
module ToolManager {
  import opened Wrappers
  import opened Text
  import opened Lists
  import opened EcommerceTools

  /** A tool registry: tool name -> (function, parameter model), in insertion order. */
  type Registry = seq<(string, ToolEntry)>

  /** A category table: category name -> tool names, in insertion order. */
  type Categories = seq<(string, seq<string>)>

  /** `parameters` of an OpenAI function schema. */
  datatype Parameters = Parameters(kind: string, properties: seq<Property>, required: seq<string>)

  /** `function` of an OpenAI function schema. */
  datatype FunctionSpec = FunctionSpec(name: string, description: string, parameters: Parameters)

  /** `{"type": ..., "function": ...}`. */
  datatype OpenAISchema = OpenAISchema(kind: string, fn: FunctionSpec)

  /** The exceptions the manager raises: `KeyError` for a name that is not a
      registry key, `ValueError` for an unknown category (its message lists the
      available categories), `IndexError` for a query answer that has id rows
      but no row of metadatas. */
  datatype ToolError =
    | UnknownTool(name: string)
    | UnknownCategory(category: string, available: seq<string>)
    | NoMetadataRow

  /** The metadata stored beside each document. The schema is stored serialised;
      serialising it and parsing it back are the identity here. */
  datatype Metadata = Metadata(toolName: string, category: string, description: string, schema: OpenAISchema)

  /** What the vector store answers for one query text: a list of id rows and a
      list of metadata rows, one row per query text. */
  datatype QueryResults = QueryResults(ids: seq<seq<string>>, metadatas: seq<seq<Metadata>>)

  /** `get_collection_stats()`. */
  datatype CollectionStats = CollectionStats(totalTools: nat, categories: seq<(string, nat)>, collectionName: string)

  const Uncategorized: string := "uncategorized"

  /** What the manager relies on in its tables: registry keys are unique, and
      every name a category lists is a registry key. */
  predicate TablesWellFormed(reg: Registry, cats: Categories)
  {
    && NoDup(Keys(reg))
    && NoDup(Keys(cats))
    && forall i, t :: 0 <= i < |cats| && t in cats[i].1 ==> t in Keys(reg)
  }

  /** The constant tables are well formed. */
  lemma ConstantTablesWellFormed()
    ensures TablesWellFormed(ToolRegistry, ToolCategories)
  {
    RegistrySize();
    CategorySizes();
    CategoryNamesAreRegistryKeys();
    forall i, t | 0 <= i < |ToolCategories| && t in ToolCategories[i].1 ensures t in Keys(ToolRegistry) {
      assert Find(ToolRegistry, t).Some?;
    }
  }

  /** The schema description: the stripped docstring when there is a non-empty
      docstring, and "Execute <name>" otherwise (an empty docstring is false in
      Python; a docstring of white space only strips to ""). */
  function Description(toolName: string, doc: Option<string>): (r: string)
    ensures doc.Some? && doc.value != "" ==>
      r == Strip(doc.value) && (r == [] || (!IsSpace(r[0]) && !IsSpace(r[|r| - 1])))
    ensures (doc.None? || doc.value == "") ==> r == "Execute " + toolName
  {
    if doc.Some? && doc.value != "" then Strip(doc.value) else "Execute " + toolName
  }

  /** `schema.get("properties", {})`. */
  function PropertiesOf(m: ModelSchema): (r: seq<Property>)
  {
    if m.properties.Some? then m.properties.value else []
  }

  /** `schema.get("required", [])`. */
  function RequiredOf(m: ModelSchema): (r: seq<string>)
  {
    if m.required.Some? then m.required.value else []
  }

  /** The schema built for a registry entry. */
  function SchemaOfEntry(toolName: string, e: ToolEntry): (s: OpenAISchema)
    ensures s.kind == "function" && s.fn.name == toolName
    ensures s.fn.description == Description(toolName, e.doc)
    ensures s.fn.parameters.kind == "object"
    ensures e.model.properties.None? ==> s.fn.parameters.properties == []
    ensures e.model.properties.Some? ==> s.fn.parameters.properties == e.model.properties.value
    ensures e.model.required.None? ==> s.fn.parameters.required == []
    ensures e.model.required.Some? ==> s.fn.parameters.required == e.model.required.value
  {
    OpenAISchema("function", FunctionSpec(toolName, Description(toolName, e.doc),
      Parameters("object", PropertiesOf(e.model), RequiredOf(e.model))))
  }

  /** `convert_to_openai_schema(tool_name, pydantic_model)`: the schema of the
      registry entry for `tool_name`; a name that is not a key raises `KeyError`.
      The model argument is not used: the registry's own model is. */
  function ConvertToOpenAISchema(reg: Registry, toolName: string, pydanticModel: ModelSchema): (r: Result<OpenAISchema, ToolError>)
    ensures r.Failure? <==> toolName !in Keys(reg)
    ensures r.Failure? ==> r.error == UnknownTool(toolName)
    ensures r.Success? ==>
      (r.value.kind == "function" && r.value.fn.name == toolName
       && r.value.fn.parameters.kind == "object"
       && r.value == SchemaOfEntry(toolName, Find(reg, toolName).value))
  {
    match Find(reg, toolName)
    case None => Failure(UnknownTool(toolName))
    case Some(e) => Success(SchemaOfEntry(toolName, e))
  }

  lemma ConvertIgnoresModel(reg: Registry, toolName: string, m1: ModelSchema, m2: ModelSchema)
    ensures ConvertToOpenAISchema(reg, toolName, m1) == ConvertToOpenAISchema(reg, toolName, m2)
  {
  }

  /** With unique keys, converting the tool at position `i` gives the schema of the
      entry at that position. */
  lemma ConvertAt(reg: Registry, i: nat, m: ModelSchema)
    requires NoDup(Keys(reg)) && i < |reg|
    ensures ConvertToOpenAISchema(reg, reg[i].0, m) == Success(SchemaOfEntry(reg[i].0, reg[i].1))
  {
    FindAt(reg, i);
  }

  /** The first category of `cats`, in table order, whose list holds `toolName`. */
  function CategoryIn(cats: Categories, toolName: string): (r: Option<string>)
    ensures r.None? <==> forall i :: 0 <= i < |cats| ==> toolName !in cats[i].1
    ensures r.Some? ==> exists i ::
      (0 <= i < |cats| && cats[i].0 == r.value && toolName in cats[i].1
       && forall j :: 0 <= j < i ==> toolName !in cats[j].1)
  {
    if cats == [] then None
    else if toolName in cats[0].1 then Some(cats[0].0)
    else
      var r := CategoryIn(cats[1..], toolName);
      if r.Some? then
        ghost var i :| 0 <= i < |cats[1..]| && cats[1..][i].0 == r.value && toolName in cats[1..][i].1
          && forall j :: 0 <= j < i ==> toolName !in cats[1..][j].1;
        assert cats[i + 1] == cats[1..][i];
        assert forall j :: 1 <= j < i + 1 ==> cats[j] == cats[1..][j - 1];
        r
      else
        assert forall i :: 1 <= i < |cats| ==> cats[i] == cats[1..][i - 1];
        r
  }

  /** The category `get_tool_category` reports. */
  function CategoryOf(cats: Categories, toolName: string): (r: string)
  {
    match CategoryIn(cats, toolName)
    case None => Uncategorized
    case Some(c) => c
  }

  /** With the constant tables, a registry key is reported under the one category
      that lists it, and "uncategorized" is reported exactly for the names that
      are not registry keys. */
  lemma CategoryOfRegistryKey(toolName: string)
    ensures toolName in Keys(ToolRegistry) ==>
      exists i :: 0 <= i < |ToolCategories| && ToolCategories[i].0 == CategoryOf(ToolCategories, toolName)
        && toolName in ToolCategories[i].1
    ensures toolName in Keys(ToolRegistry) <==> CategoryOf(ToolCategories, toolName) != Uncategorized
  {
    CategoriesPartitionRegistry(toolName);
    CategorySizes();
  }

  /** `search_term.lower() in tool_name.lower()`. */
  predicate NameMatches(toolName: string, term: string)
  {
    Contains(Lower(toolName), Lower(term))
  }

  /** `r` can be obtained from `s` by leaving elements out, keeping the order of
      the rest. */
  predicate Subsequence<T(==)>(r: seq<T>, s: seq<T>)
    decreases |s|
  {
    if r == [] then true
    else if s == [] then false
    else
      (r[|r| - 1] == s[|s| - 1] && Subsequence(r[..|r| - 1], s[..|s| - 1]))
      || Subsequence(r, s[..|s| - 1])
  }

  /** The names of `names` that match `term`, in their order. */
  function Matching(names: seq<string>, term: string): (r: seq<string>)
    ensures forall x :: x in r <==> x in names && NameMatches(x, term)
    ensures Subsequence(r, names)
  {
    if names == [] then []
    else
      var prefix := Matching(names[..|names| - 1], term);
      var last := names[|names| - 1];
      assert names == names[..|names| - 1] + [last];
      if NameMatches(last, term) then
        assert (prefix + [last])[..|prefix + [last]| - 1] == prefix;
        prefix + [last]
      else
        prefix
  }

  /** `convert_to_openai_schema(tool_name, TOOL_REGISTRY[tool_name][1])`, the call
      the listing loops make for each name: indexing the registry raises
      `KeyError` for a name that is not a key. */
  function LookupSchema(reg: Registry, toolName: string): (r: Result<OpenAISchema, ToolError>)
    ensures r.Failure? <==> toolName !in Keys(reg)
    ensures r.Failure? ==> r.error == UnknownTool(toolName)
    ensures r.Success? ==> r.value == SchemaOfEntry(toolName, Find(reg, toolName).value)
  {
    match Find(reg, toolName)
    case None => Failure(UnknownTool(toolName))
    case Some(e) => ConvertToOpenAISchema(reg, toolName, e.model)
  }

  /** `LookupSchema` on a fixed registry, as a function value. */
  function SchemaLookup(reg: Registry): (r: string -> Result<OpenAISchema, ToolError>)
  {
    n => LookupSchema(reg, n)
  }

  /** The schemas of `names` in order; the first name that is not a registry key
      raises `KeyError`. */
  function Collect(reg: Registry, names: seq<string>): (r: Result<seq<OpenAISchema>, ToolError>)
  {
    MapResult(SchemaLookup(reg), names)
  }

  /** `Collect` succeeds exactly when every name is a registry key, and then holds
      the schema of each name's registry entry, in order; otherwise it raises
      `KeyError` for the first name that is not a key. */
  lemma CollectSpec(reg: Registry, names: seq<string>)
    ensures Collect(reg, names).Success? <==> forall i :: 0 <= i < |names| ==> names[i] in Keys(reg)
    ensures Collect(reg, names).Success? ==>
      (|Collect(reg, names).value| == |names|
       && forall i :: 0 <= i < |names| ==>
         Collect(reg, names).value[i] == SchemaOfEntry(names[i], Find(reg, names[i]).value))
    ensures Collect(reg, names).Failure? ==> exists i ::
      (0 <= i < |names| && Collect(reg, names).error == UnknownTool(names[i])
       && names[i] !in Keys(reg) && forall j :: 0 <= j < i ==> names[j] in Keys(reg))
  {
    MapResultSuccess(SchemaLookup(reg), names);
    MapResultFailure(SchemaLookup(reg), names);
    assert forall n :: SchemaLookup(reg)(n) == LookupSchema(reg, n);
  }

  /** One more name: the loops that build the lists append the next schema, or
      raise for the next name and stop there. */
  lemma CollectStep(reg: Registry, names: seq<string>, i: nat, tools: seq<OpenAISchema>)
    requires i < |names| && Collect(reg, names[..i]) == Success(tools)
    ensures LookupSchema(reg, names[i]).Success? ==>
      Collect(reg, names[..i + 1]) == Success(tools + [LookupSchema(reg, names[i]).value])
    ensures LookupSchema(reg, names[i]).Failure? ==>
      Collect(reg, names) == Failure(LookupSchema(reg, names[i]).error)
  {
    assert names[..i + 1][..i] == names[..i];
    if LookupSchema(reg, names[i]).Failure? {
      MapResultFailureStays(SchemaLookup(reg), names, i + 1);
    }
  }

  /** `get_tools_by_category(category)`: `ValueError` for a category that is not in
      the table, otherwise the schemas of its tools in list order. */
  function ToolsByCategory(reg: Registry, cats: Categories, category: string): (r: Result<seq<OpenAISchema>, ToolError>)
    ensures category !in Keys(cats) <==> r == Failure(UnknownCategory(category, Keys(cats)))
    ensures r.Failure? && !r.error.UnknownCategory? ==>
      r.error.UnknownTool? && r.error.name in Find(cats, category).value && r.error.name !in Keys(reg)
  {
    match Find(cats, category)
    case None => Failure(UnknownCategory(category, Keys(cats)))
    case Some(names) => CollectSpec(reg, names); Collect(reg, names)
  }

  /** In well-formed tables every category lists only registry keys, so its listing
      succeeds with one schema per listed name, in list order. */
  lemma ToolsByCategoryListed(reg: Registry, cats: Categories, i: nat)
    requires TablesWellFormed(reg, cats) && i < |cats|
    ensures ToolsByCategory(reg, cats, cats[i].0).Success?
    ensures |ToolsByCategory(reg, cats, cats[i].0).value| == |cats[i].1|
    ensures forall k :: 0 <= k < |cats[i].1| ==>
      ToolsByCategory(reg, cats, cats[i].0).value[k].fn.name == cats[i].1[k]
  {
    FindAt(cats, i);
    var names := cats[i].1;
    assert forall k :: 0 <= k < |names| ==> names[k] in names;
    CollectSpec(reg, names);
  }

  /** With the constant tables, the five category listings have 15, 15, 15, 13
      and 12 schemas. */
  lemma ToolsByCategoryCounts()
    ensures forall i :: 0 <= i < |ToolCategories| ==>
      ToolsByCategory(ToolRegistry, ToolCategories, ToolCategories[i].0).Success?
      && |ToolsByCategory(ToolRegistry, ToolCategories, ToolCategories[i].0).value| == |ToolCategories[i].1|
  {
    ConstantTablesWellFormed();
    forall i | 0 <= i < |ToolCategories|
      ensures ToolsByCategory(ToolRegistry, ToolCategories, ToolCategories[i].0).Success?
      && |ToolsByCategory(ToolRegistry, ToolCategories, ToolCategories[i].0).value| == |ToolCategories[i].1|
    {
      ToolsByCategoryListed(ToolRegistry, ToolCategories, i);
    }
  }

  /** Listing every registry key succeeds, with one schema per entry named after
      its key, and with duplicate-free keys the schema of that very entry. */
  lemma CollectKeys(reg: Registry)
    ensures Collect(reg, Keys(reg)).Success?
    ensures |Collect(reg, Keys(reg)).value| == |reg|
    ensures forall i :: 0 <= i < |reg| ==> Collect(reg, Keys(reg)).value[i].fn.name == reg[i].0
    ensures NoDup(Keys(reg)) ==>
      forall i :: 0 <= i < |reg| ==> Collect(reg, Keys(reg)).value[i] == SchemaOfEntry(reg[i].0, reg[i].1)
  {
    assert forall i :: 0 <= i < |reg| ==> Keys(reg)[i] in Keys(reg);
    CollectSpec(reg, Keys(reg));
    if NoDup(Keys(reg)) {
      forall i | 0 <= i < |reg| ensures Collect(reg, Keys(reg)).value[i] == SchemaOfEntry(reg[i].0, reg[i].1) {
        FindAt(reg, i);
      }
    }
  }

  /** `get_all_tools()`: one schema per registry key, in registry order. */
  function AllTools(reg: Registry): (r: seq<OpenAISchema>)
    ensures Collect(reg, Keys(reg)) == Success(r)
    ensures |r| == |reg|
    ensures forall i :: 0 <= i < |r| ==> r[i].fn.name == reg[i].0
    ensures NoDup(Keys(reg)) ==> forall i :: 0 <= i < |r| ==> r[i] == SchemaOfEntry(reg[i].0, reg[i].1)
  {
    CollectKeys(reg);
    Collect(reg, Keys(reg)).value
  }

  /** `search_tools_by_name(term)`: the schemas of the registry keys that match, in
      registry order. */
  function SearchByName(reg: Registry, term: string): (r: seq<OpenAISchema>)
    ensures Collect(reg, Matching(Keys(reg), term)) == Success(r)
    ensures |r| == |Matching(Keys(reg), term)| <= |reg|
    ensures forall i :: 0 <= i < |r| ==> r[i].fn.name == Matching(Keys(reg), term)[i]
  {
    var names := Matching(Keys(reg), term);
    assert forall i :: 0 <= i < |names| ==> names[i] in names;
    SubsequenceLength(names, Keys(reg));
    CollectSpec(reg, names);
    Collect(reg, names).value
  }

  lemma {:induction false} SubsequenceLength<T>(r: seq<T>, s: seq<T>)
    requires Subsequence(r, s)
    ensures |r| <= |s|
    decreases |s|
  {
    if r != [] {
      if r[|r| - 1] == s[|s| - 1] && Subsequence(r[..|r| - 1], s[..|s| - 1]) {
        SubsequenceLength(r[..|r| - 1], s[..|s| - 1]);
      } else {
        SubsequenceLength(r, s[..|s| - 1]);
      }
    }
  }

  /** A name is among the search results exactly when it is a registry key whose
      lower-cased form contains the lower-cased term. */
  lemma SearchByNameMembership(reg: Registry, term: string, toolName: string)
    ensures (exists i :: 0 <= i < |SearchByName(reg, term)| && SearchByName(reg, term)[i].fn.name == toolName)
      <==> toolName in Keys(reg) && NameMatches(toolName, term)
  {
    var names := Matching(Keys(reg), term);
    var r := SearchByName(reg, term);
    if toolName in names {
      var i :| 0 <= i < |names| && names[i] == toolName;
      assert r[i].fn.name == toolName;
    }
  }

  /** For the term "inventory" the name search matches "update_inventory". */
  lemma SearchInventoryMatches()
    ensures NameMatches("update_inventory", "inventory")
  {
    assert Lower("update_inventory") == "update_inventory";
    assert Lower("inventory") == "inventory";
    assert OccursAt("inventory", "update_inventory", 7);
    ContainsIff("update_inventory", "inventory");
  }

  /** For the term "inventory" the name search does not match "check_stock",
      whose name does not contain the term. */
  lemma SearchInventorySkipsCheckStock()
    ensures !NameMatches("check_stock", "inventory")
  {
    var hay, term := "check_stock", "inventory";
    assert Lower(hay) == hay;
    assert Lower(term) == term;
    SkipMismatch(hay, term);
    SkipMismatch(hay[1..], term);
    SkipMismatch(hay[2..], term);
    assert hay[2..][1..] == hay[3..];
    ShorterMisses(hay[3..], term);
  }

  /** `{param}: {description}` for one parameter, the description being "" when the
      parameter has none. */
  function ParamDescription(p: Property): (r: string)
    ensures |r| >= |p.name| + 2 && r[..|p.name| + 2] == p.name + ": "
    ensures p.description.None? ==> r == p.name + ": "
    ensures p.description.Some? ==> r[|p.name| + 2..] == p.description.value
  {
    p.name + ": " + (if p.description.Some? then p.description.value else "")
  }

  function ParamDescriptions(props: seq<Property>): (r: seq<string>)
    ensures |r| == |props|
    ensures forall i :: 0 <= i < |props| ==> props[i].name + ": " <= r[i]
  {
    seq(|props|, i requires 0 <= i < |props| => ParamDescription(props[i]))
  }

  /** The text embedded for a tool:
      `"{name}. {description}. Parameters: {p1: d1, p2: d2, ...}"`. */
  function SearchableText(toolName: string, s: OpenAISchema): (r: string)
    ensures |r| == |toolName| + |s.fn.description| + 16
      + TotalLength(ParamDescriptions(s.fn.parameters.properties))
      + if s.fn.parameters.properties == [] then 0 else 2 * (|s.fn.parameters.properties| - 1)
    ensures toolName + ". " + s.fn.description + ". Parameters: " <= r
    ensures r[|toolName| + |s.fn.description| + 16..] == Join(", ", ParamDescriptions(s.fn.parameters.properties))
  {
    var parts := ParamDescriptions(s.fn.parameters.properties);
    JoinLength(", ", parts);
    var head := toolName + ". " + s.fn.description + ". Parameters: ";
    head + Join(", ", parts)
  }

  /** A schema with one more parameter `p`. */
  function WithParam(s: OpenAISchema, p: Property): (r: OpenAISchema)
  {
    s.(fn := s.fn.(parameters := s.fn.parameters.(properties := s.fn.parameters.properties + [p])))
  }

  /** The descriptions of one more parameter are those of the others followed by its own. */
  lemma ParamDescriptionsSnoc(props: seq<Property>, p: Property)
    ensures ParamDescriptions(props + [p]) == ParamDescriptions(props) + [ParamDescription(p)]
  {
    var ps, r := props + [p], ParamDescriptions(props) + [ParamDescription(p)];
    assert forall i :: 0 <= i < |ps| ==> ParamDescriptions(ps)[i] == r[i];
  }

  /** One more parameter adds its `{param}: {description}` at the end of the
      embedded text, after a ", " unless it is the first parameter. */
  lemma SearchableTextWithParam(toolName: string, s: OpenAISchema, p: Property)
    ensures SearchableText(toolName, WithParam(s, p))
      == SearchableText(toolName, s) + (if s.fn.parameters.properties == [] then "" else ", ") + ParamDescription(p)
  {
    var props, d := s.fn.parameters.properties, ParamDescription(p);
    var parts, head := ParamDescriptions(props), toolName + ". " + s.fn.description + ". Parameters: ";
    ParamDescriptionsSnoc(props, p);
    JoinSnoc(", ", parts, d);
    AppendAssoc(head, Join(", ", parts), if props == [] then "" else ", ", d);
  }

  /** The metadata stored for a tool. */
  function MetadataOf(cats: Categories, toolName: string, s: OpenAISchema): (r: Metadata)
  {
    Metadata(toolName, CategoryOf(cats, toolName), s.fn.description, s)
  }

  /** The tools `retrieve_relevant_tools` returns for what the store answered:
      nothing when there are no id rows, `IndexError` when there are id rows but no
      metadata row, and otherwise the stored schemas of the first metadata row, in
      result order. */
  function RelevantTools(results: QueryResults): (r: Result<seq<OpenAISchema>, ToolError>)
    ensures results.ids == [] ==> r == Success([])
    ensures results.ids != [] && results.metadatas == [] ==> r == Failure(NoMetadataRow)
    ensures results.ids != [] && results.metadatas != [] ==>
      (r.Success? && |r.value| == |results.metadatas[0]|
       && forall i :: 0 <= i < |r.value| ==> r.value[i] == results.metadatas[0][i].schema)
  {
    if results.ids == [] then Success([])
    else if results.metadatas == [] then Failure(NoMetadataRow)
    else Success(seq(|results.metadatas[0]|, i requires 0 <= i < |results.metadatas[0]| =>
      results.metadatas[0][i].schema))
  }

  /** The per-category counts of `get_collection_stats`. */
  function CategoryCounts(cats: Categories): (r: seq<(string, nat)>)
    ensures Keys(r) == Keys(cats)
    ensures forall i :: 0 <= i < |r| ==> r[i].1 == |cats[i].1|
  {
    seq(|cats|, i requires 0 <= i < |cats| => (cats[i].0, |cats[i].1|))
  }

  function Sum(counts: seq<(string, nat)>): (r: nat)
  {
    if counts == [] then 0 else counts[0].1 + Sum(counts[1..])
  }

  /** With the constant tables the per-category counts add up to the 70 tools of
      the registry. */
  lemma CategoryCountsTotal()
    ensures Sum(CategoryCounts(ToolCategories)) == |ToolRegistry| == 70
  {
    var c: seq<(string, nat)> := CategoryCounts(ToolCategories);
    CategorySizes();
    RegistrySize();
    assert |c[4..][1..]| == 0;
    assert c[3..][1..] == c[4..];
    assert c[2..][1..] == c[3..];
    assert c[1..][1..] == c[2..];
    assert Sum(c[4..]) == 12;
    assert Sum(c[3..]) == 25;
    assert Sum(c[2..]) == 40;
    assert Sum(c[1..]) == 55;
  }

  class ToolManager {
    /** The name of the collection the tools are stored in. */
    const collectionName: string
    /** The registry and the category table the manager reads. */
    const registry: Registry
    const categories: Categories

    constructor (collectionName: string)
      ensures this.collectionName == collectionName
      ensures registry == ToolRegistry && categories == ToolCategories
    {
      this.collectionName := collectionName;
      registry := ToolRegistry;
      categories := ToolCategories;
    }

    /** `get_tool_category(tool_name)`: scans the category table in order and
        stops at the first list holding the name. */
    method GetToolCategory(toolName: string) returns (category: string)
      ensures category == CategoryOf(categories, toolName)
    {
      var i := 0;
      while i < |categories|
        invariant 0 <= i <= |categories|
        invariant CategoryIn(categories[i..], toolName) == CategoryIn(categories, toolName)
      {
        if toolName in categories[i].1 {
          return categories[i].0;
        }
        assert categories[i..][1..] == categories[i + 1..];
        i := i + 1;
      }
      return Uncategorized;
    }

    /** The body of the loop of `add_tools_to_chromadb` for one tool: its
        searchable text and its metadata. */
    method BuildDocument(toolName: string, schema: OpenAISchema) returns (text: string, metadata: Metadata)
      ensures text == SearchableText(toolName, schema)
      ensures metadata == MetadataOf(categories, toolName, schema)
    {
      var description := schema.fn.description;
      var params := schema.fn.parameters.properties;
      var paramDescriptions := BuildParamDescriptions(params);
      text := toolName + ". " + description + ". Parameters: " + Join(", ", paramDescriptions);
      var category := GetToolCategory(toolName);
      metadata := Metadata(toolName, category, description, schema);
    }

    /** The head of the loop of `add_tools_to_chromadb` for the `i`-th registry
        key: the key and the schema `get_all_tools` lists for it. */
    method NextTool(i: nat, ghost schemas: seq<OpenAISchema>) returns (toolName: string, schema: OpenAISchema)
      requires i < |registry| && Collect(registry, Keys(registry)[..i]) == Success(schemas)
      ensures toolName == Keys(registry)[i]
      ensures Keys(registry)[..i + 1] == Keys(registry)[..i] + [toolName]
      ensures Collect(registry, Keys(registry)[..i + 1]) == Success(schemas + [schema])
    {
      toolName := registry[i].0;
      assert Keys(registry)[i] == toolName;
      TakeSnoc(Keys(registry), i);
      var entry := Find(registry, toolName);
      schema := ConvertToOpenAISchema(registry, toolName, entry.value.model).value;
      CollectStep(registry, Keys(registry), i, schemas);
    }

    /** `add_tools_to_chromadb()`: the documents, metadatas and ids handed to the
        store in one batch, and their number. */
    method AddToolsToChromadb() returns (documents: seq<string>, metadatas: seq<Metadata>, ids: seq<string>, count: nat)
      ensures ids == Keys(registry)
      ensures count == |documents| == |metadatas| == |ids| == |registry|
      ensures forall i :: 0 <= i < count ==>
        documents[i] == SearchableText(ids[i], AllTools(registry)[i])
        && metadatas[i] == MetadataOf(categories, ids[i], AllTools(registry)[i])
    {
      documents, metadatas, ids := [], [], [];
      ghost var schemas: seq<OpenAISchema> := [];
      var i := 0;
      while i < |registry|
        invariant 0 <= i <= |registry|
        invariant |documents| == |metadatas| == |ids| == |schemas| == i
        invariant ids == Keys(registry)[..i]
        invariant Collect(registry, Keys(registry)[..i]) == Success(schemas)
        invariant forall k :: 0 <= k < i ==>
          documents[k] == SearchableText(ids[k], schemas[k]) && metadatas[k] == MetadataOf(categories, ids[k], schemas[k])
      {
        var toolName, schema := NextTool(i, schemas);
        var text, metadata := BuildDocument(toolName, schema);
        documents := documents + [text];
        metadatas := metadatas + [metadata];
        ids := ids + [toolName];
        schemas := schemas + [schema];
        i := i + 1;
      }
      assert Keys(registry)[..i] == Keys(registry);
      count := |documents|;
    }

    /** The inner loop of `add_tools_to_chromadb`: one `{param}: {description}`
        per parameter, in order. */
    method BuildParamDescriptions(params: seq<Property>) returns (paramDescriptions: seq<string>)
      ensures paramDescriptions == ParamDescriptions(params)
    {
      paramDescriptions := [];
      var j := 0;
      while j < |params|
        invariant 0 <= j <= |params|
        invariant paramDescriptions == ParamDescriptions(params)[..j]
      {
        assert ParamDescriptions(params)[..j + 1] == ParamDescriptions(params)[..j] + [ParamDescription(params[j])];
        paramDescriptions := paramDescriptions + [ParamDescription(params[j])];
        j := j + 1;
      }
    }

    /** `retrieve_relevant_tools(query, n_results)`: unpacks what the store answered
        (the query text and the number of results are passed to the store only). */
    method RetrieveRelevantTools(results: QueryResults) returns (r: Result<seq<OpenAISchema>, ToolError>)
      ensures r == RelevantTools(results)
    {
      var relevantTools := [];
      if |results.ids| > 0 {
        if |results.metadatas| == 0 {
          return Failure(NoMetadataRow);
        }
        var row := results.metadatas[0];
        var i := 0;
        while i < |row|
          invariant 0 <= i <= |row|
          invariant |relevantTools| == i
          invariant forall k :: 0 <= k < i ==> relevantTools[k] == row[k].schema
        {
          relevantTools := relevantTools + [row[i].schema];
          i := i + 1;
        }
        assert relevantTools == RelevantTools(results).value;
      }
      return Success(relevantTools);
    }

    /** `get_tools_by_category(category)`. */
    method GetToolsByCategory(category: string) returns (r: Result<seq<OpenAISchema>, ToolError>)
      ensures r == ToolsByCategory(registry, categories, category)
    {
      var found := Find(categories, category);
      if found.None? {
        return Failure(UnknownCategory(category, Keys(categories)));
      }
      var toolNames := found.value;
      var tools := [];
      var i := 0;
      while i < |toolNames|
        invariant 0 <= i <= |toolNames|
        invariant Collect(registry, toolNames[..i]) == Success(tools)
      {
        CollectStep(registry, toolNames, i, tools);
        var entry := Find(registry, toolNames[i]);
        if entry.None? {
          return Failure(UnknownTool(toolNames[i]));
        }
        var schema := ConvertToOpenAISchema(registry, toolNames[i], entry.value.model);
        tools := tools + [schema.value];
        i := i + 1;
      }
      assert toolNames[..i] == toolNames;
      return Success(tools);
    }

    /** `get_all_tools()`. */
    method GetAllTools() returns (tools: seq<OpenAISchema>)
      ensures tools == AllTools(registry)
    {
      tools := [];
      var i := 0;
      while i < |registry|
        invariant 0 <= i <= |registry|
        invariant Collect(registry, Keys(registry)[..i]) == Success(tools)
      {
        var toolName := registry[i].0;
        assert Keys(registry)[i] == toolName;
        CollectStep(registry, Keys(registry), i, tools);
        var entry := Find(registry, toolName);
        var schema := ConvertToOpenAISchema(registry, toolName, entry.value.model);
        tools := tools + [schema.value];
        i := i + 1;
      }
      assert Keys(registry)[..i] == Keys(registry);
    }

    /** `search_tools_by_name(search_term)`. */
    method SearchToolsByName(searchTerm: string) returns (matchingTools: seq<OpenAISchema>)
      ensures matchingTools == SearchByName(registry, searchTerm)
    {
      var term := Lower(searchTerm);
      matchingTools := [];
      var i := 0;
      while i < |registry|
        invariant 0 <= i <= |registry|
        invariant Collect(registry, Matching(Keys(registry[..i]), searchTerm)) == Success(matchingTools)
      {
        var toolName := registry[i].0;
        assert registry[..i + 1] == registry[..i] + [registry[i]];
        KeysConcat(registry[..i], [registry[i]]);
        ghost var names := Keys(registry[..i + 1]);
        assert names[..|names| - 1] == Keys(registry[..i]) && names[|names| - 1] == toolName;
        assert toolName in Keys(registry);
        if Contains(Lower(toolName), term) {
          var entry := Find(registry, toolName);
          var schema := ConvertToOpenAISchema(registry, toolName, entry.value.model);
          ghost var m := Matching(names, searchTerm);
          assert m[..|m| - 1] == Matching(Keys(registry[..i]), searchTerm) && m[|m| - 1] == toolName;
          assert SchemaLookup(registry)(toolName) == schema;
          matchingTools := matchingTools + [schema.value];
        }
        i := i + 1;
      }
      assert registry[..i] == registry;
    }

    /** `get_collection_stats()`, given the number of documents the store holds. */
    function GetCollectionStats(storedCount: nat): (s: CollectionStats)
      ensures s.totalTools == storedCount && s.collectionName == collectionName
      ensures Keys(s.categories) == Keys(categories)
      ensures forall i :: 0 <= i < |s.categories| ==> s.categories[i].1 == |categories[i].1|
    {
      CollectionStats(storedCount, CategoryCounts(categories), collectionName)
    }
  }
}
