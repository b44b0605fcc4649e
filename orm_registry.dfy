/** The model metadata registry of orm/HW_select/model: parsing `orm:"k=v,..."`
    struct tags, CamelCase to snake_case names, table-name selection and the
    per-type model cache. A Go type is given by an abstract description: its
    reflect kind chain, its name, its fields (name and the value of the `orm`
    tag key) and what its TableName() method returns, if it has one. */
module OrmRegistry {
  import opened Wrappers
  import opened OrmErrors
  import opened GoStrings

  /** field{ColName}: the column a Go field maps to. */
  datatype Field = Field(colName: string)

  /** Model{TableName, FieldMap}: FieldMap is keyed by the Go field name. */
  datatype Model = Model(tableName: string, fieldMap: map<string, Field>)

  /** The reflect.Kind of a type, following pointers to their element type. */
  datatype Kind = Pointer(elem: Kind) | Struct | MapKind | SliceKind | Basic

  /** One struct field: its Go name and `tag.Get("orm")` ("" when absent). */
  datatype StructField = StructField(name: string, ormTag: string)

  /** An entity's type: kind, the struct's type name, its fields in declaration
      order, and the result of TableName() when the entity implements it. */
  datatype EntityType = EntityType(kind: Kind, name: string, fields: seq<StructField>,
                                   tableName: Option<string>)

  /** Option: a functional option applied to a freshly parsed model. */
  type ModelOption = Model -> Result<Model, OrmError>

  const TagKeyColumn: string := "column"

  // ---------------------------------------------------------------- names

  predicate IsUpper(c: char) { 'A' <= c <= 'Z' }

  function ToLower(c: char): char
  {
    if IsUpper(c) then (c as int + 32) as char else c
  }

  /** What underlineName appends for the character c at index i. A character
      outside ASCII is copied whole here, where Go appends only its low byte. */
  function Piece(i: nat, c: char): string
  {
    if IsUpper(c) then (if i != 0 then "_" else "") + [ToLower(c)] else [c]
  }

  /** underlineName as a specification: the pieces of every character in order. */
  function Underlined(s: string): string
    decreases |s|
  {
    if s == [] then [] else Underlined(s[..|s| - 1]) + Piece(|s| - 1, s[|s| - 1])
  }

  /** underlineName: lower-case each upper-case letter and put `_` before it
      unless it is the first character; copy everything else. */
  method UnderlineName(field: string) returns (r: string)
    ensures r == Underlined(field)
  {
    r := "";
    var i := 0;
    while i < |field|
      invariant 0 <= i <= |field|
      invariant r == Underlined(field[..i])
    {
      assert field[..i + 1][..i] == field[..i];
      r := r + Piece(i, field[i]);
      i := i + 1;
    }
    assert field[..|field|] == field;
  }

  function Lowered(s: string): string
    decreases |s|
  {
    if s == [] then [] else Lowered(s[..|s| - 1]) + [ToLower(s[|s| - 1])]
  }

  function WithoutUnderscores(s: string): string
    decreases |s|
  {
    if s == [] then []
    else WithoutUnderscores(s[..|s| - 1]) + (if s[|s| - 1] == '_' then "" else [s[|s| - 1]])
  }

  lemma {:induction false} WithoutUnderscoresConcat(a: string, b: string)
    ensures WithoutUnderscores(a + b) == WithoutUnderscores(a) + WithoutUnderscores(b)
    decreases |b|
  {
    if b == [] {
      assert a + b == a;
    } else {
      assert (a + b)[..|a + b| - 1] == a + b[..|b| - 1];
      WithoutUnderscoresConcat(a, b[..|b| - 1]);
    }
  }

  /** Dropping the inserted underscores from underlineName's result gives the
      lower-cased name back, for names without underscores of their own. */
  lemma {:induction false} UnderlinedIsLoweredWithSeparators(s: string)
    requires '_' !in s
    ensures WithoutUnderscores(Underlined(s)) == Lowered(s)
    decreases |s|
  {
    if s != [] {
      var init, c := s[..|s| - 1], s[|s| - 1];
      assert '_' !in init by {
        forall j | 0 <= j < |init| ensures init[j] != '_' { assert init[j] == s[j]; }
      }
      assert c != '_' by { assert c == s[|s| - 1]; }
      UnderlinedIsLoweredWithSeparators(init);
      WithoutUnderscoresConcat(Underlined(init), Piece(|s| - 1, c));
      if IsUpper(c) {
        var sep := if |s| - 1 != 0 then "_" else "";
        WithoutUnderscoresConcat(sep, [ToLower(c)]);
        assert WithoutUnderscores(sep) == "" by {
          if sep == "_" { assert WithoutUnderscores(sep) == WithoutUnderscores([]) + ""; }
        }
        assert WithoutUnderscores([ToLower(c)]) == WithoutUnderscores([]) + [ToLower(c)];
      } else {
        assert WithoutUnderscores([c]) == WithoutUnderscores([]) + [c];
      }
    }
  }

  /** underlineName never leaves an upper-case letter behind. */
  lemma {:induction false} UnderlinedHasNoUpper(s: string)
    ensures forall j :: 0 <= j < |Underlined(s)| ==> !IsUpper(Underlined(s)[j])
    decreases |s|
  {
    if s != [] {
      UnderlinedHasNoUpper(s[..|s| - 1]);
    }
  }

  function UpperAfterFirst(s: string): nat
    decreases |s|
  {
    if |s| <= 1 then 0 else UpperAfterFirst(s[..|s| - 1]) + (if IsUpper(s[|s| - 1]) then 1 else 0)
  }

  /** The result is longer than the name by one `_` per upper-case letter after
      the first character. */
  lemma {:induction false} UnderlinedLength(s: string)
    ensures |Underlined(s)| == |s| + UpperAfterFirst(s)
    decreases |s|
  {
    if s != [] {
      UnderlinedLength(s[..|s| - 1]);
    }
  }

  /** The pinned examples: "ID" becomes "i_d", "Table1Name" becomes "table1_name". */
  lemma IdUnderlined()
    ensures Underlined("ID") == "i_d"
  {
    assert "ID"[..1] == "I";
    assert "I"[..0] == "";
  }

  lemma Table1NameUnderlined()
    ensures Underlined("Table1Name") == "table1_name"
  {
    var t := "Table1Name";
    assert t[..9] == "Table1Nam";
    assert "Table1Nam"[..8] == "Table1Na";
    assert "Table1Na"[..7] == "Table1N";
    assert "Table1N"[..6] == "Table1";
    assert "Table1"[..5] == "Table";
    assert "Table"[..4] == "Tabl";
    assert "Tabl"[..3] == "Tab";
    assert "Tab"[..2] == "Ta";
    assert "Ta"[..1] == "T";
    assert "T"[..0] == "";
  }

  lemma TestModelUnderlined()
    ensures Underlined("TestModel") == "test_model"
  {
    var m := "TestModel";
    assert m[..8] == "TestMode";
    assert "TestMode"[..7] == "TestMod";
    assert "TestMod"[..6] == "TestMo";
    assert "TestMo"[..5] == "TestM";
    assert "TestM"[..4] == "Test";
    assert "Test"[..3] == "Tes";
    assert "Tes"[..2] == "Te";
    assert "Te"[..1] == "T";
  }

  lemma FirstNameUnderlined()
    ensures Underlined("FirstName") == "first_name"
  {
    var f := "FirstName";
    assert f[..8] == "FirstNam";
    assert "FirstNam"[..7] == "FirstNa";
    assert "FirstNa"[..6] == "FirstN";
    assert "FirstN"[..5] == "First";
    assert "First"[..4] == "Firs";
    assert "Firs"[..3] == "Fir";
    assert "Fir"[..2] == "Fi";
    assert "Fi"[..1] == "F";
  }

  // ---------------------------------------------------------------- tags

  /** The map parseTag builds from the comma-separated pairs, folding left to
      right; the first pair that is not exactly `key=value` is the error. */
  function TagMap(pairs: seq<string>): Result<map<string, string>, OrmError>
    decreases |pairs|
  {
    if pairs == [] then Success(map[])
    else
      var last := pairs[|pairs| - 1];
      match TagMap(pairs[..|pairs| - 1])
      case Failure(e) => Failure(e)
      case Success(m) =>
        var kv := Split(last, '=');
        if |kv| != 2 then Failure(InvalidTagContent(last)) else Success(m[kv[0] := kv[1]])
  }

  /** parseTag as a specification: an absent or empty tag gives the empty map. */
  function TagSpec(ormTag: string): Result<map<string, string>, OrmError>
  {
    if ormTag == "" then Success(map[]) else TagMap(Split(ormTag, ','))
  }

  /** Once a prefix of the pairs fails, the whole tag fails with that error. */
  lemma {:induction false} TagMapFailureSticks(pairs: seq<string>, i: nat)
    requires i <= |pairs|
    requires TagMap(pairs[..i]).Failure?
    ensures TagMap(pairs) == TagMap(pairs[..i])
    decreases |pairs| - i
  {
    if i < |pairs| {
      assert pairs[..i + 1][..i] == pairs[..i];
      TagMapFailureSticks(pairs, i + 1);
    } else {
      assert pairs[..i] == pairs;
    }
  }

  /** parseTag: split on `,`, each pair on `=`; exactly two parts or an error. */
  method ParseTag(ormTag: string) returns (r: Result<map<string, string>, OrmError>)
    ensures r == TagSpec(ormTag)
  {
    if ormTag == "" {
      return Success(map[]);
    }
    var ret: map<string, string> := map[];
    var pairs := Split(ormTag, ',');
    var i := 0;
    while i < |pairs|
      invariant 0 <= i <= |pairs|
      invariant TagMap(pairs[..i]) == Success(ret)
    {
      assert pairs[..i + 1][..i] == pairs[..i];
      var kv := Split(pairs[i], '=');
      if |kv| != 2 {
        TagMapFailureSticks(pairs, i + 1);
        return Failure(InvalidTagContent(pairs[i]));
      }
      ret := ret[kv[0] := kv[1]];
      i := i + 1;
    }
    assert pairs[..|pairs|] == pairs;
    return Success(ret);
  }

  /** A pair is well formed when it holds exactly one `=`. */
  predicate WellFormedPair(pair: string)
  {
    |Split(pair, '=')| == 2
  }

  /** The tag parses exactly when every pair is well formed; otherwise the
      error names the first malformed pair. */
  lemma {:induction false} TagMapOutcome(pairs: seq<string>)
    ensures TagMap(pairs).Success? <==> forall i :: 0 <= i < |pairs| ==> WellFormedPair(pairs[i])
    ensures TagMap(pairs).Failure? ==>
              exists i :: 0 <= i < |pairs| && !WellFormedPair(pairs[i])
                          && TagMap(pairs).error == InvalidTagContent(pairs[i])
                          && forall j :: 0 <= j < i ==> WellFormedPair(pairs[j])
    decreases |pairs|
  {
    if pairs != [] {
      var init := pairs[..|pairs| - 1];
      TagMapOutcome(init);
      assert forall i :: 0 <= i < |init| ==> init[i] == pairs[i];
    }
  }

  function Key(pair: string): string { Split(pair, '=')[0] }

  function Val(pair: string): string
    requires WellFormedPair(pair)
  {
    Split(pair, '=')[1]
  }

  /** A parsed tag holds exactly the keys of its pairs, and a key repeated in
      several pairs keeps the value of the last one. */
  lemma {:induction false} TagMapLookup(pairs: seq<string>, k: string)
    requires TagMap(pairs).Success?
    ensures forall i :: 0 <= i < |pairs| ==> WellFormedPair(pairs[i])
    ensures k in TagMap(pairs).value <==> exists i :: 0 <= i < |pairs| && Key(pairs[i]) == k
    ensures k in TagMap(pairs).value ==>
              exists i :: 0 <= i < |pairs| && Key(pairs[i]) == k && Val(pairs[i]) == TagMap(pairs).value[k]
                          && forall j :: i < j < |pairs| ==> Key(pairs[j]) != k
    decreases |pairs|
  {
    TagMapOutcome(pairs);
    if pairs != [] {
      var n := |pairs| - 1;
      var init := pairs[..n];
      assert forall i :: 0 <= i < |init| ==> init[i] == pairs[i];
      TagMapLookup(init, k);
      var m := TagMap(init).value;
      assert TagMap(pairs).value == m[Key(pairs[n]) := Val(pairs[n])];
      if Key(pairs[n]) != k && k in m {
        var i :| 0 <= i < |init| && Key(init[i]) == k && Val(init[i]) == m[k]
                 && forall j :: i < j < |init| ==> Key(init[j]) != k;
        assert Key(pairs[i]) == k && Val(pairs[i]) == TagMap(pairs).value[k];
      }
    }
  }

  // ---------------------------------------------------------------- models

  /** The column a field maps to: the tag's non-empty `column` value, else the
      snake_case field name. Other tag keys play no part. */
  function ColumnName(tags: map<string, string>, name: string): string
  {
    if TagKeyColumn in tags && tags[TagKeyColumn] != "" then tags[TagKeyColumn] else Underlined(name)
  }

  lemma ColumnNameIgnoresOtherKeys(tags: map<string, string>, k: string, v: string, name: string)
    requires k != TagKeyColumn
    ensures ColumnName(tags[k := v], name) == ColumnName(tags, name)
  {
  }

  /** parseModel's field loop: one entry per field, keyed by the Go name. */
  function FieldsSpec(fs: seq<StructField>): Result<map<string, Field>, OrmError>
    decreases |fs|
  {
    if fs == [] then Success(map[])
    else
      var f := fs[|fs| - 1];
      match FieldsSpec(fs[..|fs| - 1])
      case Failure(e) => Failure(e)
      case Success(m) =>
        match TagSpec(f.ormTag)
        case Failure(e) => Failure(e)
        case Success(tags) => Success(m[f.name := Field(ColumnName(tags, f.name))])
  }

  lemma {:induction false} FieldsSpecFailureSticks(fs: seq<StructField>, i: nat)
    requires i <= |fs|
    requires FieldsSpec(fs[..i]).Failure?
    ensures FieldsSpec(fs) == FieldsSpec(fs[..i])
    decreases |fs| - i
  {
    if i < |fs| {
      assert fs[..i + 1][..i] == fs[..i];
      FieldsSpecFailureSticks(fs, i + 1);
    } else {
      assert fs[..i] == fs;
    }
  }

  /** The table name: TableName() when implemented and non-empty, else the
      snake_case type name. */
  function TableNameOf(t: EntityType): string
  {
    if t.tableName.Some? && t.tableName.value != "" then t.tableName.value else Underlined(t.name)
  }

  /** parseModel as a specification. */
  function ParseModelSpec(t: EntityType): Result<Model, OrmError>
  {
    if t.kind != Pointer(Struct) then Failure(PointerOnly)
    else
      match FieldsSpec(t.fields)
      case Failure(e) => Failure(e)
      case Success(fm) => Success(Model(TableNameOf(t), fm))
  }

  /** parseModel: only a one-level pointer to a struct is accepted. */
  method ParseModel(t: EntityType) returns (r: Result<Model, OrmError>)
    ensures r == ParseModelSpec(t)
  {
    if t.kind != Pointer(Struct) {
      return Failure(PointerOnly);
    }
    var fields: map<string, Field> := map[];
    var i := 0;
    while i < |t.fields|
      invariant 0 <= i <= |t.fields|
      invariant FieldsSpec(t.fields[..i]) == Success(fields)
    {
      var f := t.fields[i];
      assert t.fields[..i + 1][..i] == t.fields[..i];
      var tags := ParseTag(f.ormTag);
      if tags.Failure? {
        FieldsSpecFailureSticks(t.fields, i + 1);
        return Failure(tags.error);
      }
      var colName := if TagKeyColumn in tags.value then tags.value[TagKeyColumn] else "";
      if colName == "" {
        colName := UnderlineName(f.name);
      }
      fields := fields[f.name := Field(colName)];
      i := i + 1;
    }
    assert t.fields[..|t.fields|] == t.fields;
    var tableName := "";
    if t.tableName.Some? {
      tableName := t.tableName.value;
    }
    if tableName == "" {
      tableName := UnderlineName(t.name);
    }
    return Success(Model(tableName, fields));
  }

  predicate DistinctNames(fs: seq<StructField>)
  {
    forall i, j :: 0 <= i < j < |fs| ==> fs[i].name != fs[j].name
  }

  /** A struct's fields parse exactly when every field's tag parses. */
  lemma {:induction false} FieldsSpecOutcome(fs: seq<StructField>)
    ensures FieldsSpec(fs).Success? <==> forall i :: 0 <= i < |fs| ==> TagSpec(fs[i].ormTag).Success?
    decreases |fs|
  {
    if fs != [] {
      var init := fs[..|fs| - 1];
      assert forall i :: 0 <= i < |init| ==> init[i] == fs[i];
      FieldsSpecOutcome(init);
    }
  }

  function Names(fs: seq<StructField>): set<string>
  {
    set i | 0 <= i < |fs| :: fs[i].name
  }

  /** The parsed field map has exactly one key per Go field name. */
  lemma {:induction false} FieldsSpecKeys(fs: seq<StructField>)
    requires FieldsSpec(fs).Success?
    ensures FieldsSpec(fs).value.Keys == Names(fs)
    decreases |fs|
  {
    if fs != [] {
      var n := |fs| - 1;
      var init := fs[..n];
      var f := fs[n];
      var m := FieldsSpec(init).value;
      var tags := TagSpec(f.ormTag).value;
      assert FieldsSpec(fs).value == m[f.name := Field(ColumnName(tags, f.name))];
      FieldsSpecKeys(init);
      NamesSnoc(fs);
    }
  }

  /** The names of a list of fields: those of all but the last, and the last one's. */
  lemma NamesSnoc(fs: seq<StructField>)
    requires fs != []
    ensures Names(fs) == Names(fs[..|fs| - 1]) + {fs[|fs| - 1].name}
  {
    var n := |fs| - 1;
    var init := fs[..n];
    forall x | x in Names(fs) ensures x in Names(init) + {fs[n].name}
    {
      var i :| 0 <= i < |fs| && fs[i].name == x;
      if i < n { assert init[i].name == x; }
    }
    forall x | x in Names(init) ensures x in Names(fs)
    {
      var i :| 0 <= i < |init| && init[i].name == x;
      assert fs[i].name == x;
    }
  }

  /** With distinct field names, each field's entry holds its column name. */
  lemma {:induction false} FieldsSpecValues(fs: seq<StructField>, i: nat)
    requires DistinctNames(fs)
    requires FieldsSpec(fs).Success?
    requires i < |fs|
    ensures TagSpec(fs[i].ormTag).Success?
    ensures fs[i].name in FieldsSpec(fs).value
    ensures FieldsSpec(fs).value[fs[i].name] == Field(ColumnName(TagSpec(fs[i].ormTag).value, fs[i].name))
    decreases |fs|
  {
    var n := |fs| - 1;
    var init := fs[..n];
    if i < n {
      assert init[i] == fs[i];
      assert DistinctNames(init);
      FieldsSpecValues(init, i);
      assert fs[i].name != fs[n].name;
    }
  }

  /** Only a one-level pointer to a struct parses; a struct value, a pointer to
      a pointer, a map, a slice or a basic value is ErrPointerOnly. */
  lemma ParseModelPointerOnly(t: EntityType)
    ensures t.kind != Pointer(Struct) ==> ParseModelSpec(t) == Failure(PointerOnly)
    ensures ParseModelSpec(t).Success? ==> t.kind == Pointer(Struct)
    ensures ParseModelSpec(t).Success? ==> ParseModelSpec(t).value.tableName == TableNameOf(t)
  {
  }

  /** `key=value` with neither side holding `=` splits into exactly those two. */
  lemma SplitPair(k: string, v: string)
    requires '=' !in k && '=' !in v
    ensures Split(k + "=" + v, '=') == [k, v]
  {
    var parts := [k, v];
    assert Join(parts, '=') == k + "=" + v by {
      assert parts[1..] == [v];
    }
    SplitJoin(parts, '=');
  }

  /** A tag holding one `key=value` pair gives the map of that one key. */
  lemma {:induction false} TagSingle(k: string, v: string)
    requires '=' !in k && '=' !in v && ',' !in k && ',' !in v
    ensures TagSpec(k + "=" + v) == Success(map[k := v])
  {
    var pair := k + "=" + v;
    assert pair != "" by { assert |pair| == |k| + 1 + |v|; }
    assert ',' !in pair;
    SplitWithoutSep(pair, ',');
    SplitPair(k, v);
    var pairs := [pair];
    assert pairs[..0] == [];
    assert TagMap(pairs[..0]) == Success(map[]);
  }

  /** `column=id` names the column. */
  lemma TagColumnExample()
    ensures TagSpec("column=id") == Success(map["column" := "id"])
  {
    assert "column=id" == "column" + "=" + "id";
    TagSingle("column", "id");
  }

  /** A bare `column` is rejected, and the error names the pair. */
  lemma TagInvalidExample()
    ensures TagSpec("column") == Failure(InvalidTagContent("column"))
  {
    SplitWithoutSep("column", '=');
    SplitWithoutSep("column", ',');
    var pairs := ["column"];
    assert pairs[..0] == [];
  }

  /** An unknown key is kept in the map but does not name the column. */
  lemma TagIgnoredExample()
    ensures TagSpec("abc=abc") == Success(map["abc" := "abc"])
    ensures ColumnName(TagSpec("abc=abc").value, "FirstName") == "first_name"
  {
    assert "abc=abc" == "abc" + "=" + "abc";
    TagSingle("abc", "abc");
    FirstNameUnderlined();
  }

  // ---------------------------------------------------------------- registry

  /** Options applied in order; the first failing one aborts. */
  function ApplyOptions(m: Model, opts: seq<ModelOption>): Result<Model, OrmError>
    decreases |opts|
  {
    if opts == [] then Success(m)
    else
      match ApplyOptions(m, opts[..|opts| - 1])
      case Failure(e) => Failure(e)
      case Success(m') => opts[|opts| - 1](m')
  }

  lemma {:induction false} ApplyOptionsFailureSticks(m: Model, opts: seq<ModelOption>, i: nat)
    requires i <= |opts|
    requires ApplyOptions(m, opts[..i]).Failure?
    ensures ApplyOptions(m, opts) == ApplyOptions(m, opts[..i])
    decreases |opts| - i
  {
    if i < |opts| {
      assert opts[..i + 1][..i] == opts[..i];
      ApplyOptionsFailureSticks(m, opts, i + 1);
    } else {
      assert opts[..i] == opts;
    }
  }

  function RegisterSpec(t: EntityType, opts: seq<ModelOption>): Result<Model, OrmError>
  {
    match ParseModelSpec(t)
    case Failure(e) => Failure(e)
    case Success(m) => ApplyOptions(m, opts)
  }

  /** registry: the models parsed so far, keyed by the entity's type. */
  class Registry {
    var models: map<EntityType, Model>

    constructor ()
      ensures models == map[]
    {
      models := map[];
    }

    /** Register: parse, apply the options in order, store on success only. */
    method Register(entity: EntityType, opts: seq<ModelOption>) returns (r: Result<Model, OrmError>)
      modifies this
      ensures r == RegisterSpec(entity, opts)
      ensures models == if r.Success? then old(models)[entity := r.value] else old(models)
    {
      var parsed := ParseModel(entity);
      if parsed.Failure? {
        return Failure(parsed.error);
      }
      var model := parsed.value;
      var i := 0;
      while i < |opts|
        invariant 0 <= i <= |opts|
        invariant models == old(models)
        invariant ApplyOptions(parsed.value, opts[..i]) == Success(model)
      {
        assert opts[..i + 1][..i] == opts[..i];
        var res := opts[i](model);
        if res.Failure? {
          ApplyOptionsFailureSticks(parsed.value, opts, i + 1);
          return Failure(res.error);
        }
        model := res.value;
        i := i + 1;
      }
      assert opts[..|opts|] == opts;
      models := models[entity := model];
      return Success(model);
    }

    /** Get: the cached model of an already registered type, else Register it
        with no options. */
    method Get(entity: EntityType) returns (r: Result<Model, OrmError>)
      modifies this
      ensures entity in old(models) ==> r == Success(old(models)[entity]) && models == old(models)
      ensures entity !in old(models) ==> r == ParseModelSpec(entity)
      ensures entity !in old(models) ==>
                models == if r.Success? then old(models)[entity := r.value] else old(models)
    {
      if entity in models {
        return Success(models[entity]);
      }
      r := Register(entity, []);
    }
  }

  /** Once Get has succeeded for a type, the next Get hands back the same model. */
  method GetTwice(reg: Registry, entity: EntityType) returns (first: Result<Model, OrmError>, second: Result<Model, OrmError>)
    modifies reg
    ensures first.Success? ==> second == first
  {
    first := reg.Get(entity);
    second := reg.Get(entity);
  }
}
